/**
 * Length statistics: minimum, maximum and mean of a column of lengths, the lengths of one
 * gene type, the `groupby(...).agg(['mean', 'min', 'max', 'count'])` table sorted by count,
 * and the per-type statistics list that the sequence-length figure builds in a loop.
 * Means are exact reals standing in for pandas' floating-point means.
 */
module Stats {
  import opened Wrappers
  import opened Counting
  import opened Arith

  function Sum(xs: seq<nat>): nat
  {
    if xs == [] then 0 else xs[0] + Sum(xs[1..])
  }

  /** `series.min()` of a non-empty column. */
  function Min(xs: seq<nat>): (m: nat)
    requires xs != []
    ensures m in xs && forall k :: 0 <= k < |xs| ==> m <= xs[k]
  {
    if |xs| == 1 then xs[0]
    else
      var m := Min(xs[1..]);
      if xs[0] <= m then xs[0] else m
  }

  /** `series.max()` of a non-empty column. */
  function Max(xs: seq<nat>): (m: nat)
    requires xs != []
    ensures m in xs && forall k :: 0 <= k < |xs| ==> xs[k] <= m
  {
    if |xs| == 1 then xs[0]
    else
      var m := Max(xs[1..]);
      if xs[0] >= m then xs[0] else m
  }

  /** `series.mean()` of a non-empty column, as an exact real. */
  function Mean(xs: seq<nat>): real
    requires xs != []
  {
    Sum(xs) as real / |xs| as real
  }

  lemma {:induction false} SumBounds(xs: seq<nat>, lo: nat, hi: nat)
    requires forall k :: 0 <= k < |xs| ==> lo <= xs[k] <= hi
    ensures |xs| * lo <= Sum(xs) <= |xs| * hi
  {
    if xs != [] {
      SumBounds(xs[1..], lo, hi);
      Succ(|xs[1..]|, lo);
      Succ(|xs[1..]|, hi);
    }
  }

  /** Bounds on every element bound the mean. */
  lemma MeanWithin(xs: seq<nat>, lo: nat, hi: nat)
    requires xs != [] && forall k :: 0 <= k < |xs| ==> lo <= xs[k] <= hi
    ensures lo as real <= Mean(xs) <= hi as real
  {
    SumBounds(xs, lo, hi);
    AverageWithin(Sum(xs), |xs|, lo, hi);
  }

  /** The mean lies between the minimum and the maximum. */
  lemma MeanBetween(xs: seq<nat>)
    requires xs != []
    ensures Min(xs) as real <= Mean(xs) <= Max(xs) as real
  {
    MeanWithin(xs, Min(xs), Max(xs));
  }

  /** Minimum, maximum and mean of a column, as the report prints them. */
  datatype LengthStats = LengthStats(min: nat, max: nat, mean: real)

  /** `min()`, `max()` and `mean()` of a length column. An empty column has none (pandas
      gives NaN for all three). */
  function Describe(xs: seq<nat>): (d: Option<LengthStats>)
    ensures d.Some? <==> xs != []
    ensures d.Some? ==> d.value.min in xs && d.value.max in xs
    ensures d.Some? ==> forall k :: 0 <= k < |xs| ==> d.value.min <= xs[k] <= d.value.max
    ensures d.Some? ==> d.value.mean == Mean(xs)
    ensures d.Some? ==> d.value.min as real <= d.value.mean <= d.value.max as real
  {
    if xs == [] then None
    else
      MeanBetween(xs);
      Some(LengthStats(Min(xs), Max(xs), Mean(xs)))
  }

  // ---------------------------------------------------------------- groups

  /** The type column with the type of every row whose length is not `x` blanked out. */
  function OfLength(types: Cells, lengths: seq<nat>, x: nat): (col: Cells)
    requires |types| == |lengths|
    ensures |col| == |types|
    ensures forall k :: 0 <= k < |types| ==> col[k] == if lengths[k] == x then types[k] else None
  {
    seq(|types|, k requires 0 <= k < |types| => if lengths[k] == x then types[k] else None)
  }

  /** `df[df['GeneType'] == g]['seq_length']`: the lengths of the rows of type `g`, in row
      order. A missing type equals no `g`. Each length occurs as often as there are rows of
      type `g` with that length. */
  function GroupLengths(types: Cells, lengths: seq<nat>, g: string): (xs: seq<nat>)
    requires |types| == |lengths|
    ensures |xs| == Occurrences(types, g)
    ensures forall k :: 0 <= k < |types| && types[k] == Some(g) ==> lengths[k] in xs
    ensures forall x :: x in xs ==> exists k :: 0 <= k < |types| && types[k] == Some(g) && lengths[k] == x
    ensures forall x: nat :: multiset(xs)[x] == Occurrences(OfLength(types, lengths, x), g)
  {
    if types == [] then []
    else
      var head: seq<nat> := if types[0] == Some(g) then [lengths[0]] else [];
      var rest := GroupLengths(types[1..], lengths[1..], g);
      GroupLengthsStep(types, lengths, g, head, rest);
      head + rest
  }

  /** The step of `GroupLengths`: the first row's length, if the row has type `g`, followed by
      the group's lengths in the other rows, is the group's lengths in all rows. */
  lemma GroupLengthsStep(types: Cells, lengths: seq<nat>, g: string, head: seq<nat>, rest: seq<nat>)
    requires 0 < |types| == |lengths|
    requires head == if types[0] == Some(g) then [lengths[0]] else []
    requires |rest| == Occurrences(types[1..], g)
    requires forall x :: x in rest ==> exists k :: 0 <= k < |types[1..]| && types[1..][k] == Some(g) && lengths[1..][k] == x
    requires forall x: nat :: multiset(rest)[x] == Occurrences(OfLength(types[1..], lengths[1..], x), g)
    ensures forall x :: x in head + rest ==> exists k :: 0 <= k < |types| && types[k] == Some(g) && lengths[k] == x
    ensures forall x: nat :: multiset(head + rest)[x] == Occurrences(OfLength(types, lengths, x), g)
  {
    assert multiset(head + rest) == multiset(head) + multiset(rest);
    forall x | x in head + rest
      ensures exists k :: 0 <= k < |types| && types[k] == Some(g) && lengths[k] == x
    {
      if x in rest {
        var k :| 0 <= k < |types[1..]| && types[1..][k] == Some(g) && lengths[1..][k] == x;
        assert types[k + 1] == Some(g) && lengths[k + 1] == x;
      } else {
        assert types[0] == Some(g) && lengths[0] == x;
      }
    }
    forall x: nat ensures multiset(head + rest)[x] == Occurrences(OfLength(types, lengths, x), g) {
      OfLengthStep(types, lengths, x, g);
    }
  }

  /** Counting the rows of type `g` and length `x`: the first row, then the others. */
  lemma OfLengthStep(types: Cells, lengths: seq<nat>, x: nat, g: string)
    requires 0 < |types| == |lengths|
    ensures Occurrences(OfLength(types, lengths, x), g)
      == (if types[0] == Some(g) && lengths[0] == x then 1 else 0) + Occurrences(OfLength(types[1..], lengths[1..], x), g)
  {
    assert OfLength(types, lengths, x)[1..] == OfLength(types[1..], lengths[1..], x);
  }

  /** A row of the grouped length table: the type and `mean`, `min`, `max`, `count`. */
  datatype GroupRow = GroupRow(geneType: string, mean: real, min: nat, max: nat, count: nat)

  /** `row` describes the group of its type: its row count, the smallest and largest length
      in the group, and the group's mean, which lies between the two. */
  ghost predicate Summarises(types: Cells, lengths: seq<nat>, row: GroupRow)
    requires |types| == |lengths|
  {
    var xs := GroupLengths(types, lengths, row.geneType);
    && row.count == Occurrences(types, row.geneType) > 0
    && row.min in xs && row.max in xs
    && (forall k :: 0 <= k < |xs| ==> row.min <= xs[k] <= row.max)
    && row.mean == Mean(xs)
    && row.min as real <= row.mean <= row.max as real
  }

  function Row(types: Cells, lengths: seq<nat>, e: (string, nat)): (row: GroupRow)
    requires |types| == |lengths| && e.1 == Occurrences(types, e.0) && e.1 > 0
    ensures row.geneType == e.0 && row.count == e.1
    ensures Summarises(types, lengths, row)
  {
    var xs := GroupLengths(types, lengths, e.0);
    MeanBetween(xs);
    GroupRow(e.0, Mean(xs), Min(xs), Max(xs), |xs|)
  }

  /**
   * `df.groupby('GeneType')['seq_length'].agg(['mean', 'min', 'max', 'count'])
   * .sort_values('count', ascending=False)`: one row per gene type that occurs (missing types
   * form no group), with its number of rows, the smallest and largest length in the group and
   * a mean between them, largest groups first.
   */
  function GroupedTable(types: Cells, lengths: seq<nat>): (rows: seq<GroupRow>)
    requires |types| == |lengths|
    ensures |rows| == NUnique(types)
    ensures forall i :: 0 <= i < |rows| ==> Summarises(types, lengths, rows[i])
    ensures forall i, j :: 0 <= i < j < |rows| ==> rows[i].geneType != rows[j].geneType
    ensures forall i, j :: 0 <= i < j < |rows| ==> rows[i].count >= rows[j].count
    ensures forall k :: 0 <= k < |types| && types[k].Some? ==>
      exists i :: 0 <= i < |rows| && rows[i].geneType == types[k].value
  {
    var vc := ValueCounts(types);
    var rows := Rows(types, lengths, vc);
    GroupedRowsFollowCounts(types, lengths, vc, rows);
    rows
  }

  /** One grouped row per `value_counts()` entry, in the same order. */
  function Rows(types: Cells, lengths: seq<nat>, vc: Counts): (rows: seq<GroupRow>)
    requires |types| == |lengths| && IsValueCounts(types, vc)
    ensures |rows| == |vc|
    ensures forall i :: 0 <= i < |vc| ==> rows[i].geneType == vc[i].0 && rows[i].count == vc[i].1
    ensures forall i :: 0 <= i < |rows| ==> Summarises(types, lengths, rows[i])
  {
    seq(|vc|, i requires 0 <= i < |vc| => Row(types, lengths, vc[i]))
  }

  lemma GroupedRowsFollowCounts(types: Cells, lengths: seq<nat>, vc: Counts, rows: seq<GroupRow>)
    requires |types| == |lengths| && IsValueCounts(types, vc)
    requires |rows| == |vc|
    requires forall i :: 0 <= i < |vc| ==> rows[i].geneType == vc[i].0 && rows[i].count == vc[i].1
    ensures |rows| == NUnique(types)
    ensures forall i, j :: 0 <= i < j < |rows| ==> rows[i].geneType != rows[j].geneType
    ensures forall i, j :: 0 <= i < j < |rows| ==> rows[i].count >= rows[j].count
    ensures forall k :: 0 <= k < |types| && types[k].Some? ==>
      exists i :: 0 <= i < |rows| && rows[i].geneType == types[k].value
  {
    ValueCountsLength(types, vc);
    forall k | 0 <= k < |types| && types[k].Some?
      ensures exists i :: 0 <= i < |rows| && rows[i].geneType == types[k].value
    {
      var i :| 0 <= i < |vc| && Keys(vc)[i] == types[k].value;
      assert rows[i].geneType == types[k].value;
    }
  }

  // ---------------------------------------------------------------- per-type statistics list

  /** One entry of the per-type statistics list: the type and the mean length of its rows. */
  datatype TypeStat = TypeStat(geneType: string, mean: real)

  /** The types of `order` that have rows, in the order given. */
  function TypesWithRows(order: seq<string>, types: Cells): (present: seq<string>)
    ensures forall t :: t in present <==> t in order && Some(t) in types
    ensures |present| <= |order|
  {
    if order == [] then []
    else
      var last := order[|order| - 1];
      var init := TypesWithRows(order[..|order| - 1], types);
      assert forall t :: t in order <==> t in order[..|order| - 1] || t == last;
      if Some(last) in types then init + [last] else init
  }

  function TypeNames(stats: seq<TypeStat>): (names: seq<string>)
    ensures |names| == |stats| && forall i :: 0 <= i < |stats| ==> names[i] == stats[i].geneType
  {
    seq(|stats|, i requires 0 <= i < |stats| => stats[i].geneType)
  }

  lemma TypesWithRowsStep(order: seq<string>, n: nat, types: Cells)
    requires n < |order|
    ensures TypesWithRows(order[..n + 1], types)
         == TypesWithRows(order[..n], types) + (if Some(order[n]) in types then [order[n]] else [])
  {
    assert order[..n + 1][..n] == order[..n];
  }

  lemma AppendName(stats: seq<TypeStat>, e: TypeStat)
    ensures TypeNames(stats + [e]) == TypeNames(stats) + [e.geneType]
  {
  }

  /**
   * The loop over `valid_types` that appends a statistics entry for each type that has at
   * least one row: the entries name exactly the listed types that occur, in list order, and
   * each carries the mean length of its (non-empty) group.
   */
  method TypeStats(types: Cells, lengths: seq<nat>, order: seq<string>) returns (stats: seq<TypeStat>)
    requires |types| == |lengths|
    ensures TypeNames(stats) == TypesWithRows(order, types)
    ensures forall i :: 0 <= i < |stats| ==>
      var xs := GroupLengths(types, lengths, stats[i].geneType);
      xs != [] && stats[i].mean == Mean(xs)
  {
    stats := [];
    var n := 0;
    while n < |order|
      invariant n <= |order|
      invariant TypeNames(stats) == TypesWithRows(order[..n], types)
      invariant forall i :: 0 <= i < |stats| ==>
        var xs := GroupLengths(types, lengths, stats[i].geneType);
        xs != [] && stats[i].mean == Mean(xs)
    {
      var t := order[n];
      TypesWithRowsStep(order, n, types);
      var xs := GroupLengths(types, lengths, t);
      if |xs| > 0 {
        AppendName(stats, TypeStat(t, Mean(xs)));
        stats := stats + [TypeStat(t, Mean(xs))];
      }
      n := n + 1;
    }
    assert order[..n] == order;
  }
}
