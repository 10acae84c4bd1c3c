/**
 * Counting over table columns: occurrences, missing/non-missing counts, `value_counts()`
 * (specified by `IsValueCounts`, which fixes no order among equal counts), the allow-list
 * filter `isin`, the `.get(t, 0)` lookup, percentages over a denominator, and the
 * distinct-value sets behind `nunique`, `unique` and the leakage overlaps.
 */
module Counting {
  import opened Wrappers
  import opened Arith

  /** A table column: one optional string per row. */
  type Cells = seq<Option<string>>

  /** A `value_counts()` result: (value, count) pairs, most frequent first. */
  type Counts = seq<(string, nat)>

  // ---------------------------------------------------------------- per-value counts

  /** `(col == v).sum()`: the number of rows holding `v`. */
  function Occurrences(col: Cells, v: string): (n: nat)
    ensures n <= |col|
    ensures n > 0 <==> Some(v) in col
  {
    if col == [] then 0 else (if col[0] == Some(v) then 1 else 0) + Occurrences(col[1..], v)
  }

  lemma {:induction false} OccurrencesConcat(a: Cells, b: Cells, v: string)
    ensures Occurrences(a + b, v) == Occurrences(a, v) + Occurrences(b, v)
  {
    if a != [] {
      assert (a + b)[0] == a[0];
      assert (a + b)[1..] == a[1..] + b;
      OccurrencesConcat(a[1..], b, v);
    } else {
      assert a + b == b;
    }
  }

  /** `notna().sum()`. */
  function NonMissing(col: Cells): (n: nat)
    ensures n <= |col|
    ensures n == |col| <==> forall k :: 0 <= k < |col| ==> col[k].Some?
  {
    if col == [] then 0 else (if col[0].Some? then 1 else 0) + NonMissing(col[1..])
  }

  /** `isna().sum()`: together with `notna().sum()` it accounts for every row. */
  function Missing(col: Cells): (n: nat)
    ensures n + NonMissing(col) == |col|
  {
    if col == [] then 0 else (if col[0].None? then 1 else 0) + Missing(col[1..])
  }

  // ---------------------------------------------------------------- distinct values

  /** The distinct non-missing values of a column (the set behind `unique()` and `nunique()`). */
  function PresentValues(col: Cells): set<string>
  {
    set k | 0 <= k < |col| && col[k].Some? :: col[k].value
  }

  /** `nunique()`: distinct non-missing values, never more than the non-missing rows. */
  function NUnique(col: Cells): (n: nat)
    ensures n <= NonMissing(col)
  {
    PresentValuesBound(col);
    |PresentValues(col)|
  }

  lemma {:induction false} PresentValuesBound(col: Cells)
    ensures |PresentValues(col)| <= NonMissing(col)
  {
    if col != [] {
      PresentValuesBound(col[1..]);
      var tail := PresentValues(col[1..]);
      if col[0].Some? {
        assert PresentValues(col) <= tail + {col[0].value} by {
          forall v | v in PresentValues(col) ensures v in tail + {col[0].value} {
            var k :| 0 <= k < |col| && col[k].Some? && col[k].value == v;
            if k > 0 { assert col[1..][k - 1] == col[k]; }
          }
        }
        SubsetCard(PresentValues(col), tail + {col[0].value});
      } else {
        assert PresentValues(col) <= tail by {
          forall v | v in PresentValues(col) ensures v in tail {
            var k :| 0 <= k < |col| && col[k].Some? && col[k].value == v;
            assert col[1..][k - 1] == col[k];
          }
        }
        SubsetCard(PresentValues(col), tail);
      }
    }
  }

  lemma SubsetCard<T>(a: set<T>, b: set<T>)
    requires a <= b
    ensures |a| <= |b|
  {
    assert b == a + (b - a);
  }

  /** The elements of a sequence without repetitions are as many as its length. */
  lemma {:induction false} DistinctSeqCard(ks: seq<string>)
    requires forall i, j :: 0 <= i < j < |ks| ==> ks[i] != ks[j]
    ensures |set k | k in ks| == |ks|
  {
    if ks != [] {
      var tail := ks[1..];
      DistinctSeqCard(tail);
      assert (set k | k in ks) == (set k | k in tail) + {ks[0]};
      assert ks[0] !in tail;
    }
  }

  /** A sequence never has more distinct elements than its length. */
  lemma {:induction false} SeqSetCard(ks: seq<string>)
    ensures |set k | k in ks| <= |ks|
  {
    if ks != [] {
      var tail := ks[1..];
      SeqSetCard(tail);
      assert (set k | k in ks) == (set k | k in tail) + {ks[0]};
    }
  }

  // ---------------------------------------------------------------- value_counts

  function Keys(r: Counts): (ks: seq<string>)
    ensures |ks| == |r| && forall i :: 0 <= i < |r| ==> ks[i] == r[i].0
  {
    seq(|r|, i requires 0 <= i < |r| => r[i].0)
  }

  ghost predicate DistinctKeys(r: Counts)
  {
    forall i, j :: 0 <= i < j < |r| ==> r[i].0 != r[j].0
  }

  ghost predicate NonIncreasing(r: Counts)
  {
    forall i, j :: 0 <= i < j < |r| ==> r[i].1 >= r[j].1
  }

  /**
   * `r` is a valid `col.value_counts()`: one entry per distinct non-missing value, holding its
   * number of rows (so at least 1), most frequent first. Missing values are dropped, as
   * pandas' default `dropna=True` does. The order among equal counts is left open.
   */
  ghost predicate IsValueCounts(col: Cells, r: Counts)
  {
    && DistinctKeys(r)
    && NonIncreasing(r)
    && (forall i :: 0 <= i < |r| ==> r[i].1 == Occurrences(col, r[i].0) && r[i].1 > 0)
    && (forall k :: 0 <= k < |col| && col[k].Some? ==> col[k].value in Keys(r))
  }

  /** The distinct non-missing values of a column, in order of first appearance. */
  function FirstAppearances(col: Cells): (d: seq<string>)
    ensures forall i, j :: 0 <= i < j < |d| ==> d[i] != d[j]
    ensures forall v :: v in d <==> Some(v) in col
  {
    if col == [] then []
    else
      var init := col[..|col| - 1];
      assert col == init + [col[|col| - 1]];
      var d := FirstAppearances(init);
      match col[|col| - 1]
      case None => d
      case Some(v) => if v in d then d else d + [v]
  }

  /** Places one entry before the first entry with a count not above its own. */
  function Insert(x: (string, nat), s: Counts): (r: Counts)
    requires NonIncreasing(s)
    ensures multiset(r) == multiset(s) + multiset{x}
    ensures NonIncreasing(r)
  {
    if s == [] || x.1 >= s[0].1 then
      [x] + s
    else
      var rest := Insert(x, s[1..]);
      assert s == [s[0]] + s[1..];
      BelowHead(x, s, rest);
      assert multiset([s[0]] + rest) == multiset{s[0]} + multiset(rest);
      [s[0]] + rest
  }

  /** Every entry of a rearrangement of `x` and the tail of `s` has a count within the head's,
      so the head followed by that rearrangement is still in order. */
  lemma BelowHead(x: (string, nat), s: Counts, rest: Counts)
    requires NonIncreasing(s) && s != [] && x.1 < s[0].1
    requires multiset(rest) == multiset(s[1..]) + multiset{x} && NonIncreasing(rest)
    ensures NonIncreasing([s[0]] + rest)
  {
    forall j | 0 <= j < |rest| ensures rest[j].1 <= s[0].1 {
      assert rest[j] in multiset(rest);
      if rest[j] != x {
        assert rest[j] in multiset(s[1..]);
        assert rest[j] in s[1..];
      }
    }
    var r := [s[0]] + rest;
    forall i, j | 0 <= i < j < |r| ensures r[i].1 >= r[j].1 {
      if i > 0 {
        assert r[i] == rest[i - 1] && r[j] == rest[j - 1];
      }
    }
  }

  /** Entries that are distinct by key stay so: a multiset of entries with distinct keys
      cannot be arranged with a repeated key. */
  lemma DistinctKeysPermutation(s: Counts, r: Counts)
    requires multiset(r) == multiset(s) && DistinctKeys(s)
    ensures DistinctKeys(r)
  {
    forall i, j | 0 <= i < j < |r| ensures r[i].0 != r[j].0 {
      if r[i].0 == r[j].0 {
        assert r[i] in multiset(s) && r[j] in multiset(s);
        var i' :| 0 <= i' < |s| && s[i'] == r[i];
        var j' :| 0 <= j' < |s| && s[j'] == r[j];
        if r[i] == r[j] {
          assert multiset(r)[r[i]] >= 2 by {
            assert r == r[..i] + [r[i]] + r[i + 1..j] + [r[j]] + r[j + 1..];
          }
          Unique(s, i');
        }
      }
    }
  }

  /** In a sequence with distinct keys, an entry occurs once. */
  lemma {:induction false} Unique(s: Counts, i: nat)
    requires i < |s| && DistinctKeys(s)
    ensures multiset(s)[s[i]] == 1
  {
    if i == 0 {
      assert s == [s[0]] + s[1..];
      assert s[0] !in s[1..];
    } else {
      assert s == [s[0]] + s[1..];
      assert s[1..][i - 1] == s[i];
      Unique(s[1..], i - 1);
    }
  }

  /** Insertion sort on counts, most frequent first. */
  function SortByCount(s: Counts): (r: Counts)
    ensures multiset(r) == multiset(s) && NonIncreasing(r)
  {
    if s == [] then []
    else
      assert s == [s[0]] + s[1..];
      Insert(s[0], SortByCount(s[1..]))
  }

  /** Each distinct value with its number of rows, in order of first appearance. */
  function Tally(col: Cells): (t: Counts)
    ensures DistinctKeys(t)
    ensures forall i :: 0 <= i < |t| ==> t[i].1 == Occurrences(col, t[i].0) && t[i].1 > 0
    ensures forall k :: 0 <= k < |col| && col[k].Some? ==> (col[k].value, Occurrences(col, col[k].value)) in t
  {
    var d := FirstAppearances(col);
    var t := seq(|d|, i requires 0 <= i < |d| => (d[i], Occurrences(col, d[i])));
    assert forall k :: 0 <= k < |col| && col[k].Some? ==> (col[k].value, Occurrences(col, col[k].value)) in t by {
      forall k | 0 <= k < |col| && col[k].Some? ensures (col[k].value, Occurrences(col, col[k].value)) in t {
        var v := col[k].value;
        assert Some(v) in col;
        var i :| 0 <= i < |d| && d[i] == v;
        assert t[i] == (v, Occurrences(col, v));
      }
    }
    t
  }

  /** `col.value_counts()`: one of the results `IsValueCounts` allows. */
  function ValueCounts(col: Cells): (r: Counts)
    ensures IsValueCounts(col, r)
  {
    var t := Tally(col);
    var r := SortByCount(t);
    SortedTallyIsValueCounts(col, t, r);
    r
  }

  lemma SortedTallyIsValueCounts(col: Cells, t: Counts, r: Counts)
    requires t == Tally(col)
    requires multiset(r) == multiset(t) && NonIncreasing(r)
    ensures IsValueCounts(col, r)
  {
    DistinctKeysPermutation(t, r);
    forall i | 0 <= i < |r| ensures r[i].1 == Occurrences(col, r[i].0) && r[i].1 > 0 {
      assert r[i] in multiset(t);
    }
    forall k | 0 <= k < |col| && col[k].Some? ensures col[k].value in Keys(r) {
      var e := (col[k].value, Occurrences(col, col[k].value));
      assert e in multiset(r);
      var j :| 0 <= j < |r| && r[j] == e;
      assert Keys(r)[j] == col[k].value;
    }
  }

  /** The counts of a value-count table, added up. */
  function SumCounts(r: Counts): nat
  {
    if r == [] then 0 else r[0].1 + SumCounts(r[1..])
  }

  /** The rows of `col` holding some value of `ks`, counted once per listed value. */
  function SumOccurrences(ks: seq<string>, col: Cells): nat
  {
    if ks == [] then 0 else Occurrences(col, ks[0]) + SumOccurrences(ks[1..], col)
  }

  /** How many times `v` is listed in `ks`. */
  function Hits(ks: seq<string>, v: string): nat
  {
    if ks == [] then 0 else (if ks[0] == v then 1 else 0) + Hits(ks[1..], v)
  }

  lemma {:induction false} HitsDistinct(ks: seq<string>, v: string)
    requires forall i, j :: 0 <= i < j < |ks| ==> ks[i] != ks[j]
    ensures Hits(ks, v) == if v in ks then 1 else 0
  {
    if ks != [] {
      HitsDistinct(ks[1..], v);
      if ks[0] == v {
        assert v !in ks[1..];
      } else {
        assert v in ks <==> v in ks[1..];
      }
    }
  }

  lemma {:induction false} SumOccurrencesNoRows(ks: seq<string>)
    ensures SumOccurrences(ks, []) == 0
  {
    if ks != [] {
      SumOccurrencesNoRows(ks[1..]);
    }
  }

  lemma {:induction false} SumOccurrencesCons(ks: seq<string>, x: Option<string>, rest: Cells)
    ensures SumOccurrences(ks, [x] + rest)
            == SumOccurrences(ks, rest) + (if x.Some? then Hits(ks, x.value) else 0)
  {
    if ks != [] {
      SumOccurrencesCons(ks[1..], x, rest);
      assert ([x] + rest)[1..] == rest;
    }
  }

  /** Counting every listed value once covers each non-missing row exactly once, provided
      the list has no repetition and names every value that occurs. */
  lemma {:induction false} SumOccurrencesCovering(ks: seq<string>, col: Cells)
    requires forall i, j :: 0 <= i < j < |ks| ==> ks[i] != ks[j]
    requires forall k :: 0 <= k < |col| && col[k].Some? ==> col[k].value in ks
    ensures SumOccurrences(ks, col) == NonMissing(col)
  {
    if col == [] {
      SumOccurrencesNoRows(ks);
    } else {
      var rest := col[1..];
      assert col == [col[0]] + rest;
      assert forall k :: 0 <= k < |rest| && rest[k].Some? ==> rest[k].value in ks by {
        forall k | 0 <= k < |rest| && rest[k].Some? ensures rest[k].value in ks {
          assert rest[k] == col[k + 1];
        }
      }
      SumOccurrencesCovering(ks, rest);
      SumOccurrencesCons(ks, col[0], rest);
      if col[0].Some? {
        HitsDistinct(ks, col[0].value);
      }
    }
  }

  lemma {:induction false} SumCountsByKeys(col: Cells, r: Counts)
    requires forall i :: 0 <= i < |r| ==> r[i].1 == Occurrences(col, r[i].0)
    ensures SumCounts(r) == SumOccurrences(Keys(r), col)
  {
    if r != [] {
      assert Keys(r)[1..] == Keys(r[1..]);
      SumCountsByKeys(col, r[1..]);
    }
  }

  /** The counts of `value_counts()` add up to the number of non-missing rows. */
  lemma ValueCountsSum(col: Cells, r: Counts)
    requires IsValueCounts(col, r)
    ensures SumCounts(r) == NonMissing(col) <= |col|
  {
    SumCountsByKeys(col, r);
    SumOccurrencesCovering(Keys(r), col);
  }

  /** `value_counts()` has one entry per distinct non-missing value: `len(value_counts())`
      equals `nunique()`, and its keys are exactly the values that occur. */
  lemma ValueCountsLength(col: Cells, r: Counts)
    requires IsValueCounts(col, r)
    ensures (set k | k in Keys(r)) == PresentValues(col)
    ensures |r| == NUnique(col)
  {
    var ks := Keys(r);
    forall v | v in PresentValues(col) ensures v in ks {
      var k :| 0 <= k < |col| && col[k].Some? && col[k].value == v;
    }
    forall v | v in ks ensures v in PresentValues(col) {
      var i :| 0 <= i < |ks| && ks[i] == v;
      assert Some(v) in col;
      var k :| 0 <= k < |col| && col[k] == Some(v);
    }
    assert (set k | k in ks) == PresentValues(col);
    DistinctSeqCard(ks);
  }

  /** The first entry holds the largest count (the summary's "most common gene type"). */
  lemma ValueCountsHeadIsMax(col: Cells, r: Counts, v: string)
    requires IsValueCounts(col, r) && r != []
    ensures Occurrences(col, v) <= r[0].1
  {
    if Occurrences(col, v) > 0 {
      assert Some(v) in col;
      var k :| 0 <= k < |col| && col[k] == Some(v);
      assert v in Keys(r);
      var i :| 0 <= i < |r| && Keys(r)[i] == v;
    }
  }

  // ---------------------------------------------------------------- lookups and prefixes

  /** `counts.get(t, 0)`: the count recorded for `t`, or 0 when `t` is not a key. */
  function CountOf(r: Counts, t: string): (n: nat)
    ensures t !in Keys(r) ==> n == 0
  {
    if r == [] then 0
    else if r[0].0 == t then r[0].1
    else
      assert Keys(r)[1..] == Keys(r[1..]);
      CountOf(r[1..], t)
  }

  /** Looking a value up in `value_counts()` gives its number of rows, 0 for an absent one. */
  lemma {:induction false} CountOfValueCounts(col: Cells, r: Counts, t: string)
    requires IsValueCounts(col, r)
    ensures CountOf(r, t) == Occurrences(col, t)
  {
    if t in Keys(r) {
      var i :| 0 <= i < |r| && r[i].0 == t;
      CountOfAt(r, i);
    }
  }

  lemma {:induction false} CountOfAt(r: Counts, i: nat)
    requires i < |r| && DistinctKeys(r)
    ensures CountOf(r, r[i].0) == r[i].1
  {
    if i > 0 {
      CountOfAt(r[1..], i - 1);
    }
  }

  /** `series.head(n)`: the first `n` entries (all of them when there are fewer). */
  function Head<T>(s: seq<T>, n: nat): (h: seq<T>)
    ensures |h| == if |s| < n then |s| else n
    ensures forall i :: 0 <= i < |h| ==> h[i] == s[i]
  {
    if |s| <= n then s else s[..n]
  }

  /**
   * `h` lists the `n` most frequent values of `col` (all of them when there are fewer), most
   * frequent first, with their row counts: any value left out has no more rows than any value
   * kept.
   */
  ghost predicate IsTop(col: Cells, h: Counts, n: nat)
  {
    && DistinctKeys(h)
    && NonIncreasing(h)
    && |h| == (if NUnique(col) < n then NUnique(col) else n)
    && (forall i :: 0 <= i < |h| ==> h[i].1 == Occurrences(col, h[i].0) && h[i].1 > 0)
    && (forall v, i :: v !in Keys(h) && 0 <= i < |h| ==> Occurrences(col, v) <= h[i].1)
  }

  /** `value_counts().head(n)` is a top-`n` list. */
  lemma HeadIsTop(col: Cells, r: Counts, n: nat)
    requires IsValueCounts(col, r)
    ensures IsTop(col, Head(r, n), n)
  {
    ValueCountsLength(col, r);
    var h := Head(r, n);
    forall v, i | v !in Keys(h) && 0 <= i < |h| ensures Occurrences(col, v) <= h[i].1 {
      TopValues(col, r, n, v, i);
    }
  }

  lemma TopValues(col: Cells, r: Counts, n: nat, v: string, i: nat)
    requires IsValueCounts(col, r)
    requires i < |Head(r, n)| && v !in Keys(Head(r, n))
    ensures Occurrences(col, v) <= Head(r, n)[i].1
  {
    if Occurrences(col, v) > 0 {
      assert Some(v) in col;
      var k :| 0 <= k < |col| && col[k] == Some(v);
      var j :| 0 <= j < |r| && Keys(r)[j] == v;
    }
  }

  // ---------------------------------------------------------------- allow-lists

  /** `col[col.isin(allow)]`: the rows whose value is on the allow-list, in order. */
  function KeepAllowed(col: Cells, allow: seq<string>): (f: Cells)
    ensures |f| <= |col|
    ensures forall k :: 0 <= k < |f| ==> f[k].Some? && f[k].value in allow
  {
    if col == [] then []
    else if col[0].Some? && col[0].value in allow then [col[0]] + KeepAllowed(col[1..], allow)
    else KeepAllowed(col[1..], allow)
  }

  /** Filtering keeps every row of an allow-listed value and none of any other. */
  lemma {:induction false} OccurrencesKeepAllowed(col: Cells, allow: seq<string>, v: string)
    ensures Occurrences(KeepAllowed(col, allow), v) == if v in allow then Occurrences(col, v) else 0
  {
    if col != [] {
      OccurrencesKeepAllowed(col[1..], allow, v);
      if col[0].Some? && col[0].value in allow {
        assert ([col[0]] + KeepAllowed(col[1..], allow))[1..] == KeepAllowed(col[1..], allow);
      }
    }
  }

  /**
   * Allow-listed `value_counts()` (`col[col.isin(allow)].value_counts()`): every key is on
   * the allow-list with at least one row; the counts add up to the number of allow-listed
   * rows, which is at most the number of rows; and there are no more keys than allow-listed
   * names.
   */
  lemma AllowListedCounts(col: Cells, allow: seq<string>, r: Counts)
    requires IsValueCounts(KeepAllowed(col, allow), r)
    ensures forall i :: 0 <= i < |r| ==> r[i].0 in allow && r[i].1 >= 1
    ensures SumCounts(r) == |KeepAllowed(col, allow)| <= |col|
    ensures |r| <= |allow|
  {
    var f := KeepAllowed(col, allow);
    ValueCountsSum(f, r);
    assert NonMissing(f) == |f|;
    var ks := Keys(r);
    DistinctSeqCard(ks);
    SeqSetCard(allow);
    SubsetCard(set k | k in ks, set a | a in allow);
  }

  // ---------------------------------------------------------------- percentages

  /** `count / total * 100`, Python's float division idealised as exact division. */
  function Percent(count: nat, total: nat): real
    requires total > 0
  {
    count as real / total as real * 100.0
  }

  /** A percentage scaled back by its denominator is the count scaled by 100; a count within
      the denominator gives a percentage in [0, 100], and a positive one a positive percentage. */
  lemma PercentBounds(count: nat, total: nat)
    requires total > 0
    ensures Percent(count, total) * total as real == count as real * 100.0
    ensures count <= total ==> 0.0 <= Percent(count, total) <= 100.0
    ensures count > 0 ==> Percent(count, total) > 0.0
    ensures Percent(count, total) == 100.0 <==> count == total
  {
    var q := count as real / total as real;
    DivFacts(count as real, total as real);
    assert Percent(count, total) * total as real == (q * total as real) * 100.0;
  }

  /** Percentages over one denominator add up like their counts. */
  lemma PercentAdd(a: nat, b: nat, total: nat)
    requires total > 0
    ensures Percent(a, total) + Percent(b, total) == Percent(a + b, total)
  {
    DivAdd(a as real, b as real, total as real);
  }

  // ---------------------------------------------------------------- leakage

  /** `set(col)`: the distinct cell values of a column. A missing value is one value, as
      pandas hands out the same NaN object for every missing cell. */
  function Values(col: Cells): set<Option<string>>
  {
    set k | 0 <= k < |col| :: col[k]
  }

  /** `len(set(a) & set(b))`: the number of distinct values two columns share. */
  function Overlap(a: Cells, b: Cells): (n: nat)
    ensures n <= |Values(a)| && n <= |Values(b)|
  {
    var shared := Values(a) * Values(b);
    SubsetCard(shared, Values(a));
    SubsetCard(shared, Values(b));
    |shared|
  }

  /** There is leakage exactly when some row of one partition equals some row of the other. */
  lemma OverlapPositive(a: Cells, b: Cells)
    ensures Overlap(a, b) > 0 <==> exists i, j :: 0 <= i < |a| && 0 <= j < |b| && a[i] == b[j]
  {
    var shared := Values(a) * Values(b);
    if exists i, j :: 0 <= i < |a| && 0 <= j < |b| && a[i] == b[j] {
      var i, j :| 0 <= i < |a| && 0 <= j < |b| && a[i] == b[j];
      assert a[i] in shared;
    }
  }

  /** The overlap does not depend on the order of the two partitions, and a partition
      overlaps itself in all of its distinct values. */
  lemma OverlapSymmetric(a: Cells, b: Cells)
    ensures Overlap(a, b) == Overlap(b, a)
    ensures Overlap(a, a) == |Values(a)|
  {
    assert Values(a) * Values(b) == Values(b) * Values(a);
    assert Values(a) * Values(a) == Values(a);
  }

  /** A value repeated within a partition is counted once. */
  lemma DuplicatesCountOnce(a: Cells, b: Cells, k: nat)
    requires k < |a|
    ensures Values(a + [a[k]]) == Values(a)
    ensures Overlap(a + [a[k]], b) == Overlap(a, b)
  {
    var a' := a + [a[k]];
    forall x | x in Values(a') ensures x in Values(a) {
      var i :| 0 <= i < |a'| && a'[i] == x;
      if i < |a| { assert a'[i] == a[i]; }
    }
    forall x | x in Values(a) ensures x in Values(a') {
      var i :| 0 <= i < |a| && a[i] == x;
      assert a'[i] == x;
    }
  }
}
