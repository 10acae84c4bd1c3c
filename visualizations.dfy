/**
 * The numbers behind the figures of create_visualizations.py: allow-listed gene-type counts,
 * per-split counts, leakage overlaps, imbalance ratios, the per-type length statistics, the
 * symbol-pattern counts and the dashboard figures. The drawing itself is not modelled; each
 * `plot_*` becomes the computation of the values it draws, and the columns it adds to the
 * combined table are added to the `Frame` in place.
 */
module Visualizations {
  import opened Wrappers
  import opened Records
  import opened Counting
  import opened Features
  import opened Stats
  import opened Frames
  import opened Arith

  /** The ten gene types of the distribution, imbalance and dashboard figures. */
  const TenTypes: seq<string> :=
    ["PSEUDO", "BIOLOGICAL_REGION", "ncRNA", "snoRNA", "PROTEIN_CODING",
     "tRNA", "OTHER", "rRNA", "snRNA", "scRNA"]

  /** The six gene types of the length and composition figures. */
  const SixTypes: seq<string> := ["PSEUDO", "BIOLOGICAL_REGION", "ncRNA", "PROTEIN_CODING", "tRNA", "snoRNA"]

  /** The four gene types of the per-split figure. */
  const FourTypes: seq<string> := ["PSEUDO", "BIOLOGICAL_REGION", "ncRNA", "PROTEIN_CODING"]

  // ---------------------------------------------------------------- gene-type counts

  /**
   * `all_data[all_data['GeneType'].isin(valid_types)]['GeneType'].value_counts()`: only listed
   * types, each with at least one row, most frequent first; the counts add up to the number of
   * rows of a listed type, and there are at most as many entries as listed types.
   */
  function AllowedTypeCounts(rows: seq<Record>, allow: seq<string>): (r: Counts)
    ensures IsValueCounts(KeepAllowed(ColumnOf(rows, GeneType), allow), r)
    ensures forall i :: 0 <= i < |r| ==> r[i].0 in allow && r[i].1 >= 1
    ensures SumCounts(r) == |KeepAllowed(ColumnOf(rows, GeneType), allow)| <= |rows|
    ensures |r| <= |allow|
  {
    var col := KeepAllowed(ColumnOf(rows, GeneType), allow);
    var r := ValueCounts(col);
    AllowListedCounts(ColumnOf(rows, GeneType), allow, r);
    r
  }

  /** The dashboard's `n_classes`: the number of distinct listed types that occur, never more
      than the ten listed. */
  function ClassCount(rows: seq<Record>): (n: nat)
    ensures n <= |TenTypes| == 10
    ensures n == |AllowedTypeCounts(rows, TenTypes)|
  {
    var r := AllowedTypeCounts(rows, TenTypes);
    ValueCountsLength(KeepAllowed(ColumnOf(rows, GeneType), TenTypes), r);
    NUnique(KeepAllowed(ColumnOf(rows, GeneType), TenTypes))
  }

  // ---------------------------------------------------------------- imbalance

  /** `max_count / gene_counts`: for each type, how many times larger the largest class is. */
  function ImbalanceRatios(r: Counts): (ratios: seq<(string, real)>)
    requires forall i :: 0 <= i < |r| ==> r[i].1 > 0
    ensures |ratios| == |r|
    ensures forall i :: 0 <= i < |r| ==> ratios[i].0 == r[i].0 && ratios[i].1 >= 1.0
    ensures forall i :: 0 <= i < |r| ==> ratios[i].1 == Max(Counted(r)) as real / r[i].1 as real
    ensures forall i :: 0 <= i < |r| ==> (ratios[i].1 == 1.0 <==> r[i].1 == Max(Counted(r)))
  {
    if r == [] then []
    else
      var m := Max(Counted(r));
      seq(|r|, i requires 0 <= i < |r| => (r[i].0, Ratio(m, r[i].1)))
  }

  function Counted(r: Counts): (cs: seq<nat>)
    ensures |cs| == |r| && forall i :: 0 <= i < |r| ==> cs[i] == r[i].1
  {
    seq(|r|, i requires 0 <= i < |r| => r[i].1)
  }

  function Ratio(m: nat, c: nat): (q: real)
    requires c > 0
    ensures q * c as real == m as real
    ensures c <= m ==> q >= 1.0
    ensures c <= m ==> (q == 1.0 <==> c == m)
  {
    DivFacts(m as real, c as real);
    m as real / c as real
  }

  /** With counts in non-increasing order the ratios grow, starting from 1 for the largest
      class. */
  lemma ImbalanceOrdered(col: Cells, r: Counts)
    requires IsValueCounts(col, r) && r != []
    ensures ImbalanceRatios(r)[0].1 == 1.0
    ensures forall i, j :: 0 <= i < j < |r| ==> ImbalanceRatios(r)[i].1 <= ImbalanceRatios(r)[j].1
  {
    var cs := Counted(r);
    var m := Max(cs);
    assert m == r[0].1 by {
      assert cs[0] == r[0].1;
      forall k | 0 <= k < |cs| ensures cs[k] <= r[0].1 { }
    }
    forall i, j | 0 <= i < j < |r| ensures ImbalanceRatios(r)[i].1 <= ImbalanceRatios(r)[j].1 {
      DivAntitone(m as real, r[i].1 as real, r[j].1 as real);
    }
  }

  // ---------------------------------------------------------------- per-split counts

  /**
   * The three bar heights of each listed type, `train_counts.get(t, 0)` and likewise for test
   * and validation, where each `*_counts` is an allow-listed `value_counts()`: each is the
   * type's number of rows in that partition, 0 when the partition has none.
   */
  function SplitCounts(train: seq<Record>, test: seq<Record>, val: seq<Record>, allow: seq<string>)
    : (bars: seq<(nat, nat, nat)>)
    ensures |bars| == |allow|
    ensures forall k :: 0 <= k < |allow| ==>
      && bars[k].0 == Occurrences(ColumnOf(train, GeneType), allow[k])
      && bars[k].1 == Occurrences(ColumnOf(test, GeneType), allow[k])
      && bars[k].2 == Occurrences(ColumnOf(val, GeneType), allow[k])
  {
    var trainCounts := AllowedTypeCounts(train, allow);
    var testCounts := AllowedTypeCounts(test, allow);
    var valCounts := AllowedTypeCounts(val, allow);
    seq(|allow|, k requires 0 <= k < |allow| =>
      (Bar(train, allow, trainCounts, k), Bar(test, allow, testCounts, k), Bar(val, allow, valCounts, k)))
  }

  /** `counts.get(allow[k], 0)` for an allow-listed `value_counts()` of one partition. */
  function Bar(rows: seq<Record>, allow: seq<string>, r: Counts, k: nat): (n: nat)
    requires k < |allow| && IsValueCounts(KeepAllowed(ColumnOf(rows, GeneType), allow), r)
    ensures n == Occurrences(ColumnOf(rows, GeneType), allow[k])
  {
    CountOfValueCounts(KeepAllowed(ColumnOf(rows, GeneType), allow), r, allow[k]);
    OccurrencesKeepAllowed(ColumnOf(rows, GeneType), allow, allow[k]);
    CountOf(r, allow[k])
  }

  /** For every listed type, the three partition bars add up to its count in the combined
      table. */
  lemma SplitCountsAddUp(train: seq<Record>, test: seq<Record>, val: seq<Record>, allow: seq<string>)
    ensures var bars := SplitCounts(train, test, val, allow);
      forall k :: 0 <= k < |allow| ==>
        bars[k].0 + bars[k].1 + bars[k].2 == Occurrences(ColumnOf(train + test + val, GeneType), allow[k])
  {
    var bars := SplitCounts(train, test, val, allow);
    forall k | 0 <= k < |allow|
      ensures bars[k].0 + bars[k].1 + bars[k].2 == Occurrences(ColumnOf(train + test + val, GeneType), allow[k])
    {
      OccurrencesAcrossFiles(train, test, val, GeneType, allow[k]);
    }
  }

  // ---------------------------------------------------------------- leakage

  /** The three leakage bars: distinct sequences shared by train and test, train and
      validation, test and validation. */
  datatype Leakage = Leakage(trainTest: nat, trainVal: nat, testVal: nat)

  function LeakageOf(train: seq<Record>, test: seq<Record>, val: seq<Record>): (l: Leakage)
    ensures var tr, te, va := ColumnOf(train, NucleotideSequence), ColumnOf(test, NucleotideSequence), ColumnOf(val, NucleotideSequence);
      && l.trainTest <= |Values(tr)| && l.trainTest <= |Values(te)|
      && l.trainVal <= |Values(tr)| && l.trainVal <= |Values(va)|
      && l.testVal <= |Values(te)| && l.testVal <= |Values(va)|
      && l == Leakage(Overlap(tr, te), Overlap(tr, va), Overlap(te, va))
      && (l.trainTest > 0 <==> exists i, j :: 0 <= i < |tr| && 0 <= j < |te| && tr[i] == te[j])
      && (l.trainVal > 0 <==> exists i, j :: 0 <= i < |tr| && 0 <= j < |va| && tr[i] == va[j])
      && (l.testVal > 0 <==> exists i, j :: 0 <= i < |te| && 0 <= j < |va| && te[i] == va[j])
  {
    var tr, te, va := ColumnOf(train, NucleotideSequence), ColumnOf(test, NucleotideSequence), ColumnOf(val, NucleotideSequence);
    OverlapPositive(tr, te);
    OverlapPositive(tr, va);
    OverlapPositive(te, va);
    Leakage(Overlap(tr, te), Overlap(tr, va), Overlap(te, va))
  }

  /** The figures of `plot_data_split_analysis`: partition sizes, per-split bars of the listed
      types (the figure lists `FourTypes`), and the leakage bars. */
  datatype SplitAnalysis = SplitAnalysis(sizes: (nat, nat, nat), bars: seq<(nat, nat, nat)>, leakage: Leakage)

  /** The partition sizes add up to the combined table, and each type's three bars add up to its
      count there. */
  function DataSplitAnalysis(train: seq<Record>, test: seq<Record>, val: seq<Record>, allow: seq<string>)
    : (a: SplitAnalysis)
    ensures a.sizes == (|train|, |test|, |val|)
    ensures a.sizes.0 + a.sizes.1 + a.sizes.2 == |train + test + val|
    ensures a.bars == SplitCounts(train, test, val, allow) && a.leakage == LeakageOf(train, test, val)
    ensures |a.bars| == |allow|
    ensures forall k :: 0 <= k < |allow| ==>
      a.bars[k].0 + a.bars[k].1 + a.bars[k].2 == Occurrences(ColumnOf(train + test + val, GeneType), allow[k])
  {
    var bars := SplitCounts(train, test, val, allow);
    SplitCountsAddUp(train, test, val, allow);
    SplitAnalysis((|train|, |test|, |val|), bars, LeakageOf(train, test, val))
  }

  // ---------------------------------------------------------------- sequence lengths

  /**
   * The statistics panel of `plot_sequence_length_distribution`: for each of the six listed
   * types that has rows, in list order, the mean `seq_length` of its rows. When no row has one
   * of the six types the list stays empty, the table built from it has no `Mean` column, and
   * reading that column raises: the result is then `None`.
   */
  method SequenceLengthStats(all: Frame) returns (stats: Option<seq<TypeStat>>)
    requires all.Valid() && all.seqLength.Some?
    ensures stats.Some? <==> TypesWithRows(SixTypes, all.Col(GeneType)) != []
    ensures stats.Some? ==> TypeNames(stats.value) == TypesWithRows(SixTypes, all.Col(GeneType))
    ensures stats.Some? ==> forall i :: 0 <= i < |stats.value| ==>
      var xs := GroupLengths(all.Col(GeneType), all.seqLength.value, stats.value[i].geneType);
      xs != [] && stats.value[i].mean == Mean(xs)
  {
    var entries := TypeStats(all.Col(GeneType), all.seqLength.value, SixTypes);
    if entries == [] {
      stats := None;
    } else {
      stats := Some(entries);
    }
  }

  // ---------------------------------------------------------------- symbol patterns

  /** The `symbol_prefix` column of a table. */
  function Prefixes(rows: seq<Record>): (col: Cells)
    ensures |col| == |rows| && forall i :: 0 <= i < |rows| ==> col[i] == SymbolPrefix(rows[i].symbol)
  {
    seq(|rows|, i requires 0 <= i < |rows| => SymbolPrefix(rows[i].symbol))
  }

  /** The rows whose symbol ends with `P`, in order (`all_data[all_data['ends_with_P']]`). */
  function EndingWithP(rows: seq<Record>): (f: seq<Record>)
    ensures |f| <= |rows|
    ensures forall r :: r in f <==> r in rows && EndsWithP(r.symbol) == Some(true)
    ensures forall r :: multiset(f)[r] == if EndsWithP(r.symbol) == Some(true) then multiset(rows)[r] else 0
  {
    if rows == [] then []
    else
      var rest := EndingWithP(rows[1..]);
      assert forall r :: r in rows <==> r == rows[0] || r in rows[1..];
      assert rows == [rows[0]] + rows[1..];
      assert multiset(rows) == multiset{rows[0]} + multiset(rows[1..]);
      if EndsWithP(rows[0].symbol) == Some(true) then
        assert multiset([rows[0]] + rest) == multiset{rows[0]} + multiset(rest);
        [rows[0]] + rest
      else rest
  }

  /**
   * `plot_symbol_patterns`: adds `symbol_prefix`, `ends_with_P` and `symbol_length` to the
   * combined table; `top` is the 15 most frequent prefixes. Selecting rows with the
   * `ends_with_P` column fails when a symbol is missing (the column then holds NaN), so
   * `pTypes` is `None` in that case and `symbol_length` is never added; otherwise `pTypes` is
   * the 5 most frequent gene types among the rows whose symbol ends with `P`.
   */
  method SymbolPatterns(all: Frame) returns (top: Counts, pTypes: Option<Counts>)
    requires all.Valid()
    modifies all`symbolPrefix, all`endsWithP, all`symbolLength
    ensures all.Valid() && all.symbolPrefix.Some? && all.endsWithP.Some?
    ensures forall i :: 0 <= i < |all.rows| ==> all.symbolPrefix.value[i] == SymbolPrefix(all.rows[i].symbol)
    ensures forall i :: 0 <= i < |all.rows| ==> all.endsWithP.value[i] == EndsWithP(all.rows[i].symbol)
    ensures IsTop(all.symbolPrefix.value, top, 15)
    ensures pTypes.Some? <==> SymbolsPresent(all.rows)
    ensures pTypes.Some? ==> IsTop(ColumnOf(EndingWithP(all.rows), GeneType), pTypes.value, 5)
    ensures pTypes.Some? ==>
      && all.symbolLength.Some?
      && forall i :: 0 <= i < |all.rows| ==> all.symbolLength.value[i] == TextLength(all.rows[i].symbol)
    ensures pTypes.None? ==> all.symbolLength == old(all.symbolLength)
  {
    all.AddSymbolPrefix();
    var prefixCounts := ValueCounts(all.symbolPrefix.value);
    HeadIsTop(all.symbolPrefix.value, prefixCounts, 15);
    top := Head(prefixCounts, 15);
    all.AddEndsWithP();
    if SymbolsPresent(all.rows) {
      var types := ColumnOf(EndingWithP(all.rows), GeneType);
      var typeCounts := ValueCounts(types);
      HeadIsTop(types, typeCounts, 5);
      pTypes := Some(Head(typeCounts, 5));
      all.AddSymbolLength();
    } else {
      pTypes := None;
    }
  }

  // ---------------------------------------------------------------- correlation features

  /**
   * The numeric columns of `plot_correlation_heatmap`: `seq_length`, `symbol_length` and
   * `desc_length` are always written; the two integer symbol flags only when no symbol is
   * missing (`ok`), as casting a NaN flag to an integer raises.
   */
  method CorrelationFeatures(all: Frame) returns (ok: bool)
    requires all.Valid()
    modifies all`seqLength, all`symbolLength, all`descLength, all`endsWithP, all`startsWithLoc
    ensures all.Valid() && all.seqLength.Some? && all.symbolLength.Some? && all.descLength.Some?
    ensures forall i :: 0 <= i < |all.rows| ==>
      && all.seqLength.value[i] == SeqLength(all.rows[i].sequence)
      && all.symbolLength.value[i] == TextLength(all.rows[i].symbol)
      && all.descLength.value[i] == TextLength(all.rows[i].description)
    ensures ok <==> SymbolsPresent(all.rows)
    ensures ok ==> (all.endsWithP.Some? && all.startsWithLoc.Some? &&
      forall i :: 0 <= i < |all.rows| ==>
        all.endsWithP.value[i] == EndsWithP(all.rows[i].symbol) &&
        all.startsWithLoc.value[i] == StartsWithLoc(all.rows[i].symbol))
    ensures !ok ==> all.endsWithP == old(all.endsWithP) && all.startsWithLoc == old(all.startsWithLoc)
  {
    all.AddSeqLength();
    all.AddSymbolLength();
    all.AddDescLength();
    ok := all.AddSymbolFlags();
  }

  // ---------------------------------------------------------------- dashboard

  /** The computed figures of the summary dashboard. */
  datatype Dashboard = Dashboard(
    total: nat, classes: nat, leaked: nat, meanLength: Option<real>,
    geneCounts: Counts, sizes: (nat, nat, nat))

  /**
   * `plot_summary_dashboard`: the number of rows, the number of listed types present (at most
   * ten), the train/test leakage, the mean `seq_length` (NaN, here `None`, for an empty table,
   * and otherwise between the shortest and longest length), the listed gene-type counts and the
   * partition sizes, which add up to the number of rows.
   */
  function SummaryDashboard(all: seq<Record>, lengths: seq<nat>, train: seq<Record>, test: seq<Record>, val: seq<Record>)
    : (d: Dashboard)
    requires |lengths| == |all| && all == train + test + val
    ensures d.total == |all| == d.sizes.0 + d.sizes.1 + d.sizes.2
    ensures d.sizes == (|train|, |test|, |val|)
    ensures d.geneCounts == AllowedTypeCounts(all, TenTypes) && SumCounts(d.geneCounts) <= |all|
    ensures d.classes <= 10 && d.classes == |d.geneCounts|
    ensures d.leaked == Overlap(ColumnOf(train, NucleotideSequence), ColumnOf(test, NucleotideSequence))
    ensures d.leaked <= |Values(ColumnOf(train, NucleotideSequence))| && d.leaked <= |Values(ColumnOf(test, NucleotideSequence))|
    ensures d.meanLength.Some? <==> |all| > 0
    ensures d.meanLength.Some? ==> d.meanLength.value == Mean(lengths)
    ensures d.meanLength.Some? ==> Min(lengths) as real <= d.meanLength.value <= Max(lengths) as real
  {
    var mean := if lengths == [] then None else (MeanBetween(lengths); Some(Mean(lengths)));
    Dashboard(|all|, ClassCount(all), Overlap(ColumnOf(train, NucleotideSequence), ColumnOf(test, NucleotideSequence)),
              mean, AllowedTypeCounts(all, TenTypes), (|train|, |test|, |val|))
  }

  // ---------------------------------------------------------------- the whole run

  /** Everything the figures show, in the order `main` draws them. */
  datatype Figures = Figures(
    geneCounts: Counts,
    lengthStats: seq<TypeStat>,
    split: SplitAnalysis,
    imbalance: seq<(string, real)>,
    topPrefixes: Counts,
    pSuffixTypes: Counts,
    dashboard: Dashboard)

  /** The rows of the six types of the length figure are there, so its statistics panel can be
      drawn, and every symbol is present, so the symbol and correlation figures can. */
  predicate Completes(rows: seq<Record>)
  {
    TypesWithRows(SixTypes, ColumnOf(rows, GeneType)) != [] && SymbolsPresent(rows)
  }

  /**
   * The symbol figure, then the correlation features, on the shared combined table. The symbol
   * figure adds `symbol_prefix` and `ends_with_P` and stops when a symbol is missing; otherwise
   * the correlation features add the length columns and the two integer flags. `done` says
   * whether both got through.
   */
  method SymbolFigures(all: Frame) returns (done: bool, top: Counts, pTypes: Counts)
    requires all.Valid()
    modifies all`seqLength, all`symbolPrefix, all`endsWithP, all`symbolLength, all`descLength, all`startsWithLoc
    ensures all.Valid()
    ensures done <==> SymbolsPresent(all.rows)
    ensures IsTop(Prefixes(all.rows), top, 15)
    ensures done ==> IsTop(ColumnOf(EndingWithP(all.rows), GeneType), pTypes, 5)
    ensures all.symbolPrefix == Some(Prefixes(all.rows))
    ensures all.endsWithP.Some? &&
      forall i :: 0 <= i < |all.rows| ==> all.endsWithP.value[i] == EndsWithP(all.rows[i].symbol)
    ensures !done ==>
      && all.seqLength == old(all.seqLength) && all.symbolLength == old(all.symbolLength)
      && all.descLength == old(all.descLength) && all.startsWithLoc == old(all.startsWithLoc)
    ensures done ==>
      && all.seqLength.Some? && all.symbolLength.Some? && all.descLength.Some? && all.startsWithLoc.Some?
      && forall i :: 0 <= i < |all.rows| ==>
           && all.seqLength.value[i] == SeqLength(all.rows[i].sequence)
           && all.symbolLength.value[i] == TextLength(all.rows[i].symbol)
           && all.descLength.value[i] == TextLength(all.rows[i].description)
           && all.startsWithLoc.value[i] == StartsWithLoc(all.rows[i].symbol)
  {
    var p;
    top, p := SymbolPatterns(all);
    assert all.symbolPrefix.value == Prefixes(all.rows);
    if p.None? {
      done, pTypes := false, [];
      return;
    }
    pTypes := p.value;
    var ok := CorrelationFeatures(all);
    done := true;
  }

  /**
   * The figures of `main` that work on the shared combined table, in order: the length
   * statistics, then the symbol figure, then the correlation features, each adding its columns
   * to `all` in place. The run stops at the length figure when no row has one of its six types,
   * leaving the table as it was, and at the symbol figure when a symbol is missing; `done` says
   * whether it got through both.
   */
  method TableFigures(all: Frame) returns (done: bool, lengthStats: seq<TypeStat>, top: Counts, pTypes: Counts)
    requires all.Valid() && all.seqLength.Some?
    modifies all`seqLength, all`symbolPrefix, all`endsWithP, all`symbolLength, all`descLength, all`startsWithLoc
    ensures done <==> Completes(all.rows)
    ensures all.Valid()
    ensures TypesWithRows(SixTypes, ColumnOf(all.rows, GeneType)) == [] ==> unchanged(all)
    ensures TypesWithRows(SixTypes, ColumnOf(all.rows, GeneType)) != [] ==>
      && all.symbolPrefix == Some(Prefixes(all.rows))
      && all.endsWithP.Some?
      && forall i :: 0 <= i < |all.rows| ==> all.endsWithP.value[i] == EndsWithP(all.rows[i].symbol)
    ensures TypesWithRows(SixTypes, ColumnOf(all.rows, GeneType)) != [] && !done ==>
      && all.seqLength == old(all.seqLength) && all.symbolLength == old(all.symbolLength)
      && all.descLength == old(all.descLength) && all.startsWithLoc == old(all.startsWithLoc)
    ensures done ==>
      && all.seqLength.Some? && all.symbolLength.Some? && all.descLength.Some? && all.startsWithLoc.Some?
      && forall i :: 0 <= i < |all.rows| ==>
           && all.seqLength.value[i] == SeqLength(all.rows[i].sequence)
           && all.symbolLength.value[i] == TextLength(all.rows[i].symbol)
           && all.descLength.value[i] == TextLength(all.rows[i].description)
           && all.startsWithLoc.value[i] == StartsWithLoc(all.rows[i].symbol)
    ensures done ==>
      && TypeNames(lengthStats) == TypesWithRows(SixTypes, ColumnOf(all.rows, GeneType))
      && (forall i :: 0 <= i < |lengthStats| ==>
            var xs := GroupLengths(ColumnOf(all.rows, GeneType), old(all.seqLength.value), lengthStats[i].geneType);
            xs != [] && lengthStats[i].mean == Mean(xs))
      && IsTop(Prefixes(all.rows), top, 15)
      && IsTop(ColumnOf(EndingWithP(all.rows), GeneType), pTypes, 5)
  {
    done, lengthStats, top, pTypes := false, [], [], [];
    var stats := SequenceLengthStats(all);
    if stats.None? {
      return;
    }
    lengthStats := stats.value;
    done, top, pTypes := SymbolFigures(all);
  }

  /**
   * `load_data` followed by the figures of `main` that work on the combined table: one
   * `seq_length` per row of the three files, and, when the run gets through, the length
   * statistics, the top prefixes and the gene types of the `P`-ending symbols.
   */
  method FrameFigures(train: seq<Record>, test: seq<Record>, val: seq<Record>)
    returns (done: bool, lengthStats: seq<TypeStat>, top: Counts, pTypes: Counts, lengths: seq<nat>)
    ensures var rows := train + test + val;
      && (done <==> Completes(rows))
      && lengths == SeqLengths(rows)
      && (done ==>
            && TypeNames(lengthStats) == TypesWithRows(SixTypes, ColumnOf(rows, GeneType))
            && (forall i :: 0 <= i < |lengthStats| ==>
                  var xs := GroupLengths(ColumnOf(rows, GeneType), lengths, lengthStats[i].geneType);
                  xs != [] && lengthStats[i].mean == Mean(xs))
            && IsTop(Prefixes(rows), top, 15)
            && IsTop(ColumnOf(EndingWithP(rows), GeneType), pTypes, 5))
  {
    var tr, te, va, all := LoadData(train, test, val);
    lengths := all.seqLength.value;
    assert lengths == SeqLengths(all.rows);
    done, lengthStats, top, pTypes := TableFigures(all);
  }

  /**
   * `main`: load and combine the three files, then compute each figure in turn on the same
   * combined table, which the symbol and correlation figures extend with their columns. The
   * run completes exactly when the length and symbol figures do; each figure is then the value
   * its function describes.
   */
  method CreateVisualizations(train: seq<Record>, test: seq<Record>, val: seq<Record>) returns (figs: Option<Figures>)
    ensures figs.Some? <==> Completes(train + test + val)
    ensures figs.Some? ==>
      var rows := train + test + val;
      && figs.value.geneCounts == AllowedTypeCounts(rows, TenTypes)
      && TypeNames(figs.value.lengthStats) == TypesWithRows(SixTypes, ColumnOf(rows, GeneType))
      && (forall i :: 0 <= i < |figs.value.lengthStats| ==>
            var xs := GroupLengths(ColumnOf(rows, GeneType), SeqLengths(rows), figs.value.lengthStats[i].geneType);
            xs != [] && figs.value.lengthStats[i].mean == Mean(xs))
      && figs.value.split == DataSplitAnalysis(train, test, val, FourTypes)
      && figs.value.imbalance == ImbalanceRatios(figs.value.geneCounts)
      && IsTop(Prefixes(rows), figs.value.topPrefixes, 15)
      && IsTop(ColumnOf(EndingWithP(rows), GeneType), figs.value.pSuffixTypes, 5)
      && figs.value.dashboard == SummaryDashboard(rows, SeqLengths(rows), train, test, val)
  {
    var rows := train + test + val;
    var done, lengthStats, top, pTypes, lengths := FrameFigures(train, test, val);
    if !done {
      figs := None;
      return;
    }
    var geneCounts := AllowedTypeCounts(rows, TenTypes);
    figs := Some(Figures(geneCounts, lengthStats, DataSplitAnalysis(train, test, val, FourTypes),
                         ImbalanceRatios(geneCounts), top, pTypes,
                         SummaryDashboard(rows, lengths, train, test, val)));
  }
}
