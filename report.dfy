/**
 * The figures of generate_report.py's printed summary: row counts, per-column summaries,
 * gene-type and gene-group-method tables with percentages over all rows, the per-file
 * breakdown, sequence-length statistics overall and per gene type, the preview of the first
 * train rows, and the closing summary. Printing and column alignment are not modelled.
 */
module Report {
  import opened Wrappers
  import opened Records
  import opened Counting
  import opened Features
  import opened Stats
  import opened Frames

  // ---------------------------------------------------------------- section 1

  /** Rows and columns of each file, and the total number of rows. */
  datatype Overview = Overview(trainRows: nat, testRows: nat, valRows: nat, columns: nat, total: nat)

  /** The total printed under the file table is the number of rows of the combined table. */
  function DatasetOverview(train: seq<Record>, test: seq<Record>, val: seq<Record>): (o: Overview)
    ensures o.total == o.trainRows + o.testRows + o.valRows == |train + test + val|
    ensures o.trainRows == |train| && o.testRows == |test| && o.valRows == |val|
    ensures o.columns == |Columns| == 5
  {
    Overview(|train|, |test|, |val|, |Columns|, |train| + |test| + |val|)
  }

  // ---------------------------------------------------------------- section 2

  /** What the report prints for one column of train.csv. */
  datatype ColumnSummary = ColumnSummary(column: Column, unique: nat, missing: nat, nonNull: nat)

  /** `nunique()`, `isna().sum()` and `notna().sum()` of one column: present and missing
      cells account for every row, and there are no more distinct values than present cells. */
  function Summary(rows: seq<Record>, c: Column): (s: ColumnSummary)
    ensures s.column == c
    ensures s.nonNull + s.missing == |rows|
    ensures s.unique <= s.nonNull
    ensures s.missing == 0 <==> forall k :: 0 <= k < |rows| ==> Cell(rows[k], c).Some?
  {
    var col := ColumnOf(rows, c);
    assert forall k :: 0 <= k < |rows| ==> col[k] == Cell(rows[k], c);
    ColumnSummary(c, NUnique(col), Missing(col), NonMissing(col))
  }

  /** The loop over the columns of train.csv, one summary per column in column order. */
  method ColumnSummaries(train: seq<Record>) returns (sums: seq<ColumnSummary>)
    ensures |sums| == |Columns|
    ensures forall i :: 0 <= i < |sums| ==> sums[i] == Summary(train, Columns[i])
    ensures forall i :: 0 <= i < |sums| ==>
      sums[i].column == Columns[i] && sums[i].nonNull + sums[i].missing == |train| && sums[i].unique <= sums[i].nonNull
  {
    sums := [];
    var i := 0;
    while i < |Columns|
      invariant i <= |Columns| && |sums| == i
      invariant forall k :: 0 <= k < i ==> sums[k] == Summary(train, Columns[k])
    {
      sums := sums + [Summary(train, Columns[i])];
      i := i + 1;
    }
  }

  // ---------------------------------------------------------------- sections 3 and 4

  /** One printed line of a label table: the label, its count and its percentage of all rows. */
  datatype LabelRow = LabelRow(name: string, count: nat, percent: real)

  function LabelRowOf(col: Cells, e: (string, nat)): (row: LabelRow)
    requires e.1 == Occurrences(col, e.0) > 0
    ensures row.name == e.0 && row.count == e.1 && |col| > 0
    ensures row.percent == Percent(row.count, |col|) && 0.0 < row.percent <= 100.0
  {
    PercentBounds(e.1, |col|);
    LabelRow(e.0, e.1, Percent(e.1, |col|))
  }

  function LabelRows(col: Cells, vc: Counts): (rows: seq<LabelRow>)
    requires IsValueCounts(col, vc)
    ensures |rows| == |vc|
    ensures forall i :: 0 <= i < |vc| ==> rows[i].name == vc[i].0 && rows[i].count == vc[i].1
    ensures forall i :: 0 <= i < |rows| ==> rows[i].percent == Percent(rows[i].count, |col|) && 0.0 < rows[i].percent <= 100.0
  {
    seq(|vc|, i requires 0 <= i < |vc| => LabelRowOf(col, vc[i]))
  }

  /**
   * `value_counts()` of a column of the combined table, each count with `count / total * 100`:
   * one line per distinct present value with its number of rows (at least one) and a
   * percentage in (0, 100], most frequent first. Used for GeneType and for GeneGroupMethod.
   */
  function LabelTable(col: Cells): (rows: seq<LabelRow>)
    ensures |rows| == NUnique(col)
    ensures forall i :: 0 <= i < |rows| ==>
      && rows[i].count == Occurrences(col, rows[i].name) > 0
      && rows[i].percent == Percent(rows[i].count, |col|) && 0.0 < rows[i].percent <= 100.0
    ensures forall i, j :: 0 <= i < j < |rows| ==> rows[i].name != rows[j].name && rows[i].count >= rows[j].count
    ensures forall k :: 0 <= k < |col| && col[k].Some? ==> exists i :: 0 <= i < |rows| && rows[i].name == col[k].value
  {
    var vc := ValueCounts(col);
    var rows := LabelRows(col, vc);
    LabelRowsFollowCounts(col, vc, rows);
    rows
  }

  lemma LabelRowsFollowCounts(col: Cells, vc: Counts, rows: seq<LabelRow>)
    requires IsValueCounts(col, vc) && |rows| == |vc|
    requires forall i :: 0 <= i < |vc| ==> rows[i].name == vc[i].0 && rows[i].count == vc[i].1
    ensures |rows| == NUnique(col)
    ensures forall k :: 0 <= k < |col| && col[k].Some? ==> exists i :: 0 <= i < |rows| && rows[i].name == col[k].value
  {
    ValueCountsLength(col, vc);
    forall k | 0 <= k < |col| && col[k].Some?
      ensures exists i :: 0 <= i < |rows| && rows[i].name == col[k].value
    {
      var i :| 0 <= i < |vc| && Keys(vc)[i] == col[k].value;
      assert rows[i].name == col[k].value;
    }
  }

  function SumPercent(rows: seq<LabelRow>): real
  {
    if rows == [] then 0.0 else rows[0].percent + SumPercent(rows[1..])
  }

  lemma {:induction false} SumPercentOfCounts(rows: seq<LabelRow>, vc: Counts, total: nat)
    requires total > 0 && |rows| == |vc|
    requires forall i :: 0 <= i < |vc| ==> rows[i].count == vc[i].1 && rows[i].percent == Percent(vc[i].1, total)
    ensures SumPercent(rows) == Percent(SumCounts(vc), total)
  {
    if rows == [] {
      PercentBounds(0, total);
    } else {
      SumPercentOfCounts(rows[1..], vc[1..], total);
      PercentAdd(vc[0].1, SumCounts(vc[1..]), total);
    }
  }

  /**
   * The table's footer prints 100.00 unconditionally. The percentages it sums really add up
   * to 100 exactly when the table is non-empty and no row lacks a value: a missing GeneType
   * is counted in the denominator but in no line.
   */
  lemma FooterHolds(col: Cells)
    ensures SumPercent(LabelTable(col)) == 100.0 <==> |col| > 0 && Missing(col) == 0
  {
    var vc := ValueCounts(col);
    var rows := LabelTable(col);
    if |col| == 0 {
      assert rows == [];
    } else {
      SumPercentOfCounts(rows, vc, |col|);
      ValueCountsSum(col, vc);
      PercentBounds(SumCounts(vc), |col|);
    }
  }

  // ---------------------------------------------------------------- per-file breakdown

  /**
   * The nested loops that build the per-file table: one line per gene type, one cell per file,
   * each cell `(ds['GeneType'] == gt).sum()`, the type's number of rows in that file.
   */
  method BreakdownByFile(geneTypes: seq<string>, files: seq<Cells>) returns (table: seq<seq<nat>>)
    ensures |table| == |geneTypes|
    ensures forall i :: 0 <= i < |table| ==> |table[i]| == |files|
    ensures forall i, j :: 0 <= i < |table| && 0 <= j < |files| ==> table[i][j] == Occurrences(files[j], geneTypes[i])
  {
    table := [];
    var i := 0;
    while i < |geneTypes|
      invariant i <= |geneTypes| && |table| == i
      invariant forall a :: 0 <= a < i ==> |table[a]| == |files|
      invariant forall a, j :: 0 <= a < i && 0 <= j < |files| ==> table[a][j] == Occurrences(files[j], geneTypes[a])
    {
      var row: seq<nat> := [];
      var j := 0;
      while j < |files|
        invariant j <= |files| && |row| == j
        invariant forall b :: 0 <= b < j ==> row[b] == Occurrences(files[b], geneTypes[i])
      {
        row := row + [Occurrences(files[j], geneTypes[i])];
        j := j + 1;
      }
      table := table + [row];
      i := i + 1;
    }
  }

  /** For every gene type, the counts in the three files add up to its count in the table of
      all rows, which is the count printed in section 3. */
  lemma BreakdownAddsUp(train: seq<Record>, test: seq<Record>, val: seq<Record>, table: seq<seq<nat>>, geneTypes: seq<string>, i: nat)
    requires i < |table| == |geneTypes|
    requires |table[i]| == 3
    requires table[i][0] == Occurrences(ColumnOf(train, GeneType), geneTypes[i])
    requires table[i][1] == Occurrences(ColumnOf(test, GeneType), geneTypes[i])
    requires table[i][2] == Occurrences(ColumnOf(val, GeneType), geneTypes[i])
    ensures table[i][0] + table[i][1] + table[i][2] == Occurrences(ColumnOf(train + test + val, GeneType), geneTypes[i])
  {
    OccurrencesAcrossFiles(train, test, val, GeneType, geneTypes[i]);
  }

  /** The per-file table of the report: line i holds the counts of gene type `names[i]` in
      train.csv, test.csv and validation.csv, in that order. */
  predicate IsFileBreakdown(train: seq<Record>, test: seq<Record>, val: seq<Record>, names: seq<string>, table: seq<seq<nat>>)
  {
    && |table| == |names|
    && forall i :: 0 <= i < |table| ==>
      && |table[i]| == 3
      && table[i][0] == Occurrences(ColumnOf(train, GeneType), names[i])
      && table[i][1] == Occurrences(ColumnOf(test, GeneType), names[i])
      && table[i][2] == Occurrences(ColumnOf(val, GeneType), names[i])
  }

  /** The per-file table of the report: for each gene type, its counts in train.csv, test.csv
      and validation.csv, which add up to its count over all rows. */
  method FileBreakdown(train: seq<Record>, test: seq<Record>, val: seq<Record>, geneTypes: seq<string>)
    returns (table: seq<seq<nat>>)
    ensures |table| == |geneTypes|
    ensures forall i :: 0 <= i < |table| ==>
      && |table[i]| == 3
      && table[i][0] == Occurrences(ColumnOf(train, GeneType), geneTypes[i])
      && table[i][1] == Occurrences(ColumnOf(test, GeneType), geneTypes[i])
      && table[i][2] == Occurrences(ColumnOf(val, GeneType), geneTypes[i])
      && table[i][0] + table[i][1] + table[i][2] == Occurrences(ColumnOf(train + test + val, GeneType), geneTypes[i])
    ensures IsFileBreakdown(train, test, val, geneTypes, table)
  {
    var files := [ColumnOf(train, GeneType), ColumnOf(test, GeneType), ColumnOf(val, GeneType)];
    table := BreakdownByFile(geneTypes, files);
    forall i | 0 <= i < |table|
      ensures && |table[i]| == 3
              && table[i][0] == Occurrences(ColumnOf(train, GeneType), geneTypes[i])
              && table[i][1] == Occurrences(ColumnOf(test, GeneType), geneTypes[i])
              && table[i][2] == Occurrences(ColumnOf(val, GeneType), geneTypes[i])
              && table[i][0] + table[i][1] + table[i][2] == Occurrences(ColumnOf(train + test + val, GeneType), geneTypes[i])
    {
      assert table[i][0] == Occurrences(files[0], geneTypes[i]);
      assert table[i][1] == Occurrences(files[1], geneTypes[i]);
      assert table[i][2] == Occurrences(files[2], geneTypes[i]);
      BreakdownAddsUp(train, test, val, table, geneTypes, i);
    }
  }

  // ---------------------------------------------------------------- summary

  /** `value_counts().index[0]` with `iloc[0]`: the most common value and its count. With no
      value present at all the lookup raises, here `None`. */
  function MostCommon(col: Cells): (m: Option<(string, nat)>)
    ensures m.Some? <==> NonMissing(col) > 0
    ensures m.Some? ==> m.value.1 == Occurrences(col, m.value.0) > 0
    ensures m.Some? ==> forall v :: Occurrences(col, v) <= m.value.1
    ensures m.Some? <==> LabelTable(col) != []
    ensures m.Some? ==> m.value == (LabelTable(col)[0].name, LabelTable(col)[0].count)
  {
    var vc := ValueCounts(col);
    ValueCountsSum(col, vc);
    if vc == [] then None
    else
      assert forall v :: Occurrences(col, v) <= vc[0].1 by {
        forall v ensures Occurrences(col, v) <= vc[0].1 {
          ValueCountsHeadIsMax(col, vc, v);
        }
      }
      Some(vc[0])
  }

  /** The label column of a label table. */
  function Names(rows: seq<LabelRow>): (ns: seq<string>)
    ensures |ns| == |rows| && forall i :: 0 <= i < |rows| ==> ns[i] == rows[i].name
  {
    seq(|rows|, i requires 0 <= i < |rows| => rows[i].name)
  }

  // ---------------------------------------------------------------- preview

  /** `train_df.head()` with each sequence cut by `Preview`: at most five rows, each row's other
      cells kept, each sequence at most 53 characters and kept whole when it is short. */
  function SampleRows(train: seq<Record>): (sample: seq<Record>)
    ensures |sample| == if |train| < 5 then |train| else 5
    ensures forall i :: 0 <= i < |sample| ==>
      && sample[i].symbol == train[i].symbol && sample[i].geneType == train[i].geneType
      && sample[i].geneGroupMethod == train[i].geneGroupMethod && sample[i].description == train[i].description
      && sample[i].sequence == Preview(train[i].sequence)
      && sample[i].sequence.Some? == train[i].sequence.Some?
      && (sample[i].sequence.Some? ==> |sample[i].sequence.value| <= PreviewWidth + 3)
      && (train[i].sequence.Some? && |train[i].sequence.value| <= PreviewWidth ==> sample[i].sequence == train[i].sequence)
  {
    var head := Head(train, 5);
    seq(|head|, i requires 0 <= i < |head| => head[i].(sequence := Preview(head[i].sequence)))
  }

  // ---------------------------------------------------------------- the whole report

  /** Everything the report prints, section by section. */
  datatype SummaryReport = SummaryReport(
    overview: Overview,
    columns: seq<ColumnSummary>,
    geneTypes: seq<LabelRow>,
    breakdown: seq<seq<nat>>,
    methods: seq<LabelRow>,
    lengths: Option<LengthStats>,
    byType: seq<GroupRow>,
    sample: seq<Record>,
    mostCommon: (string, nat),
    typeCount: nat,
    meanLength: Option<real>)

  /**
   * The combined table of the report, `pd.concat([train_df, test_df, val_df],
   * ignore_index=True)`, with its `seq_length` column added in place: one length per row of
   * the three files, in file order.
   */
  method CombinedLengths(train: seq<Record>, test: seq<Record>, val: seq<Record>) returns (lengths: seq<nat>)
    ensures |lengths| == |train + test + val|
    ensures forall i :: 0 <= i < |lengths| ==> lengths[i] == ReportSeqLength((train + test + val)[i].sequence)
    ensures lengths == ReportSeqLengths(train + test + val)
  {
    var trainDf := new Frame(train);
    var testDf := new Frame(test);
    var valDf := new Frame(val);
    var allData := Concat(trainDf, testDf, valDf);
    allData.AddReportSeqLength();
    lengths := allData.seqLength.value;
  }

  /**
   * `generate_summary_report`: read the three files, combine them, add the `seq_length` column
   * to the combined table in place and compute each section. The closing summary reads the most
   * common gene type with `index[0]`, which raises on a table with no gene type at all, so the
   * report is `None` exactly then. Otherwise every section is the one its function describes,
   * the most common type has no fewer rows than any other value, and the breakdown has one line
   * per gene type whose cells add up to that type's count.
   */
  method GenerateSummaryReport(train: seq<Record>, test: seq<Record>, val: seq<Record>) returns (rep: Option<SummaryReport>)
    ensures rep.Some? <==> NonMissing(ColumnOf(train + test + val, GeneType)) > 0
    ensures rep.Some? ==>
      && rep.value.geneTypes != []
      && rep.value.mostCommon == (rep.value.geneTypes[0].name, rep.value.geneTypes[0].count)
    ensures rep.Some? ==>
      var types := ColumnOf(train + test + val, GeneType);
      && rep.value.overview == DatasetOverview(train, test, val)
      && |rep.value.columns| == |Columns|
      && (forall i :: 0 <= i < |Columns| ==> rep.value.columns[i] == Summary(train, Columns[i]))
      && |rep.value.byType| == NUnique(types)
      && rep.value.sample == SampleRows(train)
      && (rep.value.lengths.Some? <==> |train| + |test| + |val| > 0)
      && rep.value.overview.total == |train| + |test| + |val|
      && rep.value.typeCount == NUnique(types) == |rep.value.geneTypes| == |rep.value.breakdown|
      && rep.value.mostCommon.1 == Occurrences(types, rep.value.mostCommon.0) > 0
      && (forall v :: Occurrences(types, v) <= rep.value.mostCommon.1)
      && (forall i :: 0 <= i < |rep.value.breakdown| ==>
            |rep.value.breakdown[i]| == 3 &&
            rep.value.breakdown[i][0] + rep.value.breakdown[i][1] + rep.value.breakdown[i][2]
              == Occurrences(types, rep.value.geneTypes[i].name))
      && rep.value.geneTypes == LabelTable(types)
      && IsFileBreakdown(train, test, val, Names(rep.value.geneTypes), rep.value.breakdown)
      && rep.value.methods == LabelTable(ColumnOf(train + test + val, GeneGroupMethod))
      && rep.value.lengths == Describe(ReportSeqLengths(train + test + val))
      && rep.value.byType == GroupedTable(types, ReportSeqLengths(train + test + val))
      && rep.value.meanLength == (if ReportSeqLengths(train + test + val) == [] then None
                                  else Some(Mean(ReportSeqLengths(train + test + val))))
  {
    var overview := DatasetOverview(train, test, val);
    var columns := ColumnSummaries(train);
    var rows := train + test + val;
    var types := ColumnOf(rows, GeneType);
    var geneTypes := LabelTable(types);
    var names := Names(geneTypes);
    var breakdown := FileBreakdown(train, test, val, names);
    assert forall i :: 0 <= i < |breakdown| ==>
      breakdown[i][0] + breakdown[i][1] + breakdown[i][2] == Occurrences(types, geneTypes[i].name);
    var methods := LabelTable(ColumnOf(rows, GeneGroupMethod));
    var lengths := CombinedLengths(train, test, val);
    var byType := GroupedTable(types, lengths);
    var sample := SampleRows(train);
    var mostCommon := MostCommon(types);
    if mostCommon.None? {
      return None;
    }
    var meanLength := if lengths == [] then None else Some(Mean(lengths));
    rep := Some(SummaryReport(overview, columns, geneTypes, breakdown, methods, Describe(lengths), byType,
                              sample, mostCommon.value, |geneTypes|, meanLength));
  }
}
