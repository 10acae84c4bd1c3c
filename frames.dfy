/**
 * The in-memory tables. Both scripts hold each file as a DataFrame and add derived columns to
 * it in place (`df['seq_length'] = ...`); `Frame` keeps the file's rows and each derived
 * column that has been added so far (`None` while a column is absent). Concatenation builds a
 * new frame, as `pd.concat(..., ignore_index=True)` does.
 */
module Frames {
  import opened Wrappers
  import opened Records
  import opened Features

  class Frame {
    var rows: seq<Record>
    var source: Option<seq<string>>                 // 'source'
    var seqLength: Option<seq<nat>>                 // 'seq_length'
    var symbolPrefix: Option<seq<Option<string>>>   // 'symbol_prefix'
    var endsWithP: Option<seq<Option<bool>>>        // 'ends_with_P'
    var symbolLength: Option<seq<Option<nat>>>      // 'symbol_length'
    var descLength: Option<seq<Option<nat>>>        // 'desc_length'
    var startsWithLoc: Option<seq<Option<bool>>>    // 'starts_with_LOC'

    /** Every column that is present has one entry per row. */
    ghost predicate Valid()
      reads this
    {
      && (source.Some? ==> |source.value| == |rows|)
      && (seqLength.Some? ==> |seqLength.value| == |rows|)
      && (symbolPrefix.Some? ==> |symbolPrefix.value| == |rows|)
      && (endsWithP.Some? ==> |endsWithP.value| == |rows|)
      && (symbolLength.Some? ==> |symbolLength.value| == |rows|)
      && (descLength.Some? ==> |descLength.value| == |rows|)
      && (startsWithLoc.Some? ==> |startsWithLoc.value| == |rows|)
    }

    /** No derived column has been added yet. */
    ghost predicate Plain()
      reads this
    {
      && seqLength.None? && symbolPrefix.None? && endsWithP.None?
      && symbolLength.None? && descLength.None? && startsWithLoc.None?
    }

    /** Every row carries the name of partition `p` in its `source` column. */
    ghost predicate TaggedAs(p: Partition)
      reads this
    {
      source.Some? && |source.value| == |rows| && forall i :: 0 <= i < |rows| ==> source.value[i] == p.Tag()
    }

    /** `df[c]`. */
    function Col(c: Column): (col: seq<Option<string>>)
      reads this
      ensures |col| == |rows|
    {
      ColumnOf(rows, c)
    }

    /** A table as read from one file: its rows and no derived columns. */
    constructor (rs: seq<Record>)
      ensures rows == rs && source == None && Plain() && Valid()
    {
      rows := rs;
      source := None;
      seqLength := None;
      symbolPrefix := None;
      endsWithP := None;
      symbolLength := None;
      descLength := None;
      startsWithLoc := None;
    }

    /** `df['source'] = 'train'` (or 'test', 'validation'): every row is tagged with the name
        of the partition it came from. */
    method TagSource(p: Partition)
      requires Valid()
      modifies this`source
      ensures Valid()
      ensures source.Some? && forall i :: 0 <= i < |rows| ==> source.value[i] == p.Tag()
      ensures TaggedAs(p)
    {
      source := Some(seq(|rows|, i => p.Tag()));
    }

    /** `df['seq_length'] = df['NucleotideSequence'].apply(lambda x: len(str(x).strip('<>')))`. */
    method AddSeqLength()
      requires Valid()
      modifies this`seqLength
      ensures Valid()
      ensures seqLength.Some? && forall i :: 0 <= i < |rows| ==> seqLength.value[i] == SeqLength(rows[i].sequence)
    {
      var rs := rows;
      seqLength := Some(seq(|rs|, i requires 0 <= i < |rs| => SeqLength(rs[i].sequence)));
    }

    /** The report's `seq_length` column: markers, then whitespace, stripped; 0 when missing. */
    method AddReportSeqLength()
      requires Valid()
      modifies this`seqLength
      ensures Valid()
      ensures seqLength.Some? && forall i :: 0 <= i < |rows| ==> seqLength.value[i] == ReportSeqLength(rows[i].sequence)
    {
      var rs := rows;
      seqLength := Some(seq(|rs|, i requires 0 <= i < |rs| => ReportSeqLength(rs[i].sequence)));
    }

    /** `df['symbol_prefix'] = df['Symbol'].str.extract(r'^([A-Z]+)', expand=False)`. */
    method AddSymbolPrefix()
      requires Valid()
      modifies this`symbolPrefix
      ensures Valid()
      ensures symbolPrefix.Some? && forall i :: 0 <= i < |rows| ==> symbolPrefix.value[i] == SymbolPrefix(rows[i].symbol)
    {
      var rs := rows;
      symbolPrefix := Some(seq(|rs|, i requires 0 <= i < |rs| => SymbolPrefix(rs[i].symbol)));
    }

    /** `df['ends_with_P'] = df['Symbol'].str.endswith('P')`: NaN where the symbol is missing. */
    method AddEndsWithP()
      requires Valid()
      modifies this`endsWithP
      ensures Valid()
      ensures endsWithP.Some? && forall i :: 0 <= i < |rows| ==> endsWithP.value[i] == EndsWithP(rows[i].symbol)
    {
      var rs := rows;
      endsWithP := Some(seq(|rs|, i requires 0 <= i < |rs| => EndsWithP(rs[i].symbol)));
    }

    /** `df['symbol_length'] = df['Symbol'].str.len()`. */
    method AddSymbolLength()
      requires Valid()
      modifies this`symbolLength
      ensures Valid()
      ensures symbolLength.Some? && forall i :: 0 <= i < |rows| ==> symbolLength.value[i] == TextLength(rows[i].symbol)
    {
      var rs := rows;
      symbolLength := Some(seq(|rs|, i requires 0 <= i < |rs| => TextLength(rs[i].symbol)));
    }

    /** `df['desc_length'] = df['Description'].str.len()`. */
    method AddDescLength()
      requires Valid()
      modifies this`descLength
      ensures Valid()
      ensures descLength.Some? && forall i :: 0 <= i < |rows| ==> descLength.value[i] == TextLength(rows[i].description)
    {
      var rs := rows;
      descLength := Some(seq(|rs|, i requires 0 <= i < |rs| => TextLength(rs[i].description)));
    }

    /**
     * The two integer flags, `str.endswith('P').astype(int)` and
     * `str.startswith('LOC').astype(int)`. A missing symbol makes the flag NaN, which cannot be
     * cast to an integer: the cast raises, `ok` is false and neither column is written.
     */
    method AddSymbolFlags() returns (ok: bool)
      requires Valid()
      modifies this`endsWithP, this`startsWithLoc
      ensures Valid()
      ensures ok <==> SymbolsPresent(rows)
      ensures ok ==> && endsWithP.Some? && startsWithLoc.Some?
                     && forall i :: 0 <= i < |rows| ==>
                          && endsWithP.value[i] == EndsWithP(rows[i].symbol) && endsWithP.value[i].Some?
                          && startsWithLoc.value[i] == StartsWithLoc(rows[i].symbol) && startsWithLoc.value[i].Some?
      ensures !ok ==> endsWithP == old(endsWithP) && startsWithLoc == old(startsWithLoc)
    {
      ok := SymbolsPresent(rows);
      if ok {
        var rs := rows;
        endsWithP := Some(seq(|rs|, i requires 0 <= i < |rs| => EndsWithP(rs[i].symbol)));
        startsWithLoc := Some(seq(|rs|, i requires 0 <= i < |rs| => StartsWithLoc(rs[i].symbol)));
      }
    }
  }

  /**
   * `pd.concat([a, b, c], ignore_index=True)` of three tables with the same columns: the rows
   * of `a`, then `b`, then `c`, and their `source` tags in the same order.
   */
  method Concat(a: Frame, b: Frame, c: Frame) returns (all: Frame)
    requires a.Valid() && b.Valid() && c.Valid()
    requires a.Plain() && b.Plain() && c.Plain()
    requires a.source.Some? == b.source.Some? == c.source.Some?
    ensures fresh(all) && all.Valid() && all.Plain()
    ensures all.rows == a.rows + b.rows + c.rows
    ensures all.source == if a.source.Some? then Some(a.source.value + b.source.value + c.source.value) else None
  {
    all := new Frame(a.rows + b.rows + c.rows);
    if a.source.Some? {
      all.source := Some(a.source.value + b.source.value + c.source.value);
    }
  }

  /** One file's table as `load_data` holds it: its rows, each tagged with partition `p`. */
  method ReadTagged(rows: seq<Record>, p: Partition) returns (f: Frame)
    ensures fresh(f) && f.rows == rows && f.Valid() && f.Plain() && f.TaggedAs(p)
  {
    f := new Frame(rows);
    f.TagSource(p);
  }

  /**
   * `load_data`: tag each file with its partition, concatenate them in the order train, test,
   * validation, and add the `seq_length` column to the combined table. The combined table has
   * one row per file row, the file's rows in file order, each tagged with its own partition.
   */
  method LoadData(train: seq<Record>, test: seq<Record>, val: seq<Record>)
    returns (tr: Frame, te: Frame, va: Frame, all: Frame)
    ensures fresh(tr) && fresh(te) && fresh(va) && fresh(all)
    ensures tr.rows == train && te.rows == test && va.rows == val
    ensures tr.TaggedAs(Train) && te.TaggedAs(Test) && va.TaggedAs(Validation)
    ensures all.Valid() && all.rows == train + test + val
    ensures |all.rows| == |train| + |test| + |val|
    ensures all.source.Some? && forall i :: 0 <= i < |all.rows| ==>
      all.source.value[i] == (if i < |train| then Train else if i < |train| + |test| then Test else Validation).Tag()
    ensures all.seqLength.Some? && forall i :: 0 <= i < |all.rows| ==>
      all.seqLength.value[i] == SeqLength(all.rows[i].sequence)
  {
    tr := ReadTagged(train, Train);
    te := ReadTagged(test, Test);
    va := ReadTagged(val, Validation);
    all := Concat(tr, te, va);
    var tags := all.source.value;
    forall i | 0 <= i < |tags|
      ensures tags[i] == (if i < |train| then Train else if i < |train| + |test| then Test else Validation).Tag()
    {
      if i < |train| {
        assert tags[i] == tr.source.value[i];
      } else if i < |train| + |test| {
        assert tags[i] == te.source.value[i - |train|];
      } else {
        assert tags[i] == va.source.value[i - |train| - |test|];
      }
    }
    all.AddSeqLength();
  }

  /** The figures' `seq_length` column of a table, row by row. */
  function SeqLengths(rows: seq<Record>): (col: seq<nat>)
    ensures |col| == |rows| && forall i :: 0 <= i < |rows| ==> col[i] == SeqLength(rows[i].sequence)
  {
    seq(|rows|, i requires 0 <= i < |rows| => SeqLength(rows[i].sequence))
  }

  /** The report's `seq_length` column of a table, row by row. */
  function ReportSeqLengths(rows: seq<Record>): (col: seq<nat>)
    ensures |col| == |rows| && forall i :: 0 <= i < |rows| ==> col[i] == ReportSeqLength(rows[i].sequence)
  {
    seq(|rows|, i requires 0 <= i < |rows| => ReportSeqLength(rows[i].sequence))
  }
}
