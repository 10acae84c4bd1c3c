/**
 * The rows of the three files. Every cell may be missing (pandas NaN, modelled as `None`);
 * the implicit row-identity column that both scripts read as the index is not a cell.
 */
module Records {
  import opened Wrappers
  import opened Counting

  /** The three partitions, in the order in which both scripts concatenate them. */
  datatype Partition = Train | Test | Validation {
    /** The value `load_data` writes into the `source` column. */
    function Tag(): string
    {
      match this
      case Train => "train"
      case Test => "test"
      case Validation => "validation"
    }
  }

  /** One row of train.csv, test.csv or validation.csv. */
  datatype Record = Record(
    sequence: Option<string>,         // NucleotideSequence
    symbol: Option<string>,           // Symbol
    geneType: Option<string>,         // GeneType
    geneGroupMethod: Option<string>,  // GeneGroupMethod
    description: Option<string>)      // Description

  /** The named columns, in file order. */
  datatype Column = NucleotideSequence | Symbol | GeneType | GeneGroupMethod | Description

  const Columns: seq<Column> := [NucleotideSequence, Symbol, GeneType, GeneGroupMethod, Description]

  function Cell(r: Record, c: Column): Option<string>
  {
    match c
    case NucleotideSequence => r.sequence
    case Symbol => r.symbol
    case GeneType => r.geneType
    case GeneGroupMethod => r.geneGroupMethod
    case Description => r.description
  }

  /** `df[c]`: one column of a table, row by row. */
  function ColumnOf(rows: seq<Record>, c: Column): (col: seq<Option<string>>)
    ensures |col| == |rows|
  {
    seq(|rows|, i requires 0 <= i < |rows| => Cell(rows[i], c))
  }

  /** Every row has a symbol. */
  predicate SymbolsPresent(rows: seq<Record>)
  {
    forall i :: 0 <= i < |rows| ==> rows[i].symbol.Some?
  }

  /** Selecting a column commutes with concatenating tables. */
  lemma ColumnOfConcat(a: seq<Record>, b: seq<Record>, c: Column)
    ensures ColumnOf(a + b, c) == ColumnOf(a, c) + ColumnOf(b, c)
  {
  }

  /** A value's count in the combined table is the sum of its counts in the three files. */
  lemma OccurrencesAcrossFiles(train: seq<Record>, test: seq<Record>, val: seq<Record>, c: Column, v: string)
    ensures Occurrences(ColumnOf(train + test + val, c), v)
         == Occurrences(ColumnOf(train, c), v) + Occurrences(ColumnOf(test, c), v) + Occurrences(ColumnOf(val, c), v)
  {
    ColumnOfConcat(train + test, val, c);
    ColumnOfConcat(train, test, c);
    OccurrencesConcat(ColumnOf(train, c) + ColumnOf(test, c), ColumnOf(val, c), v);
    OccurrencesConcat(ColumnOf(train, c), ColumnOf(test, c), v);
  }
}
