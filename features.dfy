/**
 * Per-record features: the marker-stripped sequence length (two variants, one per script),
 * nucleotide composition and GC content, the shape features of `Symbol`, text lengths and
 * the 50-character preview of the report.
 */
module Features {
  import opened Wrappers
  import opened PyText
  import opened Counting

  /** Python's `str(x)` for a cell: a missing value is the float NaN, which prints as "nan". */
  function Str(x: Option<string>): (s: string)
    ensures x == None ==> s == "nan"
    ensures x.Some? ==> s == x.value
  {
    match x
    case None => "nan"
    case Some(s) => s
  }

  // ---------------------------------------------------------------- sequence length

  /** `str(x).strip('<>')`: the sequence text without its delimiter markers. */
  function MarkerStripped(x: Option<string>): string
  {
    Strip(Str(x), Markers)
  }

  /**
   * The `seq_length` column of create_visualizations.py: `len(str(x).strip('<>'))`.
   * Only markers are removed; a missing sequence is measured as the text "nan".
   */
  function SeqLength(x: Option<string>): (n: nat)
    ensures x == None ==> n == 3
    ensures n <= |Str(x)|
  {
    StripNothing("nan", Markers);
    |MarkerStripped(x)|
  }

  /** A sequence without any marker character is measured in full. */
  lemma SeqLengthUnmarked(s: string)
    requires forall k :: 0 <= k < |s| ==> s[k] !in Markers
    ensures SeqLength(Some(s)) == |s|
  {
    StripUnique(s, Markers, 0, |s|);
  }

  /** `str(seq).strip('<>').strip()` of generate_report.py: markers first, then whitespace. */
  function ReportStripped(s: string): (t: string)
    ensures |t| <= |Strip(s, Markers)|
    ensures t == [] || (t[0] !in Whitespace && t[|t| - 1] !in Whitespace)
  {
    Strip(Strip(s, Markers), Whitespace)
  }

  /** `get_seq_length` of generate_report.py: 0 for a missing value, else the length after
      stripping markers and then whitespace. */
  function ReportSeqLength(x: Option<string>): (n: nat)
    ensures x == None ==> n == 0
    ensures x.Some? ==> n <= |x.value|
  {
    match x
    case None => 0
    case Some(s) => |ReportStripped(s)|
  }

  /** For a present sequence the report's length never exceeds the visualisations' one, and the
      two agree exactly when the marker-stripped text has no whitespace at either end. */
  lemma ReportLengthAtMostSeqLength(s: string)
    ensures ReportSeqLength(Some(s)) <= SeqLength(Some(s))
    ensures var m := Strip(s, Markers);
            (m == [] || (m[0] !in Whitespace && m[|m| - 1] !in Whitespace))
            <==> ReportSeqLength(Some(s)) == SeqLength(Some(s))
  {
    var m := Strip(s, Markers);
    var t := Strip(m, Whitespace);
    assert ReportSeqLength(Some(s)) == |t| && SeqLength(Some(s)) == |m|;
    if m == [] || (m[0] !in Whitespace && m[|m| - 1] !in Whitespace) {
      StripUnique(m, Whitespace, 0, |m|);
    } else if |t| == |m| {
      StripSameLength(m, Whitespace);
    }
  }

  /** A marked sequence `<core>` is measured without its markers by both scripts (so "<ATGC>"
      has length 4), provided the core itself neither starts nor ends with a marker or blank. */
  lemma MarkedSequenceLength(core: string)
    requires core != [] ==> core[0] !in Markers + Whitespace && core[|core| - 1] !in Markers + Whitespace
    ensures SeqLength(Some("<" + core + ">")) == |core|
    ensures ReportSeqLength(Some("<" + core + ">")) == |core|
  {
    var s := "<" + core + ">";
    StripUnique(s, Markers, 1, |s| - 1);
    assert s[1..|s| - 1] == core;
    StripUnique(core, Whitespace, 0, |core|);
  }

  /** Whitespace outside a marker keeps the marker: when the raw text begins and ends with
      whitespace, `strip('<>')` removes nothing, so the visualisations measure the whole text and
      the report strips only the whitespace (any markers inside, as in " <AT> ", are counted). */
  lemma WhitespaceShieldsMarkers(s: string)
    requires s != [] && s[0] in Whitespace && s[|s| - 1] in Whitespace
    ensures MarkerStripped(Some(s)) == s && SeqLength(Some(s)) == |s|
    ensures ReportStripped(s) == Strip(s, Whitespace)
  {
    BlankIsNoMarker(s[0]);
    BlankIsNoMarker(s[|s| - 1]);
    StripNothing(s, Markers);
  }

  lemma BlankIsNoMarker(c: char)
    requires c in Whitespace
    ensures c !in Markers
  {
  }

  // ---------------------------------------------------------------- nucleotide composition

  /** Integer nucleotide counts over the stripped, upper-cased sequence, and its length. */
  datatype BaseCounts = BaseCounts(a: nat, t: nat, g: nat, c: nat, total: nat)

  /** The text `calc_composition` and `gc_content` count in: `str(seq).strip('<>').upper()`. */
  function Prepared(x: Option<string>): (u: string)
    ensures |u| == SeqLength(x)
  {
    Upper(MarkerStripped(x))
  }

  /** The four counts and the length of a prepared text; together the counts never exceed the
      length (other characters make up the gap). */
  function Bases(u: string): (b: BaseCounts)
    ensures && b.a == Count(u, 'A') && b.t == Count(u, 'T')
            && b.g == Count(u, 'G') && b.c == Count(u, 'C') && b.total == |u|
    ensures b.a + b.t + b.g + b.c <= b.total
  {
    CountFourBound(u, 'A', 'T', 'G', 'C');
    BaseCounts(Count(u, 'A'), Count(u, 'T'), Count(u, 'G'), Count(u, 'C'), |u|)
  }

  /** Counting after upper-casing: a lower-case base counts as its upper-case letter. */
  function CountBases(x: Option<string>): (b: BaseCounts)
    ensures b.total == SeqLength(x)
    ensures var m := MarkerStripped(x);
            && b.a == Count(m, 'A') + Count(m, 'a') && b.t == Count(m, 'T') + Count(m, 't')
            && b.g == Count(m, 'G') + Count(m, 'g') && b.c == Count(m, 'C') + Count(m, 'c')
    ensures b.a + b.t + b.g + b.c <= b.total
  {
    var m := MarkerStripped(x);
    CountUpper(m, 'A');
    CountUpper(m, 'T');
    CountUpper(m, 'G');
    CountUpper(m, 'C');
    Bases(Prepared(x))
  }

  /** The dictionary `calc_composition` returns, with Python's float division idealised as
      exact real division. */
  datatype Composition = Composition(a: real, t: real, g: real, c: real, gc: real)

  /** The percentages of a non-empty sequence: each base over the length, GC = G + C. */
  function Percentages(b: BaseCounts): (p: Composition)
    requires b.total > 0 && b.a + b.t + b.g + b.c <= b.total
    ensures && p.a == Percent(b.a, b.total) && p.t == Percent(b.t, b.total)
            && p.g == Percent(b.g, b.total) && p.c == Percent(b.c, b.total)
    ensures p.gc == p.g + p.c == Percent(b.g + b.c, b.total)
    ensures 0.0 <= p.gc <= 100.0
    ensures 0.0 <= p.a + p.t + p.g + p.c <= 100.0
  {
    var a, t := Percent(b.a, b.total), Percent(b.t, b.total);
    var g, c := Percent(b.g, b.total), Percent(b.c, b.total);
    var gc := Percent(b.g + b.c, b.total);
    PercentAdd(b.g, b.c, b.total);
    PercentAdd(b.a, b.t, b.total);
    PercentAdd(b.a + b.t, b.g + b.c, b.total);
    PercentBounds(b.g + b.c, b.total);
    PercentBounds(b.a + b.t + b.g + b.c, b.total);
    Composition(a, t, g, c, gc)
  }

  /** The composition of a prepared text: all zeros when it is empty, else its percentages. */
  function CompositionOf(u: string): Composition
  {
    var b := Bases(u);
    if b.total == 0 then Composition(0.0, 0.0, 0.0, 0.0, 0.0) else Percentages(b)
  }

  /** `calc_composition`: all zeros for an empty stripped sequence, else each base as a
      percentage of the length (see `Percent`); GC is G + C and lies in [0, 100], and the four
      bases together stay within 100, other characters making up the rest. */
  function CalcComposition(x: Option<string>): (p: Composition)
    ensures var b := CountBases(x);
            && (b.total == 0 ==> p == Composition(0.0, 0.0, 0.0, 0.0, 0.0))
            && (b.total > 0 ==> && p.a == Percent(b.a, b.total) && p.t == Percent(b.t, b.total)
                                && p.g == Percent(b.g, b.total) && p.c == Percent(b.c, b.total))
    ensures p.gc == p.g + p.c
    ensures 0.0 <= p.gc <= 100.0
    ensures 0.0 <= p.a + p.t + p.g + p.c <= 100.0
  {
    CompositionOf(Prepared(x))
  }

  /** GC content of a prepared text: 0 when empty, else `(count('G') + count('C')) / len * 100`. */
  function GcOf(u: string): real
  {
    if |u| == 0 then 0.0 else Percent(Count(u, 'G') + Count(u, 'C'), |u|)
  }

  /** `gc_content` of the correlation heatmap, computed on its own from the prepared text. */
  function GcContent(x: Option<string>): real
  {
    GcOf(Prepared(x))
  }

  /** The two GC computations agree on every input. */
  lemma GcContentMatchesComposition(x: Option<string>)
    ensures GcContent(x) == CalcComposition(x).gc
  {
    GcOfMatches(Prepared(x));
  }

  lemma GcOfMatches(u: string)
    ensures GcOf(u) == CompositionOf(u).gc
  {
    var b := Bases(u);
    if |u| > 0 {
      assert CompositionOf(u) == Percentages(b);
    }
  }

  // ---------------------------------------------------------------- symbol features

  predicate IsUpperAscii(c: char)
  {
    'A' <= c <= 'Z'
  }

  /** The longest leading run of `A`..`Z` in `s` (possibly empty). */
  function UpperRun(s: string): (p: string)
    ensures |p| <= |s| && p == s[..|p|]
    ensures forall k :: 0 <= k < |p| ==> IsUpperAscii(p[k])
    ensures |p| == |s| || !IsUpperAscii(s[|p|])
  {
    if |s| > 0 && IsUpperAscii(s[0]) then [s[0]] + UpperRun(s[1..]) else []
  }

  /** `Symbol.str.extract(r'^([A-Z]+)')`: the leading upper-case run, or NaN when the symbol is
      missing or does not start with an upper-case ASCII letter. */
  function SymbolPrefix(x: Option<string>): (p: Option<string>)
    ensures p.Some? <==> x.Some? && |x.value| > 0 && IsUpperAscii(x.value[0])
    ensures p.Some? ==> && |p.value| > 0 && StartsWith(x.value, p.value)
                        && (forall k :: 0 <= k < |p.value| ==> IsUpperAscii(p.value[k]))
                        && (|p.value| == |x.value| || !IsUpperAscii(x.value[|p.value|]))
  {
    match x
    case None => None
    case Some(s) =>
      var run := UpperRun(s);
      if |run| == 0 then None else Some(run)
  }

  /** `Symbol.str.endswith('P')`: NaN for a missing symbol, else whether its last character is `P`. */
  function EndsWithP(x: Option<string>): (b: Option<bool>)
    ensures x == None <==> b == None
    ensures x.Some? ==> b.value == (|x.value| > 0 && x.value[|x.value| - 1] == 'P')
  {
    match x
    case None => None
    case Some(s) => Some(EndsWith(s, "P"))
  }

  /** `Symbol.str.startswith('LOC')`: NaN for a missing symbol, else whether it begins with LOC. */
  function StartsWithLoc(x: Option<string>): (b: Option<bool>)
    ensures x == None <==> b == None
    ensures x.Some? ==> b.value == (|x.value| >= 3 && x.value[0] == 'L' && x.value[1] == 'O' && x.value[2] == 'C')
  {
    match x
    case None => None
    case Some(s) => Some(StartsWith(s, "LOC"))
  }

  /** `.str.len()`: NaN for a missing value, else the number of characters. */
  function TextLength(x: Option<string>): (n: Option<nat>)
    ensures x == None <==> n == None
    ensures x.Some? ==> n.value == |x.value|
  {
    match x
    case None => None
    case Some(s) => Some(|s|)
  }

  // ---------------------------------------------------------------- preview

  const PreviewWidth: nat := 50

  /** `str(x)[:50] + '...' if len(str(x)) > 50 else x`: a long value becomes its first 50
      characters and "...", anything else (NaN included, as "nan" is short) is kept as is. */
  function Preview(x: Option<string>): (r: Option<string>)
    ensures x == None ==> r == None
    ensures x.Some? && |x.value| > PreviewWidth ==>
              && r.Some? && |r.value| == PreviewWidth + 3
              && r.value[..PreviewWidth] == x.value[..PreviewWidth] && r.value[PreviewWidth..] == "..."
    ensures x.Some? && |x.value| <= PreviewWidth ==> r == x
  {
    var s := Str(x);
    if |s| > PreviewWidth then Some(s[..PreviewWidth] + "...") else x
  }

  /** A preview is its own preview. */
  lemma PreviewIdempotent(x: Option<string>)
    ensures Preview(Preview(x)) == Preview(x)
  {
    if x.Some? && |x.value| > PreviewWidth {
      var r := Preview(x).value;
      assert r[..PreviewWidth] + "..." == r;
    }
  }
}
