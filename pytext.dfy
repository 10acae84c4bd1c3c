/**
 * The few Python `str` operations the two scripts rely on, stated over `seq<char>`:
 * `strip` with an explicit character set, `strip()` with Python's whitespace set,
 * ASCII upper-casing, `count` of one character, `startswith` and `endswith`.
 */
module PyText {

  /** The character set of `strip('<>')`: the two sequence delimiter markers. */
  const Markers: set<char> := {'<', '>'}

  /** The 29 characters for which Python's `str.isspace()` holds; `strip()` removes exactly these. */
  const Whitespace: set<char> :=
    { '\t', '\n', '\U{000B}', '\U{000C}', '\r', '\U{001C}', '\U{001D}', '\U{001E}', '\U{001F}',
      ' ', '\U{0085}', '\U{00A0}', '\U{1680}',
      '\U{2000}', '\U{2001}', '\U{2002}', '\U{2003}', '\U{2004}', '\U{2005}', '\U{2006}',
      '\U{2007}', '\U{2008}', '\U{2009}', '\U{200A}',
      '\U{2028}', '\U{2029}', '\U{202F}', '\U{205F}', '\U{3000}' }

  /** `s.lstrip(cs)`: every leading character that belongs to `cs` is removed. */
  function StripLeading(s: string, cs: set<char>): (r: string)
    ensures |r| <= |s| && r == s[|s| - |r|..]
    ensures forall k :: 0 <= k < |s| - |r| ==> s[k] in cs
    ensures r == [] || r[0] !in cs
  {
    if |s| > 0 && s[0] in cs then StripLeading(s[1..], cs) else s
  }

  /** `s.rstrip(cs)`: every trailing character that belongs to `cs` is removed. */
  function StripTrailing(s: string, cs: set<char>): (r: string)
    ensures |r| <= |s| && r == s[..|r|]
    ensures forall k :: |r| <= k < |s| ==> s[k] in cs
    ensures r == [] || r[|r| - 1] !in cs
  {
    if |s| > 0 && s[|s| - 1] in cs then StripTrailing(s[..|s| - 1], cs) else s
  }

  /**
   * `s.strip(cs)`: the longest run of characters in `cs` is removed from each end, in any
   * order and any number. The result is the contiguous slice of `s` that starts after the
   * leading run, has only characters of `cs` outside it, and does not itself begin or end
   * with a character of `cs`.
   */
  function Strip(s: string, cs: set<char>): (r: string)
    ensures |r| <= |s|
    ensures var i := |s| - |StripLeading(s, cs)|;
            && i + |r| <= |s| && r == s[i..i + |r|]
            && (forall k :: 0 <= k < i ==> s[k] in cs)
            && (forall k :: i + |r| <= k < |s| ==> s[k] in cs)
    ensures r == [] || (r[0] !in cs && r[|r| - 1] !in cs)
  {
    var l := StripLeading(s, cs);
    var r := StripTrailing(l, cs);
    PrefixOfSuffix(s, l, r, cs);
    r
  }

  /** A prefix `r` of a suffix `l` of `s` is a slice of `s`, and what `l` has after `r` is
      what `s` has after it. */
  lemma PrefixOfSuffix(s: string, l: string, r: string, cs: set<char>)
    requires |l| <= |s| && l == s[|s| - |l|..]
    requires |r| <= |l| && r == l[..|r|]
    requires forall k :: |r| <= k < |l| ==> l[k] in cs
    ensures var i := |s| - |l|;
            && i + |r| <= |s| && r == s[i..i + |r|]
            && (forall k :: i + |r| <= k < |s| ==> s[k] in cs)
  {
    var i := |s| - |l|;
    forall k | i + |r| <= k < |s| ensures s[k] in cs {
      assert s[k] == l[k - i];
    }
  }

  /** Stripping is idempotent: a stripped string has nothing left to strip. */
  lemma StripIdempotent(s: string, cs: set<char>)
    ensures Strip(Strip(s, cs), cs) == Strip(s, cs)
  {
    var r := Strip(s, cs);
    assert StripLeading(r, cs) == r;
    assert StripTrailing(r, cs) == r;
  }

  /** The characterisation in `Strip`'s contract determines its result: any slice that has only
      characters of `cs` outside it and none at its own ends is the stripped string. */
  lemma StripUnique(s: string, cs: set<char>, i: nat, j: nat)
    requires i <= j <= |s|
    requires forall k :: 0 <= k < i ==> s[k] in cs
    requires forall k :: j <= k < |s| ==> s[k] in cs
    requires i < j ==> s[i] !in cs && s[j - 1] !in cs
    ensures Strip(s, cs) == s[i..j]
  {
    var r := Strip(s, cs);
    var i' := |s| - |StripLeading(s, cs)|;
    var j' := i' + |r|;
    if i < j {
      assert i' <= i by { if i < i' { assert false; } }
      assert i <= i' by { if i' < i { assert false; } }
      assert j' == j by { if j < j' { assert false; } else if j' < j { assert false; } }
    } else {
      assert |r| == 0 by { if |r| > 0 { assert false; } }
    }
  }

  /** A string that neither begins nor ends with a character of `cs` is left as it is. */
  lemma StripNothing(s: string, cs: set<char>)
    requires s != [] ==> s[0] !in cs && s[|s| - 1] !in cs
    ensures Strip(s, cs) == s
  {
    StripUnique(s, cs, 0, |s|);
    assert s[0..|s|] == s;
  }

  /** Stripping that removes nothing leaves a string whose ends are not in `cs`. */
  lemma StripSameLength(s: string, cs: set<char>)
    requires |Strip(s, cs)| == |s|
    ensures Strip(s, cs) == s
    ensures s == [] || (s[0] !in cs && s[|s| - 1] !in cs)
  {
  }

  /** Python's `str.upper()` restricted to ASCII: `a`..`z` become `A`..`Z`, all else is kept. */
  function UpperChar(c: char): (u: char)
    ensures 'a' <= c <= 'z' ==> u as int == c as int - 32
    ensures !('a' <= c <= 'z') ==> u == c
  {
    if 'a' <= c <= 'z' then (c as int - 32) as char else c
  }

  function Upper(s: string): (u: string)
    ensures |u| == |s|
  {
    if s == [] then [] else [UpperChar(s[0])] + Upper(s[1..])
  }

  /** `s.count(c)` for a one-character `c`. */
  function Count(s: string, c: char): (n: nat)
    ensures n <= |s|
    ensures n > 0 <==> c in s
  {
    if s == [] then 0 else (if s[0] == c then 1 else 0) + Count(s[1..], c)
  }

  /** After upper-casing, an upper-case letter is counted together with its lower-case form. */
  lemma {:induction false} CountUpper(s: string, c: char)
    requires 'A' <= c <= 'Z'
    ensures Count(Upper(s), c) == Count(s, c) + Count(s, (c as int + 32) as char)
  {
    if s != [] {
      CountUpper(s[1..], c);
      assert Upper(s)[1..] == Upper(s[1..]);
    }
  }

  /** Counts of four different characters never exceed the length; the gap is made of other characters. */
  lemma {:induction false} CountFourBound(s: string, a: char, b: char, c: char, d: char)
    requires a != b && a != c && a != d && b != c && b != d && c != d
    ensures Count(s, a) + Count(s, b) + Count(s, c) + Count(s, d) <= |s|
  {
    if s != [] {
      CountFourBound(s[1..], a, b, c, d);
    }
  }

  /** `s.startswith(p)`. */
  predicate StartsWith(s: string, p: string)
  {
    |p| <= |s| && s[..|p|] == p
  }

  /** `s.endswith(p)`. */
  predicate EndsWith(s: string, p: string)
  {
    |p| <= |s| && s[|s| - |p|..] == p
  }
}
