/** Normalisation of one raw cell of the cross-impact grid to an impact
    weight: the cell text is stripped of surrounding whitespace, upper-cased
    and looked up in the table 0/1/2/3/P; anything else weighs 0. */
module Cells {

  /** Python's `str.isspace` for one character: the ASCII controls TAB to CR,
      the separators FS/GS/RS/US, SPACE, NEL, NO-BREAK SPACE and the Unicode
      space separators. */
  predicate IsSpace(c: char)
  {
    || c == ' '
    || ('\t' <= c <= '\r')
    || ('\U{1C}' <= c <= '\U{1F}')
    || c == '\U{85}'
    || c == '\U{A0}'
    || c == '\U{1680}'
    || ('\U{2000}' <= c <= '\U{200A}')
    || c == '\U{2028}'
    || c == '\U{2029}'
    || c == '\U{202F}'
    || c == '\U{205F}'
    || c == '\U{3000}'
  }

  predicate AllSpace(s: string)
  {
    forall i :: 0 <= i < |s| ==> IsSpace(s[i])
  }

  /** `s` neither starts nor ends with whitespace. */
  predicate Trimmed(s: string)
  {
    |s| > 0 ==> !IsSpace(s[0]) && !IsSpace(s[|s| - 1])
  }

  /** Length of the run of whitespace at the front of `s`. */
  function LeadingSpaces(s: string): (k: nat)
    ensures k <= |s|
    ensures AllSpace(s[..k])
    ensures k < |s| ==> !IsSpace(s[k])
  {
    if |s| > 0 && IsSpace(s[0]) then
      var k' := LeadingSpaces(s[1..]);
      assert s[..1 + k'] == [s[0]] + s[1..][..k'];
      1 + k'
    else 0
  }

  /** Length of `s` once the run of whitespace at its end is dropped. */
  function ContentEnd(s: string): (e: nat)
    ensures e <= |s|
    ensures AllSpace(s[e..])
    ensures e > 0 ==> !IsSpace(s[e - 1])
  {
    if |s| > 0 && IsSpace(s[|s| - 1]) then
      var e := ContentEnd(s[..|s| - 1]);
      assert s[e..] == s[..|s| - 1][e..] + [s[|s| - 1]];
      e
    else |s|
  }

  /** Python's `str.strip()` with no argument. */
  function Strip(s: string): (r: string)
    ensures Trimmed(r)
    ensures |r| <= |s|
    ensures forall i :: 0 <= i < |s| && !IsSpace(s[i]) ==> s[i] in r
    ensures exists a, b :: AllSpace(a) && AllSpace(b) && s == a + r + b
  {
    var k := LeadingSpaces(s);
    var e := ContentEnd(s[k..]);
    StripParts(s, k, e);
    s[k..][..e]
  }

  /** The middle `s[k..][..e]` of `s`, between a whitespace prefix of length
      `k` and a whitespace suffix, holds every non-whitespace character. */
  lemma StripParts(s: string, k: nat, e: nat)
    requires k <= |s| && e <= |s| - k
    requires AllSpace(s[..k]) && AllSpace(s[k..][e..])
    ensures forall i :: 0 <= i < |s| && !IsSpace(s[i]) ==> s[i] in s[k..][..e]
    ensures exists a, b :: AllSpace(a) && AllSpace(b) && s == a + s[k..][..e] + b
  {
    var t := s[k..];
    assert forall i :: 0 <= i < |s| && !IsSpace(s[i]) ==> k <= i && i - k < e && t[..e][i - k] == s[i];
    assert s == s[..k] + t[..e] + t[e..];
  }

  /** Upper-casing of one character (the ASCII letters a-z). */
  function UpperChar(c: char): char
  {
    if 'a' <= c <= 'z' then (c as int - 32) as char else c
  }

  /** Python's `str.upper()`, restricted to the ASCII letters. */
  function Upper(s: string): (r: string)
    ensures |r| == |s|
  {
    seq(|s|, i requires 0 <= i < |s| => UpperChar(s[i]))
  }

  /** The lookup table of `to_numeric`. */
  const Weights: map<string, int> := map["0" := 0, "1" := 1, "2" := 2, "3" := 3, "P" := 3]

  /** `to_numeric`: strip, upper-case, look up, 0 when the key is missing. */
  function ToNumeric(cell: string): (w: int)
    ensures 0 <= w <= 3
    ensures w == 3 <==> Strip(cell) in {"3", "P", "p"}
    ensures w == 2 <==> Strip(cell) == "2"
    ensures w == 1 <==> Strip(cell) == "1"
    ensures w == 0 <==> Strip(cell) !in {"1", "2", "3", "P", "p"}
  {
    var key := Upper(Strip(cell));
    UpperKey(Strip(cell));
    if key in Weights then Weights[key] else 0
  }

  /** Upper-casing turns a string into one of the table's keys exactly when
      the string is that key, or "p" for "P". */
  lemma UpperKey(t: string)
    ensures Upper(t) == "0" <==> t == "0"
    ensures Upper(t) == "1" <==> t == "1"
    ensures Upper(t) == "2" <==> t == "2"
    ensures Upper(t) == "3" <==> t == "3"
    ensures Upper(t) == "P" <==> t == "P" || t == "p"
  {
    if |t| == 1 {
      assert Upper(t) == [UpperChar(t[0])];
      assert t == [t[0]];
    }
  }

  /** Whitespace around a trimmed string is exactly what `Strip` removes. */
  lemma {:induction false} StripPadded(w1: string, t: string, w2: string)
    requires AllSpace(w1) && AllSpace(w2) && Trimmed(t)
    ensures Strip(w1 + t + w2) == t
  {
    var s := w1 + t + w2;
    var k := LeadingSpaces(s);
    if |t| == 0 {
      assert AllSpace(s) by {
        forall i | 0 <= i < |s| ensures IsSpace(s[i]) {
          if i < |w1| { assert s[i] == w1[i]; } else { assert s[i] == w2[i - |w1|]; }
        }
      }
      assert k == |s|;
      assert s[k..] == [];
    } else {
      assert s[|w1|] == t[0];
      assert k == |w1|;
      var u := s[k..];
      assert u == t + w2;
      var e := ContentEnd(u);
      assert u[|t| - 1] == t[|t| - 1];
      assert e == |t|;
      assert u[..e] == t;
    }
  }

  /** Stripping is idempotent. */
  lemma StripIdempotent(s: string)
    ensures Strip(Strip(s)) == Strip(s)
  {
    StripPadded([], Strip(s), []);
    assert [] + Strip(s) + [] == Strip(s);
  }

  lemma AllSpaceConcat(x: string, y: string)
    requires AllSpace(x) && AllSpace(y)
    ensures AllSpace(x + y)
  {
    forall i | 0 <= i < |x + y| ensures IsSpace((x + y)[i]) {
      if i >= |x| {
        assert (x + y)[i] == y[i - |x|];
      }
    }
  }

  /** Every string is its stripped form with whitespace on either side. */
  lemma StripSplit(s: string) returns (a: string, b: string)
    ensures AllSpace(a) && AllSpace(b)
    ensures s == a + Strip(s) + b
  {
    var k := LeadingSpaces(s);
    var e := ContentEnd(s[k..]);
    a, b := s[..k], s[k..][e..];
    assert s == s[..k] + s[k..][..e] + s[k..][e..];
  }

  lemma Regroup(w1: string, a: string, t: string, b: string, w2: string)
    ensures w1 + (a + t + b) + w2 == (w1 + a) + t + (b + w2)
  {
  }

  /** Whitespace added around any text is removed by `Strip` along with the
      text's own edge whitespace. */
  lemma StripIgnoresPadding(w1: string, s: string, w2: string)
    requires AllSpace(w1) && AllSpace(w2)
    ensures Strip(w1 + s + w2) == Strip(s)
  {
    var a, b := StripSplit(s);
    var t := Strip(s);
    AllSpaceConcat(w1, a);
    AllSpaceConcat(b, w2);
    Regroup(w1, a, t, b, w2);
    StripPadded(w1 + a, t, b + w2);
  }

  /** Surrounding whitespace never changes a cell's weight. */
  lemma ToNumericIgnoresPadding(w1: string, cell: string, w2: string)
    requires AllSpace(w1) && AllSpace(w2)
    ensures ToNumeric(w1 + cell + w2) == ToNumeric(cell)
  {
    StripIgnoresPadding(w1, cell, w2);
  }

  /** "p" and "P" both weigh 3, the strongest impact. */
  lemma PotentialTokenWeighsThree()
    ensures ToNumeric("p") == 3 && ToNumeric("P") == 3
  {
    StripPadded([], "p", []);
    assert [] + "p" + [] == "p";
    StripPadded([], "P", []);
    assert [] + "P" + [] == "P";
  }

  /** A digit padded with whitespace weighs the digit. */
  lemma PaddedDigitExample()
    ensures ToNumeric(" 2\n") == 2
  {
    StripPadded(" ", "2", "\n");
    assert " " + "2" + "\n" == " 2\n";
  }

  /** Blank text weighs 0. */
  lemma BlankWeighsZero()
    ensures ToNumeric("") == 0 && ToNumeric("   ") == 0
  {
    StripPadded("   ", "", []);
    assert "   " + "" + [] == "   ";
  }

  /** Unknown or out-of-range text weighs 0. */
  lemma UnknownTextWeighsZero()
    ensures ToNumeric("x") == 0 && ToNumeric("4") == 0 && ToNumeric("PP") == 0
  {
    StripPadded([], "x", []);
    assert [] + "x" + [] == "x";
    StripPadded([], "4", []);
    assert [] + "4" + [] == "4";
    StripPadded([], "PP", []);
    assert [] + "PP" + [] == "PP";
  }
}
