/** `System.Guid` as the core sees it: through its canonical text form. A
    Guid is identified with what `Guid.ToString()` prints, 32 lower-case hex
    digits grouped 8-4-4-4-12 by hyphens; `Guid.TryParse` reads that "D"
    format back in either case after trimming white space. */
module Guids {

  import opened Primitives
  import opened Text

  predicate IsHexDigit(c: char) {
    '0' <= c <= '9' || 'a' <= c <= 'f' || 'A' <= c <= 'F'
  }

  predicate IsLowerHexDigit(c: char) {
    '0' <= c <= '9' || 'a' <= c <= 'f'
  }

  /** Positions of the four hyphens in the "D" format. */
  predicate IsHyphenPosition(i: int) {
    i == 8 || i == 13 || i == 18 || i == 23
  }

  /** The "D" format with hex digits of either case. */
  predicate IsGuidShape(s: string) {
    |s| == 36 && forall i :: 0 <= i < 36 ==> if IsHyphenPosition(i) then s[i] == '-' else IsHexDigit(s[i])
  }

  /** What `Guid.ToString()` prints. */
  predicate IsCanonical(s: string) {
    |s| == 36 && forall i :: 0 <= i < 36 ==> if IsHyphenPosition(i) then s[i] == '-' else IsLowerHexDigit(s[i])
  }

  type Guid = s: string | IsCanonical(s) witness "00000000-0000-0000-0000-000000000000"

  /** `Guid.Empty`, the default value of the type. */
  const Empty: Guid := "00000000-0000-0000-0000-000000000000"

  /** `Guid.ToString()`: the canonical text is the Guid itself. */
  function ToText(g: Guid): (s: string)
    ensures |s| == 36 && ':' !in s
  {
    assert forall i :: 0 <= i < 36 ==> g[i] != ':';
    g
  }

  /** Folds the upper-case hex letters of a well-shaped text to lower case. */
  function Canonicalize(s: string): (g: Guid)
    requires IsGuidShape(s)
    ensures forall i :: 0 <= i < 36 ==> g[i] == AsciiLower(s[i])
  {
    var g := seq(36, i requires 0 <= i < 36 => AsciiLower(s[i]));
    assert IsCanonical(g) by {
      forall i | 0 <= i < 36
        ensures if IsHyphenPosition(i) then g[i] == '-' else IsLowerHexDigit(g[i])
      {
      }
    }
    g
  }

  /** `Guid.TryParse` for the "D" format: the trimmed input must have the
      shape, and the Guid read is the one whose text matches it up to case. */
  function TryParse(s: string): (r: Option<Guid>)
    ensures r.Some? <==> IsGuidShape(Trim(s))
    ensures r.Some? ==> EqualsIgnoreCase(r.value, Trim(s))
  {
    var t := Trim(s);
    if IsGuidShape(t) then
      var g := Canonicalize(t);
      assert EqualsIgnoreCase(g, t) by {
        forall i | 0 <= i < 36 ensures AsciiLower(g[i]) == AsciiLower(t[i]) {
          assert AsciiLower(AsciiLower(t[i])) == AsciiLower(t[i]);
        }
      }
      Some(g)
    else
      None
  }

  /** Printing a Guid and parsing the text gives the same Guid back. */
  lemma ParseToText(g: Guid)
    ensures TryParse(ToText(g)) == Some(g)
  {
    assert !IsWhiteSpace(g[0]) && !IsWhiteSpace(g[35]);
    TrimUnchanged(g);
    assert IsGuidShape(g);
    assert Canonicalize(g) == g;
  }
}
