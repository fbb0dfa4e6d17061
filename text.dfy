/** The .NET string operations the core relies on: `char.IsWhiteSpace`,
    `Trim`, ordinal `StartsWith`, `Replace`, `string.Join` and the decimal
    rendering of integers used by string interpolation. */
module Text {

  import opened Primitives

  /** `char.IsWhiteSpace`: the Unicode space, line and paragraph separators,
      the controls U+0009 to U+000D, and U+0085. */
  predicate IsWhiteSpace(c: char) {
    || c == ' '
    || ('\t' <= c <= '\r')
    || c == '\U{85}' || c == '\U{A0}' || c == '\U{1680}'
    || ('\U{2000}' <= c <= '\U{200A}')
    || c == '\U{2028}' || c == '\U{2029}' || c == '\U{202F}' || c == '\U{205F}' || c == '\U{3000}'
  }

  /** `string.IsNullOrEmpty`. */
  predicate IsNullOrEmpty(s: NullableString) {
    s.None? || s.value == ""
  }

  /** `string.IsNullOrWhiteSpace`. */
  predicate IsNullOrWhiteSpace(s: NullableString) {
    s.None? || forall i :: 0 <= i < |s.value| ==> IsWhiteSpace(s.value[i])
  }

  /** `TrimStart()`: drops the leading white space and nothing else. */
  function TrimStart(s: string): (r: string)
    ensures |r| <= |s| && r == s[|s| - |r|..]
    ensures r == [] || !IsWhiteSpace(r[0])
    ensures forall i :: 0 <= i < |s| - |r| ==> IsWhiteSpace(s[i])
  {
    if s != [] && IsWhiteSpace(s[0]) then TrimStart(s[1..]) else s
  }

  /** `TrimEnd()`: drops the trailing white space and nothing else. */
  function TrimEnd(s: string): (r: string)
    ensures |r| <= |s| && r == s[..|r|]
    ensures r == [] || !IsWhiteSpace(r[|r| - 1])
    ensures forall i :: |r| <= i < |s| ==> IsWhiteSpace(s[i])
  {
    if s != [] && IsWhiteSpace(s[|s| - 1]) then TrimEnd(s[..|s| - 1]) else s
  }

  /** `Trim()`: a slice of the input that neither starts nor ends with white
      space, cut out of a frame that is white space only. */
  function Trim(s: string): (r: string)
    ensures r == [] || (!IsWhiteSpace(r[0]) && !IsWhiteSpace(r[|r| - 1]))
    ensures var k := |s| - |TrimStart(s)|; k + |r| <= |s| && r == s[k..k + |r|]
  {
    TrimEnd(TrimStart(s))
  }

  /** A string whose ends are not white space is its own trim. */
  lemma TrimUnchanged(s: string)
    requires s == [] || (!IsWhiteSpace(s[0]) && !IsWhiteSpace(s[|s| - 1]))
    ensures Trim(s) == s
  {
  }

  /** Ordinal `StartsWith`. */
  predicate StartsWith(s: string, prefix: string) {
    |prefix| <= |s| && s[..|prefix|] == prefix
  }

  /** `string.Replace(pattern, replacement)`: every non-overlapping occurrence
      of `pattern`, found scanning left to right, is replaced. .NET refuses an
      empty pattern, hence the precondition. The contract only bounds the
      result; what the scan removes is stated by `ReplaceAllAbsent`,
      `ReplaceAllAfter` and `ReplaceAllJoin`. */
  function ReplaceAll(s: string, pattern: string, replacement: string): (r: string)
    requires pattern != []
    ensures replacement == [] ==> |r| <= |s|
    decreases |s|
  {
    if |s| < |pattern| then s
    else if s[..|pattern|] == pattern then replacement + ReplaceAll(s[|pattern|..], pattern, replacement)
    else [s[0]] + ReplaceAll(s[1..], pattern, replacement)
  }

  /** `Replace` introduces no character that is neither in the text nor in
      the replacement. */
  lemma {:induction false} ReplaceAllKeepsCharacters(s: string, pattern: string, replacement: string, c: char)
    requires pattern != [] && c in ReplaceAll(s, pattern, replacement)
    ensures c in s || c in replacement
    decreases |s|
  {
    if |s| >= |pattern| && c !in replacement {
      ReplaceAllStep(s, pattern, replacement);
      var k := if s[..|pattern|] == pattern then |pattern| else 1;
      if k == 1 && c == s[0] {
      } else {
        assert c in ReplaceAll(s[k..], pattern, replacement);
        ReplaceAllKeepsCharacters(s[k..], pattern, replacement, c);
        var j :| 0 <= j < |s[k..]| && s[k..][j] == c;
        assert s[k + j] == c;
      }
    }
  }

  /** A string that lacks some character of the pattern contains no
      occurrence of it, and `Replace` leaves it as it is. */
  lemma {:induction false} ReplaceAllAbsent(s: string, pattern: string, replacement: string, c: char)
    requires pattern != [] && c in pattern && c !in s
    ensures ReplaceAll(s, pattern, replacement) == s
    decreases |s|
  {
    if |s| >= |pattern| {
      var j :| 0 <= j < |pattern| && pattern[j] == c;
      assert s[j] != c;
      assert s[..|pattern|][j] != pattern[j];
      ReplaceAllAbsent(s[1..], pattern, replacement, c);
      assert [s[0]] + s[1..] == s;
    }
  }

  /** The parts written one after another: `string.Concat(parts)`. */
  function Concat(parts: seq<string>): (r: string)
    ensures |parts| == 1 ==> r == parts[0]
  {
    if parts == [] then "" else parts[0] + Concat(parts[1..])
  }

  /** The pattern's last character occurs in it only at the end. */
  predicate EndsOnlyAtLast(pattern: string) {
    pattern != [] && pattern[|pattern| - 1] !in pattern[..|pattern| - 1]
  }

  /** When `prefix` lacks the pattern's last character and that character
      occurs in the pattern only at its end, no occurrence starts inside
      `prefix`: the scan copies it and then replaces the occurrence that
      follows it. */
  lemma {:induction false} ReplaceAllAfter(prefix: string, pattern: string, replacement: string, rest: string)
    requires EndsOnlyAtLast(pattern) && pattern[|pattern| - 1] !in prefix
    ensures ReplaceAll(prefix + pattern + rest, pattern, replacement)
         == prefix + replacement + ReplaceAll(rest, pattern, replacement)
    decreases |prefix|
  {
    if prefix == [] {
      ReplaceAllAtStart(pattern, replacement, rest);
    } else {
      ReplaceAllSkipsFirst(prefix, pattern, replacement, rest);
      TailLacks(prefix, pattern[|pattern| - 1]);
      ReplaceAllAfter(prefix[1..], pattern, replacement, rest);
      var r := ReplaceAll(rest, pattern, replacement);
      assert [prefix[0]] + (prefix[1..] + replacement + r) == prefix + replacement + r by {
        assert [prefix[0]] + prefix[1..] == prefix;
      }
    }
  }

  /** An occurrence at the start is replaced. */
  lemma ReplaceAllAtStart(pattern: string, replacement: string, rest: string)
    requires pattern != []
    ensures ReplaceAll([] + pattern + rest, pattern, replacement) == replacement + ReplaceAll(rest, pattern, replacement)
  {
    var s := [] + pattern + rest;
    assert s[..|pattern|] == pattern && s[|pattern|..] == rest;
    ReplaceAllStep(s, pattern, replacement);
  }

  /** When no occurrence starts at the first character, it is copied. */
  lemma ReplaceAllSkipsFirst(prefix: string, pattern: string, replacement: string, rest: string)
    requires EndsOnlyAtLast(pattern) && pattern[|pattern| - 1] !in prefix && prefix != []
    ensures ReplaceAll(prefix + pattern + rest, pattern, replacement)
         == [prefix[0]] + ReplaceAll(prefix[1..] + pattern + rest, pattern, replacement)
  {
    var s := prefix + pattern + rest;
    NoOccurrenceAtStart(prefix, pattern, rest);
    ReplaceAllStep(s, pattern, replacement);
    assert s[1..] == prefix[1..] + pattern + rest;
  }

  /** A character missing from a text is missing from its tail. */
  lemma TailLacks(s: string, c: char)
    requires s != [] && c !in s
    ensures c !in s[1..]
  {
  }

  /** One step of the scan on a text at least as long as the pattern. */
  lemma ReplaceAllStep(s: string, pattern: string, replacement: string)
    requires pattern != [] && |pattern| <= |s|
    ensures s[..|pattern|] == pattern ==>
      ReplaceAll(s, pattern, replacement) == replacement + ReplaceAll(s[|pattern|..], pattern, replacement)
    ensures s[..|pattern|] != pattern ==>
      ReplaceAll(s, pattern, replacement) == [s[0]] + ReplaceAll(s[1..], pattern, replacement)
  {
  }

  /** Under the same conditions, a non-empty `prefix` means the text does
      not start with the pattern: the pattern's last character would fall
      inside `prefix` or inside the pattern's own head. */
  lemma NoOccurrenceAtStart(prefix: string, pattern: string, rest: string)
    requires EndsOnlyAtLast(pattern) && pattern[|pattern| - 1] !in prefix && prefix != []
    ensures (prefix + pattern + rest)[..|pattern|] != pattern
  {
    var s := prefix + pattern + rest;
    var n := |pattern|;
    if n - 1 < |prefix| {
      assert s[n - 1] == prefix[n - 1];
    } else {
      var k := n - 1 - |prefix|;
      assert s[n - 1] == pattern[k];
      assert pattern[..n - 1][k] == pattern[k];
    }
  }

  /** Removing every occurrence of a separator whose last character occurs
      only at its end, from parts that lack that character, concatenates
      the parts. */
  lemma {:induction false} ReplaceAllJoin(pattern: string, parts: seq<string>)
    requires EndsOnlyAtLast(pattern)
    requires forall i :: 0 <= i < |parts| ==> pattern[|pattern| - 1] !in parts[i]
    ensures ReplaceAll(Join(pattern, parts), pattern, "") == Concat(parts)
  {
    if |parts| == 1 {
      ReplaceAllAbsent(parts[0], pattern, "", pattern[|pattern| - 1]);
    } else if |parts| > 1 {
      ReplaceAllAfter(parts[0], pattern, "", Join(pattern, parts[1..]));
      ReplaceAllJoin(pattern, parts[1..]);
    }
  }

  /** With the separator also in front, the removal still concatenates the
      parts: the leading occurrence is replaced like the others. */
  lemma ReplaceAllPrefixedJoin(pattern: string, parts: seq<string>)
    requires EndsOnlyAtLast(pattern)
    requires forall i :: 0 <= i < |parts| ==> pattern[|pattern| - 1] !in parts[i]
    ensures ReplaceAll(pattern + Join(pattern, parts), pattern, "") == Concat(parts)
  {
    ReplaceAllAfter("", pattern, "", Join(pattern, parts));
    assert "" + pattern + Join(pattern, parts) == pattern + Join(pattern, parts);
    ReplaceAllJoin(pattern, parts);
  }

  /** `string.Join(separator, parts)`; `ReplaceAllJoin` states how the
      separators are removed again. */
  function Join(separator: string, parts: seq<string>): (r: string)
    ensures |parts| == 0 ==> r == ""
    ensures |parts| == 1 ==> r == parts[0]
    ensures |parts| >= 1 ==> |r| >= (|parts| - 1) * |separator|
  {
    if |parts| == 0 then ""
    else if |parts| == 1 then parts[0]
    else parts[0] + separator + Join(separator, parts[1..])
  }

  /** The decimal digit character for `d`. */
  function DigitChar(d: nat): (c: char)
    requires d < 10
    ensures '0' <= c <= '9' && DigitValue(c) == d
  {
    ('0' as int + d) as char
  }

  /** The value of a decimal digit character. */
  function DigitValue(c: char): nat
    requires '0' <= c <= '9'
  {
    (c as int) - ('0' as int)
  }

  /** The decimal rendering of a natural number (no sign, no leading zero). */
  function NatToString(n: nat): (r: string)
    ensures |r| >= 1 && (|r| > 1 ==> r[0] != '0')
    ensures forall i :: 0 <= i < |r| ==> '0' <= r[i] <= '9'
    ensures DigitsValue(r) == n
    decreases n
  {
    if n < 10 then [DigitChar(n)]
    else
      var high := NatToString(n / 10);
      var r := high + [DigitChar(n % 10)];
      assert r[..|r| - 1] == high;
      r
  }

  /** The invariant-culture rendering of an integer in string interpolation. */
  function IntToString(i: int): string {
    if i < 0 then "-" + NatToString(-i) else NatToString(i)
  }

  /** The value of a string of decimal digits. */
  function DigitsValue(s: string): nat
    requires forall i :: 0 <= i < |s| ==> '0' <= s[i] <= '9'
  {
    if s == [] then 0 else DigitsValue(s[..|s| - 1]) * 10 + DigitValue(s[|s| - 1])
  }

  /** Upper-case ASCII letters folded to lower case; everything else kept. */
  function AsciiLower(c: char): (r: char)
    ensures 'A' <= c <= 'Z' ==> 'a' <= r <= 'z'
    ensures !('A' <= c <= 'Z') ==> r == c
  {
    if 'A' <= c <= 'Z' then (c as int + 32) as char else c
  }

  /** `string.Equals(a, b, StringComparison.OrdinalIgnoreCase)` restricted to
      ASCII case folding. */
  predicate EqualsIgnoreCase(a: string, b: string) {
    |a| == |b| && forall i :: 0 <= i < |a| ==> AsciiLower(a[i]) == AsciiLower(b[i])
  }
}
