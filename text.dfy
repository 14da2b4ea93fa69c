/** String operations of the Kotlin and JavaScript standard libraries that
    the modelled code relies on, written out over `seq<char>`. */
module Text {

  // ---------------------------------------------------------------------
  // Case mapping (ASCII letters only; see README "Left out")
  // ---------------------------------------------------------------------

  predicate IsUpperAscii(c: char) { 'A' <= c <= 'Z' }

  function LowerChar(c: char): char {
    if IsUpperAscii(c) then (c as int + 32) as char else c
  }

  /** Kotlin `lowercase()`. */
  function Lower(s: string): (r: string)
    ensures |r| == |s|
    ensures forall i :: 0 <= i < |s| ==> r[i] == LowerChar(s[i])
  {
    if s == [] then [] else [LowerChar(s[0])] + Lower(s[1..])
  }

  /** Lower-casing twice is lower-casing once, and no upper-case ASCII
      letter survives it. */
  lemma LowerIdempotent(s: string)
    ensures Lower(Lower(s)) == Lower(s)
    ensures forall i :: 0 <= i < |s| ==> !IsUpperAscii(Lower(s)[i])
  {
  }

  // ---------------------------------------------------------------------
  // Prefix, suffix and substring tests
  // ---------------------------------------------------------------------

  /** Kotlin/JavaScript `startsWith`. */
  predicate StartsWith(s: string, prefix: string) { prefix <= s }

  /** Kotlin `endsWith`. */
  predicate EndsWith(s: string, suffix: string) {
    |suffix| <= |s| && s[|s| - |suffix|..] == suffix
  }

  /** Kotlin `contains` (case-sensitive): `sub` occurs somewhere in `s`. */
  predicate Contains(s: string, sub: string)
    decreases |s|
  {
    sub <= s || (s != [] && Contains(s[1..], sub))
  }

  /** An occurrence of `sub` in `s` at index `i`. */
  predicate OccursAt(s: string, sub: string, i: int) {
    0 <= i && i + |sub| <= |s| && s[i..i + |sub|] == sub
  }

  /** `Contains` agrees with the positional definition of a substring,
      in both directions. */
  lemma {:induction false} ContainsIffOccurs(s: string, sub: string)
    ensures Contains(s, sub) <==> exists i :: OccursAt(s, sub, i)
    decreases |s|
  {
    if sub <= s {
      assert OccursAt(s, sub, 0);
    } else if s != [] {
      ContainsIffOccurs(s[1..], sub);
      if Contains(s[1..], sub) {
        var i :| OccursAt(s[1..], sub, i);
        assert s[i + 1..i + 1 + |sub|] == s[1..][i..i + |sub|];
        assert OccursAt(s, sub, i + 1);
      }
      if exists i :: OccursAt(s, sub, i) {
        var i :| OccursAt(s, sub, i);
        if i != 0 {
          assert s[1..][i - 1..i - 1 + |sub|] == s[i..i + |sub|];
          assert OccursAt(s[1..], sub, i - 1);
        }
      }
    }
  }

  /** The empty string occurs in every string. */
  lemma ContainsEmpty(s: string)
    ensures Contains(s, "")
  {
    assert [] <= s;
  }

  /** Kotlin `contains(other, ignoreCase = true)`. */
  predicate ContainsIgnoreCase(s: string, sub: string) {
    Contains(Lower(s), Lower(sub))
  }

  /** Kotlin `equals(other, ignoreCase = true)`. */
  predicate EqualsIgnoreCase(a: string, b: string) {
    Lower(a) == Lower(b)
  }

  // ---------------------------------------------------------------------
  // Kotlin `replace(oldValue, newValue)`: every non-overlapping occurrence,
  // scanned from the left.
  // ---------------------------------------------------------------------

  function ReplaceAll(s: string, pattern: string, replacement: string): string
    requires |pattern| > 0
    decreases |s|
  {
    if |s| < |pattern| then s
    else if pattern <= s then replacement + ReplaceAll(s[|pattern|..], pattern, replacement)
    else [s[0]] + ReplaceAll(s[1..], pattern, replacement)
  }

  /** A string without the pattern is left unchanged. */
  lemma {:induction false} ReplaceAbsent(s: string, pattern: string, replacement: string)
    requires |pattern| > 0
    requires !Contains(s, pattern)
    ensures ReplaceAll(s, pattern, replacement) == s
    decreases |s|
  {
    if |s| >= |pattern| {
      ReplaceAbsent(s[1..], pattern, replacement);
      assert s == [s[0]] + s[1..];
    }
  }

  /** A prefix that holds no character starting the pattern is copied
      unchanged; replacement starts after it. */
  lemma {:induction false} ReplaceKeepsPrefix(q: string, rest: string, pattern: string, replacement: string)
    requires |pattern| > 0
    requires forall i :: 0 <= i < |q| ==> q[i] != pattern[0]
    ensures ReplaceAll(q + rest, pattern, replacement) == q + ReplaceAll(rest, pattern, replacement)
    decreases |q|
  {
    if q != [] {
      var s := q + rest;
      if |s| < |pattern| {
        assert ReplaceAll(rest, pattern, replacement) == rest;
      } else {
        assert s[0] == q[0] != pattern[0];
        assert !(pattern <= s);
        assert s[1..] == q[1..] + rest;
        ReplaceKeepsPrefix(q[1..], rest, pattern, replacement);
        assert ReplaceAll(s, pattern, replacement) == [s[0]] + ReplaceAll(s[1..], pattern, replacement);
        assert q == [q[0]] + q[1..];
      }
    } else {
      assert q + rest == rest;
    }
  }

  /** Every `from` character turned into `to`, the rest kept. */
  function MapChar(s: string, from: char, to: char): (r: string)
    ensures |r| == |s|
    ensures forall i :: 0 <= i < |s| ==> r[i] == if s[i] == from then to else s[i]
  {
    if s == [] then [] else [if s[0] == from then to else s[0]] + MapChar(s[1..], from, to)
  }

  /** Replacing a one-character string by another is a character map. */
  lemma {:induction false} ReplaceCharIsMap(s: string, from: char, to: char)
    ensures ReplaceAll(s, [from], [to]) == MapChar(s, from, to)
    decreases |s|
  {
    if s != [] {
      ReplaceCharIsMap(s[1..], from, to);
      if [from] <= s {
        assert s[|[from]|..] == s[1..];
      }
    }
  }

  /** One placeholder after a prefix free of its first character is
      replaced by the substitute in place. */
  lemma ReplaceOne(prefix: string, suffix: string, pattern: string, replacement: string)
    requires |pattern| > 0
    requires forall i :: 0 <= i < |prefix| ==> prefix[i] != pattern[0]
    ensures ReplaceAll(prefix + pattern + suffix, pattern, replacement)
         == prefix + replacement + ReplaceAll(suffix, pattern, replacement)
  {
    assert prefix + pattern + suffix == prefix + (pattern + suffix);
    ReplaceKeepsPrefix(prefix, pattern + suffix, pattern, replacement);
    assert pattern <= pattern + suffix;
    assert (pattern + suffix)[|pattern|..] == suffix;
  }

  // ---------------------------------------------------------------------
  // Blankness: Kotlin `isBlank` and JavaScript `trim`
  // ---------------------------------------------------------------------

  /** Kotlin `Char.isWhitespace()`: Java whitespace plus the space
      separators, i.e. tab..carriage return, U+001C..U+001F, the Unicode
      space separators and the line and paragraph separators. */
  predicate KotlinWhitespace(c: char) {
    ('\t' <= c <= '\r') || ('\U{1C}' <= c <= '\U{1F}') || c == ' '
    || c == '\U{A0}' || c == '\U{1680}' || ('\U{2000}' <= c <= '\U{200A}')
    || c == '\U{2028}' || c == '\U{2029}' || c == '\U{202F}' || c == '\U{205F}'
    || c == '\U{3000}'
  }

  /** Kotlin `isBlank()`: empty or whitespace only. */
  predicate IsBlank(s: string) {
    forall i :: 0 <= i < |s| ==> KotlinWhitespace(s[i])
  }

  /** The characters JavaScript's `String.prototype.trim` removes: white
      space and line terminators (ECMAScript, section 12.2 and 12.3). */
  predicate JsWhitespace(c: char) {
    ('\t' <= c <= '\r') || c == ' ' || c == '\U{A0}' || c == '\U{1680}'
    || ('\U{2000}' <= c <= '\U{200A}') || c == '\U{2028}' || c == '\U{2029}'
    || c == '\U{202F}' || c == '\U{205F}' || c == '\U{3000}' || c == '\U{FEFF}'
  }

  function JsTrimStart(s: string): (r: string)
    ensures |r| <= |s|
    ensures r == [] || !JsWhitespace(r[0])
    decreases |s|
  {
    if s != [] && JsWhitespace(s[0]) then JsTrimStart(s[1..]) else s
  }

  function JsTrimEnd(s: string): (r: string)
    ensures |r| <= |s|
    decreases |s|
  {
    if s != [] && JsWhitespace(s[|s| - 1]) then JsTrimEnd(s[..|s| - 1]) else s
  }

  /** JavaScript `trim()`. */
  function JsTrim(s: string): string {
    JsTrimEnd(JsTrimStart(s))
  }

  lemma {:induction false} JsTrimStartEmpty(s: string)
    ensures JsTrimStart(s) == [] <==> forall i :: 0 <= i < |s| ==> JsWhitespace(s[i])
    decreases |s|
  {
    if s != [] && JsWhitespace(s[0]) {
      JsTrimStartEmpty(s[1..]);
      assert forall i :: 1 <= i < |s| ==> s[i] == s[1..][i - 1];
    }
  }

  lemma {:induction false} JsTrimEndEmpty(s: string)
    requires s == [] || !JsWhitespace(s[0])
    ensures JsTrimEnd(s) == [] <==> s == []
    decreases |s|
  {
    if s != [] && JsWhitespace(s[|s| - 1]) {
      JsTrimEndEmpty(s[..|s| - 1]);
    }
  }

  /** `trim()` yields the empty string exactly when the input consists of
      JavaScript white space only, which is how the PWA forms validate. */
  lemma JsTrimEmpty(s: string)
    ensures JsTrim(s) == [] <==> forall i :: 0 <= i < |s| ==> JsWhitespace(s[i])
  {
    JsTrimStartEmpty(s);
    JsTrimEndEmpty(JsTrimStart(s));
  }

  // ---------------------------------------------------------------------
  // Decimal rendering of integers (Kotlin string templates)
  // ---------------------------------------------------------------------

  function DigitChar(d: nat): char
    requires d < 10
  {
    ('0' as int + d) as char
  }

  function NatToString(n: nat): (r: string)
    ensures |r| >= 1
    ensures forall i :: 0 <= i < |r| ==> '0' <= r[i] <= '9'
  {
    if n < 10 then [DigitChar(n)] else NatToString(n / 10) + [DigitChar(n % 10)]
  }

  function IntToString(i: int): string {
    if i < 0 then "-" + NatToString(-i) else NatToString(i)
  }

  /** The value of a string of decimal digits. */
  function DecimalValue(s: string): nat
    requires forall i :: 0 <= i < |s| ==> '0' <= s[i] <= '9'
  {
    if s == [] then 0
    else DecimalValue(s[..|s| - 1]) * 10 + (s[|s| - 1] as int - '0' as int)
  }

  /** Rendering a number in decimal loses nothing: reading it back gives
      the number. */
  lemma {:induction false} DecimalRoundTrip(n: nat)
    ensures DecimalValue(NatToString(n)) == n
  {
    if n >= 10 {
      var s := NatToString(n);
      DecimalRoundTrip(n / 10);
      assert s[..|s| - 1] == NatToString(n / 10);
    }
  }

  /** Kotlin `joinToString(separator)`. */
  function JoinToString(items: seq<string>, separator: string): string {
    if items == [] then ""
    else if |items| == 1 then items[0]
    else items[0] + separator + JoinToString(items[1..], separator)
  }
}
