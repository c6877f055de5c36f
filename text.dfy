/**
 * String helpers shared by the Python and JavaScript parts of the model:
 * whitespace classes, strip/trim, ASCII case mapping, prefix and substring
 * tests, searching, first-occurrence replacement, joining and decimal rendering.
 */
module Text {

  /** The character classes the source strips: Python's and JavaScript's whitespace, or one given character. */
  datatype CharClass = PySpace | JsSpace | Only(c: char)

  /**
   * Membership in a class. `PySpace` is what Python's `str.strip()` removes
   * when given no argument (`str.isspace`); `JsSpace` is what JavaScript's
   * `trim()` removes and its regular-expression class `\s` matches.
   */
  predicate In(c: char, k: CharClass)
  {
    match k
    case PySpace =>
      || '\t' <= c <= '\r' || '\U{1C}' <= c <= ' ' || c == '\U{85}' || c == '\U{A0}'
      || c == '\U{1680}' || '\U{2000}' <= c <= '\U{200A}' || c == '\U{2028}' || c == '\U{2029}'
      || c == '\U{202F}' || c == '\U{205F}' || c == '\U{3000}'
    case JsSpace =>
      || '\t' <= c <= '\r' || c == ' ' || c == '\U{A0}'
      || c == '\U{1680}' || '\U{2000}' <= c <= '\U{200A}' || c == '\U{2028}' || c == '\U{2029}'
      || c == '\U{202F}' || c == '\U{205F}' || c == '\U{3000}' || c == '\U{FEFF}'
    case Only(x) => c == x
  }

  /** Removes the longest prefix made of characters in `cs`. */
  function LStrip(s: string, cs: CharClass): (r: string)
    ensures |r| <= |s| && r == s[|s| - |r|..]
    ensures r == [] || !In(r[0], cs)
    ensures forall i :: 0 <= i < |s| - |r| ==> In(s[i], cs)
  {
    if |s| > 0 && In(s[0], cs) then LStrip(s[1..], cs) else s
  }

  /** Removes the longest suffix made of characters in `cs`. */
  function RStrip(s: string, cs: CharClass): (r: string)
    ensures |r| <= |s| && r == s[..|r|]
    ensures r == [] || !In(r[|r| - 1], cs)
    ensures forall i :: |r| <= i < |s| ==> In(s[i], cs)
  {
    if |s| > 0 && In(s[|s| - 1], cs) then RStrip(s[..|s| - 1], cs) else s
  }

  /** Python's `s.strip(chars)` and JavaScript's `s.trim()`, for the given character class. */
  function Strip(s: string, cs: CharClass): string
  {
    LStrip(RStrip(s, cs), cs)
  }

  lemma {:induction false} StripBorders(s: string, cs: CharClass)
    ensures Strip(s, cs) == [] || (!In(Strip(s, cs)[0], cs) && !In(Strip(s, cs)[|Strip(s, cs)| - 1], cs))
  {
    var m := RStrip(s, cs);
    var r := LStrip(m, cs);
    if r != [] {
      assert r == m[|m| - |r|..];
      assert r[|r| - 1] == m[|m| - 1];
    }
  }

  /** A string with no stripped character at either end is left as it is. */
  lemma {:induction false} StripNoop(s: string, cs: CharClass)
    requires s == [] || (!In(s[0], cs) && !In(s[|s| - 1], cs))
    ensures Strip(s, cs) == s
  {
  }

  function LowerChar(c: char): char
  {
    if 'A' <= c <= 'Z' then (c as int + 32) as char else c
  }

  function UpperChar(c: char): char
  {
    if 'a' <= c <= 'z' then (c as int - 32) as char else c
  }

  /** `lower()` / `toLowerCase()` restricted to ASCII letters. */
  function Lower(s: string): (r: string)
    ensures |r| == |s| && forall i :: 0 <= i < |s| ==> r[i] == LowerChar(s[i])
  {
    seq(|s|, i requires 0 <= i < |s| => LowerChar(s[i]))
  }

  /** `toUpperCase()` restricted to ASCII letters. */
  function Upper(s: string): (r: string)
    ensures |r| == |s| && forall i :: 0 <= i < |s| ==> r[i] == UpperChar(s[i])
  {
    seq(|s|, i requires 0 <= i < |s| => UpperChar(s[i]))
  }

  lemma LowerConcat(a: string, b: string)
    ensures Lower(a + b) == Lower(a) + Lower(b)
  {
  }

  predicate StartsWith(s: string, p: string)
  {
    |p| <= |s| && s[..|p|] == p
  }

  predicate EndsWith(s: string, p: string)
  {
    |p| <= |s| && s[|s| - |p|..] == p
  }

  /** A suffix extended on the right stays a suffix of the extended string. */
  lemma EndsWithExtend(a: string, p: string, b: string)
    requires EndsWith(a, p)
    ensures EndsWith(a + b, p + b)
  {
    assert (a + b)[|a + b| - |p + b|..] == a[|a| - |p|..] + b;
  }

  lemma EndsWithSelf(a: string, p: string)
    ensures EndsWith(a + p, p)
  {
    assert (a + p)[|a + p| - |p|..] == p;
  }

  /** A suffix of a suffix is a suffix. */
  lemma EndsWithTrans(a: string, p: string, q: string)
    requires EndsWith(a, p) && EndsWith(p, q)
    ensures EndsWith(a, q)
  {
    assert a[|a| - |q|..] == a[|a| - |p|..][|p| - |q|..];
  }

  /** Python's `p in s` for strings. */
  predicate Contains(s: string, p: string)
    decreases |s|
  {
    StartsWith(s, p) || (|s| > 0 && Contains(s[1..], p))
  }

  /** Python's `s.find(c)` for one character: the first index, or -1. */
  function FindChar(s: string, c: char): (r: int)
    ensures -1 <= r < |s|
    ensures r == -1 <==> c !in s
    ensures r >= 0 ==> s[r] == c && c !in s[..r]
  {
    if |s| == 0 then -1
    else if s[0] == c then 0
    else
      var t := FindChar(s[1..], c);
      assert s[1..][..t + 1] == s[1..t + 2] by { if t >= 0 { } }
      if t == -1 then -1 else t + 1
  }

  /** Python's `s.rfind(c)` for one character: the last index, or -1. */
  function RFindChar(s: string, c: char): (r: int)
    ensures -1 <= r < |s|
    ensures r == -1 <==> c !in s
    ensures r >= 0 ==> s[r] == c && c !in s[r + 1..]
  {
    if |s| == 0 then -1
    else if s[|s| - 1] == c then |s| - 1
    else
      var t := RFindChar(s[..|s| - 1], c);
      assert t >= 0 ==> s[t + 1..] == s[..|s| - 1][t + 1..] + [s[|s| - 1]];
      t
  }

  /** Python's `s.find(p)`: the first index at which `p` occurs, or -1. */
  function IndexOf(s: string, p: string): (r: int)
    ensures -1 <= r <= |s|
    ensures r >= 0 ==> StartsWith(s[r..], p)
    ensures forall j :: 0 <= j < (if r == -1 then |s| + 1 else r) ==> !StartsWith(s[j..], p)
    decreases |s|
  {
    if StartsWith(s, p) then 0
    else if |s| == 0 then -1
    else
      var t := IndexOf(s[1..], p);
      assert forall j :: 1 <= j <= |s| ==> s[j..] == s[1..][j - 1..];
      if t == -1 then -1 else t + 1
  }

  /** Python's `s.replace(p, q, 1)`: replaces the first occurrence of `p` (assumed non-empty). */
  function ReplaceFirst(s: string, p: string, q: string): (r: string)
  {
    var i := IndexOf(s, p);
    if i == -1 then s else s[..i] + q + s[i + |p|..]
  }

  /** `sep.join(parts)` / `parts.join(sep)`. */
  function Join(parts: seq<string>, sep: string): string
  {
    if |parts| == 0 then ""
    else if |parts| == 1 then parts[0]
    else parts[0] + sep + Join(parts[1..], sep)
  }

  function DigitChar(d: nat): char
    requires d < 10
  {
    "0123456789"[d]
  }

  /** Decimal rendering of a natural number, as Python's `str` and JavaScript's `String` give it. */
  function NatToString(n: nat): (r: string)
    ensures |r| >= 1
    ensures forall i :: 0 <= i < |r| ==> '0' <= r[i] <= '9'
    decreases n
  {
    if n < 10 then [DigitChar(n)] else NatToString(n / 10) + [DigitChar(n % 10)]
  }

  function IntToString(i: int): string
  {
    if i < 0 then "-" + NatToString(-i) else NatToString(i)
  }
}
