/**
 * The profile page's avatar: the initials and the background colour derived
 * from the user's name, and the full name shown beside them.
 */
module Avatar {
  import opened Wrappers
  import opened Text

  /** `avatarColors`: the palette the background colour is taken from. */
  const AvatarColors: seq<string> := ["#6366F1", "#EC4899", "#F59E0B", "#10B981", "#3B82F6"]

  // ------------------------------------------------------------------- words

  /** JavaScript's whitespace: what `trim()` removes and the split pattern's `\s` matches. */
  const Space: char -> bool := c => In(c, JsSpace)

  predicate NoSpace(s: string, sp: char -> bool)
  {
    forall i :: 0 <= i < |s| ==> !sp(s[i])
  }

  /** Length of the longest prefix without whitespace. */
  function WordEnd(s: string, sp: char -> bool): (k: nat)
    ensures k <= |s| && NoSpace(s[..k], sp)
    ensures k < |s| ==> sp(s[k])
  {
    if s == [] || sp(s[0]) then 0
    else
      var k := 1 + WordEnd(s[1..], sp);
      assert forall i :: 1 <= i < k ==> s[..k][i] == s[1..][..k - 1][i - 1];
      k
  }

  /** Drops the leading run of whitespace. */
  function SkipSpaces(s: string, sp: char -> bool): (r: string)
    ensures |r| <= |s| && r == s[|s| - |r|..]
    ensures r == [] || !sp(r[0])
    ensures forall i :: 0 <= i < |s| - |r| ==> sp(s[i])
  {
    if s != [] && sp(s[0]) then
      var r := SkipSpaces(s[1..], sp);
      assert forall i :: 1 <= i < |s| - |r| ==> s[i] == s[1..][i - 1];
      r
    else s
  }

  /**
   * `s.split(/\s+/)`: the pieces between maximal runs of whitespace. A
   * leading or trailing run gives an empty first or last piece.
   */
  function SplitWords(s: string, sp: char -> bool): (parts: seq<string>)
    ensures |parts| >= 1
    decreases |s|
  {
    var k := WordEnd(s, sp);
    if k == |s| then [s]
    else
      assert s[k..][0] == s[k];
      [s[..k]] + SplitWords(SkipSpaces(s[k..], sp), sp)
  }

  /** The first piece is the longest whitespace-free prefix; it is the whole text exactly when there is no whitespace. */
  lemma SplitFirst(s: string, sp: char -> bool)
    ensures var parts := SplitWords(s, sp);
      && StartsWith(s, parts[0]) && NoSpace(parts[0], sp)
      && (|parts| == 1 <==> NoSpace(s, sp))
      && (|parts| == 1 ==> parts[0] == s)
      && (|parts| > 1 ==> |parts[0]| < |s| && sp(s[|parts[0]|]))
  {
    var k := WordEnd(s, sp);
    if k == |s| {
      assert s[..k] == s;
    } else {
      assert !NoSpace(s, sp) by {
        assert sp(s[k]);
      }
    }
  }

  lemma FirstWord(t: string, sp: char -> bool)
    requires t != [] && !sp(t[0])
    ensures SplitWords(t, sp)[0] != [] && SplitWords(t, sp)[0][0] == t[0]
  {
    SplitFirst(t, sp);
  }

  /** Where the last whitespace-free run starts: just after the last whitespace. */
  function AfterLastSpace(s: string, sp: char -> bool): (j: nat)
    requires !NoSpace(s, sp)
    ensures 0 < j <= |s| && sp(s[j - 1]) && NoSpace(s[j..], sp)
  {
    if sp(s[|s| - 1]) then |s|
    else
      var p := s[..|s| - 1];
      assert !NoSpace(p, sp) by {
        var i :| 0 <= i < |s| && sp(s[i]);
        assert i < |s| - 1 && p[i] == s[i];
      }
      var j := AfterLastSpace(p, sp);
      assert forall i :: j <= i < |s| - 1 ==> !sp(s[i]) by {
        forall i | j <= i < |s| - 1 ensures !sp(s[i]) {
          assert p[j..][i - j] == s[i];
        }
      }
      assert forall i :: 0 <= i < |s| - j ==> s[j..][i] == s[j + i];
      j
  }

  /** The last piece is what follows the last whitespace. */
  lemma {:induction false} LastWord(t: string, j: nat, sp: char -> bool)
    requires 0 < j <= |t| && sp(t[j - 1]) && NoSpace(t[j..], sp)
    ensures var parts := SplitWords(t, sp); |parts| > 1 && parts[|parts| - 1] == t[j..]
    decreases |t|
  {
    var k := WordEnd(t, sp);
    var m := SkipToWord(t, j, sp);
    var rest := SkipSpaces(t[k..], sp);
    if m < j {
      var j' := j - m;
      assert rest[j' - 1] == t[j - 1];
      assert rest[j'..] == t[j..];
      LastWord(rest, j', sp);
    } else {
      SplitFirst(rest, sp);
    }
  }

  /**
   * In a text with whitespace before position `j` and none from `j` on, the
   * first word ends before `j`, and the whitespace after it ends at `j` at the latest.
   */
  lemma SkipToWord(t: string, j: nat, sp: char -> bool) returns (m: nat)
    requires 0 < j <= |t| && sp(t[j - 1]) && NoSpace(t[j..], sp)
    ensures var k := WordEnd(t, sp); var rest := SkipSpaces(t[k..], sp);
      k < j && m == |t| - |rest| && m <= j && t[m..] == rest
      && SplitWords(t, sp) == [t[..k]] + SplitWords(rest, sp)
  {
    var k := WordEnd(t, sp);
    assert k < |t| && t[k..][0] == t[k];
    var rest := SkipSpaces(t[k..], sp);
    m := |t| - |rest|;
    assert t[m..] == rest;
    if j < |t| {
      assert t[j..][0] == t[j];
      assert t[k..][j - k] == t[j];
    }
  }

  // ------------------------------------------------------------------ initials

  /**
   * `getInitials(fullName)`: "?" for a missing, empty or blank name;
   * otherwise the first character of the first word, followed, when there are
   * several words, by the first character of the last word, upper-cased.
   */
  function GetInitials(fullName: Option<string>): (r: string)
    ensures 1 <= |r| <= 2
    ensures r == "?" || forall i :: 0 <= i < |r| ==> !('a' <= r[i] <= 'z')
  {
    if fullName.None? || fullName.value == "" then "?"
    else
      var trimmed := Strip(fullName.value, JsSpace);
      if trimmed == "" then "?"
      else
        StripBorders(fullName.value, JsSpace);
        TrimmedInitials(trimmed, Space)
  }

  /** The initials of a non-empty name without whitespace at either end. */
  function TrimmedInitials(t: string, sp: char -> bool): (r: string)
    requires t != [] && !sp(t[0]) && !sp(t[|t| - 1])
    ensures 1 <= |r| <= 2 && forall i :: 0 <= i < |r| ==> !('a' <= r[i] <= 'z')
  {
    WordsNonEmpty(t, sp);
    PartsInitials(SplitWords(t, sp))
  }

  /** Non-empty first and last pieces. */
  predicate Initialled(parts: seq<string>)
  {
    parts != [] && parts[0] != [] && parts[|parts| - 1] != []
  }

  /** The first character of the first piece, and of the last one when there are several, upper-cased. */
  function PartsInitials(parts: seq<string>): (r: string)
    requires Initialled(parts)
    ensures 1 <= |r| <= 2 && forall i :: 0 <= i < |r| ==> !('a' <= r[i] <= 'z')
  {
    if |parts| == 1 then Upper([parts[0][0]])
    else Upper([parts[0][0], parts[|parts| - 1][0]])
  }

  /** A name without whitespace at either end splits into a non-empty first and last word. */
  lemma WordsNonEmpty(t: string, sp: char -> bool)
    requires t != [] && !sp(t[0]) && !sp(t[|t| - 1])
    ensures Initialled(SplitWords(t, sp)) && SplitWords(t, sp)[0][0] == t[0]
  {
    FirstWord(t, sp);
    SplitFirst(t, sp);
    if |SplitWords(t, sp)| > 1 {
      LastWord(t, AfterLastSpace(t, sp), sp);
    }
  }

  /** No name, an empty one or a blank one gives "?". */
  lemma BlankInitials(fullName: Option<string>)
    requires fullName.Some? ==> forall i :: 0 <= i < |fullName.value| ==> In(fullName.value[i], JsSpace)
    ensures GetInitials(fullName) == "?"
  {
    if fullName.Some? {
      AllSpaceStrips(fullName.value);
    }
  }

  lemma AllSpaceStrips(s: string)
    requires forall i :: 0 <= i < |s| ==> In(s[i], JsSpace)
    ensures Strip(s, JsSpace) == []
  {
  }

  /** A single word gives its upper-cased first character. */
  lemma OneWordInitial(name: string)
    requires Strip(name, JsSpace) != [] && NoSpace(Strip(name, JsSpace), Space)
    ensures GetInitials(Some(name)) == [UpperChar(Strip(name, JsSpace)[0])]
  {
    SplitFirst(Strip(name, JsSpace), Space);
  }

  /**
   * Several words give the upper-cased first characters of the first word and
   * of the last one, the word that starts after the last whitespace.
   */
  lemma WordsInitials(name: string, j: nat)
    requires var t := Strip(name, JsSpace);
      0 < j < |t| && In(t[j - 1], JsSpace) && NoSpace(t[j..], Space)
    ensures var t := Strip(name, JsSpace);
      GetInitials(Some(name)) == [UpperChar(t[0]), UpperChar(t[j])]
  {
    StripBorders(name, JsSpace);
    TrimmedWords(Strip(name, JsSpace), j, Space);
  }

  lemma TrimmedWords(t: string, j: nat, sp: char -> bool)
    requires t != [] && !sp(t[0]) && !sp(t[|t| - 1])
    requires 0 < j < |t| && sp(t[j - 1]) && NoSpace(t[j..], sp)
    ensures TrimmedInitials(t, sp) == [UpperChar(t[0]), UpperChar(t[j])]
  {
    WordsNonEmpty(t, sp);
    LastWord(t, j, sp);
    assert t[j..][0] == t[j];
    PartsInitialsTwo(SplitWords(t, sp));
  }

  lemma PartsInitialsTwo(parts: seq<string>)
    requires Initialled(parts) && |parts| > 1
    ensures PartsInitials(parts) == [UpperChar(parts[0][0]), UpperChar(parts[|parts| - 1][0])]
  {
  }

  // -------------------------------------------------------------------- colour

  /** The UTF-16 code units of one character: itself, or a surrogate pair above U+FFFF. */
  function CodeUnits(c: char): (units: seq<nat>)
    ensures 1 <= |units| <= 2 && forall i :: 0 <= i < |units| ==> units[i] < 0x10000
  {
    var n := c as int;
    if n < 0x10000 then [n] else [0xD800 + (n - 0x10000) / 0x400, 0xDC00 + (n - 0x10000) % 0x400]
  }

  /** The code units `charCodeAt` reads, in order. */
  function Utf16(s: string): (units: seq<nat>)
    ensures |units| >= |s|
  {
    if s == [] then [] else CodeUnits(s[0]) + Utf16(s[1..])
  }

  function Sum(s: seq<nat>): nat
  {
    if s == [] then 0 else Sum(s[..|s| - 1]) + s[|s| - 1]
  }

  /** The colour the name maps to: the first one for no name, else the code-unit sum modulo the palette size. */
  function ColorFor(name: Option<string>): (color: string)
    ensures color in AvatarColors
    ensures name.Some? && name.value != "" ==> color == AvatarColors[Sum(Utf16(name.value)) % 5]
    ensures name.None? || name.value == "" ==> color == AvatarColors[0]
  {
    if name.None? || name.value == "" then AvatarColors[0]
    else AvatarColors[Sum(Utf16(name.value)) % |AvatarColors|]
  }

  /** `pickColorFromName(name)`: sums the name's character codes in a loop. */
  method PickColorFromName(name: Option<string>) returns (color: string)
    ensures color == ColorFor(name)
    ensures color in AvatarColors
  {
    if name.None? || name.value == "" {
      return AvatarColors[0];
    }
    var units := Utf16(name.value);
    var sum := 0;
    for i := 0 to |units|
      invariant sum == Sum(units[..i])
    {
      assert units[..i + 1][..i] == units[..i];
      sum := sum + units[i];
    }
    assert units[..|units|] == units;
    color := AvatarColors[sum % |AvatarColors|];
  }

  lemma {:induction false} SumConcat(a: seq<nat>, b: seq<nat>)
    ensures Sum(a + b) == Sum(a) + Sum(b)
  {
    if b != [] {
      assert (a + b)[..|a + b| - 1] == a + b[..|b| - 1];
      SumConcat(a, b[..|b| - 1]);
    } else {
      assert a + b == a;
    }
  }

  lemma {:induction false} Utf16Concat(a: string, b: string)
    ensures Utf16(a + b) == Utf16(a) + Utf16(b)
  {
    if a == [] {
      assert a + b == b;
    } else {
      assert (a + b)[1..] == a[1..] + b;
      Utf16Concat(a[1..], b);
    }
  }

  /** Only the character codes count, not their order: swapping two parts of a name keeps its colour. */
  lemma ColorIgnoresOrder(a: string, b: string)
    ensures ColorFor(Some(a + b)) == ColorFor(Some(b + a))
  {
    Utf16Concat(a, b);
    Utf16Concat(b, a);
    SumConcat(Utf16(a), Utf16(b));
    SumConcat(Utf16(b), Utf16(a));
    assert Sum(Utf16(a + b)) == Sum(Utf16(b + a));
    assert |a + b| == |b + a|;
  }

  // ----------------------------------------------------------------- full name

  /** `` `${first} ${last}`.trim() ``. */
  function FullName(first: string, last: string): (full: string)
    ensures full == [] || (!In(full[0], JsSpace) && !In(full[|full| - 1], JsSpace))
  {
    StripBorders(first + " " + last, JsSpace);
    Strip(first + " " + last, JsSpace)
  }

  /** The name the avatar is drawn from: the full name, or "User" when it is empty. */
  function AvatarName(first: string, last: string): (name: string)
    ensures name != ""
    ensures FullName(first, last) != "" ==> name == FullName(first, last)
  {
    var full := FullName(first, last);
    if full == "" then "User" else full
  }

  function AvatarInitials(first: string, last: string): string
  {
    GetInitials(Some(AvatarName(first, last)))
  }

  function AvatarColor(first: string, last: string): string
  {
    ColorFor(Some(AvatarName(first, last)))
  }

  /** Names with no visible character fall back to "User": initials "U" and the first colour. */
  lemma BlankNameFallsBack(first: string, last: string)
    requires forall i :: 0 <= i < |first| ==> In(first[i], JsSpace)
    requires forall i :: 0 <= i < |last| ==> In(last[i], JsSpace)
    ensures AvatarName(first, last) == "User"
    ensures AvatarInitials(first, last) == "U"
    ensures AvatarColor(first, last) == "#6366F1"
  {
    BlankFullName(first, last);
    UserInitials();
    UserColor();
  }

  lemma BlankFullName(first: string, last: string)
    requires forall i :: 0 <= i < |first| ==> In(first[i], JsSpace)
    requires forall i :: 0 <= i < |last| ==> In(last[i], JsSpace)
    ensures FullName(first, last) == ""
  {
    var s := first + " " + last;
    assert forall i :: 0 <= i < |s| ==> In(s[i], JsSpace) by {
      forall i | 0 <= i < |s| ensures In(s[i], JsSpace) {
        if i < |first| {
          assert s[i] == first[i];
        } else if i > |first| {
          assert s[i] == last[i - |first| - 1];
        }
      }
    }
    AllSpaceStrips(s);
  }

  lemma UserInitials()
    ensures GetInitials(Some("User")) == "U"
  {
    StripNoop("User", JsSpace);
    OneWordInitial("User");
  }

  lemma UserColor()
    ensures ColorFor(Some("User")) == "#6366F1"
  {
    var u: seq<nat> := [85, 115, 101, 114];
    assert Utf16("User") == u;
    assert u[..1][..0] == [] && u[..2][..1] == u[..1] && u[..3][..2] == u[..2] && u[..4][..3] == u[..3];
    assert Sum(u[..1]) == 85;
    assert Sum(u[..2]) == 200;
    assert Sum(u[..3]) == 301;
    assert u[..4] == u;
  }

  /** A first and a last name that are single words give both their initials, upper-cased. */
  lemma TwoWordInitials(first: string, last: string)
    requires first != [] && last != [] && NoSpace(first, Space) && NoSpace(last, Space)
    ensures FullName(first, last) == first + " " + last
    ensures AvatarInitials(first, last) == [UpperChar(first[0]), UpperChar(last[0])]
  {
    var s := first + " " + last;
    assert s[0] == first[0] && s[|s| - 1] == last[|last| - 1];
    StripNoop(s, JsSpace);
    var j := |first| + 1;
    assert s[j - 1] == ' ';
    assert s[j..] == last;
    WordsInitials(s, j);
  }
}
