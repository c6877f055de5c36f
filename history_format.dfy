/**
 * The display helpers of the outfit-history page: HTML escaping, the
 * clean-up of item labels, the ordering of an outfit's items by role and
 * the occasion label and icon. A history entry is the parsed JSON object the
 * page fetches; `JNull` stands for both `null` and `undefined`. The helpers
 * meet it behind `||`, `??` or `?.`, except the occasion label, whose
 * `entry.occasion` throws on a null entry: `OccasionText` requires one that
 * is not null.
 */
module HistoryFormat {
  import opened Text
  import opened JsonValue
  import opened Seqs

  /** JavaScript truthiness; unlike Python's, empty arrays and objects are truthy. */
  predicate JsTruthy(v: Json)
  {
    match v
    case JNull => false
    case JBool(b) => b
    case JInt(i) => i != 0
    case JFloat(r) => r != 0.0
    case JStr(s) => s != ""
    case JArr(_) => true
    case JObj(_) => true
  }

  /** JavaScript's `a || b`. */
  function JsOr(a: Json, b: Json): Json
  {
    if JsTruthy(a) then a else b
  }

  /** JavaScript's `a ?? b`. */
  function Nullish(a: Json, b: Json): Json
  {
    if a.JNull? then b else a
  }

  /** `v?.key`: an object's property; `undefined` for a missing key or a value that is not an object. */
  function Prop(v: Json, key: string): Json
  {
    if v.JObj? && key in v.fields then v.fields[key] else JNull
  }

  /**
   * JavaScript's `String(v)`. How a non-integral number prints is the
   * caller's `numberText`; arrays join their elements' texts with commas,
   * `null` elements printing as nothing.
   */
  function JsString(v: Json, numberText: real -> string): string
    decreases v
  {
    match v
    case JNull => "null"
    case JBool(b) => if b then "true" else "false"
    case JInt(i) => IntToString(i)
    case JFloat(r) => numberText(r)
    case JStr(s) => s
    case JArr(a) => JoinTexts(a, numberText)
    case JObj(_) => "[object Object]"
  }

  /** `a.join(",")`: the elements' texts separated by commas, `null` elements printing as nothing. */
  function JoinTexts(a: seq<Json>, numberText: real -> string): string
    decreases a
  {
    if a == [] then ""
    else
      var head := if a[0].JNull? then "" else JsString(a[0], numberText);
      if |a| == 1 then head else head + "," + JoinTexts(a[1..], numberText)
  }

  // ---------------------------------------------------------------- escapeHtml

  /** `s.replace(/c/g, rep)` for a one-character pattern. */
  function ReplaceAll(s: string, c: char, rep: string): string
  {
    if s == [] then [] else (if s[0] == c then rep else [s[0]]) + ReplaceAll(s[1..], c, rep)
  }

  lemma {:induction false} ReplaceAllConcat(a: string, b: string, c: char, rep: string)
    ensures ReplaceAll(a + b, c, rep) == ReplaceAll(a, c, rep) + ReplaceAll(b, c, rep)
  {
    if a == [] {
      assert a + b == b;
    } else {
      assert (a + b)[1..] == a[1..] + b;
      ReplaceAllConcat(a[1..], b, c, rep);
    }
  }

  /** The five replacements of `escapeHtml`, ampersand first. */
  function EscapeText(s: string): string
  {
    ReplaceAll(ReplaceAll(ReplaceAll(ReplaceAll(ReplaceAll(s, '&', "&amp;"), '<', "&lt;"), '>', "&gt;"),
                          '"', "&quot;"), '\'', "&#039;")
  }

  /** `escapeHtml(value)`: the text of `value ?? ""`, escaped. */
  function EscapeHtml(value: Json, numberText: real -> string): (r: string)
    ensures value.JNull? ==> r == ""
    ensures forall i :: 0 <= i < |r| ==> Safe(r[i])
    ensures Unescape(r) == JsString(Nullish(value, JStr("")), numberText)
  {
    var s := JsString(Nullish(value, JStr("")), numberText);
    EscapeSafe(s);
    EscapeRoundTrip(s);
    EscapeText(s)
  }

  /** The entity each character becomes: reference definition of the escape, one character at a time. */
  function Entity(c: char): string
  {
    match c
    case '&' => "&amp;"
    case '<' => "&lt;"
    case '>' => "&gt;"
    case '"' => "&quot;"
    case '\'' => "&#039;"
    case _ => [c]
  }

  function EscapeEach(s: string): string
  {
    if s == [] then [] else Entity(s[0]) + EscapeEach(s[1..])
  }

  /** A character that cannot open or close a tag or an attribute value. */
  predicate Safe(c: char)
  {
    c != '<' && c != '>' && c != '"' && c != '\''
  }

  lemma ReplaceAllOne(x: char, c: char, rep: string)
    ensures ReplaceAll([x], c, rep) == if x == c then rep else [x]
  {
    assert [x][1..] == [];
  }

  lemma EscapeChar(c: char)
    ensures EscapeText([c]) == Entity(c)
  {
    if c == '&' {
      EscapeAmp();
    } else if c == '<' {
      EscapeLt();
    } else if c == '>' {
      EscapeGt();
    } else if c == '"' {
      EscapeQuot();
    } else if c == '\'' {
      EscapeApos();
    } else {
      ReplaceAllOne(c, '&', "&amp;");
      ReplaceAllOne(c, '<', "&lt;");
      ReplaceAllOne(c, '>', "&gt;");
      ReplaceAllOne(c, '"', "&quot;");
      ReplaceAllOne(c, '\'', "&#039;");
    }
  }

  lemma EscapeAmp()
    ensures EscapeText("&") == Entity('&')
  {
    assert ReplaceAll("&", '&', "&amp;") == "&amp;";
    assert ReplaceAll("&amp;", '<', "&lt;") == "&amp;";
    assert ReplaceAll("&amp;", '>', "&gt;") == "&amp;";
    assert ReplaceAll("&amp;", '"', "&quot;") == "&amp;";
    assert ReplaceAll("&amp;", '\'', "&#039;") == "&amp;";
  }

  lemma EscapeLt()
    ensures EscapeText("<") == Entity('<')
  {
    assert ReplaceAll("<", '&', "&amp;") == "<";
    assert ReplaceAll("<", '<', "&lt;") == "&lt;";
    assert ReplaceAll("&lt;", '>', "&gt;") == "&lt;";
    assert ReplaceAll("&lt;", '"', "&quot;") == "&lt;";
    assert ReplaceAll("&lt;", '\'', "&#039;") == "&lt;";
  }

  lemma EscapeGt()
    ensures EscapeText(">") == Entity('>')
  {
    assert ReplaceAll(">", '&', "&amp;") == ">";
    assert ReplaceAll(">", '<', "&lt;") == ">";
    assert ReplaceAll(">", '>', "&gt;") == "&gt;";
    assert ReplaceAll("&gt;", '"', "&quot;") == "&gt;";
    assert ReplaceAll("&gt;", '\'', "&#039;") == "&gt;";
  }

  lemma EscapeQuot()
    ensures EscapeText("\"") == Entity('"')
  {
    assert ReplaceAll("\"", '&', "&amp;") == "\"";
    assert ReplaceAll("\"", '<', "&lt;") == "\"";
    assert ReplaceAll("\"", '>', "&gt;") == "\"";
    assert ReplaceAll("\"", '"', "&quot;") == "&quot;";
    assert ReplaceAll("&quot;", '\'', "&#039;") == "&quot;";
  }

  lemma EscapeApos()
    ensures EscapeText("'") == Entity('\'')
  {
    assert ReplaceAll("'", '&', "&amp;") == "'";
    assert ReplaceAll("'", '<', "&lt;") == "'";
    assert ReplaceAll("'", '>', "&gt;") == "'";
    assert ReplaceAll("'", '"', "&quot;") == "'";
    assert ReplaceAll("'", '\'', "&#039;") == "&#039;";
  }

  lemma {:induction false} EscapeTextConcat(a: string, b: string)
    ensures EscapeText(a + b) == EscapeText(a) + EscapeText(b)
  {
    var a1, b1 := ReplaceAll(a, '&', "&amp;"), ReplaceAll(b, '&', "&amp;");
    ReplaceAllConcat(a, b, '&', "&amp;");
    var a2, b2 := ReplaceAll(a1, '<', "&lt;"), ReplaceAll(b1, '<', "&lt;");
    ReplaceAllConcat(a1, b1, '<', "&lt;");
    var a3, b3 := ReplaceAll(a2, '>', "&gt;"), ReplaceAll(b2, '>', "&gt;");
    ReplaceAllConcat(a2, b2, '>', "&gt;");
    var a4, b4 := ReplaceAll(a3, '"', "&quot;"), ReplaceAll(b3, '"', "&quot;");
    ReplaceAllConcat(a3, b3, '"', "&quot;");
    ReplaceAllConcat(a4, b4, '\'', "&#039;");
  }

  /** The chain of replacements escapes each character on its own. */
  lemma {:induction false} EscapeIsPerChar(s: string)
    ensures EscapeText(s) == EscapeEach(s)
  {
    if s != [] {
      assert s == [s[0]] + s[1..];
      EscapeTextConcat([s[0]], s[1..]);
      EscapeChar(s[0]);
      EscapeIsPerChar(s[1..]);
    }
  }

  /** Decoding of the five entities, left to right; any other text is kept. */
  function Unescape(s: string): string
  {
    if s == [] then []
    else if StartsWith(s, "&amp;") then "&" + Unescape(s[5..])
    else if StartsWith(s, "&lt;") then "<" + Unescape(s[4..])
    else if StartsWith(s, "&gt;") then ">" + Unescape(s[4..])
    else if StartsWith(s, "&quot;") then "\"" + Unescape(s[6..])
    else if StartsWith(s, "&#039;") then "'" + Unescape(s[6..])
    else [s[0]] + Unescape(s[1..])
  }

  lemma NotStartsAt(s: string, p: string, k: nat)
    requires k < |p| && k < |s| && s[k] != p[k]
    ensures !StartsWith(s, p)
  {
    if |p| <= |s| {
      assert s[..|p|][k] == s[k];
    }
  }

  lemma UnescapeEntity(c: char, rest: string)
    ensures Unescape(Entity(c) + rest) == [c] + Unescape(rest)
  {
    var e := Entity(c) + rest;
    assert e[|Entity(c)|..] == rest;
    if c == '&' {
      assert e[..5] == "&amp;";
    } else if c == '<' {
      assert e[..4] == "&lt;";
      NotStartsAt(e, "&amp;", 1);
    } else if c == '>' {
      assert e[..4] == "&gt;";
      NotStartsAt(e, "&amp;", 1);
      NotStartsAt(e, "&lt;", 1);
    } else if c == '"' {
      assert e[..6] == "&quot;";
      NotStartsAt(e, "&amp;", 1);
      NotStartsAt(e, "&lt;", 1);
      NotStartsAt(e, "&gt;", 1);
    } else if c == '\'' {
      assert e[..6] == "&#039;";
      NotStartsAt(e, "&amp;", 1);
      NotStartsAt(e, "&lt;", 1);
      NotStartsAt(e, "&gt;", 1);
      NotStartsAt(e, "&quot;", 1);
    } else {
      assert e[0] == c;
      NotStartsAt(e, "&amp;", 0);
      NotStartsAt(e, "&lt;", 0);
      NotStartsAt(e, "&gt;", 0);
      NotStartsAt(e, "&quot;", 0);
      NotStartsAt(e, "&#039;", 0);
      assert e[1..] == rest;
    }
  }

  /** Decoding the entities gives back the original text: `&` is replaced before the entities that contain it appear. */
  lemma {:induction false} EscapeRoundTrip(s: string)
    ensures Unescape(EscapeText(s)) == s
  {
    EscapeIsPerChar(s);
    EachRoundTrip(s);
  }

  lemma {:induction false} EachRoundTrip(s: string)
    ensures Unescape(EscapeEach(s)) == s
  {
    if s != [] {
      UnescapeEntity(s[0], EscapeEach(s[1..]));
      EachRoundTrip(s[1..]);
    }
  }

  /** The escaped text holds no `<`, `>`, `"` or `'`. */
  lemma {:induction false} EscapeSafe(s: string)
    ensures forall i :: 0 <= i < |EscapeText(s)| ==> Safe(EscapeText(s)[i])
  {
    EscapeIsPerChar(s);
    EachSafe(s);
  }

  lemma {:induction false} EachSafe(s: string)
    ensures forall i :: 0 <= i < |EscapeEach(s)| ==> Safe(EscapeEach(s)[i])
  {
    if s != [] {
      EachSafe(s[1..]);
      var e := Entity(s[0]);
      assert forall i :: 0 <= i < |e| ==> Safe(e[i]);
    }
  }

  // ---------------------------------------------------------- stripLeadingEmoji

  predicate IsAlnum(c: char)
  {
    'A' <= c <= 'Z' || 'a' <= c <= 'z' || '0' <= c <= '9'
  }

  // The anchored replacement of `stripLeadingEmoji`: drops the leading run of
  // characters that are not ASCII letters or digits. The greedy class already
  // takes any whitespace in that run, so the pattern's trailing `\s*` adds nothing.
  function DropLeadingSymbols(s: string): (r: string)
    ensures |r| <= |s| && r == s[|s| - |r|..]
    ensures r == [] || IsAlnum(r[0])
    ensures forall i :: 0 <= i < |s| - |r| ==> !IsAlnum(s[i])
  {
    if s != [] && !IsAlnum(s[0]) then
      var r := DropLeadingSymbols(s[1..]);
      assert forall i :: 1 <= i < |s| - |r| ==> s[i] == s[1..][i - 1];
      r
    else s
  }

  /** The label clean-up on a text: trim, then drop the leading symbols. */
  function Clean(raw: string): (r: string)
    ensures r == [] || IsAlnum(r[0])
  {
    DropLeadingSymbols(Strip(raw, JsSpace))
  }

  /** `stripLeadingEmoji(text)`: the clean-up applied to the text of `text ?? ""`. */
  function StripLeadingEmoji(text: Json, numberText: real -> string): (r: string)
    ensures r == [] || IsAlnum(r[0])
  {
    Clean(JsString(Nullish(text, JStr("")), numberText))
  }

  /** A text whose trimmed form already starts with a letter or digit is only trimmed. */
  lemma StripLeadingEmojiKeeps(s: string, numberText: real -> string)
    requires Strip(s, JsSpace) != [] && IsAlnum(Strip(s, JsSpace)[0])
    ensures StripLeadingEmoji(JStr(s), numberText) == Strip(s, JsSpace)
  {
    CleanString(s, numberText);
    DropNothing(Strip(s, JsSpace));
  }

  lemma DropNothing(t: string)
    requires t != [] && IsAlnum(t[0])
    ensures DropLeadingSymbols(t) == t
  {
  }

  lemma {:induction false} CleanIdempotent(raw: string)
    ensures Clean(Clean(raw)) == Clean(raw)
  {
    var r := Clean(raw);
    CleanBorders(raw);
    StripNoop(r, JsSpace);
    if r != [] {
      DropNothing(r);
    }
  }

  /** A cleaned text has no whitespace at either end. */
  lemma CleanBorders(raw: string)
    ensures var r := Clean(raw); r == [] || (!In(r[0], JsSpace) && !In(r[|r| - 1], JsSpace))
  {
    var t := Strip(raw, JsSpace);
    var r := DropLeadingSymbols(t);
    StripBorders(raw, JsSpace);
    if r != [] {
      assert r[|r| - 1] == t[|t| - 1];
      AlnumNotSpace(r[0]);
    }
  }

  lemma AlnumNotSpace(c: char)
    requires IsAlnum(c)
    ensures !In(c, JsSpace)
  {
  }

  lemma CleanString(r: string, numberText: real -> string)
    ensures StripLeadingEmoji(JStr(r), numberText) == Clean(r)
  {
    assert Nullish(JStr(r), JStr("")) == JStr(r);
    assert JsString(JStr(r), numberText) == r;
    assert StripLeadingEmoji(JStr(r), numberText) == Clean(JsString(JStr(r), numberText));
  }

  /** Cleaning a cleaned label changes nothing. */
  lemma StripLeadingEmojiIdempotent(text: Json, numberText: real -> string)
    ensures var r := StripLeadingEmoji(text, numberText);
      StripLeadingEmoji(JStr(r), numberText) == r
  {
    var raw := JsString(Nullish(text, JStr("")), numberText);
    CleanIdempotent(raw);
    CleanString(Clean(raw), numberText);
  }

  // ----------------------------------------------------------- formatItemLabel

  /** The cleaned name of an item object: its `name`, else its `role`; empty when it has neither. */
  function ItemName(it: Json, numberText: real -> string): (r: string)
    ensures r == [] || IsAlnum(r[0])
    ensures !JsTruthy(Prop(it, "name")) && !JsTruthy(Prop(it, "role")) ==> r == ""
  {
    var raw := JsOr(JsOr(Prop(it, "name"), Prop(it, "role")), JStr(""));
    EmptyLabel(numberText);
    StripLeadingEmoji(raw, numberText)
  }

  /** The empty text cleans to the empty label. */
  lemma EmptyLabel(numberText: real -> string)
    ensures StripLeadingEmoji(JStr(""), numberText) == ""
  {
    CleanString("", numberText);
    assert RStrip("", JsSpace) == "" && LStrip("", JsSpace) == "";
  }

  /** The trimmed colour of an item object. */
  function ItemColor(it: Json, numberText: real -> string): string
  {
    Strip(JsString(JsOr(Prop(it, "color"), JStr("")), numberText), JsSpace)
  }

  /**
   * The label of a named item: the name, prefixed with the colour and a space
   * unless the colour is empty or the name already starts with the colour and
   * a space, compared case-insensitively; nothing when there is no name.
   */
  function ColouredName(name: string, color: string): (r: string)
    ensures r == "" <==> name == ""
    ensures EndsWith(r, name)
    ensures name != "" && color != "" ==> StartsWith(Lower(r), Lower(color) + " ")
    ensures r != name ==> r == color + " " + name
    ensures StartsWith(Lower(name), Lower(color) + " ") ==> r == name
    ensures color == "" ==> r == name
  {
    if name == "" then ""
    else if color == "" then name
    else if StartsWith(Lower(name), Lower(color) + " ") then name
    else
      var r := color + " " + name;
      LowerConcat(color + " ", name);
      LowerConcat(color, " ");
      assert Lower(r)[..|Lower(color) + " "|] == Lower(color) + " ";
      EndsWithSelf(color + " ", name);
      r
  }

  /** Labelling a label again with the same colour changes nothing: the colour is never doubled. */
  lemma ColouredNameOnce(name: string, color: string)
    ensures ColouredName(ColouredName(name, color), color) == ColouredName(name, color)
  {
  }

  /**
   * `formatItemLabel(it)`: a string item is only cleaned; anything else is
   * labelled by its name (else role), prefixed once with its colour.
   */
  function FormatItemLabel(it: Json, numberText: real -> string): (r: string)
    ensures it.JStr? ==> r == StripLeadingEmoji(it, numberText) && (r == [] || IsAlnum(r[0]))
    ensures !it.JStr? && !JsTruthy(Prop(it, "name")) && !JsTruthy(Prop(it, "role")) ==> r == ""
    ensures !it.JStr? && ItemColor(it, numberText) == "" ==> r == ItemName(it, numberText)
    ensures !it.JStr? ==> EndsWith(r, ItemName(it, numberText))
    ensures !it.JStr? && r != ItemName(it, numberText) ==> r == ItemColor(it, numberText) + " " + ItemName(it, numberText)
    ensures !it.JStr? && StartsWith(Lower(ItemName(it, numberText)), Lower(ItemColor(it, numberText)) + " ") ==>
      r == ItemName(it, numberText)
  {
    if it.JStr? then StripLeadingEmoji(it, numberText)
    else ColouredName(ItemName(it, numberText), ItemColor(it, numberText))
  }

  // ---------------------------------------------------------- formatOutfitText

  /** `roleOrder`. */
  const RoleOrder: map<string, nat> := map["top" := 1, "onepiece" := 2, "bottom" := 3, "outer" := 4, "shoes" := 5]

  /** `roleOrder[role] || 99`. */
  function Rank(role: string): nat
  {
    if role in RoleOrder then RoleOrder[role] else 99
  }

  /** Tops come first, then one-pieces, bottoms, outerwear and shoes; every other role comes last. */
  lemma RankOrder(role: string)
    ensures Rank("top") < Rank("onepiece") < Rank("bottom") < Rank("outer") < Rank("shoes") < 99
    ensures role !in {"top", "onepiece", "bottom", "outer", "shoes"} ==> Rank(role) == 99
  {
  }

  /** The lower-cased role the comparator reads; anything but an object has none. */
  function RoleKey(it: Json, numberText: real -> string): string
  {
    if it.JObj? || it.JArr? then Lower(JsString(JsOr(Prop(it, "role"), JStr("")), numberText)) else ""
  }

  function ItemRank(numberText: real -> string): Json -> nat
  {
    it => Rank(RoleKey(it, numberText))
  }

  predicate SortedBy<T>(s: seq<T>, key: T -> nat)
  {
    forall i, j :: 0 <= i < j < |s| ==> key(s[i]) <= key(s[j])
  }

  /** Inserts `x` before the first element whose key is not smaller. */
  function InsertByKey<T>(x: T, s: seq<T>, key: T -> nat): (r: seq<T>)
    ensures multiset(r) == multiset(s) + multiset{x}
  {
    if s == [] then [x]
    else if key(x) <= key(s[0]) then [x] + s
    else
      assert s == [s[0]] + s[1..];
      [s[0]] + InsertByKey(x, s[1..], key)
  }

  lemma {:induction false} InsertSorted<T>(x: T, s: seq<T>, key: T -> nat)
    requires SortedBy(s, key)
    ensures SortedBy(InsertByKey(x, s, key), key)
  {
    if s == [] {
    } else if key(x) <= key(s[0]) {
      var r := [x] + s;
      forall i, j | 0 <= i < j < |r| ensures key(r[i]) <= key(r[j]) {
        if i > 0 {
          assert r[i] == s[i - 1] && r[j] == s[j - 1];
        } else {
          assert r[j] == s[j - 1];
        }
      }
    } else {
      var t := InsertByKey(x, s[1..], key);
      InsertSorted(x, s[1..], key);
      var r := [s[0]] + t;
      forall i, j | 0 <= i < j < |r| ensures key(r[i]) <= key(r[j]) {
        if i > 0 {
          assert r[i] == t[i - 1] && r[j] == t[j - 1];
        } else {
          assert r[j] == t[j - 1];
          assert r[j] in multiset(t);
          if r[j] != x {
            assert r[j] in multiset(s[1..]);
            var k :| 0 <= k < |s[1..]| && s[1..][k] == r[j];
            assert s[k + 1] == r[j];
          }
        }
      }
    }
  }

  /**
   * `slice().sort((a, b) => key(a) - key(b))` with JavaScript's stable sort:
   * by key, ties kept in their original order.
   */
  function SortByKey<T>(s: seq<T>, key: T -> nat): (r: seq<T>)
    ensures multiset(r) == multiset(s)
    ensures SortedBy(r, key)
  {
    if s == [] then [] else
      assert s == [s[0]] + s[1..];
      var t := SortByKey(s[1..], key);
      InsertSorted(s[0], t, key);
      InsertByKey(s[0], t, key)
  }

  lemma {:induction false} InsertFilter<T>(x: T, t: seq<T>, key: T -> nat, p: T -> bool)
    requires SortedBy(t, key)
    ensures Filter(InsertByKey(x, t, key), p) == if p(x) then InsertByKey(x, Filter(t, p), key) else Filter(t, p)
  {
    if t == [] {
      assert [x][1..] == [];
    } else if key(x) <= key(t[0]) {
      assert ([x] + t)[1..] == t;
      var ft := Filter(t, p);
      if p(x) && ft != [] {
        FilterMembers(t, p);
        assert ft[0] in t;
        var k :| 0 <= k < |t| && t[k] == ft[0];
        assert key(t[0]) <= key(t[k]);
      }
    } else {
      var rest := InsertByKey(x, t[1..], key);
      assert ([t[0]] + rest)[1..] == rest;
      assert SortedBy(t[1..], key) by {
        forall i, j | 0 <= i < j < |t[1..]| ensures key(t[1..][i]) <= key(t[1..][j]) {
          assert t[1..][i] == t[i + 1] && t[1..][j] == t[j + 1];
        }
      }
      InsertFilter(x, t[1..], key, p);
      var f1 := Filter(t[1..], p);
      if p(t[0]) {
        assert Filter(t, p) == [t[0]] + f1;
        assert ([t[0]] + f1)[0] == t[0] && ([t[0]] + f1)[1..] == f1;
      } else {
        assert Filter(t, p) == f1;
      }
    }
  }

  /** Sorting then filtering is filtering then sorting. */
  lemma {:induction false} SortFilter<T>(s: seq<T>, key: T -> nat, p: T -> bool)
    ensures Filter(SortByKey(s, key), p) == SortByKey(Filter(s, p), key)
  {
    if s != [] {
      SortFilter(s[1..], key, p);
      InsertFilter(s[0], SortByKey(s[1..], key), key, p);
      var f1 := Filter(s[1..], p);
      if p(s[0]) {
        assert Filter(s, p) == [s[0]] + f1;
        assert ([s[0]] + f1)[0] == s[0] && ([s[0]] + f1)[1..] == f1;
      } else {
        assert Filter(s, p) == f1;
      }
    }
  }

  function KeyIs<T>(key: T -> nat, k: nat): T -> bool
  {
    x => key(x) == k
  }

  lemma {:induction false} SortEqualKeys<T>(s: seq<T>, key: T -> nat, k: nat)
    requires forall i :: 0 <= i < |s| ==> key(s[i]) == k
    ensures SortByKey(s, key) == s
  {
    if s != [] {
      SortEqualKeys(s[1..], key, k);
    }
  }

  /** The sort is stable: the elements of any one key keep their original order. */
  lemma StableSort<T>(s: seq<T>, key: T -> nat, k: nat)
    ensures Filter(SortByKey(s, key), KeyIs(key, k)) == Filter(s, KeyIs(key, k))
  {
    SortFilter(s, key, KeyIs(key, k));
    FilterMembers(s, KeyIs(key, k));
    SortEqualKeys(Filter(s, KeyIs(key, k)), key, k);
  }

  function ItemLabel(numberText: real -> string): Json -> string
  {
    it => FormatItemLabel(it, numberText)
  }

  function Labelled(numberText: real -> string): Json -> bool
  {
    it => FormatItemLabel(it, numberText) != ""
  }

  function NonEmpty(s: string): bool
  {
    s != ""
  }

  /**
   * `formatOutfitText(entry)`: an array outfit is sorted by role rank on a
   * copy, labelled, stripped of empty labels and joined with ", "; anything
   * else is returned as it is, or as "" when falsy.
   */
  function FormatOutfitText(entry: Json, numberText: real -> string): (r: Json)
    ensures var o := Prop(entry, "outfit");
      && (o.JArr? ==> r.JStr?)
      && (!o.JArr? && JsTruthy(o) ==> r == o)
      && (!o.JArr? && !JsTruthy(o) ==> r == JStr(""))
  {
    var o := Prop(entry, "outfit");
    if !o.JArr? then JsOr(o, JStr(""))
    else JStr(Join(Filter(Map(SortByKey(o.elems, ItemRank(numberText)), ItemLabel(numberText)), NonEmpty), ", "))
  }

  /**
   * The text of an array outfit lists, joined with ", ", the labels of the
   * items that have one, ordered by rank and, within a rank, as given.
   */
  lemma OutfitTextRanked(entry: Json, numberText: real -> string)
    requires Prop(entry, "outfit").JArr?
    ensures var elems := Prop(entry, "outfit").elems;
      var items := SortByKey(Filter(elems, Labelled(numberText)), ItemRank(numberText));
      && FormatOutfitText(entry, numberText) == JStr(Join(Map(items, ItemLabel(numberText)), ", "))
      && SortedBy(items, ItemRank(numberText))
      && multiset(items) == multiset(Filter(elems, Labelled(numberText)))
      && (forall i :: 0 <= i < |items| ==> FormatItemLabel(items[i], numberText) != "")
      && (forall k: nat :: Filter(items, KeyIs(ItemRank(numberText), k))
                            == Filter(Filter(elems, Labelled(numberText)), KeyIs(ItemRank(numberText), k)))
  {
    var elems := Prop(entry, "outfit").elems;
    var key, labelOf := ItemRank(numberText), ItemLabel(numberText);
    var sorted := SortByKey(elems, key);
    FilterMap(sorted, labelOf, NonEmpty, Labelled(numberText));
    SortFilter(elems, key, Labelled(numberText));
    var items := SortByKey(Filter(elems, Labelled(numberText)), key);
    FilterMembers(sorted, Labelled(numberText));
    forall k: nat ensures Filter(items, KeyIs(key, k)) == Filter(Filter(elems, Labelled(numberText)), KeyIs(key, k)) {
      StableSort(Filter(elems, Labelled(numberText)), key, k);
    }
  }

  // ------------------------------------------------------------------ occasion

  /** `occasionEmoji`. */
  const OccasionEmoji: map<string, string> := map[
    "Casual" := "\U{1F455}", "Formal" := "\U{1F454}", "Party" := "\U{1F389}",
    "Gym" := "\U{1F3CB}\U{FE0F}", "Rainy" := "\U{2614}"]

  const DefaultIcon: string := "\U{2728}"

  /** The occasion text of an entry: `String(entry.occasion || "—")`; a null entry throws there. */
  function OccasionText(entry: Json, numberText: real -> string): (r: string)
    requires !entry.JNull?
    ensures !JsTruthy(Prop(entry, "occasion")) ==> r == "\U{2014}"
    ensures Prop(entry, "occasion").JStr? && r != "\U{2014}" ==> r == Prop(entry, "occasion").s
    ensures Prop(entry, "occasion").JStr? && Prop(entry, "occasion").s != "" ==> r == Prop(entry, "occasion").s
  {
    JsString(JsOr(Prop(entry, "occasion"), JStr("\U{2014}")), numberText)
  }

  /** `occasionEmoji[occ] || "✨"`: the occasion's emoji, or the sparkles for any other occasion. */
  function OccasionIcon(occ: string): (icon: string)
    ensures icon == DefaultIcon <==> occ !in OccasionEmoji
    ensures occ in OccasionEmoji ==> icon == OccasionEmoji[occ]
  {
    if occ in OccasionEmoji then OccasionEmoji[occ] else DefaultIcon
  }

  /** An entry with no occasion shows the dash and the sparkles. */
  lemma OccasionDefaults(entry: Json, numberText: real -> string)
    requires !entry.JNull?
    requires !JsTruthy(Prop(entry, "occasion"))
    ensures OccasionText(entry, numberText) == "\U{2014}"
    ensures OccasionIcon(OccasionText(entry, numberText)) == DefaultIcon
  {
  }
}
