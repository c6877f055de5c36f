/**
 * The values Python's `json.loads` produces, as the untrusted reply of the
 * generative model reaches the validator, with the few Python built-ins the
 * pipeline applies to them: truthiness, `dict.get`, `or`, `int()` and `str()`.
 */
module JsonValue {
  import opened Wrappers
  import opened Text

  /** A parsed JSON document. Numbers with a fraction or exponent are floats, the rest ints, as in Python. */
  datatype Json =
    | JNull
    | JBool(b: bool)
    | JInt(i: int)
    | JFloat(r: real)
    | JStr(s: string)
    | JArr(elems: seq<Json>)
    | JObj(fields: map<string, Json>)

  /** Python truthiness of a parsed value. */
  predicate Truthy(j: Json)
  {
    match j
    case JNull => false
    case JBool(b) => b
    case JInt(i) => i != 0
    case JFloat(r) => r != 0.0
    case JStr(s) => s != ""
    case JArr(a) => a != []
    case JObj(m) => m != map[]
  }

  /** `d.get(key)` on a dict: `None` when the key is absent. */
  function Get(m: map<string, Json>, key: string): Json
  {
    if key in m then m[key] else JNull
  }

  /** Python's `a or b`. */
  function Or(a: Json, b: Json): (r: Json)
    ensures Truthy(a) ==> r == a
    ensures !Truthy(a) ==> r == b
  {
    if Truthy(a) then a else b
  }

  predicate IsDigit(c: char)
  {
    '0' <= c <= '9'
  }

  /** Python's integer literal body: digits, single underscores allowed between digits. */
  predicate WellFormedDigits(b: string)
  {
    && |b| > 0
    && IsDigit(b[0])
    && IsDigit(b[|b| - 1])
    && (forall i :: 0 <= i < |b| ==> IsDigit(b[i]) || b[i] == '_')
    && (forall i :: 0 <= i < |b| - 1 ==> b[i] != '_' || b[i + 1] != '_')
  }

  /** The value of a string of digits and underscores, underscores skipped. */
  function DigitsValue(b: string): nat
  {
    if |b| == 0 then 0
    else
      var last := b[|b| - 1];
      if IsDigit(last) then DigitsValue(b[..|b| - 1]) * 10 + (last as int - '0' as int)
      else DigitsValue(b[..|b| - 1])
  }

  /** Python's `int(text)` for an already-stripped text: an optional sign and a decimal body. */
  function ParseDecimal(t: string): Option<int>
  {
    if |t| > 0 && (t[0] == '+' || t[0] == '-') then
      if WellFormedDigits(t[1..]) then
        Some(if t[0] == '-' then -(DigitsValue(t[1..]) as int) else DigitsValue(t[1..]))
      else None
    else if WellFormedDigits(t) then Some(DigitsValue(t))
    else None
  }

  /** Conversion of a float to int: truncation toward zero. */
  function Truncate(r: real): int
  {
    if r >= 0.0 then r.Floor else -((-r).Floor)
  }

  /** Python's `int(x)`; `None` stands for the exception it raises. */
  function ToInt(j: Json): Option<int>
  {
    match j
    case JInt(i) => Some(i)
    case JBool(b) => Some(if b then 1 else 0)
    case JFloat(r) => Some(Truncate(r))
    case JStr(s) => ParseDecimal(Strip(s, PySpace))
    case _ => None
  }

  /**
   * Python's `str(x)` for the scalar shapes an id takes. Floats, lists and
   * objects give `None`: their Python rendering is not modelled.
   */
  function ToStr(j: Json): Option<string>
  {
    match j
    case JNull => Some("None")
    case JBool(b) => Some(if b then "True" else "False")
    case JInt(i) => Some(IntToString(i))
    case JStr(s) => Some(s)
    case _ => None
  }

  lemma DigitCharValue(d: nat)
    requires d < 10
    ensures IsDigit(DigitChar(d)) && DigitChar(d) as int - '0' as int == d
  {
    assert "0123456789"[d] as int == '0' as int + d by {
      if d < 5 { assert d == 0 || d == 1 || d == 2 || d == 3 || d == 4; }
      else { assert d == 5 || d == 6 || d == 7 || d == 8 || d == 9; }
    }
  }

  /** The digits `str` prints for a natural number add back up to it. */
  lemma {:induction false} NatDigitsValue(n: nat)
    ensures DigitsValue(NatToString(n)) == n
    decreases n
  {
    if n < 10 {
      DigitCharValue(n);
      assert NatToString(n)[..0] == [];
    } else {
      var s := NatToString(n / 10);
      NatDigitsValue(n / 10);
      DigitCharValue(n % 10);
      assert NatToString(n) == s + [DigitChar(n % 10)];
      assert (s + [DigitChar(n % 10)])[..|s|] == s;
    }
  }

  /** Python's `int()` reads back every integer that `str` prints. */
  lemma ParseDecimalRoundTrip(n: int)
    ensures ParseDecimal(IntToString(n)) == Some(n)
  {
    var m: nat := if n < 0 then -n else n;
    NatDigitsValue(m);
    var d := NatToString(m);
    assert WellFormedDigits(d) by {
      assert forall i :: 0 <= i < |d| ==> IsDigit(d[i]);
    }
    var t := IntToString(n);
    if n < 0 {
      assert t == "-" + d;
      assert |t| > 0 && t[0] == '-' && t[1..] == d;
      assert ParseDecimal(t) == Some(-(DigitsValue(d) as int));
    } else {
      assert t == d && IsDigit(t[0]);
      assert ParseDecimal(t) == Some(DigitsValue(d));
    }
  }

  /**
   * The texts `int()` accepts: an optional sign followed by digits with
   * single underscores between them; only a leading minus gives a negative
   * value, the negation of what the rest reads as.
   */
  lemma ParseDecimalAccepts(t: string)
    ensures ParseDecimal(t).Some? <==>
      WellFormedDigits(t) || (|t| > 0 && (t[0] == '+' || t[0] == '-') && WellFormedDigits(t[1..]))
    ensures ParseDecimal(t).Some? && ParseDecimal(t).value < 0 ==> t[0] == '-'
    ensures |t| > 0 && (t[0] == '+' || t[0] == '-') && WellFormedDigits(t[1..]) ==>
      ParseDecimal(t) == Some(if t[0] == '-' then -ParseDecimal(t[1..]).value else ParseDecimal(t[1..]).value)
  {
  }

  lemma ParseDecimalExamples()
    ensures ParseDecimal("12") == Some(12)
    ensures ParseDecimal("-3") == Some(-3)
    ensures ParseDecimal("1_000") == Some(1000)
    ensures ParseDecimal("1__0") == None
    ensures ParseDecimal("abc") == None
    ensures ParseDecimal("") == None
  {
    assert WellFormedDigits("12");
    assert DigitsValue("1") == 1;
    assert DigitsValue("12") == 12;
    assert WellFormedDigits("3");
    assert WellFormedDigits("1_000");
    assert "1_000"[..4] == "1_00";
    assert "1_00"[..3] == "1_0";
    assert "1_0"[..2] == "1_";
    assert "1_"[..1] == "1";
    assert "12"[..1] == "1";
    assert "-3"[1..] == "3";
    assert "1__0"[1] == '_' && "1__0"[2] == '_';
  }
}
