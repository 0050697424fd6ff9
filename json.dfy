/** The decoded JSON values the bot receives from the review API (the value
    grammar of section 3 of RFC 8259), together with the few pieces of Python's
    semantics the bot relies on: truthiness, `type(x)`, `dict.get` and `str(x)`. */
module PyJson {

  /** A decoded JSON value as Python's json module produces it: objects become
      dicts, arrays lists, integral numbers `int` and fractional numbers `float`. */
  datatype Json =
    | JNull
    | JBool(b: bool)
    | JInt(i: int)
    | JFloat(f: real)
    | JString(s: string)
    | JList(items: seq<Json>)
    | JObject(fields: map<string, Json>)

  /** Python truthiness: `bool(x)`, so that `not x` is `!Truthy(x)`. */
  predicate Truthy(j: Json) {
    match j
    case JNull => false
    case JBool(b) => b
    case JInt(i) => i != 0
    case JFloat(f) => f != 0.0
    case JString(s) => s != ""
    case JList(items) => items != []
    case JObject(fields) => fields != map[]
  }

  /** The name of Python's class for the decoded value, as `type(x).__name__` gives it. */
  function TypeName(j: Json): (name: string)
    ensures name != ""
    ensures j.JObject? <==> name == "dict"
    ensures j.JList? <==> name == "list"
  {
    match j
    case JNull => "NoneType"
    case JBool(_) => "bool"
    case JInt(_) => "int"
    case JFloat(_) => "float"
    case JString(_) => "str"
    case JList(_) => "list"
    case JObject(_) => "dict"
  }

  /** `str(type(x))`, as an f-string renders a type object. */
  function ClassRepr(j: Json): string {
    "<class '" + TypeName(j) + "'>"
  }

  /** `d.get(key)` on a dict: the value under `key`, or None when it is absent. */
  function Get(fields: map<string, Json>, key: string): Json
  {
    if key in fields then fields[key] else JNull
  }

  function Digit(d: nat): (c: char)
    requires d < 10
    ensures '0' <= c <= '9'
  {
    ('0' as int + d) as char
  }

  /** Decimal digits of a natural number, most significant first, no leading zero. */
  function NatToDecimal(n: nat): (s: string)
    ensures s != []
    ensures forall k :: 0 <= k < |s| ==> '0' <= s[k] <= '9'
    ensures |s| > 1 ==> s[0] != '0'
    decreases n
  {
    if n < 10 then [Digit(n)] else NatToDecimal(n / 10) + [Digit(n % 10)]
  }

  /** The number a string of decimal digits denotes, most significant digit first. */
  function DigitsValue(s: string): nat
    requires forall k :: 0 <= k < |s| ==> '0' <= s[k] <= '9'
    decreases |s|
  {
    if s == [] then 0
    else 10 * DigitsValue(s[..|s| - 1]) + (s[|s| - 1] as int - '0' as int)
  }

  /** The digits `NatToDecimal` produces denote the number it was given. */
  lemma {:induction false} NatToDecimalValue(n: nat)
    ensures DigitsValue(NatToDecimal(n)) == n
    decreases n
  {
    if n >= 10 {
      NatToDecimalValue(n / 10);
      var s := NatToDecimal(n);
      assert s[..|s| - 1] == NatToDecimal(n / 10);
    }
  }

  /** `str(i)` for a Python int. */
  function IntToDecimal(i: int): (s: string)
    ensures s != []
    ensures (i < 0) <==> s[0] == '-'
    ensures forall k :: 0 < k < |s| ==> '0' <= s[k] <= '9'
    ensures i >= 0 ==> '0' <= s[0] <= '9'
    // No leading zero, as Python writes it.
    ensures i >= 0 && |s| > 1 ==> s[0] != '0'
    ensures i < 0 ==> |s| > 1 && s[1] != '0'
    ensures i < 0 ==> DigitsValue(s[1..]) == -i
    ensures i >= 0 ==> DigitsValue(s) == i
  {
    if i < 0 then
      NatToDecimalValue(-i);
      assert ("-" + NatToDecimal(-i))[1..] == NatToDecimal(-i);
      "-" + NatToDecimal(-i)
    else
      NatToDecimalValue(i);
      NatToDecimal(i)
  }

  /** `str(x)` for the value interpolated into a message. Strings, ints and
      bools are rendered as Python renders them; floats, lists and dicts are
      rendered by a placeholder naming their type. */
  function PyStr(j: Json): string {
    match j
    case JNull => "None"
    case JBool(b) => if b then "True" else "False"
    case JInt(i) => IntToDecimal(i)
    case JString(s) => s
    case _ => "<" + TypeName(j) + ">"
  }
}
