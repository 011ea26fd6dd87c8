/** The values that configuration files and JSONL records hold once parsed:
    the JSON data model as Python sees it (floating-point numbers are not
    modelled). */
module Json {
  import opened Text

  datatype Value =
    | Null
    | Bool(b: bool)
    | Int(i: int)
    | Str(s: string)
    | List(items: seq<Value>)
    | Dict(fields: map<string, Value>)

  /** Python truthiness: `None`, `False`, `0`, `""`, `[]` and `{}` are false. */
  predicate Truthy(v: Value) {
    match v
    case Null => false
    case Bool(b) => b
    case Int(i) => i != 0
    case Str(s) => s != []
    case List(xs) => xs != []
    case Dict(m) => m != map[]
  }

  /** `d.get(key, default)` */
  function GetOr(d: map<string, Value>, key: string, default: Value): Value {
    if key in d then d[key] else default
  }

  /** `d.get(key, {})` when the caller goes on to call `.get` on the result:
      `None` stands for the `AttributeError` Python raises when the stored
      value is not a dict. */
  function SubDict(d: map<string, Value>, key: string): (r: Option<map<string, Value>>)
    ensures key !in d ==> r == Some(map[])
    ensures key in d ==> (r.Some? <==> d[key].Dict?)
    ensures key in d && d[key].Dict? ==> r == Some(d[key].fields)
  {
    if key !in d then Some(map[])
    else match d[key]
      case Dict(m) => Some(m)
      case _ => None
  }

  /** Python's `key in item` on a parsed JSON line: key membership for a
      dict, element membership for a list, substring for a string. `None`
      is the `TypeError` raised for `null`, booleans and numbers. */
  function KeyIn(item: Value, key: string): Option<bool> {
    match item
    case Dict(m) => Some(key in m)
    case List(xs) => Some(Str(key) in xs)
    case Str(s) => Some(Contains(s, key))
    case _ => None
  }
  /** The character of decimal digit `d`. */
  function DigitChar(d: nat): (c: char)
    requires d < 10
    ensures '0' <= c <= '9' && (c as int) - ('0' as int) == d
  {
    (('0' as int) + d) as char
  }

  /** `str(n)` for a natural number: its decimal numeral, without leading zeros. */
  function NatText(n: nat): (s: string)
    ensures s != [] && forall i :: 0 <= i < |s| ==> '0' <= s[i] <= '9'
    ensures n == 0 <==> s == "0"
    ensures n > 0 ==> s[0] != '0'
    decreases n
  {
    if n < 10 then [DigitChar(n)] else NatText(n / 10) + [DigitChar(n % 10)]
  }

  /** `str(i)` for an integer: a minus sign before the numeral of a negative one. */
  function IntText(i: int): (s: string)
    ensures i >= 0 ==> s == NatText(i)
    ensures i < 0 ==> s == "-" + NatText(-i)
  {
    if i < 0 then "-" + NatText(-i) else NatText(i)
  }

  /** The text `str(v)`, and so an f-string, gives a scalar value; `None`
      for a list or a dict, whose `repr` text is not modelled. */
  function PyStr(v: Value): (r: Option<string>)
    ensures r.None? <==> v.List? || v.Dict?
    ensures v.Str? ==> r == Some(v.s)
    ensures v.Null? ==> r == Some("None")
    ensures v.Bool? ==> r == Some(if v.b then "True" else "False")
    ensures v.Int? ==> r.Some? && r.value != [] && (r.value[0] == '-' <==> v.i < 0)
  {
    match v
    case Null => Some("None")
    case Bool(b) => Some(if b then "True" else "False")
    case Int(i) => Some(IntText(i))
    case Str(s) => Some(s)
    case _ => None
  }
}
