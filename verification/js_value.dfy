/** The JavaScript values a JSON request body can carry, with the two
    coercions the relay relies on: truthiness (`!x`, `x || d`) and `String(x)`. */
module JsValue {

  /** A JSON value as seen by a route handler. `Undefined` is a missing field.
      Numbers are modelled as integers; arrays are not modelled. */
  datatype Value =
    | Undefined
    | Null
    | Bool(b: bool)
    | Num(n: int)
    | Str(s: string)
    | Obj(fields: map<string, Value>)

  /** JavaScript truthiness: `undefined`, `null`, `false`, `0` and `""` are falsy,
      every object is truthy. */
  predicate Truthy(v: Value)
  {
    match v
    case Undefined => false
    case Null => false
    case Bool(b) => b
    case Num(n) => n != 0
    case Str(s) => s != ""
    case Obj(_) => true
  }

  /** `x || fallback`: the value itself when truthy, otherwise the fallback. */
  function OrElse(v: Value, fallback: Value): Value
  {
    if Truthy(v) then v else fallback
  }

  /** JavaScript `String(x)` on the modelled values. */
  function ToJsString(v: Value): (r: string)
    ensures v.Str? ==> r == v.s
    ensures r == "" <==> v == Str("")
    ensures v.Num? && v.n >= 0 ==> IsDecimal(r) && DecimalValue(r) == v.n
    ensures v.Num? && v.n < 0 ==> r[0] == '-' && IsDecimal(r[1..]) && DecimalValue(r[1..]) == -v.n
    ensures v.Num? && v.n >= 0 ==> (r[0] == '0' ==> v.n == 0)
    ensures v.Num? && v.n < 0 ==> r[1] != '0'
    ensures v.Bool? ==> r == (if v.b then "true" else "false")
    ensures v.Obj? ==> r == "[object Object]"
    ensures v == Undefined ==> r == "undefined"
    ensures v == Null ==> r == "null"
  {
    match v
    case Undefined => "undefined"
    case Null => "null"
    case Bool(b) => if b then "true" else "false"
    case Num(n) =>
      NatToDecimalRoundTrip(if n < 0 then -n else n);
      if n < 0 then "-" + NatToDecimal(-n) else NatToDecimal(n)
    case Str(s) => s
    case Obj(_) => "[object Object]"
  }

  /** Decimal digits of a natural number, most significant first. */
  function NatToDecimal(n: nat): (r: string)
    ensures |r| > 0 && IsDecimal(r)
    ensures r[0] == '0' ==> n == 0
    decreases n
  {
    if n < 10 then ["0123456789"[n]] else NatToDecimal(n / 10) + ["0123456789"[n % 10]]
  }

  /** Every character is a decimal digit. */
  predicate IsDecimal(s: string)
  {
    forall i :: 0 <= i < |s| ==> '0' <= s[i] <= '9'
  }

  /** The number a string of decimal digits denotes, most significant digit first. */
  function DecimalValue(s: string): nat
    requires IsDecimal(s)
  {
    if |s| == 0 then 0 else DecimalValue(s[..|s| - 1]) * 10 + (s[|s| - 1] as int - '0' as int)
  }

  /** Reading back the printed digits gives the number. */
  lemma {:induction false} NatToDecimalRoundTrip(n: nat)
    ensures DecimalValue(NatToDecimal(n)) == n
    decreases n
  {
    if n >= 10 {
      NatToDecimalRoundTrip(n / 10);
      var s := NatToDecimal(n);
      assert s[..|s| - 1] == NatToDecimal(n / 10);
    }
  }
}
