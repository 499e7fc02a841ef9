/**
 * The slice of JavaScript's value semantics that the request lifecycle and the
 * test harness rely on: truthiness (the `if (x)` and `x || y` tests), property
 * lookup that yields `undefined` for a missing key, and the string coercion
 * that `+` applies when one operand is a string.
 *
 * Numbers are modelled as mathematical integers.
 */
module JsValue {

  datatype Value =
    | Undefined
    | Null
    | Bool(b: bool)
    | Num(n: int)
    | Str(s: string)
    | Fn(source: string)                 // a function, known by its source text
    | Arr(items: seq<Value>)
    | Obj(fields: map<string, Value>)

  /**
   * The exception a step can throw: calling something that is not a
   * function, calling a missing method, or assigning a property of a
   * primitive in strict mode.
   */
  datatype JsError = TypeError

  /** ECMAScript ToBoolean. */
  predicate Truthy(v: Value) {
    match v
    case Undefined => false
    case Null => false
    case Bool(b) => b
    case Num(n) => n != 0
    case Str(s) => s != ""
    case Fn(_) => true
    case Arr(_) => true
    case Obj(_) => true
  }

  /** The value of `a || b`: the left operand when it is truthy, else the right one. */
  function Or(a: Value, b: Value): Value {
    if Truthy(a) then a else b
  }

  /** `o[k]` on a plain object: `undefined` for a key it does not hold. */
  function Get(o: map<string, Value>, k: string): Value {
    if k in o then o[k] else Undefined
  }

  function DigitChar(d: nat): char
    requires d < 10
  {
    "0123456789"[d]
  }

  /** The decimal digits of a natural number, most significant first. */
  function NatDigits(n: nat): (s: string)
    ensures |s| > 0
    ensures forall i :: 0 <= i < |s| ==> '0' <= s[i] <= '9'
  {
    if n < 10 then [DigitChar(n)] else NatDigits(n / 10) + [DigitChar(n % 10)]
  }

  /** The number a string of decimal digits denotes. */
  function DecimalValue(s: string): nat
    requires forall i :: 0 <= i < |s| ==> '0' <= s[i] <= '9'
  {
    if s == [] then 0
    else DecimalValue(s[..|s| - 1]) * 10 + (s[|s| - 1] as int - '0' as int)
  }

  /** Printing a number in decimal and reading it back gives the number. */
  lemma {:induction false} DecimalRoundTrip(n: nat)
    ensures DecimalValue(NatDigits(n)) == n
  {
    var s := NatDigits(n);
    if n >= 10 {
      DecimalRoundTrip(n / 10);
      assert s[..|s| - 1] == NatDigits(n / 10);
    }
  }

  /**
   * ECMAScript ToString of an integer below 10^21 in magnitude, where it is
   * the plain decimal form; JavaScript prints larger magnitudes in exponent
   * form, which is not modelled.
   */
  function NumberToString(n: int): string {
    if n < 0 then "-" + NatDigits(-n) else NatDigits(n)
  }

  /**
   * ECMAScript ToString after ToPrimitive: what `"" + v` yields. A plain
   * object prints as "[object Object]", an array as its elements joined by
   * ",", with `undefined` and `null` elements printed as empty strings.
   */
  function ToStr(v: Value): string
    decreases v
  {
    match v
    case Undefined => "undefined"
    case Null => "null"
    case Bool(b) => if b then "true" else "false"
    case Num(n) => NumberToString(n)
    case Str(s) => s
    case Fn(source) => source
    case Arr(items) => JoinItems(items)
    case Obj(_) => "[object Object]"
  }

  function JoinItems(items: seq<Value>): string
    decreases items
  {
    if |items| == 0 then ""
    else
      var head := if items[0].Undefined? || items[0].Null? then "" else ToStr(items[0]);
      if |items| == 1 then head else head + "," + JoinItems(items[1..])
  }
}
