/**
  JavaScript values as the widget handles them: the settings blob, event data,
  CRM responses and webhook replies are all parsed JSON, so a value is one of the
  JSON kinds plus `undefined`. Numbers are integers here (see README, Left out).
 */
module JsValue {

  datatype Option<+T> = None | Some(value: T)

  /** Outcome of evaluating code that may throw a TypeError. */
  datatype Outcome<+T> = Returned(value: T) | Threw

  datatype Value =
    | Undefined
    | Null
    | Bool(b: bool)
    | Num(n: int)
    | Str(s: string)
    | Arr(items: seq<Value>)
    | Obj(fields: map<string, Value>)

  /** JavaScript truthiness: `undefined`, `null`, `false`, `0` and `""` are falsy. */
  predicate Truthy(v: Value) {
    match v
    case Undefined => false
    case Null => false
    case Bool(b) => b
    case Num(n) => n != 0
    case Str(s) => s != ""
    case Arr(_) => true
    case Obj(_) => true
  }

  /** `v === null || v === undefined` */
  predicate Nullish(v: Value) {
    v.Undefined? || v.Null?
  }

  /** `a === b`. Arrays and objects are compared by reference in JavaScript;
      two parsed values are never the same reference, so they are never equal. */
  predicate StrictEquals(a: Value, b: Value) {
    !a.Arr? && !a.Obj? && a == b
  }

  predicate IsDigit(c: char) {
    '0' <= c <= '9'
  }

  predicate AllDigits(s: string) {
    forall i :: 0 <= i < |s| ==> IsDigit(s[i])
  }

  /** A canonical array-index property name: digits without a leading zero. */
  predicate IsArrayIndex(key: string) {
    key != [] && AllDigits(key) && (key[0] != '0' || |key| == 1)
  }

  function DigitsValue(s: string): nat
    requires AllDigits(s)
  {
    if s == [] then 0
    else DigitsValue(s[..|s| - 1]) * 10 + (s[|s| - 1] as int - '0' as int)
  }

  /** Property read `v[key]` (also `v.key`) on a value that is not null or undefined.
      Members inherited from prototypes are not part of the model. */
  function Get(v: Value, key: string): Value {
    match v
    case Obj(m) => if key in m then m[key] else Undefined
    case Arr(items) =>
      if key == "length" then Num(|items|)
      else if IsArrayIndex(key) && DigitsValue(key) < |items| then items[DigitsValue(key)]
      else Undefined
    case Str(s) =>
      if key == "length" then Num(|s|)
      else if IsArrayIndex(key) && DigitsValue(key) < |s| then Str([s[DigitsValue(key)]])
      else Undefined
    case _ => Undefined
  }

  function DigitChar(d: nat): char
    requires d < 10
  {
    ('0' as int + d) as char
  }

  function NatToString(n: nat): string
  {
    if n < 10 then [DigitChar(n)] else NatToString(n / 10) + [DigitChar(n % 10)]
  }

  /** Decimal text of an integer, as `String(n)` gives it. */
  function IntToString(n: int): string {
    if n < 0 then "-" + NatToString(-n) else NatToString(n)
  }

  /** `String(v)`, which is what a template literal `${v}` inserts. */
  function ToJsString(v: Value): string
    decreases v, 1
  {
    match v
    case Undefined => "undefined"
    case Null => "null"
    case Bool(b) => if b then "true" else "false"
    case Num(n) => IntToString(n)
    case Str(s) => s
    case Arr(items) => JoinElements(items, 0)
    case Obj(_) => "[object Object]"
  }

  /** `Array.prototype.join(",")` from position `i` on: null and undefined
      elements become "". */
  function JoinElements(items: seq<Value>, i: nat): string
    requires i <= |items|
    decreases items, 0, |items| - i
  {
    if i == |items| then ""
    else
      var first := if Nullish(items[i]) then "" else ToJsString(items[i]);
      if i + 1 == |items| then first else first + "," + JoinElements(items, i + 1)
  }
}
