/** JavaScript values as they reach the proxy in request bodies and provider replies,
    and the few pieces of JavaScript semantics the onboarding code relies on:
    truthiness, the `||` and `??` operators, property reads that throw on
    `undefined`/`null`, and conversion to a string. */
module JsValue {

  datatype Option<+T> = None | Some(value: T)

  /** A JSON-like JavaScript value. Numbers are integers here (see README). */
  datatype Value =
    | Undefined
    | Null
    | Bool(b: bool)
    | Num(n: int)
    | NaN
    | Str(s: string)
    | Arr(items: seq<Value>)
    | Obj(fields: map<string, Value>)

  /** The outcome of evaluating a JavaScript expression: a value or a thrown error message. */
  datatype Completion<+T> = Normal(value: T) | Throw(message: string)

  /** ECMAScript ToBoolean. */
  predicate Truthy(v: Value)
  {
    match v
    case Undefined => false
    case Null => false
    case Bool(b) => b
    case Num(n) => n != 0
    case NaN => false
    case Str(s) => s != ""
    case Arr(_) => true
    case Obj(_) => true
  }

  /** `undefined` or `null`: the values `??` and `?.` look through. */
  predicate Nullish(v: Value)
  {
    v.Undefined? || v.Null?
  }

  /** `v || d`: the left operand unless it is falsy. */
  function Or(v: Value, d: Value): (r: Value)
    ensures Truthy(v) ==> r == v
    ensures !Truthy(v) ==> r == d
    ensures Truthy(r) <==> Truthy(v) || Truthy(d)
  {
    if Truthy(v) then v else d
  }

  /** `v ?? d`: the left operand unless it is `undefined` or `null`. */
  function Coalesce(v: Value, d: Value): (r: Value)
    ensures !Nullish(v) ==> r == v
    ensures Nullish(v) ==> r == d
    ensures Nullish(r) <==> Nullish(v) && Nullish(d)
  {
    if Nullish(v) then d else v
  }

  /** `v.key`: throws a TypeError on `undefined` and `null`; an object yields its own
      property or `undefined`; every other value yields `undefined`. */
  function Get(v: Value, key: string): (r: Completion<Value>)
    ensures r.Throw? <==> Nullish(v)
    ensures v.Obj? && key in v.fields ==> r == Normal(v.fields[key])
    ensures v.Obj? && key !in v.fields ==> r == Normal(Undefined)
  {
    match v
    case Undefined => Throw("Cannot read properties of undefined (reading '" + key + "')")
    case Null => Throw("Cannot read properties of null (reading '" + key + "')")
    case Obj(m) => Normal(if key in m then m[key] else Undefined)
    case _ => Normal(Undefined)
  }

  function DigitChar(d: nat): (c: char)
    requires d < 10
    ensures '0' <= c <= '9'
  {
    ['0', '1', '2', '3', '4', '5', '6', '7', '8', '9'][d]
  }

  /** The number a string of decimal digits denotes. */
  function DigitsValue(s: string): nat
    requires forall i :: 0 <= i < |s| ==> '0' <= s[i] <= '9'
  {
    if s == [] then 0 else DigitsValue(s[..|s| - 1]) * 10 + (s[|s| - 1] as int - '0' as int)
  }

  /** Decimal digits of a natural number, without leading zeros, denoting it. */
  function NatToString(n: nat): (s: string)
    ensures s != [] && forall i :: 0 <= i < |s| ==> '0' <= s[i] <= '9'
    ensures (s[0] == '0') <==> n == 0
    ensures DigitsValue(s) == n
  {
    if n < 10 then [DigitChar(n)]
    else
      var prefix := NatToString(n / 10);
      var s := prefix + [DigitChar(n % 10)];
      assert s[..|s| - 1] == prefix;
      s
  }

  function IntToString(n: int): string
  {
    if n < 0 then "-" + NatToString(-n) else NatToString(n)
  }

  /** Joins the parts with the separator between consecutive parts, as `Array.prototype.join`. */
  function JoinWith(parts: seq<string>, sep: string): (r: string)
    ensures |parts| == 1 ==> r == parts[0]
  {
    if |parts| == 0 then "" else if |parts| == 1 then parts[0] else parts[0] + sep + JoinWith(parts[1..], sep)
  }

  /** ECMAScript ToString for the values modelled here. */
  function JsString(v: Value): (r: string)
    ensures v.Str? ==> r == v.s
    decreases v
  {
    match v
    case Undefined => "undefined"
    case Null => "null"
    case Bool(b) => if b then "true" else "false"
    case Num(n) => IntToString(n)
    case NaN => "NaN"
    case Str(s) => s
    case Arr(items) =>
      // an array converts through `join(",")`, where undefined and null elements become ""
      JoinWith(seq(|items|, i requires 0 <= i < |items| =>
                               if Nullish(items[i]) then "" else JsString(items[i])), ",")
    case Obj(_) => "[object Object]"
  }
}
