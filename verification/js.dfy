/**
 The JavaScript values, errors and results the configuration factory handles.

 A store, a layer and an error code are all plain JavaScript values; only the
 few operations the factory applies to them are modelled here: truthiness,
 a property read (which throws on `undefined` and `null`) and the string
 conversion that `+` performs.
 */
module Js {

  /** The error code the module loader attaches to a file that does not exist. */
  const ModuleNotFound: string := "MODULE_NOT_FOUND"

  /** A JavaScript value as it can appear in a configuration store.
      Numbers are integers here; floating point is not modelled. */
  datatype Value =
    | Undefined
    | Null
    | Bool(b: bool)
    | Num(n: int)
    | Str(s: string)
    | Arr(items: seq<Value>)
    | Obj(props: map<string, Value>)

  /** The store every build starts from, `{}`. */
  const EmptyObject: Value := Obj(map[])

  /** A thrown JavaScript error: its `code` property (`undefined` when absent) and its message. */
  datatype Error = Error(code: Value, message: string)

  datatype Option<+T> = None | Some(value: T)

  /** The outcome of a computation that may throw (or reject, for a promise). */
  datatype Result<+T> = Success(value: T) | Failure(error: Error) {

    predicate IsFailure() {
      Failure?
    }

    function PropagateFailure<U>(): Result<U>
      requires Failure?
    {
      Failure(error)
    }

    function Extract(): T
      requires Success?
    {
      value
    }
  }

  /** JavaScript truthiness (NaN is not a value of this model). */
  predicate Truthy(v: Value) {
    match v
    case Undefined => false
    case Null => false
    case Bool(b) => b
    case Num(n) => n != 0
    case Str(s) => s != ""
    case Arr(_) => true
    case Obj(_) => true
  }

  /** The error a property read on `undefined` or `null` throws; it carries no code. */
  function TypeError(message: string): (e: Error)
    ensures e.code == Undefined && !Truthy(e.code)
  {
    Error(Undefined, message)
  }

  /** The property read `v[key]`. Reading from `undefined` or `null` throws a
      TypeError; an object yields its own property or `undefined`. Inherited
      properties (an object's `constructor`, a primitive's prototype members)
      and an array's `length` are not modelled: none of them is `env`, the
      only key the factory reads. */
  function Get(v: Value, key: string): (r: Result<Value>)
    ensures r.Failure? <==> v.Undefined? || v.Null?
    ensures r.Failure? ==> r.error.code == Undefined
    ensures r.Success? && v.Obj? && key in v.props ==> r.value == v.props[key]
    ensures r.Success? && !(v.Obj? && key in v.props) ==> r.value == Undefined
  {
    match v
    case Undefined => Failure(TypeError("Cannot read properties of undefined (reading '" + key + "')"))
    case Null => Failure(TypeError("Cannot read properties of null (reading '" + key + "')"))
    case Obj(props) => Success(if key in props then props[key] else Undefined)
    case _ => Success(Undefined)
  }

  /** The number a string of decimal digits denotes. */
  function DigitsValue(s: string): int
  {
    if |s| == 0 then 0 else DigitsValue(s[..|s| - 1]) * 10 + (s[|s| - 1] as int - '0' as int)
  }

  /** The decimal digits of a natural number, without leading zeros. */
  function Digits(n: nat): (r: string)
    ensures |r| > 0
    ensures forall i :: 0 <= i < |r| ==> '0' <= r[i] <= '9'
    ensures n < 10 <==> |r| == 1
    ensures DigitsValue(r) == n
    ensures |r| > 1 ==> r[0] != '0'
  {
    var last := ['0' + (n % 10) as char];
    if n < 10 then last
    else
      var prefix := Digits(n / 10);
      assert (prefix + last)[..|prefix + last| - 1] == prefix;
      prefix + last
  }

  /** How JavaScript prints an integer of magnitude below 10^21. */
  function Decimal(n: int): (r: string)
    ensures |r| > 0
    ensures r[0] == '-' <==> n < 0
    ensures n >= 0 ==> DigitsValue(r) == n
    ensures n < 0 ==> DigitsValue(r[1..]) == -n
  {
    if n < 0 then "-" + Digits(-n) else Digits(n)
  }

  /** The strings of `parts` separated by `sep`, as `Array.prototype.join` does. */
  function Join(parts: seq<string>, sep: string): (r: string)
    ensures |parts| == 0 ==> r == ""
    ensures |parts| == 1 ==> r == parts[0]
  {
    if |parts| == 0 then ""
    else if |parts| == 1 then parts[0]
    else parts[0] + sep + Join(parts[1..], sep)
  }

  /** A value JavaScript cannot turn into a string. Converting an object first
      tries `valueOf`, which yields the object itself, then `toString`; an own
      `toString` property of a JSON object is never callable, so no primitive
      is found and a TypeError is thrown. An array converts its elements, so
      one such element makes the whole array fail. */
  predicate Unprintable(v: Value)
    decreases v
  {
    match v
    case Obj(props) => "toString" in props
    case Arr(items) => exists i :: 0 <= i < |items| && Unprintable(items[i])
    case _ => false
  }

  /** The string `v + ".json"` starts with: JavaScript's ToString of `v`. It
      throws a TypeError, with no code, exactly for an unprintable value. */
  function ToJsString(v: Value): (r: Result<string>)
    ensures r.Failure? <==> Unprintable(v)
    ensures r.Failure? ==> r.error.code == Undefined
    ensures v.Str? ==> r == Success(v.s)
    ensures v.Obj? && !Unprintable(v) ==> r == Success("[object Object]")
    decreases v, 1
  {
    match v
    case Undefined => Success("undefined")
    case Null => Success("null")
    case Bool(b) => Success(if b then "true" else "false")
    case Num(n) => Success(Decimal(n))
    case Str(s) => Success(s)
    case Obj(props) =>
      if "toString" in props then Failure(TypeError("Cannot convert object to primitive value"))
      else Success("[object Object]")
    case Arr(items) =>
      var parts :- ElementStrings(items);
      Success(Join(parts, ","))
  }

  /** The strings `Array.prototype.join` makes of `items`, in order: `undefined`
      and `null` become the empty string, every other element its ToString. */
  function ElementStrings(items: seq<Value>): (r: Result<seq<string>>)
    ensures r.Failure? <==> exists i :: 0 <= i < |items| && Unprintable(items[i])
    ensures r.Failure? ==> r.error.code == Undefined
    ensures r.Success? ==> |r.value| == |items|
    decreases items, 0
  {
    if |items| == 0 then Success([])
    else
      var first :- if items[0].Undefined? || items[0].Null? then Success("") else ToJsString(items[0]);
      var rest :- ElementStrings(items[1..]);
      assert forall i :: 1 <= i < |items| ==> items[i] == items[1..][i - 1];
      Success([first] + rest)
  }
}
