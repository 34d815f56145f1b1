/**
 * The few JavaScript value semantics the signaller relies on: dynamically
 * typed values, truthiness (`!!v`), the `a || b` fallback, destructuring
 * defaults (which apply only to `undefined`), property keys, and thrown
 * errors.
 */
module Js {

  /** A JavaScript value as far as the signaller inspects it.  Numbers are
      integers here; `Other` stands for any object the code only passes on
      (a socket, a Date, a function) and is identified by an opaque handle. */
  datatype Value =
    | Undefined
    | Null
    | Bool(b: bool)
    | Num(n: int)
    | Str(s: string)
    | Arr(items: seq<Value>)
    | Record(fields: map<string, Value>)
    | Other(handle: nat)

  /** What a `throw` carries, as far as callers can tell errors apart. */
  datatype Thrown =
    | TypeError
    | ReferenceError(name: string)
    | Error(message: Value)

  /** A computation that either returns a value or throws. */
  datatype Result<T> = Ok(value: T) | Throw(error: Thrown)

  /** A lookup that finds an object or gives `null`. */
  datatype Option<T> = None | Some(value: T)

  /** JavaScript truthiness: `undefined`, `null`, `false`, `0` and `""` are falsy. */
  predicate Truthy(v: Value)
  {
    match v
    case Undefined => false
    case Null => false
    case Bool(b) => b
    case Num(n) => n != 0
    case Str(s) => s != ""
    case _ => true
  }

  /** `a || b`: `a` when it is truthy, `b` otherwise. */
  function Or(a: Value, b: Value): (r: Value)
    ensures Truthy(r) <==> Truthy(a) || Truthy(b)
    ensures Truthy(a) ==> r == a
  {
    if Truthy(a) then a else b
  }

  /** A destructuring default `{x = d}`: `d` replaces `undefined` only. */
  function Default(v: Value, d: Value): (r: Value)
    ensures v != Undefined ==> r == v
  {
    if v == Undefined then d else v
  }

  /** Reading a key of a plain object: a missing key reads as `undefined`. */
  function Get(o: map<string, Value>, k: string): (r: Value)
    ensures k !in o ==> r == Undefined
  {
    if k in o then o[k] else Undefined
  }

  /** `v.key` on any value: `undefined` and `null` throw a TypeError, records
      read the key, and the signaller never reads own keys of other values. */
  function Prop(v: Value, k: string): (r: Result<Value>)
    ensures r.Throw? <==> v == Undefined || v == Null
  {
    match v
    case Undefined => Throw(TypeError)
    case Null => Throw(TypeError)
    case Record(fields) => Ok(Get(fields, k))
    case _ => Ok(Undefined)
  }

  /** `values.filter(v => v === x).length`. */
  function CountOf(values: seq<Value>, x: Value): (n: nat)
    ensures n <= |values|
    ensures n == 0 <==> x !in values
  {
    if |values| == 0 then 0
    else
      assert values == [values[0]] + values[1..];
      (if values[0] == x then 1 else 0) + CountOf(values[1..], x)
  }

  /** The decimal text of an integer, as `String(n)` gives it. */
  function IntToString(n: int): (r: string)
    ensures |r| > 0
    decreases if n < 0 then 1 - n else n
  {
    if n < 0 then "-" + IntToString(-n)
    else if n < 10 then [(['0', '1', '2', '3', '4', '5', '6', '7', '8', '9'])[n]]
    else IntToString(n / 10) + IntToString(n % 10)
  }

  /** The property key a value turns into when it indexes an object
      (`this._handlers[event]`).  Arrays, records and opaque objects are
      approximated by fixed texts. */
  function Key(v: Value): (r: string)
    ensures v.Str? ==> r == v.s
  {
    match v
    case Undefined => "undefined"
    case Null => "null"
    case Bool(b) => if b then "true" else "false"
    case Num(n) => IntToString(n)
    case Str(s) => s
    case Arr(_) => "[array]"
    case Record(_) => "[object Object]"
    case Other(_) => "[object]"
  }
}
