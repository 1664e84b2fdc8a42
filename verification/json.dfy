/** Parsed JSON frames, as the WebSocket handlers receive them after the
    framework's `JSON.parse`, and the JavaScript operators the handlers apply
    to their properties. */
module Json {
  import opened Wrappers

  /** A JSON value. Numbers are the provider's prices, passed through
      unchanged, so only their equality and their comparison with zero
      matter here. */
  datatype Value =
    | Null
    | Bool(b: bool)
    | Num(x: real)
    | Str(s: string)
    | Arr(items: seq<Value>)
    | Obj(fields: map<string, Value>)

  /** A parsed JSON object: a message or the body of an outbound frame. */
  type Object = map<string, Value>

  /** The property read `o.k`, which is `undefined` when `o` has no key `k`.
      A parsed object never holds `undefined`, so `o.k !== undefined` is the
      same test as `'k' in o`. */
  function Get(o: Object, k: string): Option<Value>
  {
    if k in o then Some(o[k]) else None
  }

  /** JavaScript truthiness: `undefined`, `null`, `false`, `0`, `-0` and the
      empty string are falsy, every other JSON value is truthy. */
  predicate Truthy(v: Option<Value>)
  {
    match v
    case None => false
    case Some(Null) => false
    case Some(Bool(b)) => b
    case Some(Num(x)) => x != 0.0
    case Some(Str(s)) => s != ""
    case Some(Arr(_)) => true
    case Some(Obj(_)) => true
  }

  /** The strict comparison `v === lit` against a string literal. */
  predicate IsString(v: Option<Value>, lit: string)
  {
    v == Some(Str(lit))
  }

  /** Whether converting `v` to a string (a template literal, or the
      primitive conversion inside `new Date(v)`) throws a `TypeError`. A
      parsed object converts through its inherited `toString` unless it has
      an own `toString` property, which is never callable, and its
      `valueOf` yields the object itself, so that conversion throws. An
      array converts through `join`, which converts every element; `null`
      elements and primitives always convert. */
  predicate StringConversionThrows(v: Value)
  {
    match v
    case Obj(fields) => "toString" in fields
    case Arr(items) => exists i :: 0 <= i < |items| && StringConversionThrows(items[i])
    case _ => false
  }

  /** The same for a property read; `undefined` converts to "undefined". */
  predicate ConversionThrows(v: Option<Value>)
  {
    v.Some? && StringConversionThrows(v.value)
  }

  /** The value `v || 0`. */
  function OrZero(v: Option<Value>): Value
  {
    if Truthy(v) then v.value else Num(0.0)
  }
}
