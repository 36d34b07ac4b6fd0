/**
 * Decoded JSON values, as the embed receives them from the prediction and
 * AutoFAQ endpoints, with JavaScript's view of them: truthiness, property
 * access that may give `undefined`, and `a || b`.
 */
module Json {
  import opened Wrappers

  datatype Value =
    | Null
    | Bool(b: bool)
    | Num(n: int)
    | Str(s: string)
    | Arr(items: seq<Value>)
    | Obj(fields: map<string, Value>)

  /** JavaScript truthiness of a decoded value. */
  predicate Truthy(v: Value)
  {
    match v
    case Null => false
    case Bool(b) => b
    case Num(n) => n != 0
    case Str(s) => s != ""
    case _ => true
  }

  /** Truthiness of a value that may be `undefined` (`None`). */
  predicate Present(o: Option<Value>)
  {
    o.Some? && Truthy(o.value)
  }

  /** `v.key`: `undefined` unless `v` is an object holding `key`. */
  function Get(v: Value, key: string): (r: Option<Value>)
    ensures r.Some? <==> v.Obj? && key in v.fields
    ensures r.Some? ==> r.value == v.fields[key]
  {
    if v.Obj? && key in v.fields then Some(v.fields[key]) else None
  }

  /** `o?.key`. */
  function Field(o: Option<Value>, key: string): (r: Option<Value>)
    ensures r.Some? ==> o.Some? && Get(o.value, key) == r
  {
    if o.Some? then Get(o.value, key) else None
  }

  /** `a || b`: the first operand when it is truthy, else the second. */
  function Or(a: Option<Value>, b: Option<Value>): (r: Option<Value>)
    ensures Present(r) <==> Present(a) || Present(b)
    ensures Present(a) ==> r == a
  {
    if Present(a) then a else b
  }

  /** A property read as text: a string value, else `undefined`. */
  function Text(o: Option<Value>): (r: Option<string>)
    ensures r.Some? <==> o.Some? && o.value.Str?
    ensures r.Some? ==> o == Some(Str(r.value))
  {
    if o.Some? && o.value.Str? then Some(o.value.s) else None
  }

  /** A property read as non-empty text, the form in which an id is truthy. */
  function TruthyText(o: Option<Value>): (r: Option<string>)
    ensures r.Some? <==> Present(o) && o.value.Str?
    ensures r.Some? ==> r.value != "" && o == Some(Str(r.value))
  {
    if o.Some? && o.value.Str? && o.value.s != "" then Some(o.value.s) else None
  }

  /** `Object.keys(v).length`. */
  function KeyCount(v: Value): nat
  {
    match v
    case Obj(fields) => |fields|
    case Arr(items) => |items|
    case Str(s) => |s|
    case _ => 0
  }
}
