/** JSON values as the webhook handler sees them once the request body is decoded. */
module Json {
  import opened Wrappers

  /** A decoded JSON value. JSON `null` is not a case of its own: wherever a
      value may be null it has type Option<Value>, and null is None, as it is
      Python's None after decoding. Numbers are integers (see README). */
  datatype Value =
    | Bool(b: bool)
    | Num(n: int)
    | Str(s: string)
    | Arr(items: seq<Option<Value>>)
    | Obj(fields: Dict)

  /** A JSON object: a Python dict with string keys and possibly-null values. */
  type Dict = map<string, Option<Value>>

  /** `d.get(key)`: the value under key, or None when the key is absent or
      holds null. */
  function Get(d: Dict, key: string): Option<Value>
  {
    if key in d then d[key] else None
  }

  /** Python truthiness of a decoded value, as tested by `if v:`. */
  predicate Truthy(v: Option<Value>)
  {
    match v
    case None => false
    case Some(Bool(b)) => b
    case Some(Num(n)) => n != 0
    case Some(Str(s)) => s != ""
    case Some(Arr(items)) => |items| > 0
    case Some(Obj(fields)) => |fields| > 0
  }

  /** The text a value holds when it can be bound to a text parameter of the
      store: only a string can; null and every other JSON type cannot. */
  function Text(v: Option<Value>): (r: Option<string>)
    ensures r.Some? <==> v.Some? && v.value.Str?
    ensures r.Some? ==> v == Some(Str(r.value))
  {
    match v
    case Some(Str(s)) => Some(s)
    case _ => None
  }
}
