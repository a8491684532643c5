/** JSON-like values as the Ruby scripts see them after `JSON.parse`, with
    Ruby's notion of truthiness and Hash lookup. */
module Json {

  datatype Option<+T> = None | Some(value: T)

  /** A parsed JSON document. Floating-point numbers are not modelled. */
  datatype Value =
    | Null
    | Bool(b: bool)
    | Num(n: int)
    | Str(s: string)
    | Arr(items: seq<Value>)
    | Obj(fields: map<string, Value>)

  /** A Ruby Hash with string keys: one package record. */
  type Record = map<string, Value>

  /** In Ruby only `nil` and `false` are falsy; every string, number,
      array and hash (even an empty one) is truthy. */
  predicate Truthy(v: Value)
  {
    !(v.Null? || v == Bool(false))
  }

  /** `rec[key]`: a missing key reads as `nil`. */
  function Get(rec: Record, key: string): Value
  {
    if key in rec then rec[key] else Null
  }

  /** `if rec[key]`: the key is present and its value is truthy. */
  predicate Present(rec: Record, key: string)
  {
    Truthy(Get(rec, key))
  }
}
