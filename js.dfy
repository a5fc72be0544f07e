/**
 * The few JavaScript value semantics the core relies on: truthiness and the
 * `||` operator, which returns its first truthy operand (so `0`, `''`, `null`
 * and `undefined` all count as missing), and plain JSON-like records.
 */
module Js {
  import opened Wrappers

  /** A JSON-like value, as held in a settings record or in browser storage. */
  datatype Json =
    | Null
    | Bool(b: bool)
    | Num(n: real)
    | Str(s: string)
    | Obj(fields: map<string, Json>)

  /** Truthiness of a property read; `None` is `undefined` (the key is absent). */
  predicate JsonTruthy(v: Option<Json>) {
    match v
    case None => false
    case Some(Null) => false
    case Some(Bool(b)) => b
    case Some(Num(n)) => n != 0.0
    case Some(Str(s)) => s != ""
    case Some(Obj(_)) => true
  }

  /** Reading `record[key]`: `undefined` (None) when the key is absent. */
  function Lookup(record: map<string, Json>, key: string): Option<Json> {
    if key in record then Some(record[key]) else None
  }

  /** Truthiness of a number that may be `null`/`undefined` (None). */
  predicate Truthy<T(==)>(x: Option<T>, zero: T) {
    x.Some? && x.value != zero
  }

  /** `a || b` on numbers that may be `null`/`undefined`. */
  function Or<T(==)>(a: Option<T>, b: Option<T>, zero: T): Option<T> {
    if Truthy(a, zero) then a else b
  }

  /** JavaScript's coercion of a number that may be `null` in arithmetic (`null - 310 === -310`). */
  function NumberValue(x: Option<int>): int {
    x.GetOr(0)
  }
}
