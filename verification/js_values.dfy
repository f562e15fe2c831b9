/** The JavaScript values a data object stores and compares.

    Only what the data object can observe is kept: the two "absent" values,
    a few primitives, objects compared by reference, and the record's own
    operations, which live in the same property namespace as its fields. */
module JsValues {

  datatype Value =
    | Undefined
    | Null
    | Bool(b: bool)
    | Number(n: int)
    | Text(s: string)
    | Object(id: nat)       // an object or array, identified by its reference
    | Method(name: string)  // one of the data object's own operations

  /** `v != undefined` is false exactly for `undefined` and `null` (loose equality). */
  predicate Absent(v: Value) {
    v.Undefined? || v.Null?
  }

  /** Reading a property that was never assigned yields `undefined`. */
  function Get(m: map<string, Value>, k: string): Value {
    if k in m then m[k] else Undefined
  }
}
