/** Option and Result wrappers used across the model. */
module Wrappers {

  /** A value that may be absent; `None` stands for JavaScript's `undefined` or `null`. */
  datatype Option<+T> = None | Some(value: T)

  /** The outcome of an entry point that may stop with an error message
      (a thrown `Error`, an alert followed by `return`, or an error reply). */
  datatype Result<+T, +E> = Success(value: T) | Failure(error: E)

  /** A lookup by key: `obj[key]` on a plain object, or `getSheetByName(name)` on the
      spreadsheet; `None` when the key is absent. */
  function Get<K(==), V>(m: map<K, V>, key: K): (r: Option<V>)
    ensures r.Some? <==> key in m
    ensures r.Some? ==> r.value == m[key]
  {
    if key in m then Some(m[key]) else None
  }
}
