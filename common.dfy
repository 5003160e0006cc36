/** Optional values: JavaScript's `null` / `undefined` fields and Python's missing keys. */
module Common {

  datatype Option<T> = None | Some(value: T)
}
