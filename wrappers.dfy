/** Optional values: JavaScript's `null` for the selected device id and the
    pending timer handle, and the "not found" result of `Array.prototype.find`. */
module Wrappers {
  datatype Option<+T> = None | Some(value: T)
}
