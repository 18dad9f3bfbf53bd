/** Optional values, standing for JavaScript's `null` / `undefined` where the server uses them. */
module Wrappers {

  datatype Option<+T> = None | Some(value: T)
}
