/** Optional values: JavaScript's `undefined` and parseInt's NaN are modelled as None. */
module Wrappers {

  datatype Option<+T> = None | Some(value: T)
}
