/** Optional values: a JavaScript `undefined`/`null` versus a present value. */
module Wrappers {

  datatype Option<+T> = None | Some(value: T)
}
