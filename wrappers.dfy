/** Optional values: a JavaScript `null`/`undefined` result becomes `None`. */
module Wrappers {

  datatype Option<+T> = None | Some(value: T)

}
