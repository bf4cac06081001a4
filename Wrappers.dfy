/** Optional values: the model's rendering of a Python result that may be `None`. */
module Wrappers {

  datatype Option<+T> = None | Some(value: T)
}
