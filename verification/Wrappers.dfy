/** Option values, as the source's `Option<T>`. */
module Wrappers {

  datatype Option<+T> = None | Some(value: T)
}
