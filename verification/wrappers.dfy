/** Optional values, standing for Java's null and thrown exceptions. */
module Wrappers {
  datatype Option<T> = None | Some(value: T)
}
