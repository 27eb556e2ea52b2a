/** Optional values, standing in for Java's and Kotlin's nullable references. */
module Wrappers {

  datatype Option<+T> = None | Some(value: T)
}
