/** Optional values, standing in for Java's nullable references and
    for operations that can fail. */
module Wrappers {

  datatype Option<+T> = None | Some(value: T)

}
