/** Optional values: the Dafny counterpart of Swift's `T?` and of the failable
    initialisers and `as?` casts the controller guards on. */
module Wrappers {

  datatype Option<+T> = None | Some(value: T)

}
