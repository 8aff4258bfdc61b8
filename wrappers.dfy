/** The optional value used for every field of a configuration: a nil
    pointer or nil interface is None; a non-nil pointer is Some, and so is an
    interface value that holds a typed nil pointer, since Go compares such a
    value unequal to nil. */
module Wrappers {

  datatype Option<+T> = None | Some(value: T)

  /** The value of `over` when it is present, otherwise `base`. This is the
      rule each field of a merge follows: presence, not zero-ness, decides. */
  function Layer<T>(base: Option<T>, over: Option<T>): Option<T> {
    if over.Some? then over else base
  }
}
