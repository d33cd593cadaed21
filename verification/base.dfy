/** Shared helper types: Python's `None` versus a present value. */
module Base {

  /** A value that may be absent, as Python's `Optional[T]`. */
  datatype Option<+T> = None | Some(value: T)
}
