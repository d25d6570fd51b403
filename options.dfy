/** A value that may be absent: Python's `None` for the fields that start unset. */
module Options {
  datatype Option<+T> = None | Some(value: T)
}
