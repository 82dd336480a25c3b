/** A value that may be absent, as Python's `None`. */
module Optional {
  datatype Option<+T> = None | Some(value: T)
}
