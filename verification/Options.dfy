/** A value that may be absent: a missing key, an unset field, an optional rule bound. */
module Options {
  datatype Option<+T> = None | Some(value: T)
}
