/** A value that may be absent: JavaScript's `null`/`undefined` for a field or a user. */
module Options {
  datatype Option<+T> = None | Some(value: T)
}
