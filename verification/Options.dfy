/** A value that may be absent: the source's `null`, `undefined` and SQL NULL. */
module Options {
  datatype Option<+T> = None | Some(value: T)
}
