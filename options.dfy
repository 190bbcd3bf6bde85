/** An optional value: a reference that may be null, a sample that may be absent. */
module Options {
  datatype Option<+T> = None | Some(value: T)
}
