/** A value that may be absent, as a nullable column or an optional result. */
module Options {
  datatype Option<+T> = None | Some(value: T)
}
