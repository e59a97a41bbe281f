/** The usual optional value, for lookups and calls that may fail. */
module Options {
  datatype Option<+T> = None | Some(value: T)
}
