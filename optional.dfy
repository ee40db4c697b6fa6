/** The failure-compatible Option type used where the source raises an error. */
module Optional {
  datatype Option<+T> = None | Some(value: T)
}
