/** The result of an operation the source lets fail with an exception. */
module Options {
  datatype Option<+T> = None | Some(value: T)
}
