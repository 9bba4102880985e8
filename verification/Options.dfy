/** The optional value that all modules share. */
module Options {
  datatype Option<T> = None | Some(value: T)
}
