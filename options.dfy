/** The optional value returned by the derivation processor. */
module Options {
  datatype Option<T> = None | Some(value: T)
}
