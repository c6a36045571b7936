/** The optional value used for absent times, pointers and documents. */
module Options {
  datatype Option<+T> = None | Some(value: T)
}
