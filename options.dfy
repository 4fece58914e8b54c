/** The optional value used for "no pit was hit" and for parse failures. */
module Options {
  datatype Option<+T> = None | Some(value: T)
}
