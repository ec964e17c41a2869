/** The optional value used wherever the source has `None` or a missing dictionary key. */
module Options {
  datatype Option<T> = None | Some(value: T)
}
