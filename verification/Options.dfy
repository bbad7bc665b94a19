/** An optional value: the source's null pointers and "no owner" cases. */
module Options {
  datatype Option<+T> = None | Some(value: T)
}
