/** A value that may be missing: the code's pointer that may be NULL. */
module Options {
  datatype Option<T> = None | Some(value: T)
}
