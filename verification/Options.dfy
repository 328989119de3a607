/** An optional value: `None` where the source has no value. */
module Options {
  datatype Option<T> = None | Some(value: T)
}
