/** A value that may be missing: what the source calls `Option`. */
module Options {
  datatype Option<T> = None | Some(value: T)
}
