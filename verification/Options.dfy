/** A value, or none: what an empty result or a null pointer stands for. */
module Options {
  datatype Option<T> = None | Some(value: T)
}
