/** An optional value, for a payload or an element that may be absent. */
module Options {
  datatype Option<T> = None | Some(value: T)
}
