/** An optional value: JavaScript's `undefined` / `null` alternatives. */
module Options {
  datatype Option<T> = None | Some(value: T)
}
