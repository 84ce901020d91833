/** JavaScript's `undefined` result of a failed lookup, as a value. */
module Options {

  datatype Option<+T> = None | Some(value: T)
}
