/** A value that JavaScript may leave `undefined`. */
module Options {

  datatype Option<+T> = None | Some(value: T)
}
