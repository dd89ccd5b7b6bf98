/** A value that JavaScript may leave `undefined`. */
module Optional {
  datatype Option<T> = None | Some(value: T)
}
