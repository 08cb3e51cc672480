/** An optional value, for fields a JavaScript object may leave undefined. */
module Optional {
  datatype Option<T> = None | Some(value: T)
}
