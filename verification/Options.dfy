/** The conventional optional value, used where the gateway has a nil pointer. */
module Options {
  datatype Option<+T> = None | Some(value: T)
}
