/** The optional value used wherever the dashboard has `null` or `undefined`. */
module Options {
  datatype Option<+T> = None | Some(value: T)
}
