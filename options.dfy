/** The optional value used for error returns: `None` is success, `Some(e)` the error `e`. */
module Options {
  datatype Option<+T> = None | Some(value: T)
}
