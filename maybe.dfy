/** The optional value used wherever the viewer's JavaScript has `null` or `undefined`. */
module Maybe {
  datatype Option<+T> = None | Some(value: T)
}
