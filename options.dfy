/** The absent-or-present value used wherever a JavaScript field may be `undefined`. */
module Options {

  datatype Option<+T> = None | Some(value: T)

}
