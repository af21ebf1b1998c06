/** The absent-or-present value used wherever the source may hold `null` or `undefined`. */
module Optional {

  datatype Option<+T> = None | Some(value: T)
}
