/** The optional value used for JSON fields that may be absent (`undefined`/`null`). */
module Options {
  datatype Option<+T> = None | Some(value: T)
}
