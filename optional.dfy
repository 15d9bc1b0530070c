/** An optional value, used for JSON fields that may be absent and for JavaScript's `undefined`. */
module Optional {
  datatype Option<+T> = None | Some(value: T)
}
