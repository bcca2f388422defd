/** An optional value: an absent request field, an unrecognised identifier. */
module Optional {
  datatype Option<+T> = None | Some(value: T)
}
