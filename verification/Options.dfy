/** A value that may be absent: the model's form of a reference that may be null. */
module Options {
  datatype Option<+T> = None | Some(value: T)
}
