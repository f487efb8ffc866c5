/** An optional value: a field of a record that may be absent (`undefined` in the source). */
module Optional {
  datatype Option<+T> = None | Some(value: T)
}
