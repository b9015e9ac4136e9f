/** Python's `None`-or-value, as used for the chosen attribute and the round winner. */
module Optional {
  datatype Option<+T> = None | Some(value: T)
}
