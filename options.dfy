/** The optional value used where the add-on reads something that may be absent. */
module Options {
  datatype Option<+T> = None | Some(value: T)
}
