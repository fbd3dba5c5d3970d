/** The optional value used for error returns and nullable handles throughout the model. */
module Optional {
  datatype Option<+T> = None | Some(value: T)
}
