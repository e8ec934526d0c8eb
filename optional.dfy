/** The optional value standing for JavaScript's `undefined`. */
module Optional {
  datatype Option<+T> = None | Some(value: T)
}
