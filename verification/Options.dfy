/** The optional value used across the project (a JavaScript null, or a value). */
module Options {
  datatype Option<+T> = None | Some(value: T)
}
