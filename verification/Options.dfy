/** The one optional-value type the project uses for the source's `undefined`. */
module Options {
  datatype Option<+T> = None | Some(value: T)
}
