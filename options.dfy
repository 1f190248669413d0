/** The optional value used by the parsers of the UI texts. */
module Options {

  datatype Option<+T> = None | Some(value: T)
}
