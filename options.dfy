/** The Some/None wrapper used for a fetch outcome that may be missing. */
module Options {
  datatype Option<+T> = None | Some(value: T)
}
