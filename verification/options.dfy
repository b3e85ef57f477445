/** A value that may be missing: an empty std::function, a null pointer, a deadline not set. */
module Options {
  datatype Option<+T> = None | Some(value: T)
}
