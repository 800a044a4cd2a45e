/** The optional value the model uses for the symlink argument of a dump
    and for the outcome of the usage checks. */
module Wrappers {
  datatype Option<+T> = None | Some(value: T)
}
