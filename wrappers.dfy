/** The usual Some/None datatype; None stands for an exception the source raises. */
module Wrappers {
  datatype Option<+T> = None | Some(value: T)
}
