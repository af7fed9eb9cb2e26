/** The option type used for nullable columns and for steps that may be refused. */
module Wrappers {
  datatype Option<+T> = None | Some(value: T)
}
