/** The optional-value type used throughout the model in place of PHP's null. */
module Wrappers {

  datatype Option<+T> = None | Some(value: T)
}
