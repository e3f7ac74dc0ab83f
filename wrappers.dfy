/** The optional-value type used wherever the source has `null`, an absent key or a failed parse. */
module Wrappers {

  datatype Option<+T> = None | Some(value: T)
}
