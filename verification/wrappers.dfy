/** The optional-value datatype used for every link of the provider's response
    tree that may be `undefined` in the original program. */
module Wrappers {

  datatype Option<+T> = None | Some(value: T)
}
