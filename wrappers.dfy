/** The optional-value wrapper used for TypeScript's `T | null` and `field?: T`. */
module Wrappers {

  datatype Option<+T> = None | Some(value: T)
}
