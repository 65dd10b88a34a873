/** Small wrapper types shared by the other modules. */
module Wrappers {

  /** An optional value; stands for a TypeScript `T | undefined`. */
  datatype Option<+T> = None | Some(value: T)
}
