/** The optional-value wrapper used wherever the TypeScript code has `T | null`,
    an optional property `x?: T`, or a `find` that may return `undefined`. */
module Wrappers {

  datatype Option<+T> = None | Some(value: T)

}
