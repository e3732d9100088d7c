/** The optional-value datatype used across the model for JavaScript's
    `undefined` results (a failed `find`, a missing argument, `NaN`). */
module Wrappers {

  datatype Option<+T> = None | Some(value: T)
}
