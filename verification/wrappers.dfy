/** The optional-value datatype used across the model (JavaScript `undefined`/`null`,
    Rust `Option`). */
module Wrappers {

  datatype Option<+T> = None | Some(value: T)
}
