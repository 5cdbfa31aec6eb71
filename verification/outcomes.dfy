/** Success/failure carriers shared by every module of the model, shaped like
    Rust's `Option` and `Result`. */
module Outcomes {

  datatype Option<+T> = None | Some(value: T)

  datatype Result<+T, +E> = Ok(value: T) | Err(error: E)
}
