/** The optional value used throughout the model for JavaScript's "absent"
    (`undefined`, `null`, or a missing field) and for `NaN` results, and the
    result of a step that may end the request early. */
module Options {

  datatype Option<+T> = None | Some(value: T)

  datatype Result<+T, +E> = Ok(value: T) | Err(error: E)
}
