/** The success-or-error outcome used wherever the program reports a failure
    (a message box, an exception) instead of returning a value. */
module Results {

  datatype Result<+T, +E> = Ok(value: T) | Err(error: E)
}
