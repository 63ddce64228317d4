/** The outcome of an operation that may throw: a value, or the message of the error thrown. */
module Results {

  datatype Result<T> = Ok(value: T) | Err(message: string)
}
