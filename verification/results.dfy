/**
 * The outcome of a remote lookup or of a cart operation. A failure carries the
 * single human-readable message that the operation would hand to its error
 * toast (or, for a remote lookup, the message of the failed request).
 */
module Results {

  datatype Result<+T> = Ok(value: T) | Err(message: string)
}
