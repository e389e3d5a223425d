/** Optional values and error-carrying results, used for the nullable
    references and the thrown exceptions of the modelled component. */
module Results {

  /** A nullable reference or nullable state value: `null` is `None`. */
  datatype Option<+T> = None | Some(value: T)

  /** The outcome of an operation that may throw: `Err` carries what was thrown. */
  datatype Result<+T, +E> = Ok(value: T) | Err(error: E)
}
