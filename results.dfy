/** Optional values and results with an error, for the lookups that raise
    `DoesNotExist` and the handlers that answer with an error. */
module Results {

  datatype Option<+T> = None | Some(value: T)

  datatype Result<+T, +E> = Ok(value: T) | Err(error: E)
}
