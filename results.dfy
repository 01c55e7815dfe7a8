/** Optional values and success/failure results, used for PHP's nullable
    values and for exceptions raised by the modelled code. */
module Results {

  datatype Option<+T> = None | Some(value: T)

  datatype Result<+R, +E> = Success(value: R) | Failure(error: E)
}
