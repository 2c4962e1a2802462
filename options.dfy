/** Optional values and fallible results, used wherever the Go code has a nil
    pointer or an `error` return. */
module Options {

  datatype Option<+T> = None | Some(value: T)

  datatype Result<+T, +E> = Success(value: T) | Failure(error: E)
}
