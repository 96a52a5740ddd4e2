/** Option and Result, used for values that the source leaves `null` and for
    the exceptions it throws. */
module Optional {

  datatype Option<+T> = None | Some(value: T)

  datatype Result<+R, +E> = Success(value: R) | Failure(error: E)
}
