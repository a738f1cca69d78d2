/** Values shared by both components: optional values, results standing for
    PHP's exceptions, and the exceptions themselves. */
module Runtime {

  datatype Option<+T> = None | Some(value: T)

  /** A call that either returns a value or throws. */
  datatype Result<+T, +E> = Ok(value: T) | Err(error: E)

  /** A PHP Throwable: its class, message, code and the previous throwable
      it wraps, if any. */
  datatype Throwable = Throwable(className: string, message: string, code: int, previous: Option<Throwable>)
}
