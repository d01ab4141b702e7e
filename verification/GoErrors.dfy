/** Error and panic values as the middleware layer sees them. */
module GoErrors {
  datatype Option<+T> = None | Some(value: T)

  /** An application error: the fields of `AppError` the error handler reads. */
  datatype AppError = AppError(kind: string, code: string, message: string, details: string,
                               status: int, cause: Option<GoError>)

  /** A non-nil Go error value: an `AppError`, or any other error, which may wrap one. */
  datatype GoError = App(app: AppError) | Other(text: string, wraps: Option<GoError>)

  /** The value carried by a panic. */
  datatype PanicValue = PanicError(error: GoError) | PanicText(text: string) | PanicOther(shown: string)
}
