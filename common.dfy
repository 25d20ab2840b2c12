/** Types shared by the three applications: optional values, results that
    carry an error message (Go's `error`), and the request-scoped context. */
module Common {

  datatype Option<+T> = None | Some(value: T)

  /** A Go `(value, error)` pair: either a value, or the error's message. */
  datatype Result<+T> = Ok(value: T) | Err(error: string)

  /** Stands for a `*zap.SugaredLogger`. Nothing a logger does affects a
      result, so only its presence in the context matters. */
  datatype Logger = Logger(appName: string)

  /** The two values the applications look up in a `context.Context`: the
      logger stored under the `zap.SugaredLogger{}` key and the string stored
      under "Request-Id". A missing key, or a value of the wrong type, is `None`. */
  datatype Context = Context(logger: Option<Logger>, requestId: Option<string>)

  /** Returned by every entry point and worker function whose context carries
      no logger. */
  const ErrNoLogger: string := "contextual logging not pass through context"
}
