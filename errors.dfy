/** Python exceptions that reach this SDK's code, as values, and the
    Option/Result/Outcome wrappers the model uses instead of raising. */
module Errors {

  /** The exception classes the model distinguishes. `socket.error` is
      `OSError`, and `urllib.error.HTTPError` is a subclass of it, so every
      transport failure other than an HTTP status is an `OsError`. */
  datatype Error =
    | HttpError(code: int)        // urllib.error.HTTPError
    | OsError                     // socket.error = OSError and its other subclasses
    | IncompleteRead              // http.client.IncompleteRead
    | JsonDecodeError             // json.decoder.JSONDecodeError
    | KeyError(key: string)       // missing column or missing dict key
    | TypeError                   // `in` / `[]` on the wrong kind of JSON value
    | AttributeError              // attribute access on None, a list or a missing column
    | ValueError                  // pandas refusing a value (records that are not objects)
    | ParserError                 // pandas.read_csv refusing the body

  /** The four `except` clauses of `bulk_request`
      (coco_quant/eod/eod_prices.py:66-73). */
  predicate Handled(e: Error)
  {
    e.HttpError? || e.OsError? || e.IncompleteRead? || e.JsonDecodeError?
  }

  datatype Option<T> = None | Some(value: T)

  datatype Result<T> = Ok(value: T) | Err(error: Error)

  /** What a Python call that returns `None` ends with: normally, or by raising. */
  datatype Outcome = Done | Raised(error: Error)
}
