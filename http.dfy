/** What an Express handler sends back. */
module Http {
  import opened Wrappers

  /**
   * `res.status(s).json(x)` with the record(s) themselves (`Json`), with a
   * `{ message, ... }` object (`Note`, the attached record or token if any),
   * with an `{ error }` object (`Error`), or no response at all because an
   * exception escaped the handler's `try` block (`Unhandled`).
   */
  datatype Reply<T> =
    | Json(status: int, body: T)
    | Note(status: int, message: string, attached: Option<T>)
    | Error(status: int, error: string)
    | Unhandled
}
