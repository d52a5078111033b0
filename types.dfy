/** Values shared by the injection queues, the dispatcher and the handlers
    of the null payment method. */
module Types {

  datatype Option<+T> = None | Some(value: T)

  /** A result code of the host library. The plugin's own logic only ever
      produces `Success`; any other code of the host's enumeration reaches it
      through an injected mock or the ledger builder and is carried here by
      its number. */
  datatype ErrorCode = Success | Failure(code: int)

  /** What a payment callback receives: a result code and a response payload. */
  datatype Response = Response(err: ErrorCode, payload: string)

  /** How a real handler completes.
      `Immediate`: the handler calls the callback with `response` before it
      returns, and returns the status the callback reports.
      `Deferred`: the handler hands the callback to the ledger builder and
      returns the builder's `accepted` status; the builder's continuation
      later calls the callback with `response`. */
  datatype Reply =
    | Immediate(response: Response)
    | Deferred(accepted: ErrorCode, response: Response)

  /** A payment callback: command handle, result code and payload in, status out. */
  type Callback = (int, ErrorCode, string) -> ErrorCode
}
