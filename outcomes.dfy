/** Values shared by every part of the display model: optional values, the
    exceptions the display code can raise, and a result type carrying them. */
module Outcomes {

  /** Python's `None` or a present value. */
  datatype Option<+T> = None | Some(value: T)

  /** The exceptions the display helpers can end in.
      - ValueError: raised explicitly, with its message.
      - Unbound: a local variable read before any branch assigned it
        (Python's UnboundLocalError), named by the variable.
      - LookupFailed: an event-store table lookup raised, named by the table path. */
  datatype Error =
    | ValueError(message: string)
    | Unbound(name: string)
    | LookupFailed(table: string)

  datatype Result<+T> = Ok(value: T) | Err(error: Error)
}
