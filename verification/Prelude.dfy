/** Option, Result and the service layer's error type (services/errors.py). */
module Prelude {

  datatype Option<+T> = None | Some(value: T)

  /** One constructor per error code the services raise.  `LedgerImbalance` is the
      posting exception and `RowMissing` a `scalar_one()` that finds nothing; the API
      turns those two into server faults. */
  datatype ApiError =
    | Unauthorized
    | InsufficientScope
    | OwnerScopeRequired
    | NotFound
    | ValidationError
    | InsufficientFunds
    | QuoteExpired
    | UnsupportedRoute
    | PolicyDenied
    | CancellationNotAllowed
    | ApprovalNotPending
    | ApprovalExpired
    | LedgerImbalance
    | RowMissing

  datatype Result<+T> = Ok(value: T) | Err(error: ApiError) {
    predicate IsFailure() {
      Err?
    }

    function PropagateFailure<U>(): Result<U>
      requires Err?
    {
      Err(error)
    }

    function Extract(): T
      requires Ok?
    {
      value
    }
  }

  /** The value of a step that only checks something. */
  datatype Done = Done

  function Check(condition: bool, error: ApiError): Result<Done> {
    if condition then Ok(Done) else Err(error)
  }
}
