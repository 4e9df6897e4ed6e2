/** What a lookup finds and what a database transaction does. */
module Outcomes {

  datatype Option<+T> = None | Some(value: T)

  /** The application errors a transaction may be rolled back with. */
  datatype AppError =
    | NotFound
    | InvalidStatusTransition
    | PaymentNotRefundable
    | BookingNotCancellable
    | BookingNotReschedulable
    | ForbiddenRole
    | ValidationFailed
    | InternalError
      /** A CHECK or unique index refused the row, which aborts the transaction. */
    | ConstraintViolation

  /** A transaction commits a new state with a value, or rolls back whole. */
  datatype Tx<S, +T> = Commit(state: S, value: T) | Abort(error: AppError)

  datatype Result<+T> = Ok(value: T) | Err(error: AppError)

  /** What the caller of a transaction sees. */
  function ResultOf<S, T>(tx: Tx<S, T>): Result<T> {
    match tx
    case Commit(_, value) => Ok(value)
    case Abort(error) => Err(error)
  }

  /** The state a transaction leaves behind: a rolled-back one leaves what it found. */
  function After<S, T>(before: S, tx: Tx<S, T>): S {
    match tx
    case Commit(state, _) => state
    case Abort(_) => before
  }
}
