/** The values the wallet handlers read and write: user-table items,
    payment-history rows, notification messages and handler outcomes. */
module Records {

  type UserId = string
  type TransactionId = string
  type LocationId = string
  type ErrorCode = string

  datatype Option<+T> = None | Some(value: T) {
    /** The value, or `default` when absent (Python's `dict.get(key, default)`). */
    function GetOr(default: T): T {
      match this
      case Some(v) => v
      case None => default
    }
  }

  datatype Result<+T, +E> = Ok(value: T) | Err(error: E)

  /** One item of the user table, keyed by the user id. `name` is absent on
      an item that an `ADD` created for an unknown key; `amount` is absent
      until the first `ADD` on it. */
  datatype UserItem = UserItem(name: Option<string>, amount: Option<int>)

  /** One row of the payment-history table (the timestamp is not modelled).
      A charge row carries `chargeAmount`, a use row `useAmount`. */
  datatype HistoryRow = HistoryRow(
    userId: UserId,
    transactionId: TransactionId,
    chargeAmount: Option<int>,
    useAmount: Option<int>,
    locationId: LocationId)

  /** The body of one message put on the notification queue. */
  datatype Notification = Notification(
    transactionId: TransactionId,
    userId: UserId,
    chargeAmount: Option<int>,
    useAmount: Option<int>,
    totalAmount: int,
    transferTo: Option<UserId>,
    transferFrom: Option<UserId>)

  /** What a mutating handler answers: 202 accepted, or 400 with
      "There was not enough money." or with the store's error code. */
  datatype Outcome = Accepted | NotEnoughMoney | StoreError(code: ErrorCode)

  /** A `botocore` client error: its `Error.Code` and, for a cancelled
      transaction, the cancellation reason of each item in order. */
  datatype ClientError = ClientError(code: ErrorCode, reasons: seq<ErrorCode>)

  const ConditionalCheckFailedException: ErrorCode := "ConditionalCheckFailedException"
  const TransactionCanceledException: ErrorCode := "TransactionCanceledException"
  const ValidationException: ErrorCode := "ValidationException"
  /** Cancellation reason codes of `transact_write_items`. */
  const ConditionalCheckFailed: ErrorCode := "ConditionalCheckFailed"
  const NoReason: ErrorCode := "None"
}
