/** The rows the booking services share, and the database that holds them. */
module Records {
  import opened Outcomes
  import opened BookingStatuses

  /** Integer minor units of the one currency a booking is priced in. */
  type Cents = int

  /** Epoch milliseconds. */
  type Instant = int

  /** Rows are addressed by their position, which is also their creation order. */
  type RowId = nat
  type SessionId = nat
  type ChargeId = nat
  type IdempotencyKey = nat
  type ProviderRefundId = nat

  datatype Booking = Booking(
    status: BookingStatus,
    expiresAt: Option<Instant>,
    startsAt: Instant,
    endsAt: Instant,
    price: Cents,
    session: Option<SessionId>,
    rescheduledFrom: Option<RowId>,
    financialRoot: Option<RowId>)

  datatype PaymentStatus = Pending | Succeeded | Failed | PartiallyRefunded | Refunded

  datatype Payment = Payment(
    booking: RowId,
    session: SessionId,
    amount: Cents,
    refunded: Cents,
    status: PaymentStatus,
    charge: Option<ChargeId>)

  datatype RefundStatus = Pending | Succeeded | Failed | Canceled

  datatype Refund = Refund(
    booking: RowId,
    payment: RowId,
    amount: Cents,
    status: RefundStatus,
    key: IdempotencyKey,
    providerId: Option<ProviderRefundId>)

  /** Cash, a desk terminal, a bank transfer; negative when it corrects an earlier row. */
  datatype ManualPayment = ManualPayment(booking: RowId, amount: Cents)

  datatype ManagementToken = ManagementToken(booking: RowId, revoked: bool)

  datatype Event =
    | ExpiryRequested(booking: RowId)
    | BookingConfirmed(booking: RowId)
    | BookingPaymentFailed(booking: RowId)
    | BookingCanceled(booking: RowId, reserved: Option<RowId>)
    | BookingRescheduled(booking: RowId, previous: RowId)
    | ReminderSchedule(booking: RowId)
    | RefundRequested(refund: RowId)
    | RefundSucceeded(refund: RowId)
    | NotificationSend(booking: RowId)

  /**
   * The messages one firing of a reminder inserted, by email, by text message or both. They share
   * the booking, the offset and the time that make up their unique keys.
   */
  datatype QueuedReminder = QueuedReminder(
    booking: RowId, offset: int, epochSeconds: int, email: bool, sms: bool)

  /** One committed state of the database. */
  datatype Db = Db(
    bookings: seq<Booking>,
    payments: seq<Payment>,
    refunds: seq<Refund>,
    manualPayments: seq<ManualPayment>,
    history: seq<StatusChange>,
    tokens: seq<ManagementToken>,
    reminders: seq<QueuedReminder>,
    outbox: seq<Event>)

  const EMPTY := Db([], [], [], [], [], [], [], [])

  /** The transaction client the services write through. */
  class Database {
    var bookings: seq<Booking>
    var payments: seq<Payment>
    var refunds: seq<Refund>
    var manualPayments: seq<ManualPayment>
    var history: seq<StatusChange>
    var tokens: seq<ManagementToken>
    var reminders: seq<QueuedReminder>
    var outbox: seq<Event>

    constructor ()
      ensures View() == EMPTY
    {
      bookings, payments, refunds, manualPayments := [], [], [], [];
      history, tokens, reminders, outbox := [], [], [], [];
    }

    function View(): Db
      reads this
    {
      Db(bookings, payments, refunds, manualPayments, history, tokens, reminders, outbox)
    }

    /** Roll back to the state a transaction began with. */
    method Rollback(saved: Db)
      modifies this
      ensures View() == saved
    {
      bookings, payments, refunds := saved.bookings, saved.payments, saved.refunds;
      manualPayments, history := saved.manualPayments, saved.history;
      tokens, reminders, outbox := saved.tokens, saved.reminders, saved.outbox;
    }
  }

  /** Where a booking keeps its money: with the first of its chain, or on itself. */
  function RootOf(db: Db, booking: RowId): RowId
    requires booking < |db.bookings|
  {
    match db.bookings[booking].financialRoot
    case Some(root) => root
    case None => booking
  }

  /** The rows of the status history that are about one booking. */
  function HistoryOf(rows: seq<StatusChange>, booking: RowId): seq<StatusChange> {
    if rows == [] then []
    else
      var init, last := rows[..|rows| - 1], rows[|rows| - 1];
      HistoryOf(init, booking) + (if last.booking == booking then [last] else [])
  }

  lemma HistoryOfAppend(rows: seq<StatusChange>, row: StatusChange, booking: RowId)
    ensures HistoryOf(rows + [row], booking) ==
            HistoryOf(rows, booking) + (if row.booking == booking then [row] else [])
  {
    assert (rows + [row])[..|rows|] == rows;
  }
}
