/**
 * Cancelling from either side, moving an appointment, and recording cash. Each of these touches
 * the money as well as the booking, in one transaction.
 */
module Cancellations {
  import opened Outcomes
  import opened BookingStatuses
  import opened Records
  import opened Refunds
  import opened Bookings
  import opened Financials

  /** Leave CONFIRMED, reserve what the cancellation gives back, and announce it: all or nothing. */
  function Cancel(
    db: Db, booking: RowId, to: BookingStatus, amount: Option<RefundAmount>, lenient: bool,
    mayRefund: bool, key: IdempotencyKey): Tx<Db, Reservation>
  {
    if booking >= |db.bookings| then Abort(NotFound)
    else if db.bookings[booking].status != Confirmed then Abort(BookingNotCancellable)
    else
      var moved := MoveTo(db, booking, db.bookings[booking].(status := to));
      match amount
      case None =>
        Commit(moved.(outbox := moved.outbox + [BookingCanceled(booking, None)]), Reservation(None, 0, 0))
      case Some(wanted) =>
        match Reserve(moved, booking, wanted, lenient, key)
        case Abort(error) => Abort(error)
        case Commit(reserved, reservation) =>
          if reservation.additional > 0 && !mayRefund then Abort(ForbiddenRole)
          else
            Commit(reserved.(outbox := reserved.outbox + [BookingCanceled(booking, reservation.refund)]),
                   reservation)
  }

  method CancelInTransaction(
    tx: Database, booking: RowId, to: BookingStatus, amount: Option<RefundAmount>, lenient: bool,
    mayRefund: bool, key: IdempotencyKey)
    returns (result: Result<Reservation>)
    modifies tx
    ensures result == ResultOf(Cancel(old(tx.View()), booking, to, amount, lenient, mayRefund, key))
    ensures tx.View() ==
            After(old(tx.View()), Cancel(old(tx.View()), booking, to, amount, lenient, mayRefund, key))
  {
    var saved := tx.View();
    if booking >= |tx.bookings| { return Err(NotFound); }
    var row := tx.bookings[booking];
    if row.status != Confirmed { return Err(BookingNotCancellable); }
    tx.bookings := tx.bookings[booking := row.(status := to)];
    tx.history := tx.history + [StatusChange(booking, Some(row.status), to)];

    var reservation := Reservation(None, 0, 0);
    if amount.Some? {
      var reserved := ReserveInTransaction(tx, booking, amount.value, lenient, key);
      if reserved.Err? {
        tx.Rollback(saved);
        return Err(reserved.error);
      }
      reservation := reserved.value;
      if reservation.additional > 0 && !mayRefund {
        tx.Rollback(saved);
        return Err(ForbiddenRole);
      }
    }
    tx.outbox := tx.outbox + [BookingCanceled(booking, reservation.refund)];
    return Ok(reservation);
  }

  /** A free cancellation: at once, with everything paid as the refund target. */
  function CancelImmediately(db: Db, booking: RowId, paid: Cents, key: IdempotencyKey): Tx<Db, Reservation> {
    Cancel(db, booking, CanceledByCustomer, Some(CumulativeTarget(paid)), true, true, key)
  }

  /** The office approves a request: the customer ends up with what was paid minus what is kept. */
  function ApproveCancellation(
    db: Db, booking: RowId, suggested: Cents, retained: Option<Cents>, mayRefund: bool, key: IdempotencyKey)
    : Tx<Db, Reservation>
  {
    if booking >= |db.bookings| then Abort(NotFound)
    else
      var paid := ReceivedBy(db, RootOf(db, booking));
      var kept := if retained.Some? then retained.value else suggested;
      if kept < 0 || kept > paid then Abort(ValidationFailed)
      else
        Cancel(db, booking, CanceledByCustomer, Some(CumulativeTarget(paid - kept)), true, mayRefund, key)
  }

  /** The business cancels, optionally sending an amount back now. Absent and zero differ. */
  function CancelByBusiness(
    db: Db, booking: RowId, refund: Option<Cents>, mayRefund: bool, key: IdempotencyKey): Tx<Db, Reservation>
  {
    match refund
    case None => Cancel(db, booking, CanceledByBusiness, None, true, mayRefund, key)
    case Some(cents) =>
      Cancel(db, booking, CanceledByBusiness, Some(Additional(cents)), cents <= 0, mayRefund, key)
  }

  /** Cancelling a confirmed booking towards a target: what the committed total becomes, and when it is refused. */
  lemma CancelTowards(db: Db, booking: RowId, target: Cents, mayRefund: bool, key: IdempotencyKey)
    requires LedgerInv(db) && booking < |db.bookings| && !KeyTaken(db.refunds, key)
    requires FindRefundable(db.payments, RootOf(db, booking)).Some? && db.bookings[booking].status == Confirmed
    ensures
      var p := FindRefundable(db.payments, RootOf(db, booking)).value;
      var owed := Max(Committed(db, p), Min(target, db.payments[p].amount));
      var outcome := Cancel(db, booking, CanceledByCustomer, Some(CumulativeTarget(target)), true, mayRefund, key);
      && (outcome.Commit? <==> mayRefund || owed == Committed(db, p))
      && (outcome.Commit? ==>
            && outcome.state.bookings[booking].status == CanceledByCustomer
            && outcome.state.payments == db.payments
            && Committed(outcome.state, p) == owed
            && outcome.value.additional == owed - Committed(db, p))
  {
    var moved := MoveTo(db, booking, db.bookings[booking].(status := CanceledByCustomer));
    MovingKeepsLedger(db, booking, db.bookings[booking].(status := CanceledByCustomer));
    TargetRaisesCommitted(moved, booking, target, true, key);
  }

  lemma MovingKeepsLedger(db: Db, booking: RowId, row: Booking)
    requires LedgerInv(db) && booking < |db.bookings| && row.financialRoot == db.bookings[booking].financialRoot
    ensures LedgerInv(MoveTo(db, booking, row)) && RootOf(MoveTo(db, booking, row), booking) == RootOf(db, booking)
    ensures forall p | 0 <= p < |db.payments| :: Committed(MoveTo(db, booking, row), p) == Committed(db, p)
  {
    forall p | 0 <= p < |db.payments| ensures BooksBalance(MoveTo(db, booking, row), p) {
      assert BooksBalance(db, p);
    }
  }

  /**
   * An approved cancellation settles the customer's account: the committed total becomes what was
   * paid minus what is kept, as far as the card charge allows and never less than was already
   * committed. It is refused exactly when the retained amount is out of range, the booking is not
   * confirmed, or money would move without the capability.
   */
  lemma ApprovalSettlesAccount(
    db: Db, booking: RowId, suggested: Cents, retained: Option<Cents>, mayRefund: bool, key: IdempotencyKey)
    requires LedgerInv(db) && booking < |db.bookings| && !KeyTaken(db.refunds, key)
    requires FindRefundable(db.payments, RootOf(db, booking)).Some?
    ensures
      var p := FindRefundable(db.payments, RootOf(db, booking)).value;
      var kept := if retained.Some? then retained.value else suggested;
      var paid := ReceivedBy(db, RootOf(db, booking));
      var owed := Max(Committed(db, p), Min(paid - kept, db.payments[p].amount));
      var outcome := ApproveCancellation(db, booking, suggested, retained, mayRefund, key);
      && (outcome.Commit? <==>
            && 0 <= kept <= paid
            && db.bookings[booking].status == Confirmed
            && (mayRefund || owed == Committed(db, p)))
      && (outcome.Commit? ==>
            && outcome.state.bookings[booking].status == CanceledByCustomer
            && outcome.state.payments == db.payments
            && Committed(outcome.state, p) == owed
            && outcome.value.additional == owed - Committed(db, p))
  {
    var kept := if retained.Some? then retained.value else suggested;
    var paid := ReceivedBy(db, RootOf(db, booking));
    if db.bookings[booking].status == Confirmed {
      CancelTowards(db, booking, paid - kept, mayRefund, key);
    }
  }

  // ── moving an appointment ────────────────────────────────────────────────────────────────

  /** The lineage column is unique per replaced booking. */
  predicate AlreadyReplaced(bookings: seq<Booking>, booking: RowId) {
    exists b | 0 <= b < |bookings| :: bookings[b].rescheduledFrom == Some(booking)
  }

  function RevokeTokens(tokens: seq<ManagementToken>, booking: RowId): (revoked: seq<ManagementToken>)
    ensures |revoked| == |tokens|
    ensures forall t | 0 <= t < |tokens| ::
              revoked[t] == if tokens[t].booking == booking then ManagementToken(booking, true) else tokens[t]
  {
    seq(|tokens|, t requires 0 <= t < |tokens| =>
      if tokens[t].booking == booking then ManagementToken(booking, true) else tokens[t])
  }

  /** The booking that takes over: same price, same money, new times. */
  function Replacement(db: Db, booking: RowId, startsAt: Instant): Booking
    requires booking < |db.bookings|
  {
    var row := db.bookings[booking];
    Booking(Confirmed, None, startsAt, startsAt + (row.endsAt - row.startsAt), row.price, None,
            Some(booking), Some(RootOf(db, booking)))
  }

  /** One transaction leaves the replacement blocking, the original cancelled, and one working link. */
  function Reschedule(db: Db, booking: RowId, startsAt: Instant): Tx<Db, RowId> {
    if booking >= |db.bookings| then Abort(NotFound)
    else if db.bookings[booking].status != Confirmed then Abort(BookingNotReschedulable)
    else if AlreadyReplaced(db.bookings, booking) then Abort(ConstraintViolation)
    else
      var id := |db.bookings|;
      var canceled := MoveTo(db, booking, db.bookings[booking].(status := CanceledByBusiness));
      Commit(Create(canceled, Replacement(db, booking, startsAt))
               .(tokens := RevokeTokens(db.tokens, booking) + [ManagementToken(id, false)],
                 outbox := db.outbox + [BookingRescheduled(id, booking), ReminderSchedule(id)]),
             id)
  }

  method ApproveReschedule(tx: Database, booking: RowId, startsAt: Instant) returns (result: Result<RowId>)
    modifies tx
    ensures result == ResultOf(Reschedule(old(tx.View()), booking, startsAt))
    ensures tx.View() == After(old(tx.View()), Reschedule(old(tx.View()), booking, startsAt))
  {
    if booking >= |tx.bookings| { return Err(NotFound); }
    var row := tx.bookings[booking];
    if row.status != Confirmed { return Err(BookingNotReschedulable); }
    if AlreadyReplaced(tx.bookings, booking) { return Err(ConstraintViolation); }

    var id := |tx.bookings|;
    var root := if row.financialRoot.Some? then row.financialRoot.value else booking;
    var endsAt := startsAt + (row.endsAt - row.startsAt);
    var created := Booking(Confirmed, None, startsAt, endsAt, row.price, None, Some(booking), Some(root));
    ghost var before := tx.bookings;
    tx.bookings := tx.bookings + [created];
    tx.bookings := tx.bookings[booking := row.(status := CanceledByBusiness)];
    assert tx.bookings == before[booking := row.(status := CanceledByBusiness)] + [created];
    tx.history := tx.history + [StatusChange(booking, Some(row.status), CanceledByBusiness)];
    tx.history := tx.history + [StatusChange(id, None, Confirmed)];
    tx.tokens := RevokeTokens(tx.tokens, booking) + [ManagementToken(id, false)];
    ghost var sent := tx.outbox;
    tx.outbox := tx.outbox + [BookingRescheduled(id, booking)];
    tx.outbox := tx.outbox + [ReminderSchedule(id)];
    assert tx.outbox == sent + [BookingRescheduled(id, booking), ReminderSchedule(id)];
    return Ok(id);
  }

  /**
   * A move keeps what was sold and what was paid: the replacement has the same length and price,
   * reads the same money, and is the only one of the two that occupies an employee; the links to
   * the old appointment stop working and exactly one link to the new one starts.
   */
  lemma MoveKeepsTerms(db: Db, booking: RowId, startsAt: Instant)
    requires Reschedule(db, booking, startsAt).Commit?
    ensures
      var Commit(next, id) := Reschedule(db, booking, startsAt);
      var was, now := db.bookings[booking], next.bookings[id];
      && now.startsAt == startsAt && now.endsAt - now.startsAt == was.endsAt - was.startsAt
      && now.price == was.price
      && FinancialsOf(next, RootOf(next, id)) == FinancialsOf(db, RootOf(db, booking))
      && IsBlocking(now.status) && !IsBlocking(next.bookings[booking].status)
      && (forall t | 0 <= t < |next.tokens| && next.tokens[t].booking == booking :: next.tokens[t].revoked)
      && next.tokens[|next.tokens| - 1] == ManagementToken(id, false)
      && forall b | 0 <= b < |db.bookings| && b != booking :: next.bookings[b] == db.bookings[b]
  {
  }

  // ── cash ─────────────────────────────────────────────────────────────────────────────────

  /** Cash and transfers are noted on the financial root of the booking they were for. */
  function RecordCash(db: Db, booking: RowId, amount: Cents): Tx<Db, ()> {
    if booking >= |db.bookings| then Abort(NotFound)
    else if db.bookings[booking].status == Expired || db.bookings[booking].status == PaymentFailed then
      Abort(InvalidStatusTransition)
    else if amount == 0 then Abort(ConstraintViolation)
    else Commit(db.(manualPayments := db.manualPayments + [ManualPayment(RootOf(db, booking), amount)]), ())
  }

  method RecordManualPayment(tx: Database, booking: RowId, amount: Cents) returns (result: Result<()>)
    modifies tx
    ensures result == ResultOf(RecordCash(old(tx.View()), booking, amount))
    ensures tx.View() == After(old(tx.View()), RecordCash(old(tx.View()), booking, amount))
  {
    if booking >= |tx.bookings| { return Err(NotFound); }
    var row := tx.bookings[booking];
    if row.status == Expired || row.status == PaymentFailed { return Err(InvalidStatusTransition); }
    if amount == 0 { return Err(ConstraintViolation); }
    var root := RootOf(tx.View(), booking);
    tx.manualPayments := tx.manualPayments + [ManualPayment(root, amount)];
    return Ok(());
  }

  /** Cash recorded on any booking of a chain is received once, on the root the whole chain reads. */
  lemma CashIsReceivedOnce(db: Db, booking: RowId, amount: Cents, root: RowId)
    requires RecordCash(db, booking, amount).Commit?
    ensures
      var next := RecordCash(db, booking, amount).state;
      ReceivedBy(next, root) == ReceivedBy(db, root) + (if root == RootOf(db, booking) then amount else 0)
  {
    var row := ManualPayment(RootOf(db, booking), amount);
    assert (db.manualPayments + [row])[..|db.manualPayments|] == db.manualPayments;
    CashAppend(CashOn(db.manualPayments, root), row);
  }
}
