/**
 * Runs that reach what the machine promises: every transition its table permits, a payment that arrives on its
 * booking, money that comes back to where it was, and every other transaction doing what it is for.
 */
module Journeys {
  import opened Outcomes
  import opened BookingStatuses
  import opened Records
  import opened Refunds
  import opened Financials
  import opened Bookings
  import opened Cancellations
  import opened Operations
  import opened Effects
  import opened ReminderFiring
  import R = Reminders

  // ── every edge of the machine ────────────────────────────────────────────────────────────

  /** A session no booking names. */
  lemma {:induction false} SomeFreeSession(bookings: seq<Booking>) returns (session: SessionId)
    ensures forall b | 0 <= b < |bookings| && bookings[b].session.Some? :: bookings[b].session.value < session
  {
    session := 0;
    if bookings != [] {
      var last := bookings[|bookings| - 1].session;
      session := SomeFreeSession(bookings[..|bookings| - 1]);
      assert forall b | 0 <= b < |bookings| - 1 :: bookings[b] == bookings[..|bookings| - 1][b];
      if last.Some? && last.value >= session {
        session := last.value + 1;
      }
    }
  }

  /** In every reachable state each edge of the status table is taken by some transaction. */
  lemma EveryTransitionIsTaken(ops: seq<Op>, b: RowId, to: BookingStatus) returns (op: Op)
    requires b < |Run(ops).bookings| && to in Transitions(Run(ops).bookings[b].status)
    ensures MovedTo(Run(ops), Run(ops + [op]), b, to)
  {
    RunsKeepInv(ops);
    if to == Confirmed {
      op := ConfirmationIsTaken(Run(ops), b);
    } else if to == Completed || to == NoShow {
      op := AttendanceIsTaken(Run(ops), b, to);
    } else if to == CanceledByBusiness || to == CanceledByCustomer {
      op := CancellationIsTaken(Run(ops), b, to);
    } else if to == PaymentFailed {
      FailureIsTaken(Run(ops), b);
      op := FailOp(b);
    } else {
      op := ExpiryIsTaken(Run(ops), b, to);
    }
    OneMore(ops, op);
  }

  lemma ConfirmationIsTaken(db: Db, b: RowId) returns (op: Op)
    requires Inv(db) && b < |db.bookings| && Confirmed in Transitions(db.bookings[b].status)
    ensures MovedTo(db, Apply(db, op), b, Confirmed)
  {
    var session := SomeFreeSession(db.bookings);
    ConfirmationAnswers(db, b, session, 1, None);
    ConfirmationPaysItsSession(db, b, session, 1, None);
    op := ConfirmOp(b, session, 1, None);
  }

  lemma FailureIsTaken(db: Db, b: RowId)
    requires b < |db.bookings| && PaymentFailed in Transitions(db.bookings[b].status)
    ensures MovedTo(db, Apply(db, FailOp(b)), b, PaymentFailed)
  {
    FailureIsNarrow(db, b);
  }

  lemma ExpiryIsTaken(db: Db, b: RowId, to: BookingStatus) returns (op: Op)
    requires Inv(db) && b < |db.bookings| && to in Transitions(db.bookings[b].status)
    requires to == Expiring || to == Expired
    ensures MovedTo(db, Apply(db, op), b, to)
  {
    var row := db.bookings[b];
    assert HistoryOk(row, HistoryOf(db.history, b));
    LifecycleMovesIff(db, b, row.expiresAt.value);
    op := if to == Expiring then BeginOp(b, row.expiresAt.value) else ReleaseOp(b);
  }

  lemma AttendanceIsTaken(db: Db, b: RowId, to: BookingStatus) returns (op: Op)
    requires b < |db.bookings| && db.bookings[b].status == Confirmed && (to == Completed || to == NoShow)
    ensures MovedTo(db, Apply(db, op), b, to)
  {
    var row := db.bookings[b];
    LifecycleMovesIff(db, b, if to == Completed then row.endsAt else row.startsAt);
    op := if to == Completed then CompleteOp(b, row.endsAt) else NoShowOp(b, row.startsAt);
  }

  lemma CancellationIsTaken(db: Db, b: RowId, to: BookingStatus) returns (op: Op)
    requires LedgerInv(db) && b < |db.bookings| && db.bookings[b].status == Confirmed
    requires to == CanceledByBusiness || to == CanceledByCustomer
    ensures MovedTo(db, Apply(db, op), b, to)
  {
    NoRefundCancels(db, b, to);
    op := if to == CanceledByBusiness then BusinessCancelOp(b, None, false, 0) else CancelOp(b, 0, 0);
  }

  lemma NoRefundCancels(db: Db, b: RowId, to: BookingStatus)
    requires LedgerInv(db) && b < |db.bookings| && db.bookings[b].status == Confirmed
    ensures to == CanceledByBusiness ==> MovedTo(db, After(db, CancelByBusiness(db, b, None, false, 0)), b, to)
    ensures to == CanceledByCustomer ==> MovedTo(db, After(db, CancelImmediately(db, b, 0, 0)), b, to)
  {
    MoveToMoves(db, b, db.bookings[b].(status := to));
    var found := FindRefundable(db.payments, RootOf(db, b));
    if found.Some? {
      assert BooksBalance(db, found.value);
      SumBounds(db.refunds, found.value, RefundStatus.Succeeded);
      SumBounds(db.refunds, found.value, RefundStatus.Pending);
    }
  }

  // ── every other transaction, in any state that keeps the invariant ───────────────────────

  /** A customer's reservation waits, on its own root, to be paid at the asked price. */
  lemma ReservationWaits(db: Db, expiresAt: Instant, startsAt: Instant, endsAt: Instant, price: Cents)
    ensures
      var next := Apply(db, ReserveOp(Customer(expiresAt), startsAt, endsAt, price));
      next.bookings ==
      db.bookings + [Booking(PendingPayment, Some(expiresAt), startsAt, endsAt, price, None, None, None)]
  {
  }

  /** A session nobody used is attached to a booking that waits, with a pending payment at its price. */
  lemma SessionIsAttached(db: Db, b: RowId, session: SessionId)
    requires Inv(db) && b < |db.bookings| && IsOpen(db.bookings[b].status)
    requires db.bookings[b].session == None && db.bookings[b].price > 0
    requires forall c | 0 <= c < |db.bookings| :: db.bookings[c].session != Some(session)
    requires forall p | 0 <= p < |db.payments| :: db.payments[p].session != session
    ensures
      var next := Apply(db, AttachOp(b, session));
      && next.bookings == db.bookings[b := db.bookings[b].(session := Some(session))]
      && next.payments == db.payments + [Payment(b, session, db.bookings[b].price, 0, PaymentStatus.Pending, None)]
  {
    assert ChainLinkOk(db, b);
    AttachOpensPayment(db, b, session);
  }

  lemma NothingReplacesConfirmed(db: Db, b: RowId)
    requires ChainInv(db) && b < |db.bookings| && db.bookings[b].status == Confirmed
    ensures forall c | 0 <= c < |db.bookings| :: db.bookings[c].rescheduledFrom != Some(b)
  {
    forall c | 0 <= c < |db.bookings| ensures db.bookings[c].rescheduledFrom != Some(b) {
      assert ChainLinkOk(db, c);
    }
  }

  /** A confirmed appointment can always be moved, and no root gains or loses by it. */
  lemma AppointmentMoves(db: Db, b: RowId, startsAt: Instant, root: RowId)
    requires Inv(db) && b < |db.bookings| && db.bookings[b].status == Confirmed
    ensures
      var next, id := Apply(db, RescheduleOp(b, startsAt)), |db.bookings|;
      && |next.bookings| == id + 1 && next.bookings[b].status == CanceledByBusiness
      && next.bookings[id].status == Confirmed && next.bookings[id].startsAt == startsAt
      && next.bookings[id].rescheduledFrom == Some(b) && next.bookings[id].price == db.bookings[b].price
      && NetOf(next, root) == NetOf(db, root)
  {
    NothingReplacesConfirmed(db, b);
    MovesIff(db, b, startsAt);
  }

  /** Cash counts for the root of its booking, unless that was given up unpaid. */
  lemma CashCounts(db: Db, b: RowId, amount: Cents, root: RowId)
    requires b < |db.bookings|
    ensures
      var kept := db.bookings[b].status != Expired && db.bookings[b].status != PaymentFailed;
      NetOf(Apply(db, CashOp(b, amount)), root) ==
      NetOf(db, root) + (if kept && root == RootOf(db, b) then amount else 0)
  {
    CashIsRecordedIff(db, b, amount);
    if RecordCash(db, b, amount).Commit? {
      CashIsReceivedOnce(db, b, amount, root);
    }
  }

  /** A refund within the balance is asked for. */
  lemma RefundIsAskedFor(db: Db, b: RowId, cents: Cents, key: IdempotencyKey, p: RowId)
    requires b < |db.bookings| && FindRefundable(db.payments, RootOf(db, b)) == Some(p)
    requires p < |db.payments| && 0 < cents <= db.payments[p].amount - Committed(db, p)
    requires forall r | 0 <= r < |db.refunds| :: db.refunds[r].key != key
    ensures Requested(db, Apply(db, RefundOp(b, cents, key)), b, p, cents, key)
  {
    RefundIsRequestedIff(db, b, cents, key);
  }

  /** A reported outcome settles a pending refund, whether a worker or a webhook brings it. */
  lemma OutcomeSettles(db: Db, r: RowId, status: RefundStatus, id: ProviderRefundId)
    requires Inv(db) && r < |db.refunds| && db.refunds[r].status == RefundStatus.Pending
    requires forall q | 0 <= q < |db.refunds| :: db.refunds[q].providerId != Some(id)
    ensures IsSettledAs(db, Apply(db, SettleOp(r, status, Some(id))), r, status, Some(id))
    ensures IsSettledAs(db, Apply(db, UpdateOp(id, Some(db.refunds[r].key), status)), r, status, Some(id))
  {
    PendingIsSettled(db, r, status, Some(id));
    forall q | 0 <= q < |db.refunds| && q != r ensures !MatchesHandle(db.refunds[q], id, Some(db.refunds[r].key)) {
    }
    WebhookSettlesItsRow(db, id, Some(db.refunds[r].key), status);
  }

  /** The office may cancel a confirmed booking at its customer's request, keeping what it may keep. */
  lemma RequestIsApproved(
    db: Db, next: Db, b: RowId, suggested: Cents, retained: Option<Cents>, mayRefund: bool, key: IdempotencyKey)
    requires LedgerInv(db) && b < |db.bookings| && db.bookings[b].status == Confirmed && !KeyTaken(db.refunds, key)
    requires FindRefundable(db.payments, RootOf(db, b)).Some?
    requires next == Apply(db, ApproveOp(b, suggested, retained, mayRefund, key))
    ensures
      var p := FindRefundable(db.payments, RootOf(db, b)).value;
      var kept := if retained.Some? then retained.value else suggested;
      var paid := ReceivedBy(db, RootOf(db, b));
      var owed := Max(Committed(db, p), Min(paid - kept, db.payments[p].amount));
      if 0 <= kept <= paid && (mayRefund || owed == Committed(db, p)) then
        && b < |next.bookings| && next.bookings[b].status == CanceledByCustomer
        && next.payments == db.payments && Committed(next, p) == owed
      else next == db
  {
    var outcome := ApproveCancellation(db, b, suggested, retained, mayRefund, key);
    ApprovalSettlesAccount(db, b, suggested, retained, mayRefund, key);
    assert next == After(db, outcome);
    if outcome.Commit? {
      assert next == outcome.state && |next.bookings| == |db.bookings|;
    }
  }

  /** A reminder whose appointment stands reaches its customer, by email at least. */
  lemma ReminderIsQueued(db: Db, b: RowId, offset: int, offsets: seq<int>, texts: bool)
    requires b < |db.bookings| && db.bookings[b].status == Confirmed && offset in offsets
    ensures
      var at := R.StartsAtEpochSeconds(db.bookings[b].startsAt);
      var next := Apply(db, FireOp(b, offset, at, offsets, texts));
      && IsQueued(next.reminders, b, offset, at, false) && (texts ==> IsQueued(next.reminders, b, offset, at, true))
  {
    var at := R.StartsAtEpochSeconds(db.bookings[b].startsAt);
    FiringQueuesWhatIsMissing(db, b, offset, at, offsets, texts);
  }

  // ── what waits to be paid ────────────────────────────────────────────────────────────────

  /** The only payment of a booking that waits for money is its session's: pending, at the booking's price. */
  ghost predicate WaitsForItsSession(db: Db, b: RowId)
    requires b < |db.bookings|
  {
    var row := db.bookings[b];
    && (forall p | 0 <= p < |db.payments| && db.payments[p].booking == b ::
          && db.payments[p] == Payment(b, db.payments[p].session, row.price, 0, PaymentStatus.Pending, None)
          && row.session == Some(db.payments[p].session))
    && (row.session.Some? ==>
          exists p | 0 <= p < |db.payments| ::
            db.payments[p].booking == b && db.payments[p].session == row.session.value)
  }

  ghost predicate OpenOk(db: Db) {
    forall b | 0 <= b < |db.bookings| && IsOpen(db.bookings[b].status) :: WaitsForItsSession(db, b)
  }

  /** Bookings that wait afterwards waited before, or are new; settled payments aside, none moved. */
  ghost predicate LeavesOpen(db: Db, next: Db) {
    && |db.bookings| <= |next.bookings| && |next.payments| == |db.payments|
    && (forall b | 0 <= b < |db.bookings| && IsOpen(next.bookings[b].status) ::
          && IsOpen(db.bookings[b].status) && next.bookings[b].session == db.bookings[b].session
          && next.bookings[b].price == db.bookings[b].price)
    && (forall b | |db.bookings| <= b < |next.bookings| :: next.bookings[b].session == None)
    && (forall p | 0 <= p < |db.payments| ::
          || next.payments[p] == db.payments[p]
          || (Settled(db.payments[p].status) && next.payments[p].booking == db.payments[p].booking))
  }

  lemma LeavingKeepsOpen(db: Db, next: Db)
    requires OpenOk(db) && ChainInv(db) && LeavesOpen(db, next)
    ensures OpenOk(next)
  {
    forall b | 0 <= b < |next.bookings| && IsOpen(next.bookings[b].status) ensures WaitsForItsSession(next, b) {
      if b < |db.bookings| {
        assert WaitsForItsSession(db, b);
      } else {
        assert forall p | 0 <= p < |db.payments| :: IsRoot(db, db.payments[p].booking);
      }
    }
  }

  lemma AttachingLeavesWaiting(db: Db, next: Db, b: RowId, session: SessionId, c: RowId)
    requires b < |db.bookings| && c < |db.bookings| && WaitsForItsSession(db, c)
    requires SessionsUnique(db.payments) && Attach(db, b, session) == Commit(next, ())
    ensures WaitsForItsSession(next, c)
  {
    AttachOpensPayment(db, b, session);
  }

  lemma AttachKeepsOpen(db: Db, b: RowId, session: SessionId)
    requires OpenOk(db) && Inv(db)
    ensures OpenOk(After(db, Attach(db, b, session)))
  {
    var next := After(db, Attach(db, b, session));
    if next != db {
      AttachOpensPayment(db, b, session);
      forall c | 0 <= c < |next.bookings| && IsOpen(next.bookings[c].status) ensures WaitsForItsSession(next, c) {
        AttachingLeavesWaiting(db, next, b, session, c);
      }
    }
  }

  lemma PayingLeavesOthersWaiting(
    db: Db, next: Db, p: RowId, b: RowId, session: SessionId, amount: Cents, charge: Option<ChargeId>, c: RowId)
    requires PaysWith(db, next, p, b, session, amount, charge)
    requires c < |db.bookings| == |next.bookings| && c != b && next.bookings[c] == db.bookings[c]
    requires WaitsForItsSession(db, c) && db.bookings[c].session != Some(session)
    ensures WaitsForItsSession(next, c)
  {
  }

  lemma PayingKeepsOpen(
    db: Db, next: Db, p: RowId, b: RowId, session: SessionId, amount: Cents, charge: Option<ChargeId>)
    requires OpenOk(db) && b < |db.bookings| && MovedTo(db, next, b, Confirmed)
    requires PaysWith(db, next, p, b, session, amount, charge)
    requires forall c | 0 <= c < |db.bookings| && c != b :: db.bookings[c].session != Some(session)
    ensures OpenOk(next)
  {
    forall c | 0 <= c < |next.bookings| && IsOpen(next.bookings[c].status) ensures WaitsForItsSession(next, c) {
      PayingLeavesOthersWaiting(db, next, p, b, session, amount, charge, c);
    }
  }

  lemma ConfirmKeepsOpen(db: Db, b: RowId, session: SessionId, amount: Cents, charge: Option<ChargeId>)
    requires OpenOk(db) && Inv(db)
    ensures OpenOk(After(db, Confirm(db, b, session, amount, charge)))
  {
    var next := After(db, Confirm(db, b, session, amount, charge));
    if next != db {
      ConfirmationPaysItsSession(db, b, session, amount, charge);
      var p: nat :| PaysWith(db, next, p, b, session, amount, charge);
      PayingKeepsOpen(db, next, p, b, session, amount, charge);
    }
  }

  lemma FailKeepsOpen(db: Db, b: RowId)
    requires OpenOk(db)
    ensures OpenOk(MarkFailed(db, b))
  {
    FailureIsNarrow(db, b);
    var next := MarkFailed(db, b);
    forall c | 0 <= c < |next.bookings| && IsOpen(next.bookings[c].status) ensures WaitsForItsSession(next, c) {
      assert WaitsForItsSession(db, c);
    }
  }

  lemma SettleLeavesOpen(db: Db, r: RowId, status: RefundStatus, id: Option<ProviderRefundId>)
    requires LedgerInv(db)
    ensures LeavesOpen(db, After(db, Settle(db, r, status, id)))
  {
    if r < |db.refunds| {
      assert BooksBalance(db, db.refunds[r].payment);
    }
  }

  lemma CancelLeavesOpen(
    db: Db, b: RowId, to: BookingStatus, amount: Option<RefundAmount>, lenient: bool,
    mayRefund: bool, key: IdempotencyKey)
    requires !IsOpen(to)
    ensures LeavesOpen(db, After(db, Cancel(db, b, to, amount, lenient, mayRefund, key)))
  {
  }

  lemma CancellingLeavesOpen(db: Db, op: Op)
    requires op.CancelOp? || op.ApproveOp? || op.BusinessCancelOp?
    ensures LeavesOpen(db, Apply(db, op))
  {
    match op
    case CancelOp(b, paid, key) =>
      CancelLeavesOpen(db, b, CanceledByCustomer, Some(CumulativeTarget(paid)), true, true, key);
    case ApproveOp(b, suggested, retained, may, key) =>
      var amount := ApprovalIsCancel(db, b, suggested, retained, may, key);
      CancelLeavesOpen(db, b, CanceledByCustomer, Some(amount), true, may, key);
    case BusinessCancelOp(b, refund, may, key) =>
      if refund.None? {
        CancelLeavesOpen(db, b, CanceledByBusiness, None, true, may, key);
      } else {
        CancelLeavesOpen(db, b, CanceledByBusiness, Some(Additional(refund.value)), refund.value <= 0, may, key);
      }
  }

  lemma MoneyOpLeavesOpen(db: Db, op: Op)
    requires LedgerInv(db) && MovesMoney(op)
    ensures LeavesOpen(db, Apply(db, op))
  {
    match op
    case SettleOp(r, status, id) => SettleLeavesOpen(db, r, status, id);
    case UpdateOp(id, handle, status) =>
      var found := FindByHandle(db.refunds, id, handle);
      if found.Some? {
        SettleLeavesOpen(db, found.value, status, Some(id));
      }
    case CashOp(_, _) =>
    case RefundOp(_, _, _) =>
    case _ => CancellingLeavesOpen(db, op);
  }

  lemma CreationLeavesOpen(db: Db, op: Op)
    requires op.ReserveOp? || op.RescheduleOp?
    ensures LeavesOpen(db, Apply(db, op))
  {
  }

  lemma BookingOpLeavesOpen(db: Db, op: Op)
    requires !MovesMoney(op) && !op.AttachOp? && !op.ConfirmOp? && !op.FailOp?
    ensures LeavesOpen(db, Apply(db, op))
  {
    if op.ReserveOp? || op.RescheduleOp? {
      CreationLeavesOpen(db, op);
    }
  }

  lemma {:induction false} RunsKeepOpen(ops: seq<Op>)
    ensures OpenOk(Run(ops))
  {
    if ops != [] {
      var db, op := Run(ops[..|ops| - 1]), ops[|ops| - 1];
      RunsKeepOpen(ops[..|ops| - 1]);
      RunsKeepInv(ops[..|ops| - 1]);
      match op
      case AttachOp(b, s) => AttachKeepsOpen(db, b, s);
      case ConfirmOp(b, s, amount, charge) => ConfirmKeepsOpen(db, b, s, amount, charge);
      case FailOp(b) => FailKeepsOpen(db, b);
      case _ =>
        if MovesMoney(op) {
          MoneyOpLeavesOpen(db, op);
        } else {
          BookingOpLeavesOpen(db, op);
        }
        LeavingKeepsOpen(db, Apply(db, op));
    }
  }

  // ── a payment arrives, and comes back ────────────────────────────────────────────────────

  predicate ChargeIsFree(db: Db, charge: Option<ChargeId>) {
    charge.Some? ==> forall p | 0 <= p < |db.payments| :: db.payments[p].charge != charge
  }

  /**
   * In every run, when the session a booking waits on is reported paid, the booking is confirmed, the
   * reported amount is received on it and nowhere else, and that payment is what a refund comes out of.
   */
  lemma PaidSessionArrives(ops: seq<Op>, b: RowId, session: SessionId, amount: Cents, charge: Option<ChargeId>)
    requires b < |Run(ops).bookings| && IsOpen(Run(ops).bookings[b].status)
    requires Run(ops).bookings[b].session == Some(session) && amount > 0 && ChargeIsFree(Run(ops), charge)
    ensures
      var db, next := Run(ops), Run(ops + [ConfirmOp(b, session, amount, charge)]);
      && MovedTo(db, next, b, Confirmed) && RootOf(next, b) == b
      && (forall root :: ReceivedBy(next, root) == ReceivedBy(db, root) + (if root == b then amount else 0))
      && exists p: nat ::
           && p < |db.payments| && PaysWith(db, next, p, b, session, amount, charge)
           && FindRefundable(next.payments, b) == Some(p)
  {
    var db := Run(ops);
    RunsKeepInv(ops);
    RunsKeepOpen(ops);
    OneMore(ops, ConfirmOp(b, session, amount, charge));
    assert ChainLinkOk(db, b) && WaitsForItsSession(db, b);
    var p := WaitingSessionIsPaid(db, b, session, amount, charge);
    forall root
      ensures ReceivedBy(After(db, Confirm(db, b, session, amount, charge)), root) ==
              ReceivedBy(db, root) + (if root == b then amount else 0)
    {
      ConfirmationBringsTheMoney(db, b, session, amount, charge, root);
    }
  }

  lemma WaitingSessionIsPaid(
    db: Db, b: RowId, session: SessionId, amount: Cents, charge: Option<ChargeId>) returns (p: RowId)
    requires Inv(db) && b < |db.bookings| && IsOpen(db.bookings[b].status) && WaitsForItsSession(db, b)
    requires db.bookings[b].session == Some(session) && amount > 0 && ChargeIsFree(db, charge)
    ensures
      var outcome := Confirm(db, b, session, amount, charge);
      && outcome.Commit? && outcome.value == NowConfirmed && MovedTo(db, outcome.state, b, Confirmed)
      && outcome.state.bookings[b].financialRoot == db.bookings[b].financialRoot
      && p < |db.payments| && PaysWith(db, outcome.state, p, b, session, amount, charge)
      && db.payments[p].booking == b && db.payments[p].status == PaymentStatus.Pending
      && FindRefundable(outcome.state.payments, b) == Some(p)
  {
    ConfirmationAnswers(db, b, session, amount, charge);
    ConfirmationPaysItsSession(db, b, session, amount, charge);
    var next := After(db, Confirm(db, b, session, amount, charge));
    p :| PaysWith(db, next, p, b, session, amount, charge);
    var found := FindRefundable(next.payments, b);
    assert next.payments[p].booking == b && HasBalance(next.payments[p].status);
    assert found.Some? && next.payments[found.value].booking == b;
  }

  lemma PaymentRaisesNet(
    db: Db, next: Db, p: RowId, b: RowId, session: SessionId, amount: Cents, charge: Option<ChargeId>, root: RowId)
    requires PaysWith(db, next, p, b, session, amount, charge) && p < |db.payments|
    requires db.payments[p].booking == b && db.payments[p].status == PaymentStatus.Pending
    requires next.manualPayments == db.manualPayments && next.refunds == db.refunds
    ensures NetOf(next, root) == NetOf(db, root) + (if root == b then amount else 0)
  {
    PaidRowCounts(db, next, p, b, session, amount, charge, root);
    assert RefundMovements(next.refunds, next.payments) == RefundMovements(db.refunds, db.payments);
    RefundsAreMovements(db.refunds, db.payments, root);
    RefundsAreMovements(next.refunds, next.payments, root);
  }

  /** A booking was just paid: one card row, no refund of it, and its money on the booking. */
  ghost predicate JustPaid(db: Db, next: Db, b: RowId, p: RowId, session: SessionId, amount: Cents) {
    && LedgerInv(next) && b < |next.bookings| && next.bookings[b].status == Confirmed && RootOf(next, b) == b
    && p < |next.payments| && next.payments[p].booking == b
    && next.payments[p].session == session && next.payments[p].amount == amount
    && next.refunds == db.refunds && (forall r | 0 <= r < |next.refunds| :: next.refunds[r].payment != p)
    && FindRefundable(next.payments, b) == Some(p)
    && (forall root :: NetOf(next, root) == NetOf(db, root) + (if root == b then amount else 0))
  }

  lemma WaitingSessionIsJustPaid(
    db: Db, b: RowId, session: SessionId, amount: Cents, charge: Option<ChargeId>) returns (p: RowId)
    requires Inv(db) && b < |db.bookings| && IsOpen(db.bookings[b].status) && WaitsForItsSession(db, b)
    requires db.bookings[b].session == Some(session) && amount > 0 && ChargeIsFree(db, charge)
    ensures JustPaid(db, After(db, Confirm(db, b, session, amount, charge)), b, p, session, amount)
  {
    p := WaitingSessionIsPaid(db, b, session, amount, charge);
    assert ChainLinkOk(db, b) && BooksBalance(db, p);
    ConfirmKeepsLedger(db, b, session, amount, charge);
    var next := After(db, Confirm(db, b, session, amount, charge));
    forall root ensures NetOf(next, root) == NetOf(db, root) + (if root == b then amount else 0) {
      ConfirmationPaysItsSession(db, b, session, amount, charge);
      PaymentRaisesNet(db, next, p, b, session, amount, charge, root);
    }
  }

  /** A refund that is only asked for moves no money yet. */
  lemma RequestLeavesNet(db: Db, next: Db, b: RowId, p: RowId, amount: Cents, key: IdempotencyKey, root: RowId)
    requires Requested(db, next, b, p, amount, key)
    requires next.payments == db.payments && next.manualPayments == db.manualPayments
    ensures NetOf(next, root) == NetOf(db, root)
  {
    assert next.refunds == db.refunds + [next.refunds[|db.refunds|]];
    RefundAppend(db.refunds, next.refunds[|db.refunds|], db.payments);
    OneMoreMovement(RefundMovements(db.refunds, db.payments),
                    RefundMovements(next.refunds, db.payments)[|db.refunds|], {root});
    SumsApart(db, root);
    SumsApart(next, root);
  }

  /** Cancelling a booking whose one payment was never touched asks for all of it. */
  lemma WholePaymentIsRequested(db: Db, b: RowId, p: RowId, paid: Cents, key: IdempotencyKey)
    requires LedgerInv(db) && b < |db.bookings| && db.bookings[b].status == Confirmed
    requires forall r | 0 <= r < |db.refunds| :: db.refunds[r].key != key && db.refunds[r].payment != p
    requires FindRefundable(db.payments, RootOf(db, b)) == Some(p) && paid >= db.payments[p].amount
    ensures
      var outcome := CancelImmediately(db, b, paid, key);
      && outcome.Commit? && outcome.state.payments == db.payments && outcome.state.manualPayments == db.manualPayments
      && MovedTo(db, outcome.state, b, CanceledByCustomer)
      && Requested(db, outcome.state, b, p, db.payments[p].amount, key)
  {
    CustomerCancelsIff(db, b, paid, key);
    assert BooksBalance(db, p);
    SumBounds(db.refunds, p, RefundStatus.Succeeded);
    SumBounds(db.refunds, p, RefundStatus.Pending);
  }

  /** The webhook about a refund that was just asked for sends its amount back. */
  lemma RequestIsSent(
    db: Db, next: Db, b: RowId, p: RowId, amount: Cents, key: IdempotencyKey, id: ProviderRefundId, root: RowId)
    requires LedgerInv(next) && Requested(db, next, b, p, amount, key)
    requires forall r | 0 <= r < |db.refunds| :: db.refunds[r].key != key && db.refunds[r].providerId != Some(id)
    ensures
      var final, r := After(next, ProviderUpdate(next, id, Some(key), RefundStatus.Succeeded)), |db.refunds|;
      && IsSettledAs(next, final, r, RefundStatus.Succeeded, Some(id))
      && NetOf(final, root) == NetOf(next, root) - (if next.payments[p].booking == root then amount else 0)
  {
    var r := |db.refunds|;
    assert forall q | 0 <= q < r :: next.refunds[q] == next.refunds[..r][q];
    WebhookSettlesItsRow(next, id, Some(key), RefundStatus.Succeeded);
    var found := FindByHandle(next.refunds, id, Some(key));
    assert MatchesHandle(next.refunds[r], id, Some(key));
    assert found == Some(r);
    SettlementPaysOut(next, r, RefundStatus.Succeeded, Some(id), root);
  }

  /** From a booking that was just paid: its customer cancels, and the provider reports the refund. */
  lemma PaidComesBack(
    db: Db, paidFor: Db, b: RowId, p: RowId, session: SessionId, amount: Cents, paid: Cents, key: IdempotencyKey,
    id: ProviderRefundId)
    requires JustPaid(db, paidFor, b, p, session, amount) && amount <= paid
    requires forall r | 0 <= r < |db.refunds| :: db.refunds[r].key != key && db.refunds[r].providerId != Some(id)
    ensures
      var canceled := After(paidFor, CancelImmediately(paidFor, b, paid, key));
      var final := After(canceled, ProviderUpdate(canceled, id, Some(key), RefundStatus.Succeeded));
      && b < |final.bookings| && final.bookings[b].status == CanceledByCustomer
      && p < |final.payments| && final.payments[p].session == session
      && final.payments[p].status == PaymentStatus.Refunded
      && final.payments[p].amount == final.payments[p].refunded == amount
      && forall root :: NetOf(final, root) == NetOf(db, root)
  {
    WholePaymentIsRequested(paidFor, b, p, paid, key);
    var canceled := After(paidFor, CancelImmediately(paidFor, b, paid, key));
    LedgerAfterRequest(paidFor, b, paid, key);
    assert BooksBalance(paidFor, p);
    NoneRefunded(paidFor, p);
    RequestIsSent(paidFor, canceled, b, p, amount, key, id, b);
    forall root
      ensures NetOf(After(canceled, ProviderUpdate(canceled, id, Some(key), RefundStatus.Succeeded)), root) ==
              NetOf(db, root)
    {
      RequestLeavesNet(paidFor, canceled, b, p, amount, key, root);
      RequestIsSent(paidFor, canceled, b, p, amount, key, id, root);
    }
  }

  lemma LedgerAfterRequest(db: Db, b: RowId, paid: Cents, key: IdempotencyKey)
    requires LedgerInv(db) && b < |db.bookings|
    ensures LedgerInv(After(db, CancelImmediately(db, b, paid, key)))
  {
    var moved := MoveTo(db, b, db.bookings[b].(status := CanceledByCustomer));
    MovingKeepsLedger(db, b, db.bookings[b].(status := CanceledByCustomer));
    ReserveKeepsLedger(moved, b, CumulativeTarget(paid), true, key);
    if CancelImmediately(db, b, paid, key).Commit? {
      LedgerFrame(After(moved, Reserve(moved, b, CumulativeTarget(paid), true, key)),
                  CancelImmediately(db, b, paid, key).state);
    }
  }

  lemma NoneRefunded(db: Db, p: RowId)
    requires LedgerInv(db) && p < |db.payments| && forall r | 0 <= r < |db.refunds| :: db.refunds[r].payment != p
    ensures db.payments[p].refunded == 0
  {
    assert BooksBalance(db, p);
    SumBounds(db.refunds, p, RefundStatus.Succeeded);
  }

  /**
   * In every run: a booking is paid through its session, its customer cancels free of charge, and the
   * provider reports the refund. The payment then counts as refunded whole, and every root has kept
   * what it had before the payment arrived.
   */
  lemma MoneyComesBack(
    ops: seq<Op>, b: RowId, session: SessionId, amount: Cents, charge: Option<ChargeId>,
    paid: Cents, key: IdempotencyKey, id: ProviderRefundId)
    returns (p: RowId)
    requires b < |Run(ops).bookings| && IsOpen(Run(ops).bookings[b].status)
    requires Run(ops).bookings[b].session == Some(session) && 0 < amount <= paid && ChargeIsFree(Run(ops), charge)
    requires forall r | 0 <= r < |Run(ops).refunds| ::
               Run(ops).refunds[r].key != key && Run(ops).refunds[r].providerId != Some(id)
    ensures
      var db := Run(ops);
      var confirmed := After(db, Confirm(db, b, session, amount, charge));
      var canceled := After(confirmed, CancelImmediately(confirmed, b, paid, key));
      var final := After(canceled, ProviderUpdate(canceled, id, Some(key), RefundStatus.Succeeded));
      && b < |final.bookings| && final.bookings[b].status == CanceledByCustomer
      && p < |final.payments| && final.payments[p].session == session
      && final.payments[p].status == PaymentStatus.Refunded
      && final.payments[p].amount == final.payments[p].refunded == amount
      && forall root :: NetOf(final, root) == NetOf(db, root)
  {
    var db := Run(ops);
    RunsKeepInv(ops);
    RunsKeepOpen(ops);
    p := WaitingSessionIsJustPaid(db, b, session, amount, charge);
    PaidComesBack(db, After(db, Confirm(db, b, session, amount, charge)), b, p, session, amount, paid, key, id);
  }
}
