/**
 * What each transaction of a booking comes to in the tables, and exactly when it happens: in terms of the rows,
 * without the functions that compute them, so that a step left out or a column swapped shows.
 */
module Effects {
  import opened Outcomes
  import opened BookingStatuses
  import opened Records
  import opened Refunds
  import opened Financials
  import opened Bookings
  import opened Cancellations

  // ── a payment that arrives ───────────────────────────────────────────────────────────────

  ghost predicate SessionsUnique(payments: seq<Payment>) {
    forall p, q | 0 <= p < q < |payments| :: payments[p].session != payments[q].session
  }

  /** What one card row adds to a root. */
  function Share(row: Payment, root: RowId): Cents {
    if row.booking == root && Settled(row.status) then row.amount else 0
  }

  lemma {:induction false} RewrittenCard(rows: seq<Payment>, p: RowId, row: Payment, root: RowId)
    requires p < |rows|
    ensures CardsReceived(PaymentsOn(rows[p := row], root)) ==
            CardsReceived(PaymentsOn(rows, root)) - Share(rows[p], root) + Share(row, root)
  {
    var init, last := rows[..|rows| - 1], rows[|rows| - 1];
    var changed := rows[p := row];
    CardsAppend(PaymentsOn(init, root), last);
    if p == |init| {
      assert changed[..|changed| - 1] == init;
      CardsAppend(PaymentsOn(init, root), row);
    } else {
      assert changed[..|changed| - 1] == init[p := row];
      RewrittenCard(init, p, row, root);
      CardsAppend(PaymentsOn(init[p := row], root), last);
    }
  }

  lemma AddedCard(rows: seq<Payment>, row: Payment, root: RowId)
    ensures CardsReceived(PaymentsOn(rows + [row], root)) == CardsReceived(PaymentsOn(rows, root)) + Share(row, root)
  {
    assert (rows + [row])[..|rows|] == rows;
    CardsAppend(PaymentsOn(rows, root), row);
  }

  /** The row a paid session ends with: what was reported, on what was there before. */
  ghost predicate IsPaidRow(was: Option<Payment>, row: Payment, booking: RowId, session: SessionId, amount: Cents,
                            charge: Option<ChargeId>)
  {
    && row.session == session && row.status == PaymentStatus.Succeeded && row.amount == amount
    && (charge.Some? ==> row.charge == charge)
    && match was
       case Some(before) =>
         && row.booking == before.booking && row.refunded == before.refunded
         && (charge.None? ==> row.charge == before.charge)
       case None => row.booking == booking && row.refunded == 0 && (charge.None? ==> row.charge == None)
  }

  /** Of the payments only this one moved: the session's, paid, or opened as paid if there was none. */
  ghost predicate PaysWith(
    db: Db, next: Db, p: RowId, booking: RowId, session: SessionId, amount: Cents, charge: Option<ChargeId>)
  {
    && p < |next.payments|
    && |next.payments| == (if p < |db.payments| then |db.payments| else |db.payments| + 1)
    && IsPaidRow(if p < |db.payments| then Some(db.payments[p]) else None, next.payments[p],
                 booking, session, amount, charge)
    && (p < |db.payments| ==> db.payments[p].session == session)
    && (forall q | 0 <= q < |next.payments| && q != p ::
          q < |db.payments| && next.payments[q] == db.payments[q] && next.payments[q].session != session)
  }

  /** When a confirmation is due, what it answers otherwise, and when it is refused. */
  lemma ConfirmationAnswers(db: Db, b: RowId, session: SessionId, amount: Cents, charge: Option<ChargeId>)
    requires b < |db.bookings|
    ensures
      var outcome := Confirm(db, b, session, amount, charge);
      var heldElsewhere := exists c | 0 <= c < |db.bookings| :: c != b && db.bookings[c].session == Some(session);
      var chargeElsewhere := charge.Some? && exists p | 0 <= p < |db.payments| ::
                               db.payments[p].session != session && db.payments[p].charge == charge;
      if db.bookings[b].status == Confirmed then outcome == Commit(db, AlreadyConfirmed)
      else if Transitions(db.bookings[b].status) == {} then outcome == Commit(db, PaidAfterTerminal)
      else if amount <= 0 || heldElsewhere || chargeElsewhere then outcome.Abort?
      else outcome.Commit? && outcome.value == NowConfirmed
  {
    var outcome := Confirm(db, b, session, amount, charge);
    TransitionsDescend(db.bookings[b].status, Confirmed);
    if charge.Some? && (exists p | 0 <= p < |db.payments| ::
                          db.payments[p].session != session && db.payments[p].charge == charge)
    {
      assert ChargeTaken(db.payments, session, charge.value);
    }
  }

  /**
   * A confirmation that takes effect leaves the session with one payment row, paid with the reported
   * amount and the reported charge, if there is one, and every other payment as it was. The booking
   * is confirmed, names the session, and no longer expires.
   */
  lemma ConfirmationPaysItsSession(db: Db, b: RowId, session: SessionId, amount: Cents, charge: Option<ChargeId>)
    requires SessionsUnique(db.payments)
    requires
      var outcome := Confirm(db, b, session, amount, charge);
      outcome.Commit? && outcome.value == NowConfirmed
    ensures
      var next := Confirm(db, b, session, amount, charge).state;
      && MovedTo(db, next, b, Confirmed)
      && next.bookings[b] == db.bookings[b].(status := Confirmed, expiresAt := None, session := Some(session))
      && next.tokens == db.tokens + [ManagementToken(b, false)] && next.outbox == db.outbox + [BookingConfirmed(b)]
      && next.refunds == db.refunds && next.manualPayments == db.manualPayments && next.reminders == db.reminders
      && exists p: nat :: PaysWith(db, next, p, b, session, amount, charge)
  {
    var next := Confirm(db, b, session, amount, charge).state;
    MoveToMoves(db, b, next.bookings[b]);
    var found := FindSession(db.payments, session);
    var p: nat := if found.Some? then found.value else |db.payments|;
    assert PaysWith(db, next, p, b, session, amount, charge);
  }

  lemma PaidRowCounts(
    db: Db, next: Db, p: RowId, b: RowId, session: SessionId, amount: Cents, charge: Option<ChargeId>, root: RowId)
    requires PaysWith(db, next, p, b, session, amount, charge)
    ensures CardsReceived(PaymentsOn(next.payments, root)) ==
            CardsReceived(PaymentsOn(db.payments, root)) + Share(next.payments[p], root)
            - (if p < |db.payments| then Share(db.payments[p], root) else 0)
  {
    if p < |db.payments| {
      assert next.payments == db.payments[p := next.payments[p]];
      RewrittenCard(db.payments, p, next.payments[p], root);
    } else {
      assert next.payments == db.payments + [next.payments[p]];
      AddedCard(db.payments, next.payments[p], root);
    }
  }

  /**
   * And the money is there: a payment that had not arrived before and sits on the booking's root,
   * or is only opened now on a booking that is its own root, raises what that root received by the
   * amount and no other root's total, and can be refunded from then on.
   */
  lemma ConfirmationBringsTheMoney(
    db: Db, b: RowId, session: SessionId, amount: Cents, charge: Option<ChargeId>, root: RowId)
    requires SessionsUnique(db.payments)
    requires
      var outcome := Confirm(db, b, session, amount, charge);
      outcome.Commit? && outcome.value == NowConfirmed
    requires
      var home := RootOf(db, b);
      if exists p | 0 <= p < |db.payments| :: db.payments[p].session == session then
        forall p | 0 <= p < |db.payments| && db.payments[p].session == session ::
          db.payments[p].booking == home && !Settled(db.payments[p].status)
      else home == b
    ensures
      var next := Confirm(db, b, session, amount, charge).state;
      && ReceivedBy(next, root) == ReceivedBy(db, root) + (if root == RootOf(db, b) then amount else 0)
      && FindRefundable(next.payments, RootOf(db, b)).Some?
  {
    var next := Confirm(db, b, session, amount, charge).state;
    ConfirmationPaysItsSession(db, b, session, amount, charge);
    var p: nat :| PaysWith(db, next, p, b, session, amount, charge);
    PaidRowCounts(db, next, p, b, session, amount, charge, root);
    assert next.payments[p].booking == RootOf(db, b) && HasBalance(next.payments[p].status);
  }

  // ── one booking moves ────────────────────────────────────────────────────────────────────

  /** This booking took one step, its history says so, and no other booking or history moved. */
  ghost predicate MovedTo(db: Db, next: Db, b: RowId, to: BookingStatus)
    requires b < |db.bookings|
  {
    && |next.bookings| == |db.bookings| && next.bookings[b].status == to
    && (forall c | 0 <= c < |db.bookings| && c != b :: next.bookings[c] == db.bookings[c])
    && HistoryOf(next.history, b) == HistoryOf(db.history, b) + [StatusChange(b, Some(db.bookings[b].status), to)]
    && (forall c: nat | c != b :: HistoryOf(next.history, c) == HistoryOf(db.history, c))
  }

  lemma MoveToMoves(db: Db, b: RowId, row: Booking)
    requires b < |db.bookings|
    ensures MovedTo(db, MoveTo(db, b, row), b, row.status)
  {
    var change := StatusChange(b, Some(db.bookings[b].status), row.status);
    forall c: nat
      ensures HistoryOf(db.history + [change], c) == HistoryOf(db.history, c) + (if c == b then [change] else [])
    {
      HistoryOfAppend(db.history, change, c);
    }
  }

  /** The tables beside the bookings and their history are as they were. */
  predicate OnlyBookings(db: Db, next: Db) {
    && next.payments == db.payments && next.refunds == db.refunds && next.manualPayments == db.manualPayments
    && next.tokens == db.tokens && next.reminders == db.reminders
  }

  /**
   * A reservation begins to expire exactly when it is unpaid and due, and asks for phase two; the
   * release ends exactly a booking that is expiring; an appointment is closed out exactly when it is
   * confirmed and its time has come.
   */
  lemma LifecycleMovesIff(db: Db, b: RowId, now: Instant)
    requires b < |db.bookings|
    ensures
      var row := db.bookings[b];
      var begun, released := Begin(db, b, now), Released(db, b);
      var completed, missed := Attend(db, b, Completed, now), Attend(db, b, NoShow, now);
      && (if row.status == PendingPayment && row.expiresAt.Some? && row.expiresAt.value <= now then
            && begun.1 == Began && MovedTo(db, begun.0, b, Expiring) && OnlyBookings(db, begun.0)
            && begun.0.bookings[b] == row.(status := Expiring)
            && begun.0.outbox == db.outbox + [ExpiryRequested(b)]
          else begun.0 == db && begun.1 != Began)
      && (if row.status == Expiring then
            && MovedTo(db, released, b, Expired) && OnlyBookings(db, released) && released.outbox == db.outbox
            && released.bookings[b] == row.(status := Expired, expiresAt := None)
          else released == db)
      && (completed.Commit? <==> row.status == Confirmed && row.endsAt <= now)
      && (missed.Commit? <==> row.status == Confirmed && row.startsAt <= now)
      && (completed.Commit? ==>
            && MovedTo(db, completed.state, b, Completed) && OnlyBookings(db, completed.state)
            && completed.state.bookings[b] == row.(status := Completed) && completed.state.outbox == db.outbox)
      && (missed.Commit? ==>
            && MovedTo(db, missed.state, b, NoShow) && OnlyBookings(db, missed.state)
            && missed.state.bookings[b] == row.(status := NoShow) && missed.state.outbox == db.outbox)
  {
    var row := db.bookings[b];
    MoveToMoves(db, b, row.(status := Expiring));
    MoveToMoves(db, b, row.(status := Expired, expiresAt := None));
    MoveToMoves(db, b, row.(status := Completed));
    MoveToMoves(db, b, row.(status := NoShow));
    AttendableIffConfirmed(row.status);
  }

  lemma AttendableIffConfirmed(status: BookingStatus)
    ensures CanTransition(Some(status), Completed) <==> status == Confirmed
    ensures CanTransition(Some(status), NoShow) <==> status == Confirmed
  {
  }

  /**
   * A failure is recorded exactly for a booking that waits for its first answer: it ends there, of
   * its payments exactly the pending ones have failed, and no other booking or payment moves.
   */
  lemma FailureIsNarrow(db: Db, b: RowId)
    ensures
      var next := MarkFailed(db, b);
      if b < |db.bookings| && db.bookings[b].status == PendingPayment then
        && MovedTo(db, next, b, PaymentFailed)
        && next.bookings[b] == db.bookings[b].(status := PaymentFailed, expiresAt := None)
        && next.outbox == db.outbox + [BookingPaymentFailed(b)] && |next.payments| == |db.payments|
        && OnlyBookings(db.(payments := next.payments), next)
        && (forall p | 0 <= p < |db.payments| ::
              if db.payments[p].booking == b && db.payments[p].status == PaymentStatus.Pending
              then next.payments[p] == db.payments[p].(status := PaymentStatus.Failed)
              else next.payments[p] == db.payments[p])
      else next == db
  {
    if b < |db.bookings| {
      MoveToMoves(db, b, db.bookings[b].(status := PaymentFailed, expiresAt := None));
    }
  }

  // ── reserving and checking out ───────────────────────────────────────────────────────────

  /**
   * A reservation is one new booking on the asked terms, outside any chain and without money. A
   * customer's waits to be paid until it expires; the office's is confirmed, with one working link.
   */
  lemma ReservationIsAsAsked(db: Db, actor: Actor, startsAt: Instant, endsAt: Instant, price: Cents)
    ensures
      var outcome := ReserveSlot(db, actor, startsAt, endsAt, price);
      outcome.Commit? && outcome.value == |db.bookings|
    ensures
      var Commit(next, id) := ReserveSlot(db, actor, startsAt, endsAt, price);
      && |next.bookings| == id + 1 && next.bookings[..id] == db.bookings
      && (var row := next.bookings[id];
          && row.startsAt == startsAt && row.endsAt == endsAt && row.price == price && row.session == None
          && row.rescheduledFrom == None && RootOf(next, id) == id && IsBlocking(row.status)
          && (if actor.Customer? then
                && row.status == PendingPayment && row.expiresAt == Some(actor.expiresAt) && next.tokens == db.tokens
                && next.outbox == db.outbox + [ExpiryRequested(id)]
              else
                && row.status == Confirmed && row.expiresAt == None
                && next.tokens == db.tokens + [ManagementToken(id, false)]
                && next.outbox == db.outbox + [BookingConfirmed(id)])
          && HistoryOf(next.history, id) == HistoryOf(db.history, id) + [StatusChange(id, None, row.status)])
      && (forall c: nat | c != id :: HistoryOf(next.history, c) == HistoryOf(db.history, c))
      && next.payments == db.payments && next.refunds == db.refunds && next.manualPayments == db.manualPayments
      && next.reminders == db.reminders
  {
    var id := |db.bookings|;
    var change := StatusChange(id, None, if actor.Customer? then PendingPayment else Confirmed);
    forall c: nat
      ensures HistoryOf(db.history + [change], c) == HistoryOf(db.history, c) + (if c == id then [change] else [])
    {
      HistoryOfAppend(db.history, change, c);
    }
  }

  /** Who holds a session, and which payment it has, as far as another booking or price is concerned. */
  ghost predicate SessionIsFree(db: Db, b: RowId, session: SessionId)
    requires b < |db.bookings|
  {
    && (db.bookings[b].session == None || db.bookings[b].session == Some(session))
    && (forall c | 0 <= c < |db.bookings| && c != b :: db.bookings[c].session != Some(session))
    && (forall p | 0 <= p < |db.payments| && db.payments[p].session == session ::
          db.payments[p].booking == b && db.payments[p].amount == db.bookings[b].price)
    && (db.bookings[b].price > 0 || exists p | 0 <= p < |db.payments| :: db.payments[p].session == session)
  }

  /**
   * A session is attached exactly when it is free for the booking. The booking then names it, and
   * the session has a payment of the booking's price on the booking: the one that was there, or a
   * pending one without a charge. Nothing else moves.
   */
  lemma AttachOpensPayment(db: Db, b: RowId, session: SessionId)
    requires SessionsUnique(db.payments) && b < |db.bookings|
    ensures Attach(db, b, session).Commit? <==> SessionIsFree(db, b, session)
    ensures Attach(db, b, session).Commit? ==>
              var next := Attach(db, b, session).state;
              && |next.bookings| == |db.bookings| && next.bookings[b] == db.bookings[b].(session := Some(session))
              && (forall c | 0 <= c < |db.bookings| && c != b :: next.bookings[c] == db.bookings[c])
              && db.payments <= next.payments && |next.payments| <= |db.payments| + 1
              && (|next.payments| > |db.payments| ==>
                    && (forall p | 0 <= p < |db.payments| :: db.payments[p].session != session)
                    && next.payments[|db.payments|].status == PaymentStatus.Pending
                    && next.payments[|db.payments|].refunded == 0 && next.payments[|db.payments|].charge == None)
              && (exists p :: && 0 <= p < |next.payments| && next.payments[p].session == session
                              && next.payments[p].booking == b && next.payments[p].amount == db.bookings[b].price)
              && next == db.(bookings := next.bookings, payments := next.payments)
  {
    var found := FindSession(db.payments, session);
    if Attach(db, b, session).Commit? {
      var next := Attach(db, b, session).state;
      var p := if found.Some? then found.value else |db.payments|;
      assert next.payments[p].session == session && next.payments[p].booking == b;
    }
  }

  // ── giving money back ────────────────────────────────────────────────────────────────────

  /** One refund more, pending, for this booking, out of this payment, in this amount and under this key. */
  ghost predicate Requested(db: Db, next: Db, b: RowId, p: RowId, amount: Cents, key: IdempotencyKey) {
    && |next.refunds| == |db.refunds| + 1 && next.refunds[..|db.refunds|] == db.refunds
    && (var row := next.refunds[|db.refunds|];
        && row.booking == b && row.payment == p && row.amount == amount && row.key == key
        && row.status == RefundStatus.Pending && row.providerId == None)
  }

  /** Money arrived on this payment for this root, and some of it is still there. */
  predicate HasMoney(db: Db, p: RowId, root: RowId) {
    && p < |db.payments| && db.payments[p].booking == root
    && db.payments[p].status != PaymentStatus.Pending && db.payments[p].status != PaymentStatus.Failed
    && db.payments[p].refunded < db.payments[p].amount
  }

  /** A refund comes out of the root's first payment that has money left, refunded in part or not at all. */
  lemma RefundComesOutOfTheFirst(db: Db, root: RowId, p: RowId)
    requires LedgerInv(db)
    ensures FindRefundable(db.payments, root) == Some(p) <==>
            HasMoney(db, p, root) && forall q | 0 <= q < p :: !HasMoney(db, q, root)
    ensures FindRefundable(db.payments, root) == None <==> forall q | 0 <= q < |db.payments| :: !HasMoney(db, q, root)
  {
    forall q | 0 <= q < |db.payments|
      ensures HasMoney(db, q, root) <==> db.payments[q].booking == root && HasBalance(db.payments[q].status)
    {
      assert BooksBalance(db, q);
      SumBounds(db.refunds, q, RefundStatus.Succeeded);
      SumBounds(db.refunds, q, RefundStatus.Pending);
    }
  }

  /**
   * A refund is asked for exactly within the balance of the root's first payment that has one; it
   * becomes one pending row of that payment, under the given key, and the job that sends it.
   */
  lemma RefundIsRequestedIff(db: Db, b: RowId, cents: Cents, key: IdempotencyKey)
    requires b < |db.bookings|
    ensures
      var outcome := Reserve(db, b, Additional(cents), false, key);
      var found := FindRefundable(db.payments, RootOf(db, b));
      && (outcome.Commit? <==>
            && found.Some? && 0 < cents <= db.payments[found.value].amount - Committed(db, found.value)
            && forall r | 0 <= r < |db.refunds| :: db.refunds[r].key != key)
      && (outcome.Commit? ==>
            && Requested(db, outcome.state, b, found.value, cents, key)
            && outcome.state.outbox == db.outbox + [RefundRequested(|db.refunds|)]
            && outcome.state == db.(refunds := outcome.state.refunds, outbox := outcome.state.outbox)
            && outcome.value.refund == Some(|db.refunds|) && outcome.value.additional == cents)
  {
  }

  /**
   * The business cancels a confirmed booking. Without an amount, or with none above zero, no money
   * moves; with one, exactly that is set aside, if the balance has it and the caller may, and
   * otherwise the booking stays confirmed. The announcement names the refund there is, if any.
   */
  lemma BusinessCancelsIff(db: Db, b: RowId, refund: Option<Cents>, mayRefund: bool, key: IdempotencyKey)
    requires b < |db.bookings| && forall r | 0 <= r < |db.refunds| :: db.refunds[r].key != key
    ensures
      var outcome := CancelByBusiness(db, b, refund, mayRefund, key);
      var found := FindRefundable(db.payments, RootOf(db, b));
      var sends := refund.Some? && refund.value > 0;
      && (outcome.Commit? <==>
            && db.bookings[b].status == Confirmed
            && (sends ==>
                  && mayRefund && found.Some?
                  && refund.value <= db.payments[found.value].amount - Committed(db, found.value)))
      && (outcome.Commit? ==>
            var next := outcome.state;
            && MovedTo(db, next, b, CanceledByBusiness)
            && next.bookings[b] == db.bookings[b].(status := CanceledByBusiness)
            && next.payments == db.payments && next.manualPayments == db.manualPayments && next.tokens == db.tokens
            && (if sends then
                  && Requested(db, next, b, found.value, refund.value, key)
                  && next.outbox == db.outbox + [RefundRequested(|db.refunds|), BookingCanceled(b, Some(|db.refunds|))]
                else next.refunds == db.refunds && next.outbox == db.outbox + [BookingCanceled(b, None)]))
  {
    var row := db.bookings[b].(status := CanceledByBusiness);
    var moved := MoveTo(db, b, row);
    MoveToMoves(db, b, row);
    assert RootOf(moved, b) == RootOf(db, b);
    if refund.Some? {
      RefundIsRequestedIff(moved, b, refund.value, key);
    }
  }

  /**
   * The customer cancels: exactly a confirmed booking, and what is paid and not yet on its way back
   * is set aside, as far as the charge allows.
   */
  lemma CustomerCancelsIff(db: Db, b: RowId, paid: Cents, key: IdempotencyKey)
    requires LedgerInv(db) && b < |db.bookings| && forall r | 0 <= r < |db.refunds| :: db.refunds[r].key != key
    ensures
      var outcome := CancelImmediately(db, b, paid, key);
      var found := FindRefundable(db.payments, RootOf(db, b));
      && (outcome.Commit? <==> db.bookings[b].status == Confirmed)
      && (outcome.Commit? ==>
            var next := outcome.state;
            && MovedTo(db, next, b, CanceledByCustomer)
            && next.bookings[b] == db.bookings[b].(status := CanceledByCustomer)
            && next.payments == db.payments && next.manualPayments == db.manualPayments && next.tokens == db.tokens
            && (if found.Some? && Committed(db, found.value) < Min(paid, db.payments[found.value].amount) then
                  && Requested(db, next, b, found.value,
                               Min(paid, db.payments[found.value].amount) - Committed(db, found.value), key)
                  && next.outbox == db.outbox + [RefundRequested(|db.refunds|), BookingCanceled(b, Some(|db.refunds|))]
                else next.refunds == db.refunds && next.outbox == db.outbox + [BookingCanceled(b, None)]))
  {
    var row := db.bookings[b].(status := CanceledByCustomer);
    MoveToMoves(db, b, row);
    assert RootOf(MoveTo(db, b, row), b) == RootOf(db, b);
    var found := FindRefundable(db.payments, RootOf(db, b));
    if found.Some? {
      assert BooksBalance(db, found.value);
    }
  }

  lemma {:induction false} RewrittenMovement(moves: seq<Movement>, i: nat, move: Movement, root: RowId)
    requires i < |moves| && move.on == moves[i].on
    ensures SumOn(moves[i := move], {root}) ==
            SumOn(moves, {root}) + (if move.on == Some(root) then move.cents - moves[i].cents else 0)
  {
    var last := |moves| - 1;
    if i == last {
      assert moves[i := move][..last] == moves[..last];
    } else {
      assert moves[i := move][..last] == moves[..last][i := move];
      RewrittenMovement(moves[..last], i, move, root);
    }
  }

  /** Settling a pending refund as succeeded is what takes its amount from its root, and from no other. */
  lemma SettlementPaysOut(db: Db, r: RowId, status: RefundStatus, id: Option<ProviderRefundId>, root: RowId)
    requires LedgerInv(db) && r < |db.refunds| && db.refunds[r].status == RefundStatus.Pending
    requires forall q | 0 <= q < |db.refunds| && q != r :: db.refunds[q].providerId != id || id == None
    ensures
      var row := db.refunds[r];
      var sent := row.payment < |db.payments| && db.payments[row.payment].booking == root
                  && status == RefundStatus.Succeeded;
      NetOf(After(db, Settle(db, r, status, id)), root) == NetOf(db, root) - (if sent then row.amount else 0)
  {
    var next := After(db, Settle(db, r, status, id));
    PendingIsSettled(db, r, status, id);
    assert BooksBalance(db, db.refunds[r].payment);
    var was, now := RefundMovements(db.refunds, db.payments), RefundMovements(next.refunds, next.payments);
    assert CardMovements(next.payments) == CardMovements(db.payments);
    assert now == was[r := now[r]];
    RewrittenMovement(was, r, now[r], root);
    SumsApart(db, root);
    SumsApart(next, root);
  }

  lemma SumsApart(db: Db, root: RowId)
    ensures NetOf(db, root) == SumOn(CardMovements(db.payments), {root}) + SumOn(CashMovements(db.manualPayments), {root})
                               + SumOn(RefundMovements(db.refunds, db.payments), {root})
  {
    CardsAreMovements(db.payments, root);
    CashIsMovements(db.manualPayments, root);
    RefundsAreMovements(db.refunds, db.payments, root);
  }

  // ── moving and cash ──────────────────────────────────────────────────────────────────────

  /** An appointment is moved exactly once, while it is confirmed; the original ends as cancelled by the business. */
  lemma MovesIff(db: Db, b: RowId, startsAt: Instant)
    requires b < |db.bookings|
    ensures
      var outcome := Reschedule(db, b, startsAt);
      && (outcome.Commit? <==>
            && db.bookings[b].status == Confirmed
            && forall c | 0 <= c < |db.bookings| :: db.bookings[c].rescheduledFrom != Some(b))
      && (outcome.Commit? ==>
            var Commit(next, id) := outcome;
            && id == |db.bookings| && |next.bookings| == id + 1
            && next.bookings[b] == db.bookings[b].(status := CanceledByBusiness)
            && next.bookings[id].status == Confirmed && next.bookings[id].expiresAt == None
            && next.bookings[id].session == None && next.bookings[id].rescheduledFrom == Some(b)
            && next.bookings[id].financialRoot == Some(RootOf(db, b))
            && HistoryOf(next.history, b) ==
               HistoryOf(db.history, b) + [StatusChange(b, Some(Confirmed), CanceledByBusiness)]
            && HistoryOf(next.history, id) == HistoryOf(db.history, id) + [StatusChange(id, None, Confirmed)]
            && (forall c: nat | c != b && c != id :: HistoryOf(next.history, c) == HistoryOf(db.history, c))
            && next.outbox == db.outbox + [BookingRescheduled(id, b), ReminderSchedule(id)]
            && next.refunds == db.refunds && next.reminders == db.reminders)
  {
    if Reschedule(db, b, startsAt).Commit? {
      var id := |db.bookings|;
      var first := StatusChange(b, Some(Confirmed), CanceledByBusiness);
      var second := StatusChange(id, None, Confirmed);
      forall c: nat
        ensures HistoryOf(db.history + [first] + [second], c) ==
                HistoryOf(db.history, c) + (if c == b then [first] else []) + (if c == id then [second] else [])
      {
        HistoryOfAppend(db.history, first, c);
        HistoryOfAppend(db.history + [first], second, c);
      }
    }
  }

  /** Cash is noted exactly for a booking that was not given up unpaid, and never as nothing. */
  lemma CashIsRecordedIff(db: Db, b: RowId, amount: Cents)
    requires b < |db.bookings|
    ensures
      var outcome := RecordCash(db, b, amount);
      && (outcome.Commit? <==>
            amount != 0 && db.bookings[b].status != Expired && db.bookings[b].status != PaymentFailed)
      && (outcome.Commit? ==>
            && outcome.state == db.(manualPayments := outcome.state.manualPayments)
            && |outcome.state.manualPayments| == |db.manualPayments| + 1
            && outcome.state.manualPayments[..|db.manualPayments|] == db.manualPayments)
  {
  }
}
