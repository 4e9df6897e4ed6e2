/** One booking's life up to its appointment: what each transaction commits, and its steps row by row. */
module Bookings {
  import opened Outcomes
  import opened BookingStatuses
  import opened Records

  /** Write a booking's new row together with the history row that explains it. */
  function MoveTo(db: Db, booking: RowId, row: Booking): Db
    requires booking < |db.bookings|
  {
    db.(bookings := db.bookings[booking := row],
        history := db.history + [StatusChange(booking, Some(db.bookings[booking].status), row.status)])
  }

  /** Insert a booking together with the history row that explains its first status. */
  function Create(db: Db, row: Booking): Db {
    db.(bookings := db.bookings + [row],
        history := db.history + [StatusChange(|db.bookings|, None, row.status)])
  }

  // ── reserving ────────────────────────────────────────────────────────────────────────────

  /** Who is booking: a customer holds the slot until it expires, the office confirms at once. */
  datatype Actor = Customer(expiresAt: Instant) | Office

  function ReserveSlot(db: Db, actor: Actor, startsAt: Instant, endsAt: Instant, price: Cents): Tx<Db, RowId> {
    var id := |db.bookings|;
    match actor
    case Customer(expiresAt) =>
      var made := Create(db, Booking(PendingPayment, Some(expiresAt), startsAt, endsAt, price, None, None, None));
      Commit(made.(outbox := db.outbox + [ExpiryRequested(id)]), id)
    case Office =>
      var made := Create(db, Booking(Confirmed, None, startsAt, endsAt, price, None, None, None));
      Commit(made.(tokens := db.tokens + [ManagementToken(id, false)],
                   outbox := db.outbox + [BookingConfirmed(id)]), id)
  }

  /** The transaction a reservation commits once its slot was found free. */
  method InsertReservation(tx: Database, actor: Actor, startsAt: Instant, endsAt: Instant, price: Cents)
    returns (id: RowId)
    modifies tx
    ensures Commit(tx.View(), id) == ReserveSlot(old(tx.View()), actor, startsAt, endsAt, price)
  {
    id := |tx.bookings|;
    var status := if actor.Customer? then PendingPayment else Confirmed;
    var expiresAt := if actor.Customer? then Some(actor.expiresAt) else None;
    tx.bookings := tx.bookings + [Booking(status, expiresAt, startsAt, endsAt, price, None, None, None)];
    if expiresAt.Some? {
      tx.outbox := tx.outbox + [ExpiryRequested(id)];
    }
    tx.history := tx.history + [StatusChange(id, None, status)];
    if actor.Office? {
      tx.tokens := tx.tokens + [ManagementToken(id, false)];
      tx.outbox := tx.outbox + [BookingConfirmed(id)];
    }
  }

  // ── checkout ─────────────────────────────────────────────────────────────────────────────

  predicate SessionTaken(bookings: seq<Booking>, except: RowId, session: SessionId) {
    exists b | 0 <= b < |bookings| :: b != except && bookings[b].session == Some(session)
  }

  /** The payment row of a checkout session; the session column is unique. */
  function FindSession(payments: seq<Payment>, session: SessionId): (found: Option<RowId>)
    ensures found.Some? ==> found.value < |payments| && payments[found.value].session == session
    ensures found.None? ==> forall p | 0 <= p < |payments| :: payments[p].session != session
  {
    if payments == [] then None
    else
      var last := |payments| - 1;
      match FindSession(payments[..last], session)
      case Some(p) => Some(p)
      case None => if payments[last].session == session then Some(last) else None
  }

  /** Name the checkout session and open its payment; safe to repeat with the same session. */
  function Attach(db: Db, booking: RowId, session: SessionId): Tx<Db, ()> {
    if booking >= |db.bookings| then Abort(NotFound)
    else
      var row := db.bookings[booking];
      if row.session.Some? && row.session != Some(session) then Abort(InternalError)
      else if SessionTaken(db.bookings, booking, session) then Abort(ConstraintViolation)
      else
        var bookings := db.bookings[booking := row.(session := Some(session))];
        match FindSession(db.payments, session)
        case Some(p) =>
          if db.payments[p].booking != booking || db.payments[p].amount != row.price then Abort(InternalError)
          else Commit(db.(bookings := bookings), ())
        case None =>
          if row.price <= 0 then Abort(ConstraintViolation)
          else
            var payment := Payment(booking, session, row.price, 0, PaymentStatus.Pending, None);
            Commit(db.(bookings := bookings, payments := db.payments + [payment]), ())
  }

  method AttachSession(tx: Database, booking: RowId, session: SessionId) returns (result: Result<()>)
    modifies tx
    ensures result == ResultOf(Attach(old(tx.View()), booking, session))
    ensures tx.View() == After(old(tx.View()), Attach(old(tx.View()), booking, session))
  {
    var saved := tx.View();
    if booking >= |tx.bookings| { return Err(NotFound); }
    var row := tx.bookings[booking];
    if row.session.Some? && row.session != Some(session) { return Err(InternalError); }
    if SessionTaken(tx.bookings, booking, session) { return Err(ConstraintViolation); }
    if row.session.None? {
      tx.bookings := tx.bookings[booking := row.(session := Some(session))];
    }
    assert tx.bookings == saved.bookings[booking := row.(session := Some(session))];

    var found := FindSession(tx.payments, session);
    if found.None? {
      if row.price <= 0 {
        tx.Rollback(saved);
        return Err(ConstraintViolation);
      }
      tx.payments := tx.payments + [Payment(booking, session, row.price, 0, PaymentStatus.Pending, None)];
      return Ok(());
    }

    var payment := tx.payments[found.value];
    if payment.booking != booking || payment.amount != row.price {
      tx.Rollback(saved);
      return Err(InternalError);
    }
    return Ok(());
  }

  lemma FindSessionAppend(payments: seq<Payment>, payment: Payment)
    requires FindSession(payments, payment.session).None?
    ensures FindSession(payments + [payment], payment.session) == Some(|payments|)
  {
    assert (payments + [payment])[..|payments|] == payments;
  }

  /** Attaching the same session again changes nothing, and another session is refused from then on. */
  lemma AttachIsRepeatable(db: Db, booking: RowId, session: SessionId, other: SessionId)
    requires Attach(db, booking, session).Commit?
    ensures
      var next := Attach(db, booking, session).state;
      && Attach(next, booking, session) == Commit(next, ())
      && (other != session ==> Attach(next, booking, other) == Abort(InternalError))
  {
    var next := Attach(db, booking, session).state;
    if FindSession(db.payments, session).None? {
      FindSessionAppend(db.payments, next.payments[|db.payments|]);
    }
    assert !SessionTaken(next.bookings, booking, session);
    assert next.bookings[booking := next.bookings[booking].(session := Some(session))] == next.bookings;
  }

  // ── confirming ───────────────────────────────────────────────────────────────────────────

  datatype ConfirmOutcome = NowConfirmed | AlreadyConfirmed | PaidAfterTerminal

  predicate ChargeTaken(payments: seq<Payment>, session: SessionId, charge: ChargeId) {
    exists p | 0 <= p < |payments| :: payments[p].session != session && payments[p].charge == Some(charge)
  }

  /** A session has one payment row: it is updated when there, opened when not. */
  function Upserted(payments: seq<Payment>, booking: RowId, session: SessionId, amount: Cents, charge: Option<ChargeId>)
    : seq<Payment>
  {
    match FindSession(payments, session)
    case Some(p) =>
      payments[p := payments[p].(status := PaymentStatus.Succeeded, amount := amount,
                                 charge := if charge.Some? then charge else payments[p].charge)]
    case None =>
      payments + [Payment(booking, session, amount, 0, PaymentStatus.Succeeded, charge)]
  }

  /** Move a paid booking to CONFIRMED, with every side effect in the one transaction. */
  function Confirm(db: Db, booking: RowId, session: SessionId, amount: Cents, charge: Option<ChargeId>)
    : Tx<Db, ConfirmOutcome>
  {
    if booking >= |db.bookings| then Abort(NotFound)
    else
      var row := db.bookings[booking];
      if row.status == Confirmed then Commit(db, AlreadyConfirmed)
      else if IsTerminal(row.status) then Commit(db, PaidAfterTerminal)
      else if SessionTaken(db.bookings, booking, session) || amount <= 0
              || (charge.Some? && ChargeTaken(db.payments, session, charge.value))
      then Abort(ConstraintViolation)
      else
        var moved := MoveTo(db, booking, row.(status := Confirmed, expiresAt := None, session := Some(session)));
        Commit(moved.(payments := Upserted(db.payments, booking, session, amount, charge),
                      tokens := db.tokens + [ManagementToken(booking, false)],
                      outbox := db.outbox + [BookingConfirmed(booking)]),
               NowConfirmed)
  }

  method UpsertPayment(tx: Database, booking: RowId, session: SessionId, amount: Cents, charge: Option<ChargeId>)
    modifies tx`payments
    ensures tx.payments == Upserted(old(tx.payments), booking, session, amount, charge)
  {
    var found := FindSession(tx.payments, session);
    if found.Some? {
      var paid := tx.payments[found.value].(status := PaymentStatus.Succeeded, amount := amount);
      if charge.Some? {
        paid := paid.(charge := charge);
      }
      tx.payments := tx.payments[found.value := paid];
    } else {
      tx.payments := tx.payments + [Payment(booking, session, amount, 0, PaymentStatus.Succeeded, charge)];
    }
  }

  method ConfirmOnce(tx: Database, booking: RowId, session: SessionId, amount: Cents, charge: Option<ChargeId>)
    returns (result: Result<ConfirmOutcome>)
    modifies tx
    ensures result == ResultOf(Confirm(old(tx.View()), booking, session, amount, charge))
    ensures tx.View() == After(old(tx.View()), Confirm(old(tx.View()), booking, session, amount, charge))
  {
    if booking >= |tx.bookings| { return Err(NotFound); }
    var row := tx.bookings[booking];
    if row.status == Confirmed { return Ok(AlreadyConfirmed); }
    if IsTerminal(row.status) { return Ok(PaidAfterTerminal); }
    if SessionTaken(tx.bookings, booking, session) || amount <= 0
       || (charge.Some? && ChargeTaken(tx.payments, session, charge.value))
    {
      return Err(ConstraintViolation);
    }
    tx.bookings := tx.bookings[booking := row.(status := Confirmed, expiresAt := None, session := Some(session))];
    UpsertPayment(tx, booking, session, amount, charge);
    tx.tokens := tx.tokens + [ManagementToken(booking, false)];
    tx.history := tx.history + [StatusChange(booking, Some(row.status), Confirmed)];
    tx.outbox := tx.outbox + [BookingConfirmed(booking)];
    return Ok(NowConfirmed);
  }

  /** Only what is still pending fails: a settled payment is not rewritten by a late event. */
  function FailPending(payments: seq<Payment>, booking: RowId): (failed: seq<Payment>)
    ensures |failed| == |payments|
    ensures forall p | 0 <= p < |payments| ::
              failed[p] == if payments[p].booking == booking && payments[p].status == PaymentStatus.Pending
                           then payments[p].(status := PaymentStatus.Failed) else payments[p]
  {
    seq(|payments|, p requires 0 <= p < |payments| =>
      if payments[p].booking == booking && payments[p].status == PaymentStatus.Pending
      then payments[p].(status := PaymentStatus.Failed) else payments[p])
  }

  function MarkFailed(db: Db, booking: RowId): Db {
    if booking >= |db.bookings| || db.bookings[booking].status != PendingPayment then db
    else
      MoveTo(db, booking, db.bookings[booking].(status := PaymentFailed, expiresAt := None))
        .(payments := FailPending(db.payments, booking),
          outbox := db.outbox + [BookingPaymentFailed(booking)])
  }

  method MarkPaymentFailed(tx: Database, booking: RowId)
    modifies tx
    ensures tx.View() == MarkFailed(old(tx.View()), booking)
  {
    if booking >= |tx.bookings| { return; }
    var row := tx.bookings[booking];
    if row.status != PendingPayment { return; }
    tx.bookings := tx.bookings[booking := row.(status := PaymentFailed, expiresAt := None)];
    tx.payments := FailPending(tx.payments, booking);
    tx.history := tx.history + [StatusChange(booking, Some(row.status), PaymentFailed)];
    tx.outbox := tx.outbox + [BookingPaymentFailed(booking)];
  }

  // ── expiring ─────────────────────────────────────────────────────────────────────────────

  datatype BeginOutcome = Began | NotDue | NotApplicable

  /** A due reservation becomes EXPIRING, which still occupies the employee, and asks for phase two. */
  function Begin(db: Db, booking: RowId, now: Instant): (Db, BeginOutcome) {
    if booking >= |db.bookings| || db.bookings[booking].status != PendingPayment then (db, NotApplicable)
    else
      var row := db.bookings[booking];
      if row.expiresAt.None? || row.expiresAt.value > now then (db, NotDue)
      else
        (MoveTo(db, booking, row.(status := Expiring)).(outbox := db.outbox + [ExpiryRequested(booking)]),
         Began)
  }

  method BeginExpiry(tx: Database, booking: RowId, now: Instant) returns (outcome: BeginOutcome)
    modifies tx
    ensures (tx.View(), outcome) == Begin(old(tx.View()), booking, now)
  {
    if booking >= |tx.bookings| { return NotApplicable; }
    var row := tx.bookings[booking];
    if row.status != PendingPayment { return NotApplicable; }
    if row.expiresAt.None? || row.expiresAt.value > now { return NotDue; }
    tx.bookings := tx.bookings[booking := row.(status := Expiring)];
    tx.history := tx.history + [StatusChange(booking, Some(row.status), Expiring)];
    tx.outbox := tx.outbox + [ExpiryRequested(booking)];
    return Began;
  }

  /** Phase two's release, re-checked under the lock: a confirmation that came first wins. */
  function Released(db: Db, booking: RowId): Db {
    if booking >= |db.bookings| || db.bookings[booking].status != Expiring then db
    else MoveTo(db, booking, db.bookings[booking].(status := Expired, expiresAt := None))
  }

  method Release(tx: Database, booking: RowId)
    modifies tx
    ensures tx.View() == Released(old(tx.View()), booking)
  {
    if booking >= |tx.bookings| { return; }
    var row := tx.bookings[booking];
    if row.status != Expiring { return; }
    tx.bookings := tx.bookings[booking := row.(status := Expired, expiresAt := None)];
    tx.history := tx.history + [StatusChange(booking, Some(row.status), Expired)];
  }

  // ── closing out ──────────────────────────────────────────────────────────────────────────

  /** The office records what happened: it completed after it ended, or nobody came. */
  function Attend(db: Db, booking: RowId, to: BookingStatus, now: Instant): Tx<Db, ()>
    requires to == Completed || to == NoShow
  {
    if booking >= |db.bookings| then Abort(NotFound)
    else
      var row := db.bookings[booking];
      if !CanTransition(Some(row.status), to) then Abort(InvalidStatusTransition)
      else if (if to == Completed then row.endsAt else row.startsAt) > now then Abort(InvalidStatusTransition)
      else Commit(MoveTo(db, booking, row.(status := to)), ())
  }

  method SettleAttendance(tx: Database, booking: RowId, to: BookingStatus, now: Instant)
    returns (result: Result<()>)
    requires to == Completed || to == NoShow
    modifies tx
    ensures result == ResultOf(Attend(old(tx.View()), booking, to, now))
    ensures tx.View() == After(old(tx.View()), Attend(old(tx.View()), booking, to, now))
  {
    if booking >= |tx.bookings| { return Err(NotFound); }
    var row := tx.bookings[booking];
    if !CanTransition(Some(row.status), to) { return Err(InvalidStatusTransition); }
    var from := if to == Completed then row.endsAt else row.startsAt;
    if from > now { return Err(InvalidStatusTransition); }
    tx.bookings := tx.bookings[booking := row.(status := to)];
    tx.history := tx.history + [StatusChange(booking, Some(row.status), to)];
    return Ok(());
  }
}
