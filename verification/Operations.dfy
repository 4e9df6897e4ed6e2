/**
 * Every transaction the booking services run, and what any sequence of them keeps: the refund ledger, the
 * status histories, one confirmation for each booking, unique sessions, and linear chains.
 */
module Operations {
  import opened Outcomes
  import opened BookingStatuses
  import opened Records
  import opened Refunds
  import opened Financials
  import opened Bookings
  import opened Cancellations
  import opened ReminderFiring

  datatype Op =
    | ReserveOp(actor: Actor, startsAt: Instant, endsAt: Instant, price: Cents)
    | AttachOp(booking: RowId, session: SessionId)
    | ConfirmOp(booking: RowId, session: SessionId, amount: Cents, charge: Option<ChargeId>)
    | FailOp(booking: RowId)
    | BeginOp(booking: RowId, now: Instant)
    | ReleaseOp(booking: RowId)
    | CompleteOp(booking: RowId, now: Instant)
    | NoShowOp(booking: RowId, now: Instant)
    | CancelOp(booking: RowId, paid: Cents, key: IdempotencyKey)
    | ApproveOp(booking: RowId, suggested: Cents, retained: Option<Cents>, mayRefund: bool, key: IdempotencyKey)
    | BusinessCancelOp(booking: RowId, refund: Option<Cents>, mayRefund: bool, key: IdempotencyKey)
    | RescheduleOp(booking: RowId, startsAt: Instant)
    | CashOp(booking: RowId, amount: Cents)
    | RefundOp(booking: RowId, amount: Cents, key: IdempotencyKey)
    | SettleOp(refundRow: RowId, refundStatus: RefundStatus, providerId: Option<ProviderRefundId>)
    | UpdateOp(id: ProviderRefundId, handle: Option<IdempotencyKey>, refundStatus: RefundStatus)
    | FireOp(booking: RowId, offset: int, epochSeconds: int, offsets: seq<int>, texts: bool)

  /**
   * A checkout is opened for a reservation only: it is refused for a booking without an expiry,
   * and a replacement never has one.
   */
  predicate MayOpenCheckout(db: Db, booking: RowId) {
    booking < |db.bookings| ==> db.bookings[booking].rescheduledFrom == None
  }

  /** One transaction: committed, or rolled back without a trace. */
  function Apply(db: Db, op: Op): Db {
    match op
    case ReserveOp(actor, startsAt, endsAt, price) => After(db, ReserveSlot(db, actor, startsAt, endsAt, price))
    case AttachOp(b, s) => if MayOpenCheckout(db, b) then After(db, Attach(db, b, s)) else db
    case ConfirmOp(b, s, amount, charge) => After(db, Confirm(db, b, s, amount, charge))
    case FailOp(b) => MarkFailed(db, b)
    case BeginOp(b, now) => Begin(db, b, now).0
    case ReleaseOp(b) => Released(db, b)
    case CompleteOp(b, now) => After(db, Attend(db, b, Completed, now))
    case NoShowOp(b, now) => After(db, Attend(db, b, NoShow, now))
    case CancelOp(b, paid, key) => After(db, CancelImmediately(db, b, paid, key))
    case ApproveOp(b, suggested, retained, may, key) =>
      After(db, ApproveCancellation(db, b, suggested, retained, may, key))
    case BusinessCancelOp(b, refund, may, key) => After(db, CancelByBusiness(db, b, refund, may, key))
    case RescheduleOp(b, startsAt) => After(db, Reschedule(db, b, startsAt))
    case CashOp(b, amount) => After(db, RecordCash(db, b, amount))
    case RefundOp(b, amount, key) => After(db, Reserve(db, b, Additional(amount), false, key))
    case SettleOp(r, status, id) => After(db, Settle(db, r, status, id))
    case UpdateOp(id, handle, status) => After(db, ProviderUpdate(db, id, handle, status))
    case FireOp(b, offset, epochSeconds, offsets, texts) => Fire(db, b, offset, epochSeconds, offsets, texts).0
  }

  /** The state after a sequence of transactions, in the order they committed. */
  function Run(ops: seq<Op>): Db {
    if ops == [] then EMPTY else Apply(Run(ops[..|ops| - 1]), ops[|ops| - 1])
  }

  // ── the invariants ───────────────────────────────────────────────────────────────────────

  ghost predicate HistoryOk(row: Booking, rows: seq<StatusChange>) {
    && ValidHistory(rows)
    && rows[|rows| - 1].to == row.status
    && (row.expiresAt.Some? <==> IsOpen(row.status))
  }

  ghost predicate HistoriesValid(bookings: seq<Booking>, history: seq<StatusChange>) {
    && (forall b | 0 <= b < |bookings| :: HistoryOk(bookings[b], HistoryOf(history, b)))
    && (forall i | 0 <= i < |history| :: history[i].booking < |bookings|)
  }

  /** Statuses only a confirmed booking reaches. */
  predicate WasConfirmed(status: BookingStatus) {
    status == Confirmed || status == CanceledByCustomer || status == CanceledByBusiness
    || status == Completed || status == NoShow
  }

  function CountConfirmed(outbox: seq<Event>, booking: RowId): nat {
    if outbox == [] then 0
    else CountConfirmed(outbox[..|outbox| - 1], booking) +
         (if outbox[|outbox| - 1] == BookingConfirmed(booking) then 1 else 0)
  }

  function CountTokens(tokens: seq<ManagementToken>, booking: RowId): nat {
    if tokens == [] then 0
    else CountTokens(tokens[..|tokens| - 1], booking) +
         (if tokens[|tokens| - 1].booking == booking then 1 else 0)
  }

  function ExpectedTokens(bookings: seq<Booking>, b: RowId): nat {
    if b < |bookings| && WasConfirmed(bookings[b].status) then 1 else 0
  }

  function ExpectedEvents(bookings: seq<Booking>, b: RowId): nat {
    if b < |bookings| && bookings[b].rescheduledFrom == None then ExpectedTokens(bookings, b) else 0
  }

  /** Confirming has its side effects once: one announcement, unless it was a move, and one token. */
  ghost predicate ConfirmedOnce(
    bookings: seq<Booking>, tokens: seq<ManagementToken>, reminders: seq<QueuedReminder>, outbox: seq<Event>)
  {
    forall b: nat ::
      CountTokens(tokens, b) == ExpectedTokens(bookings, b) + CountFired(reminders, b) &&
      CountConfirmed(outbox, b) == ExpectedEvents(bookings, b)
  }

  /** Sessions and charges are unique, and money that arrived belongs to a decided booking. */
  ghost predicate SessionsOk(bookings: seq<Booking>, payments: seq<Payment>) {
    && (forall b, c | 0 <= b < c < |bookings| :: bookings[b].session.Some? ==> bookings[b].session != bookings[c].session)
    && (forall p, q | 0 <= p < q < |payments| :: payments[p].session != payments[q].session)
    && (forall p, q | 0 <= p < q < |payments| :: payments[p].charge.Some? ==> payments[p].charge != payments[q].charge)
    && (forall p | 0 <= p < |payments| && Settled(payments[p].status) :: Held(bookings, payments[p].session))
  }

  /** A booking that is no longer waiting for money holds this session. */
  ghost predicate Held(bookings: seq<Booking>, session: SessionId) {
    exists b | 0 <= b < |bookings| :: bookings[b].session == Some(session) && !IsOpen(bookings[b].status)
  }

  ghost predicate Inv(db: Db) {
    && LedgerInv(db)
    && HistoriesValid(db.bookings, db.history)
    && ConfirmedOnce(db.bookings, db.tokens, db.reminders, db.outbox)
    && SessionsOk(db.bookings, db.payments)
    && ChainInv(db)
  }

  // ── counting and appending ───────────────────────────────────────────────────────────────

  lemma CountAppend(outbox: seq<Event>, event: Event, b: RowId)
    ensures CountConfirmed(outbox + [event], b) ==
            CountConfirmed(outbox, b) + (if event == BookingConfirmed(b) then 1 else 0)
  {
    assert (outbox + [event])[..|outbox|] == outbox;
  }

  lemma TokenAppend(tokens: seq<ManagementToken>, token: ManagementToken, b: RowId)
    ensures CountTokens(tokens + [token], b) == CountTokens(tokens, b) + (if token.booking == b then 1 else 0)
  {
    assert (tokens + [token])[..|tokens|] == tokens;
  }

  lemma {:induction false} RevokeCounts(tokens: seq<ManagementToken>, booking: RowId, b: RowId)
    ensures CountTokens(RevokeTokens(tokens, booking), b) == CountTokens(tokens, b)
  {
    if tokens != [] {
      var init := tokens[..|tokens| - 1];
      assert RevokeTokens(tokens, booking)[..|init|] == RevokeTokens(init, booking);
      RevokeCounts(init, booking, b);
    }
  }

  lemma {:induction false} HistoryOfNone(rows: seq<StatusChange>, b: RowId)
    requires forall i | 0 <= i < |rows| :: rows[i].booking != b
    ensures HistoryOf(rows, b) == []
  {
    if rows != [] {
      HistoryOfNone(rows[..|rows| - 1], b);
    }
  }

  /** Announcing anything but a confirmation leaves the invariant alone. */
  lemma AnnounceKeeps(db: Db, event: Event)
    requires Inv(db) && !event.BookingConfirmed?
    ensures Inv(db.(outbox := db.outbox + [event]))
  {
    var next := db.(outbox := db.outbox + [event]);
    forall b: nat ensures CountConfirmed(next.outbox, b) == CountConfirmed(db.outbox, b) {
      CountAppend(db.outbox, event, b);
    }
    LedgerFrame(db, next);
    ChainStep(db, next);
  }

  lemma LedgerFrame(db: Db, next: Db)
    requires LedgerInv(db) && next.payments == db.payments && next.refunds == db.refunds
    ensures LedgerInv(next)
  {
    forall p | 0 <= p < |next.payments| ensures BooksBalance(next, p) {
      assert BooksBalance(db, p);
    }
  }

  /** A booking rewritten without touching its links, and without coming back to life. */
  predicate SameLink(was: Booking, row: Booking) {
    && row.rescheduledFrom == was.rescheduledFrom
    && row.financialRoot == was.financialRoot
    && (IsBlocking(row.status) ==> IsBlocking(was.status))
    && (IsOpen(row.status) ==> IsOpen(was.status))
    && (was.status == CanceledByBusiness ==> row.status == was.status)
  }

  /** What a transaction that creates no booking may do to the chains. */
  lemma ChainStep(db: Db, next: Db)
    requires ChainInv(db)
    requires |next.bookings| == |db.bookings|
    requires forall b | 0 <= b < |db.bookings| :: SameLink(db.bookings[b], next.bookings[b])
    requires forall p | 0 <= p < |next.payments| ::
               || IsRoot(db, next.payments[p].booking)
               || (p < |db.payments| && next.payments[p].booking == db.payments[p].booking)
    requires forall m | 0 <= m < |next.manualPayments| ::
               || IsRoot(db, next.manualPayments[m].booking)
               || (m < |db.manualPayments| && next.manualPayments[m] == db.manualPayments[m])
    ensures ChainInv(next)
  {
    forall b | 0 <= b < |next.bookings| ensures ChainLinkOk(next, b) && RootOf(next, b) == RootOf(db, b) {
      assert SameLink(db.bookings[b], next.bookings[b]);
      assert ChainLinkOk(db, b);
    }
    assert forall b: nat | IsRoot(db, b) :: IsRoot(next, b);
    forall p | 0 <= p < |next.payments| ensures IsRoot(next, next.payments[p].booking) {
      assert p < |db.payments| ==> IsRoot(db, db.payments[p].booking);
    }
    forall m | 0 <= m < |next.manualPayments| ensures IsRoot(next, next.manualPayments[m].booking) {
      assert m < |db.manualPayments| ==> IsRoot(db, db.manualPayments[m].booking);
    }
  }

  // ── moving along an edge ─────────────────────────────────────────────────────────────────

  lemma MoveKeepsHistories(db: Db, b: RowId, row: Booking)
    requires HistoriesValid(db.bookings, db.history) && b < |db.bookings|
    requires CanTransition(Some(db.bookings[b].status), row.status)
    requires row.expiresAt.Some? <==> IsOpen(row.status)
    ensures HistoriesValid(MoveTo(db, b, row).bookings, MoveTo(db, b, row).history)
  {
    var next := MoveTo(db, b, row);
    var change := next.history[|db.history|];
    assert next.history == db.history + [change];
    forall c | 0 <= c < |next.bookings| ensures HistoryOk(next.bookings[c], HistoryOf(next.history, c)) {
      assert HistoryOk(db.bookings[c], HistoryOf(db.history, c));
      HistoryOfAppend(db.history, change, c);
      if c == b {
        ExtendHistory(HistoryOf(db.history, b), change);
      } else {
        assert HistoryOf(db.history, c) + [] == HistoryOf(db.history, c);
      }
    }
  }

  lemma ExtendHistory(rows: seq<StatusChange>, change: StatusChange)
    requires ValidHistory(rows) && change.from == Some(rows[|rows| - 1].to)
    requires CanTransition(change.from, change.to)
    ensures ValidHistory(rows + [change])
  {
    var longer := rows + [change];
    forall i | 0 < i < |longer| ensures longer[i].from == Some(longer[i - 1].to) {
      if i < |rows| {
        assert rows[i].from == Some(rows[i - 1].to);
      }
    }
  }

  /** A plain status move: the columns that tie a booking to money and to its chain stay. */
  predicate PlainMove(was: Booking, row: Booking) {
    && row == was.(status := row.status, expiresAt := row.expiresAt)
    && CanTransition(Some(was.status), row.status)
    && (row.expiresAt.Some? <==> IsOpen(row.status))
    && WasConfirmed(row.status) == WasConfirmed(was.status)
  }

  lemma MoveKeeps(db: Db, b: RowId, row: Booking)
    requires Inv(db) && b < |db.bookings| && PlainMove(db.bookings[b], row)
    ensures Inv(MoveTo(db, b, row))
  {
    var next := MoveTo(db, b, row);
    MoveKeepsHistories(db, b, row);
    LedgerFrame(db, next);
    MoveKeepsSessions(db, b, row);
    MoveKeepsChains(db, b, row);
    forall c: nat
      ensures ExpectedTokens(next.bookings, c) == ExpectedTokens(db.bookings, c)
      ensures ExpectedEvents(next.bookings, c) == ExpectedEvents(db.bookings, c)
    {
    }
  }

  lemma MoveKeepsSessions(db: Db, b: RowId, row: Booking)
    requires SessionsOk(db.bookings, db.payments) && b < |db.bookings| && PlainMove(db.bookings[b], row)
    ensures SessionsOk(db.bookings[b := row], db.payments)
  {
    var bookings := db.bookings[b := row];
    forall p | 0 <= p < |db.payments| && Settled(db.payments[p].status)
      ensures Held(bookings, db.payments[p].session)
    {
      var c :| 0 <= c < |db.bookings| && db.bookings[c].session == Some(db.payments[p].session)
               && !IsOpen(db.bookings[c].status);
      assert bookings[c].session == Some(db.payments[p].session) && !IsOpen(bookings[c].status);
    }
  }

  lemma MoveKeepsChains(db: Db, b: RowId, row: Booking)
    requires ChainInv(db) && b < |db.bookings| && PlainMove(db.bookings[b], row)
    ensures ChainInv(MoveTo(db, b, row))
  {
    TransitionsDescend(db.bookings[b].status, row.status);
    ChainStep(db, MoveTo(db, b, row));
  }

  // ── each operation ───────────────────────────────────────────────────────────────────────

  lemma CreateKeepsHistories(db: Db, row: Booking)
    requires HistoriesValid(db.bookings, db.history)
    requires row.status in CREATABLE && (row.expiresAt.Some? <==> IsOpen(row.status))
    ensures HistoriesValid(Create(db, row).bookings, Create(db, row).history)
  {
    var next := Create(db, row);
    var change := StatusChange(|db.bookings|, None, row.status);
    HistoryOfNone(db.history, |db.bookings|);
    forall c | 0 <= c < |next.bookings| ensures HistoryOk(next.bookings[c], HistoryOf(next.history, c)) {
      HistoryOfAppend(db.history, change, c);
      if c < |db.bookings| {
        assert HistoryOk(db.bookings[c], HistoryOf(db.history, c));
        assert HistoryOf(db.history, c) + [] == HistoryOf(db.history, c);
      }
    }
  }

  /** A new booking on no chain yet, or the replacement of a cancelled one that has none. */
  predicate NewLink(db: Db, row: Booking) {
    && row.session == None
    && (row.rescheduledFrom.Some? <==> row.financialRoot.Some?)
    && (row.rescheduledFrom.Some? ==>
          && row.rescheduledFrom.value < |db.bookings|
          && db.bookings[row.rescheduledFrom.value].status == CanceledByBusiness
          && !AlreadyReplaced(db.bookings, row.rescheduledFrom.value)
          && row.financialRoot == Some(RootOf(db, row.rescheduledFrom.value))
          && !IsOpen(row.status)
          && forall c | 0 <= c < |db.bookings| && RootOf(db, c) == row.financialRoot.value ::
               !IsBlocking(db.bookings[c].status))
  }

  lemma CreateKeepsChains(db: Db, row: Booking)
    requires ChainInv(db) && NewLink(db, row)
    ensures ChainInv(Create(db, row))
  {
    var next := Create(db, row);
    var id := |db.bookings|;
    assert forall c: nat | c < id :: next.bookings[c] == db.bookings[c] && RootOf(next, c) == RootOf(db, c);
    assert forall c: nat | c < id && IsRoot(db, c) :: IsRoot(next, c);
    forall c: nat | c < id ensures RootOf(db, c) < id {
      assert ChainLinkOk(db, c);
    }
    forall c | 0 <= c < |next.bookings| ensures ChainLinkOk(next, c) {
      if c < id {
        assert ChainLinkOk(db, c);
      } else if row.rescheduledFrom.Some? {
        assert ChainLinkOk(db, row.rescheduledFrom.value);
      }
    }
    forall b, c | 0 <= b < c < |next.bookings| && RootOf(next, b) == RootOf(next, c)
      ensures !(IsBlocking(next.bookings[b].status) && IsBlocking(next.bookings[c].status))
    {
      if c == id {
        assert RootOf(next, b) < id;
        assert row.rescheduledFrom.Some?;
      }
    }
    forall p | 0 <= p < |next.payments| ensures IsRoot(next, next.payments[p].booking) {
      assert IsRoot(db, db.payments[p].booking);
    }
    forall m | 0 <= m < |next.manualPayments| ensures IsRoot(next, next.manualPayments[m].booking) {
      assert IsRoot(db, db.manualPayments[m].booking);
    }
  }

  lemma CreateKeepsSessions(db: Db, row: Booking)
    requires SessionsOk(db.bookings, db.payments) && row.session == None
    ensures SessionsOk(db.bookings + [row], db.payments)
  {
    var bookings := db.bookings + [row];
    forall p | 0 <= p < |db.payments| && Settled(db.payments[p].status)
      ensures Held(bookings, db.payments[p].session)
    {
      var c :| 0 <= c < |db.bookings| && db.bookings[c].session == Some(db.payments[p].session)
               && !IsOpen(db.bookings[c].status);
      assert bookings[c].session == Some(db.payments[p].session) && !IsOpen(bookings[c].status);
    }
  }

  lemma CustomerReserves(db: Db, row: Booking, b: RowId)
    requires ConfirmedOnce(db.bookings, db.tokens, db.reminders, db.outbox) && !WasConfirmed(row.status)
    ensures
      var id := |db.bookings|;
      && CountTokens(db.tokens, b) == ExpectedTokens(db.bookings + [row], b) + CountFired(db.reminders, b)
      && CountConfirmed(db.outbox + [ExpiryRequested(id)], b) == ExpectedEvents(db.bookings + [row], b)
  {
    assert CountTokens(db.tokens, b) == ExpectedTokens(db.bookings, b) + CountFired(db.reminders, b);
    CountAppend(db.outbox, ExpiryRequested(|db.bookings|), b);
  }

  lemma OfficeReserves(db: Db, row: Booking, b: RowId)
    requires ConfirmedOnce(db.bookings, db.tokens, db.reminders, db.outbox)
    requires WasConfirmed(row.status) && row.rescheduledFrom == None
    ensures
      var id := |db.bookings|;
      && CountTokens(db.tokens + [ManagementToken(id, false)], b) ==
         ExpectedTokens(db.bookings + [row], b) + CountFired(db.reminders, b)
      && CountConfirmed(db.outbox + [BookingConfirmed(id)], b) == ExpectedEvents(db.bookings + [row], b)
  {
    assert CountTokens(db.tokens, b) == ExpectedTokens(db.bookings, b) + CountFired(db.reminders, b);
    TokenAppend(db.tokens, ManagementToken(|db.bookings|, false), b);
    CountAppend(db.outbox, BookingConfirmed(|db.bookings|), b);
  }

  lemma ReserveConfirmsOnce(db: Db, actor: Actor, startsAt: Instant, endsAt: Instant, price: Cents)
    requires ConfirmedOnce(db.bookings, db.tokens, db.reminders, db.outbox)
    ensures
      var next := After(db, ReserveSlot(db, actor, startsAt, endsAt, price));
      ConfirmedOnce(next.bookings, next.tokens, next.reminders, next.outbox)
  {
    var next := After(db, ReserveSlot(db, actor, startsAt, endsAt, price));
    var row := next.bookings[|db.bookings|];
    forall b: nat
      ensures CountTokens(next.tokens, b) == ExpectedTokens(next.bookings, b) + CountFired(next.reminders, b)
      ensures CountConfirmed(next.outbox, b) == ExpectedEvents(next.bookings, b)
    {
      if actor.Customer? {
        CustomerReserves(db, row, b);
      } else {
        OfficeReserves(db, row, b);
      }
    }
  }

  lemma ReserveSlotKeeps(db: Db, actor: Actor, startsAt: Instant, endsAt: Instant, price: Cents)
    requires Inv(db)
    ensures Inv(After(db, ReserveSlot(db, actor, startsAt, endsAt, price)))
  {
    var next := After(db, ReserveSlot(db, actor, startsAt, endsAt, price));
    var row := next.bookings[|db.bookings|];
    var made := Create(db, row);
    CreateKeepsHistories(db, row);
    CreateKeepsSessions(db, row);
    CreateKeepsChains(db, row);
    assert next == made.(tokens := next.tokens, outbox := next.outbox);
    ChainStep(made, next);
    LedgerFrame(db, next);
    ReserveConfirmsOnce(db, actor, startsAt, endsAt, price);
  }

  lemma AttachKeepsHistories(db: Db, b: RowId, session: SessionId)
    requires HistoriesValid(db.bookings, db.history) && ConfirmedOnce(db.bookings, db.tokens, db.reminders, db.outbox)
    ensures
      var next := After(db, Attach(db, b, session));
      HistoriesValid(next.bookings, next.history) && ConfirmedOnce(next.bookings, next.tokens, next.reminders, next.outbox)
  {
    var next := After(db, Attach(db, b, session));
    forall c | 0 <= c < |next.bookings|
      ensures HistoryOk(next.bookings[c], HistoryOf(next.history, c))
    {
      assert HistoryOk(db.bookings[c], HistoryOf(db.history, c));
    }
    forall c: nat
      ensures ExpectedTokens(next.bookings, c) == ExpectedTokens(db.bookings, c)
      ensures ExpectedEvents(next.bookings, c) == ExpectedEvents(db.bookings, c)
    {
    }
  }

  lemma AttachKeeps(db: Db, b: RowId, session: SessionId)
    requires Inv(db) && MayOpenCheckout(db, b)
    ensures Inv(After(db, Attach(db, b, session)))
  {
    if Attach(db, b, session).Commit? {
      AttachKeepsHistories(db, b, session);
      AttachKeepsChains(db, b, session);
      AttachKeepsSessions(db, b, session);
      AttachKeepsLedger(db, b, session);
    }
  }

  lemma AttachKeepsChains(db: Db, b: RowId, session: SessionId)
    requires ChainInv(db) && MayOpenCheckout(db, b) && Attach(db, b, session).Commit?
    ensures ChainInv(After(db, Attach(db, b, session)))
  {
    assert ChainLinkOk(db, b);
    ChainStep(db, After(db, Attach(db, b, session)));
  }

  lemma AttachKeepsSessions(db: Db, b: RowId, session: SessionId)
    requires SessionsOk(db.bookings, db.payments) && Attach(db, b, session).Commit?
    ensures
      var next := After(db, Attach(db, b, session));
      SessionsOk(next.bookings, next.payments)
  {
    var next := After(db, Attach(db, b, session));
    forall p | 0 <= p < |next.payments| && Settled(next.payments[p].status)
      ensures Held(next.bookings, next.payments[p].session)
    {
      assert next.payments[p] == db.payments[p];
      var c :| 0 <= c < |db.bookings| && db.bookings[c].session == Some(db.payments[p].session)
               && !IsOpen(db.bookings[c].status);
      assert next.bookings[c].session == Some(next.payments[p].session) && !IsOpen(next.bookings[c].status);
    }
  }

  lemma AttachKeepsLedger(db: Db, b: RowId, session: SessionId)
    requires LedgerInv(db) && Attach(db, b, session).Commit?
    ensures LedgerInv(After(db, Attach(db, b, session)))
  {
    var next := After(db, Attach(db, b, session));
    forall p | 0 <= p < |next.payments| ensures BooksBalance(next, p) {
      if p < |db.payments| {
        assert BooksBalance(db, p);
      } else {
        SumBounds(db.refunds, p, RefundStatus.Succeeded);
        SumBounds(db.refunds, p, RefundStatus.Pending);
      }
    }
  }

  /** A payment whose money already arrived is never the one a new confirmation writes. */
  lemma ConfirmedSessionIsFresh(db: Db, b: RowId, session: SessionId)
    requires SessionsOk(db.bookings, db.payments) && b < |db.bookings| && IsOpen(db.bookings[b].status)
    requires !SessionTaken(db.bookings, b, session)
    ensures forall p | 0 <= p < |db.payments| && db.payments[p].session == session ::
              !Settled(db.payments[p].status)
  {
    assert !Held(db.bookings, session);
    assert forall p | 0 <= p < |db.payments| && Settled(db.payments[p].status) ::
        Held(db.bookings, db.payments[p].session);
  }

  lemma ConfirmWrites(db: Db, b: RowId, session: SessionId, amount: Cents, charge: Option<ChargeId>)
    requires b < |db.bookings| && IsOpen(db.bookings[b].status) && Confirm(db, b, session, amount, charge).Commit?
    ensures
      var next := After(db, Confirm(db, b, session, amount, charge));
      && |next.bookings| == |db.bookings| && next.bookings[b].status == Confirmed
      && next.bookings[b].rescheduledFrom == db.bookings[b].rescheduledFrom
      && (forall c: nat | c < |db.bookings| && c != b :: next.bookings[c] == db.bookings[c])
      && next.tokens == db.tokens + [ManagementToken(b, false)] && next.reminders == db.reminders
      && next.outbox == db.outbox + [BookingConfirmed(b)]
  {
  }

  lemma ConfirmConfirmsOnce(db: Db, b: RowId, session: SessionId, amount: Cents, charge: Option<ChargeId>)
    requires ConfirmedOnce(db.bookings, db.tokens, db.reminders, db.outbox) && b < |db.bookings|
    requires db.bookings[b].rescheduledFrom == None && IsOpen(db.bookings[b].status)
    requires Confirm(db, b, session, amount, charge).Commit?
    ensures
      var next := After(db, Confirm(db, b, session, amount, charge));
      ConfirmedOnce(next.bookings, next.tokens, next.reminders, next.outbox)
  {
    ConfirmWrites(db, b, session, amount, charge);
    OneMoreConfirmed(db, After(db, Confirm(db, b, session, amount, charge)), b);
  }

  /** A booking that is confirmed is given its token and its announcement. */
  lemma OneMoreConfirmed(db: Db, next: Db, b: RowId)
    requires ConfirmedOnce(db.bookings, db.tokens, db.reminders, db.outbox)
    requires b < |db.bookings| == |next.bookings|
    requires !WasConfirmed(db.bookings[b].status) && next.bookings[b].status == Confirmed
    requires db.bookings[b].rescheduledFrom == next.bookings[b].rescheduledFrom == None
    requires forall c: nat | c < |db.bookings| && c != b :: next.bookings[c] == db.bookings[c]
    requires next.tokens == db.tokens + [ManagementToken(b, false)] && next.reminders == db.reminders
    requires next.outbox == db.outbox + [BookingConfirmed(b)]
    ensures ConfirmedOnce(next.bookings, next.tokens, next.reminders, next.outbox)
  {
    forall c: nat
      ensures CountTokens(next.tokens, c) == ExpectedTokens(next.bookings, c) + CountFired(next.reminders, c)
      ensures CountConfirmed(next.outbox, c) == ExpectedEvents(next.bookings, c)
    {
      assert CountTokens(db.tokens, c) == ExpectedTokens(db.bookings, c) + CountFired(db.reminders, c);
      TokenAppend(db.tokens, ManagementToken(b, false), c);
      CountAppend(db.outbox, BookingConfirmed(b), c);
    }
  }

  lemma ConfirmKeepsHistories(db: Db, b: RowId, session: SessionId, amount: Cents, charge: Option<ChargeId>)
    requires HistoriesValid(db.bookings, db.history) && b < |db.bookings| && IsOpen(db.bookings[b].status)
    requires Confirm(db, b, session, amount, charge).Commit?
    ensures
      var next := After(db, Confirm(db, b, session, amount, charge));
      HistoriesValid(next.bookings, next.history)
  {
    MoveKeepsHistories(db, b, After(db, Confirm(db, b, session, amount, charge)).bookings[b]);
  }

  lemma ConfirmKeeps(db: Db, b: RowId, session: SessionId, amount: Cents, charge: Option<ChargeId>)
    requires Inv(db)
    ensures Inv(After(db, Confirm(db, b, session, amount, charge)))
  {
    var next := After(db, Confirm(db, b, session, amount, charge));
    if next != db {
      assert ChainLinkOk(db, b);
      ConfirmKeepsHistories(db, b, session, amount, charge);
      ConfirmKeepsSessions(db, b, session, amount, charge);
      ConfirmKeepsLedger(db, b, session, amount, charge);
      ConfirmKeepsChains(db, b, session, amount, charge);
      ConfirmConfirmsOnce(db, b, session, amount, charge);
    }
  }

  lemma ConfirmKeepsSessions(db: Db, b: RowId, session: SessionId, amount: Cents, charge: Option<ChargeId>)
    requires SessionsOk(db.bookings, db.payments) && b < |db.bookings| && IsOpen(db.bookings[b].status)
    requires Confirm(db, b, session, amount, charge).Commit?
    ensures
      var next := After(db, Confirm(db, b, session, amount, charge));
      SessionsOk(next.bookings, next.payments)
  {
    var next := After(db, Confirm(db, b, session, amount, charge));
    assert forall p | 0 <= p < |db.payments| :: next.payments[p].session == db.payments[p].session;
    forall p | 0 <= p < |next.payments| && Settled(next.payments[p].status)
      ensures Held(next.bookings, next.payments[p].session)
    {
      if next.payments[p].session == session {
        assert next.bookings[b].session == Some(session) && !IsOpen(next.bookings[b].status);
      } else {
        assert Settled(db.payments[p].status);
        var c :| 0 <= c < |db.bookings| && db.bookings[c].session == Some(db.payments[p].session)
                 && !IsOpen(db.bookings[c].status);
        assert next.bookings[c].session == Some(next.payments[p].session) && !IsOpen(next.bookings[c].status);
      }
    }
  }

  /** A payment without refunds may be brought up to date, as long as money has not arrived on it. */
  lemma UpsertKeepsBooks(db: Db, b: RowId, session: SessionId, amount: Cents, charge: Option<ChargeId>, p: RowId)
    requires LedgerInv(db) && amount > 0
    requires forall q | 0 <= q < |db.payments| && db.payments[q].session == session :: !Settled(db.payments[q].status)
    requires p < |Upserted(db.payments, b, session, amount, charge)|
    ensures BooksBalance(db.(payments := Upserted(db.payments, b, session, amount, charge)), p)
  {
    SumBounds(db.refunds, p, RefundStatus.Succeeded);
    SumBounds(db.refunds, p, RefundStatus.Pending);
    if p < |db.payments| {
      assert BooksBalance(db, p);
    }
  }

  lemma ConfirmKeepsLedger(db: Db, b: RowId, session: SessionId, amount: Cents, charge: Option<ChargeId>)
    requires LedgerInv(db) && SessionsOk(db.bookings, db.payments)
    requires b < |db.bookings| && IsOpen(db.bookings[b].status)
    requires Confirm(db, b, session, amount, charge).Commit?
    ensures LedgerInv(After(db, Confirm(db, b, session, amount, charge)))
  {
    var next := After(db, Confirm(db, b, session, amount, charge));
    ConfirmedSessionIsFresh(db, b, session);
    var paid := db.(payments := Upserted(db.payments, b, session, amount, charge));
    assert next.payments == paid.payments && next.refunds == paid.refunds;
    forall p | 0 <= p < |paid.payments| ensures BooksBalance(paid, p) {
      UpsertKeepsBooks(db, b, session, amount, charge, p);
    }
    LedgerFrame(paid, next);
  }

  lemma ConfirmKeepsChains(db: Db, b: RowId, session: SessionId, amount: Cents, charge: Option<ChargeId>)
    requires ChainInv(db) && b < |db.bookings| && IsOpen(db.bookings[b].status)
    requires Confirm(db, b, session, amount, charge).Commit?
    ensures ChainInv(After(db, Confirm(db, b, session, amount, charge)))
  {
    var next := After(db, Confirm(db, b, session, amount, charge));
    assert ChainLinkOk(db, b);
    ChainStep(db, next);
  }

  lemma FailPendingKeeps(db: Db, b: RowId)
    requires Inv(db)
    ensures Inv(db.(payments := FailPending(db.payments, b)))
  {
    var failed := db.(payments := FailPending(db.payments, b));
    forall p | 0 <= p < |failed.payments| ensures BooksBalance(failed, p) {
      assert BooksBalance(db, p);
    }
    forall p | 0 <= p < |failed.payments| && Settled(failed.payments[p].status)
      ensures Held(failed.bookings, failed.payments[p].session)
    {
      assert failed.payments[p] == db.payments[p];
    }
    ChainStep(db, failed);
  }

  lemma FailKeeps(db: Db, b: RowId)
    requires Inv(db)
    ensures Inv(MarkFailed(db, b))
  {
    var next := MarkFailed(db, b);
    if next != db {
      var moved := MoveTo(db, b, next.bookings[b]);
      MoveKeeps(db, b, next.bookings[b]);
      FailPendingKeeps(moved, b);
      AnnounceKeeps(moved.(payments := FailPending(db.payments, b)), BookingPaymentFailed(b));
    }
  }

  lemma BeginKeeps(db: Db, b: RowId, now: Instant)
    requires Inv(db)
    ensures Inv(Begin(db, b, now).0)
  {
    var (next, outcome) := Begin(db, b, now);
    if outcome == Began {
      MoveKeeps(db, b, next.bookings[b]);
      AnnounceKeeps(MoveTo(db, b, next.bookings[b]), ExpiryRequested(b));
    }
  }

  lemma ReleaseKeeps(db: Db, b: RowId)
    requires Inv(db)
    ensures Inv(Released(db, b))
  {
    if Released(db, b) != db {
      MoveKeeps(db, b, Released(db, b).bookings[b]);
    }
  }

  lemma AttendKeeps(db: Db, b: RowId, to: BookingStatus, now: Instant)
    requires Inv(db) && (to == Completed || to == NoShow)
    ensures Inv(After(db, Attend(db, b, to, now)))
  {
    if Attend(db, b, to, now).Commit? {
      assert HistoryOk(db.bookings[b], HistoryOf(db.history, b));
      MoveKeeps(db, b, db.bookings[b].(status := to));
    }
  }

  lemma ReserveRefundKeeps(db: Db, b: RowId, amount: RefundAmount, lenient: bool, key: IdempotencyKey)
    requires Inv(db)
    ensures Inv(After(db, Reserve(db, b, amount, lenient, key)))
  {
    var next := After(db, Reserve(db, b, amount, lenient, key));
    if next != db {
      ReserveKeepsLedger(db, b, amount, lenient, key);
      AnnounceKeeps(db, RefundRequested(|db.refunds|));
      ChainStep(db, next);
    }
  }

  lemma CancelKeeps(
    db: Db, b: RowId, to: BookingStatus, amount: Option<RefundAmount>, lenient: bool,
    mayRefund: bool, key: IdempotencyKey)
    requires Inv(db) && (to == CanceledByCustomer || to == CanceledByBusiness)
    ensures Inv(After(db, Cancel(db, b, to, amount, lenient, mayRefund, key)))
  {
    var outcome := Cancel(db, b, to, amount, lenient, mayRefund, key);
    if outcome.Commit? {
      assert HistoryOk(db.bookings[b], HistoryOf(db.history, b));
      var moved := MoveTo(db, b, db.bookings[b].(status := to));
      MoveKeeps(db, b, db.bookings[b].(status := to));
      if amount.Some? {
        ReserveRefundKeeps(moved, b, amount.value, lenient, key);
        moved := After(moved, Reserve(moved, b, amount.value, lenient, key));
      }
      AnnounceKeeps(moved, BookingCanceled(b, outcome.value.refund));
    }
  }

  lemma RescheduleConfirmsOnce(db: Db, b: RowId, startsAt: Instant)
    requires ConfirmedOnce(db.bookings, db.tokens, db.reminders, db.outbox) && Reschedule(db, b, startsAt).Commit?
    ensures
      var next := After(db, Reschedule(db, b, startsAt));
      ConfirmedOnce(next.bookings, next.tokens, next.reminders, next.outbox)
  {
    var id := |db.bookings|;
    var next := After(db, Reschedule(db, b, startsAt));
    var sent := db.outbox + [BookingRescheduled(id, b)];
    assert next.outbox == sent + [ReminderSchedule(id)];
    forall c: nat
      ensures CountTokens(next.tokens, c) == ExpectedTokens(next.bookings, c) + CountFired(next.reminders, c)
      ensures CountConfirmed(next.outbox, c) == ExpectedEvents(next.bookings, c)
    {
      assert CountTokens(db.tokens, c) == ExpectedTokens(db.bookings, c) + CountFired(db.reminders, c);
      RevokeCounts(db.tokens, b, c);
      TokenAppend(RevokeTokens(db.tokens, b), ManagementToken(id, false), c);
      CountAppend(db.outbox, BookingRescheduled(id, b), c);
      CountAppend(sent, ReminderSchedule(id), c);
    }
  }

  lemma ReplacementLinks(db: Db, b: RowId, startsAt: Instant)
    requires ChainInv(db) && Reschedule(db, b, startsAt).Commit?
    ensures NewLink(MoveTo(db, b, db.bookings[b].(status := CanceledByBusiness)), Replacement(db, b, startsAt))
  {
    var canceled := MoveTo(db, b, db.bookings[b].(status := CanceledByBusiness));
    forall c | 0 <= c < |canceled.bookings| && RootOf(canceled, c) == RootOf(db, b)
      ensures !IsBlocking(canceled.bookings[c].status)
    {
      assert RootOf(canceled, c) == RootOf(db, c);
    }
  }

  lemma RescheduleKeeps(db: Db, b: RowId, startsAt: Instant)
    requires Inv(db)
    ensures Inv(After(db, Reschedule(db, b, startsAt)))
  {
    if Reschedule(db, b, startsAt).Commit? {
      var id := |db.bookings|;
      var next := Reschedule(db, b, startsAt).state;
      assert HistoryOk(db.bookings[b], HistoryOf(db.history, b));
      var canceled := MoveTo(db, b, db.bookings[b].(status := CanceledByBusiness));
      MoveKeeps(db, b, db.bookings[b].(status := CanceledByBusiness));
      var row := Replacement(db, b, startsAt);
      ReplacementLinks(db, b, startsAt);
      CreateKeepsHistories(canceled, row);
      CreateKeepsSessions(canceled, row);
      CreateKeepsChains(canceled, row);
      ChainStep(Create(canceled, row), next);
      LedgerFrame(db, next);
      RescheduleConfirmsOnce(db, b, startsAt);
    }
  }

  lemma CashKeeps(db: Db, b: RowId, amount: Cents)
    requires Inv(db)
    ensures Inv(After(db, RecordCash(db, b, amount)))
  {
    if RecordCash(db, b, amount).Commit? {
      var next := RecordCash(db, b, amount).state;
      LedgerFrame(db, next);
      assert ChainLinkOk(db, b);
      ChainStep(db, next);
    }
  }

  lemma SettleKeeps(db: Db, refund: RowId, status: RefundStatus, id: Option<ProviderRefundId>)
    requires Inv(db)
    ensures Inv(After(db, Settle(db, refund, status, id)))
  {
    var next := After(db, Settle(db, refund, status, id));
    if next != db {
      SettleKeepsLedger(db, refund, status, id);
      var p := db.refunds[refund].payment;
      assert BooksBalance(db, p);
      assert Settled(db.payments[p].status);
      assert SessionsOk(next.bookings, next.payments) by {
        forall q | 0 <= q < |next.payments| && Settled(next.payments[q].status)
          ensures Held(next.bookings, next.payments[q].session)
        {
          assert Held(db.bookings, db.payments[q].session);
        }
      }
      ChainStep(db, next);
      if status == RefundStatus.Succeeded {
        forall b: nat ensures CountConfirmed(next.outbox, b) == CountConfirmed(db.outbox, b) {
          CountAppend(db.outbox, RefundSucceeded(refund), b);
        }
      } else {
        assert next.outbox == db.outbox;
      }
    }
  }

  /** An approval is a cancellation towards some target, or nothing. */
  lemma ApprovalIsCancel(
    db: Db, b: RowId, suggested: Cents, retained: Option<Cents>, mayRefund: bool, key: IdempotencyKey)
    returns (amount: RefundAmount)
    ensures
      var next := After(db, ApproveCancellation(db, b, suggested, retained, mayRefund, key));
      next == db || next == After(db, Cancel(db, b, CanceledByCustomer, Some(amount), true, mayRefund, key))
  {
    amount := CumulativeTarget(0);
    if b < |db.bookings| {
      var kept := if retained.Some? then retained.value else suggested;
      amount := CumulativeTarget(ReceivedBy(db, RootOf(db, b)) - kept);
      var outcome := ApproveCancellation(db, b, suggested, retained, mayRefund, key);
      assert outcome == Abort(ValidationFailed)
             || outcome == Cancel(db, b, CanceledByCustomer, Some(amount), true, mayRefund, key);
    }
  }

  lemma ApproveKeeps(
    db: Db, b: RowId, suggested: Cents, retained: Option<Cents>, mayRefund: bool, key: IdempotencyKey)
    requires Inv(db)
    ensures Inv(After(db, ApproveCancellation(db, b, suggested, retained, mayRefund, key)))
  {
    var amount := ApprovalIsCancel(db, b, suggested, retained, mayRefund, key);
    var next := After(db, ApproveCancellation(db, b, suggested, retained, mayRefund, key));
    if next != db {
      CancelKeeps(db, b, CanceledByCustomer, Some(amount), true, mayRefund, key);
    }
  }

  lemma BusinessCancelKeeps(db: Db, b: RowId, refund: Option<Cents>, mayRefund: bool, key: IdempotencyKey)
    requires Inv(db)
    ensures Inv(After(db, CancelByBusiness(db, b, refund, mayRefund, key)))
  {
    if refund.None? {
      CancelKeeps(db, b, CanceledByBusiness, None, true, mayRefund, key);
    } else {
      CancelKeeps(db, b, CanceledByBusiness, Some(Additional(refund.value)), refund.value <= 0, mayRefund, key);
    }
  }

  lemma UpdateKeeps(db: Db, id: ProviderRefundId, handle: Option<IdempotencyKey>, status: RefundStatus)
    requires Inv(db)
    ensures Inv(After(db, ProviderUpdate(db, id, handle, status)))
  {
    var found := FindByHandle(db.refunds, id, handle);
    if found.Some? {
      SettleKeeps(db, found.value, status, Some(id));
    }
  }

  lemma QueueConfirmsOnce(db: Db, b: RowId, offset: int, epochSeconds: int, texts: bool)
    requires ConfirmedOnce(db.bookings, db.tokens, db.reminders, db.outbox)
    ensures
      var next := QueueReminder(db, b, offset, epochSeconds, texts);
      ConfirmedOnce(next.bookings, next.tokens, next.reminders, next.outbox)
  {
    var next := QueueReminder(db, b, offset, epochSeconds, texts);
    if next != db {
      var row := next.reminders[|db.reminders|];
      var mailed := Announce(db.outbox, b, row.email);
      forall c: nat
        ensures CountTokens(next.tokens, c) == ExpectedTokens(next.bookings, c) + CountFired(next.reminders, c)
        ensures CountConfirmed(next.outbox, c) == ExpectedEvents(next.bookings, c)
      {
        assert CountTokens(db.tokens, c) == ExpectedTokens(db.bookings, c) + CountFired(db.reminders, c);
        TokenAppend(db.tokens, ManagementToken(b, false), c);
        FiredAppend(db.reminders, row, c);
        CountAppend(db.outbox, NotificationSend(b), c);
        CountAppend(mailed, NotificationSend(b), c);
      }
    }
  }

  /** Queueing a reminder keeps everything, whatever became of the booking since it was looked at. */
  lemma QueueKeeps(db: Db, b: RowId, offset: int, epochSeconds: int, texts: bool)
    requires Inv(db)
    ensures Inv(QueueReminder(db, b, offset, epochSeconds, texts))
  {
    var next := QueueReminder(db, b, offset, epochSeconds, texts);
    LedgerFrame(db, next);
    ChainStep(db, next);
    QueueConfirmsOnce(db, b, offset, epochSeconds, texts);
  }

  predicate MovesMoney(op: Op) {
    op.CancelOp? || op.ApproveOp? || op.BusinessCancelOp? || op.CashOp? || op.RefundOp? || op.SettleOp? || op.UpdateOp?
  }

  lemma CancelImmediatelyKeeps(db: Db, b: RowId, paid: Cents, key: IdempotencyKey)
    requires Inv(db)
    ensures Inv(After(db, CancelImmediately(db, b, paid, key)))
  {
    CancelKeeps(db, b, CanceledByCustomer, Some(CumulativeTarget(paid)), true, true, key);
  }

  lemma CancellingOpKeeps(db: Db, op: Op)
    requires Inv(db) && (op.CancelOp? || op.ApproveOp? || op.BusinessCancelOp?)
    ensures Inv(Apply(db, op))
  {
    match op
    case CancelOp(b, paid, key) => CancelImmediatelyKeeps(db, b, paid, key);
    case ApproveOp(b, suggested, retained, may, key) => ApproveKeeps(db, b, suggested, retained, may, key);
    case BusinessCancelOp(b, refund, may, key) => BusinessCancelKeeps(db, b, refund, may, key);
  }

  lemma LedgerOpKeeps(db: Db, op: Op)
    requires Inv(db) && (op.CashOp? || op.RefundOp? || op.SettleOp? || op.UpdateOp?)
    ensures Inv(Apply(db, op))
  {
    match op
    case CashOp(b, amount) => CashKeeps(db, b, amount);
    case RefundOp(b, amount, key) => ReserveRefundKeeps(db, b, Additional(amount), false, key);
    case SettleOp(r, status, id) => SettleKeeps(db, r, status, id);
    case UpdateOp(id, handle, status) => UpdateKeeps(db, id, handle, status);
  }

  lemma BookingOpKeeps(db: Db, op: Op)
    requires Inv(db) && !MovesMoney(op)
    ensures Inv(Apply(db, op))
  {
    match op
    case ReserveOp(actor, startsAt, endsAt, price) => ReserveSlotKeeps(db, actor, startsAt, endsAt, price);
    case AttachOp(b, s) => if MayOpenCheckout(db, b) { AttachKeeps(db, b, s); }
    case ConfirmOp(b, s, amount, charge) => ConfirmKeeps(db, b, s, amount, charge);
    case FailOp(b) => FailKeeps(db, b);
    case BeginOp(b, now) => BeginKeeps(db, b, now);
    case ReleaseOp(b) => ReleaseKeeps(db, b);
    case CompleteOp(b, now) => AttendKeeps(db, b, Completed, now);
    case NoShowOp(b, now) => AttendKeeps(db, b, NoShow, now);
    case RescheduleOp(b, startsAt) => RescheduleKeeps(db, b, startsAt);
    case FireOp(b, offset, epochSeconds, _, texts) => QueueKeeps(db, b, offset, epochSeconds, texts);
  }

  lemma ApplyKeeps(db: Db, op: Op)
    requires Inv(db)
    ensures Inv(Apply(db, op))
  {
    if op.CancelOp? || op.ApproveOp? || op.BusinessCancelOp? {
      CancellingOpKeeps(db, op);
    } else if MovesMoney(op) {
      LedgerOpKeeps(db, op);
    } else {
      BookingOpKeeps(db, op);
    }
  }

  // ── what holds of every run ──────────────────────────────────────────────────────────────

  /** Every sequence of transactions keeps the ledger, the histories, the sessions and the chains. */
  lemma {:induction false} RunsKeepInv(ops: seq<Op>)
    ensures Inv(Run(ops))
  {
    if ops == [] {
      assert forall b: nat :: CountTokens(EMPTY.tokens, b) == CountFired(EMPTY.reminders, b) == 0;
      assert forall b: nat :: CountConfirmed(EMPTY.outbox, b) == 0;
    } else {
      RunsKeepInv(ops[..|ops| - 1]);
      ApplyKeeps(Run(ops[..|ops| - 1]), ops[|ops| - 1]);
    }
  }

  /**
   * After any run, a booking's history is a run of the status machine that ends in its current
   * status; it has an expiry exactly while it waits for money; and it has moved at most three
   * times since it was created.
   */
  lemma {:induction false} HistoryTellsTheStatus(ops: seq<Op>, b: RowId)
    requires b < |Run(ops).bookings|
    ensures
      var row := Run(ops).bookings[b];
      var rows := HistoryOf(Run(ops).history, b);
      && ValidHistory(rows)
      && rows[|rows| - 1].to == row.status
      && (row.expiresAt.Some? <==> row.status == PendingPayment || row.status == Expiring)
      && |rows| + Rank(row.status) <= 4
      && (forall i, j | 0 <= i < j < |rows| :: rows[i].to != rows[j].to && IsBlocking(rows[i].to))
  {
    RunsKeepInv(ops);
    var rows := HistoryOf(Run(ops).history, b);
    assert HistoryOk(Run(ops).bookings[b], rows);
    HistoryIsShort(rows);
    forall i, j | 0 <= i < j < |rows| ensures rows[i].to != rows[j].to && IsBlocking(rows[i].to) {
      HistoryNeverReturns(rows, i, j);
    }
  }

  /** Past CONFIRMED only the statuses of a confirmed booking follow. */
  lemma ReachedThroughConfirmed(rows: seq<StatusChange>, i: nat)
    requires ValidHistory(rows) && i < |rows| - 1
    ensures rows[i].to == Confirmed ==> WasConfirmed(rows[|rows| - 1].to)
  {
    assert rows[i + 1].from == Some(rows[i].to) && CanTransition(rows[i + 1].from, rows[i + 1].to);
    if i + 1 < |rows| - 1 {
      HistoryNeverReturns(rows, i + 1, |rows| - 1);
    }
  }

  ghost predicate PassedThrough(rows: seq<StatusChange>, status: BookingStatus) {
    exists i | 0 <= i < |rows| :: rows[i].to == status
  }

  /** The statuses of a confirmed booking are those whose history passes through CONFIRMED. */
  lemma TokenMeansConfirmed(db: Db, b: RowId)
    requires HistoriesValid(db.bookings, db.history) && b < |db.bookings|
    ensures
      WasConfirmed(db.bookings[b].status) <==> PassedThrough(HistoryOf(db.history, b), Confirmed)
  {
    var rows := HistoryOf(db.history, b);
    assert HistoryOk(db.bookings[b], rows);
    var last := |rows| - 1;
    assert CanTransition(rows[last].from, rows[last].to);
    if WasConfirmed(rows[last].to) {
      assert rows[last].to != Confirmed ==> last > 0 && rows[last].from == Some(rows[last - 1].to);
      var at := if rows[last].to == Confirmed then last else last - 1;
      assert rows[at].to == Confirmed;
    } else {
      forall i | 0 <= i < |rows| ensures rows[i].to != Confirmed {
        if i < last {
          ReachedThroughConfirmed(rows, i);
        }
      }
    }
  }

  /** Reporting one payment twice is reporting it once. */
  lemma ConfirmRepeats(db: Db, b: RowId, session: SessionId, amount: Cents, charge: Option<ChargeId>)
    ensures
      var next := After(db, Confirm(db, b, session, amount, charge));
      After(next, Confirm(next, b, session, amount, charge)) == next
  {
  }

  /**
   * However often and in whatever order a payment is reported, a booking is announced as confirmed
   * at most once, and its session has at most one payment row; reporting a payment once more
   * changes nothing. A booking has a token exactly when its history passed through CONFIRMED, and
   * one more for each reminder that queued a message.
   */
  lemma {:induction false} ConfirmationHappensOnce(
    ops: seq<Op>, b: RowId, session: SessionId, amount: Cents, charge: Option<ChargeId>)
    requires b < |Run(ops).bookings|
    ensures
      var db := Run(ops);
      var confirmed := PassedThrough(HistoryOf(db.history, b), Confirmed);
      && CountConfirmed(db.outbox, b) <= (if confirmed then 1 else 0)
      && CountTokens(db.tokens, b) == (if confirmed then 1 else 0) + CountFired(db.reminders, b)
      && (forall p, q | 0 <= p < q < |db.payments| :: db.payments[p].session != db.payments[q].session)
    ensures
      var next := After(Run(ops), Confirm(Run(ops), b, session, amount, charge));
      After(next, Confirm(next, b, session, amount, charge)) == next
  {
    RunsKeepInv(ops);
    var db := Run(ops);
    assert CountTokens(db.tokens, b) == ExpectedTokens(db.bookings, b) + CountFired(db.reminders, b);
    TokenMeansConfirmed(db, b);
    ConfirmRepeats(db, b, session, amount, charge);
  }

  lemma ConfirmLeavesPaid(
    db: Db, b: RowId, session: SessionId, amount: Cents, charge: Option<ChargeId>, p: RowId)
    requires SessionsOk(db.bookings, db.payments) && p < |db.payments| && Settled(db.payments[p].status)
    ensures p < |After(db, Confirm(db, b, session, amount, charge)).payments|
    ensures After(db, Confirm(db, b, session, amount, charge)).payments[p] == db.payments[p]
  {
    if b < |db.bookings| && IsOpen(db.bookings[b].status) && !SessionTaken(db.bookings, b, session) {
      ConfirmedSessionIsFresh(db, b, session);
    }
  }

  /**
   * After any run, a confirmation, of whatever booking with whatever session, leaves every
   * payment whose money arrived as it is; in particular none with refunds is rewritten.
   */
  lemma {:induction false} ConfirmationNeverRewritesPaid(
    ops: seq<Op>, b: RowId, session: SessionId, amount: Cents, charge: Option<ChargeId>, p: RowId)
    requires p < |Run(ops).payments|
    requires
      || Settled(Run(ops).payments[p].status)
      || exists i | 0 <= i < |Run(ops).refunds| :: Run(ops).refunds[i].payment == p
    ensures p < |After(Run(ops), Confirm(Run(ops), b, session, amount, charge)).payments|
    ensures After(Run(ops), Confirm(Run(ops), b, session, amount, charge)).payments[p] == Run(ops).payments[p]
  {
    RunsKeepInv(ops);
    assert BooksBalance(Run(ops), p);
    ConfirmLeavesPaid(Run(ops), b, session, amount, charge, p);
  }

  /**
   * After any run the books balance: a payment's refunded total is the sum of its settled
   * refunds, settled and pending refunds together never exceed the charge, and the status of a
   * paid payment is the one those amounts imply.
   */
  lemma {:induction false} BooksAlwaysBalance(ops: seq<Op>, p: RowId)
    requires p < |Run(ops).payments|
    ensures
      var db := Run(ops);
      var payment := db.payments[p];
      var settled := SumRefunds(db.refunds, p, RefundStatus.Succeeded);
      var pending := SumRefunds(db.refunds, p, RefundStatus.Pending);
      && payment.refunded == settled >= 0
      && pending >= 0
      && settled + pending <= payment.amount
      && (Settled(payment.status) ==>
            && (payment.status == PaymentStatus.Succeeded <==> settled == 0)
            && (payment.status == PaymentStatus.Refunded <==> settled == payment.amount))
      && (!Settled(payment.status) ==> settled == pending == 0)
  {
    RunsKeepInv(ops);
    var db := Run(ops);
    assert BooksBalance(db, p);
    SumBounds(db.refunds, p, RefundStatus.Succeeded);
    SumBounds(db.refunds, p, RefundStatus.Pending);
  }

  /** After any run, money summed once per financial root is all the money there is. */
  lemma MoneyAlwaysConserved(ops: seq<Op>)
    ensures
      var db := Run(ops);
      LifetimeValue(db, seq(|db.bookings|, i => i)) ==
      CardsReceived(db.payments) + CashReceived(db.manualPayments) - RefundedFrom(db.refunds)
  {
    RunsKeepInv(ops);
    MoneyIsConserved(Run(ops));
  }

  /**
   * After any run, reschedule chains are linear and flat: a booking is replaced at most once, the
   * replaced one is cancelled, at most one booking of a chain occupies an employee, and the whole
   * chain reads its money from one root that has no root of its own.
   */
  lemma {:induction false} ChainsStayLinear(ops: seq<Op>, b: RowId, c: RowId)
    requires b < |Run(ops).bookings| && c < |Run(ops).bookings| && b != c
    ensures
      var db := Run(ops);
      && (db.bookings[b].rescheduledFrom.Some? ==> db.bookings[b].rescheduledFrom != db.bookings[c].rescheduledFrom)
      && (RootOf(db, b) == RootOf(db, c) ==>
            && !(IsBlocking(db.bookings[b].status) && IsBlocking(db.bookings[c].status))
            && FinancialsOf(db, RootOf(db, b)) == FinancialsOf(db, RootOf(db, c)))
      && (db.bookings[c].rescheduledFrom == Some(b) ==>
            db.bookings[b].status == CanceledByBusiness && RootOf(db, b) == RootOf(db, c))
      && IsRoot(db, RootOf(db, b))
  {
    RunsKeepInv(ops);
    var db := Run(ops);
    assert ChainLinkOk(db, b) && ChainLinkOk(db, c);
    if b < c { assert ChainInv(db); } else { assert ChainInv(db); }
  }

  // ── what stays decided, and what waits for its time ──────────────────────────────────────

  /** What was sold, for how much, and where it comes from. */
  predicate SameTerms(was: Booking, row: Booking) {
    && row.startsAt == was.startsAt && row.endsAt == was.endsAt && row.price == was.price
    && row.rescheduledFrom == was.rescheduledFrom && row.financialRoot == was.financialRoot
  }

  /** One booking before and after a transaction at some moment. */
  predicate MovesInTime(was: Booking, row: Booking, now: Instant) {
    && SameTerms(was, row)
    && (IsTerminal(was.status) ==> row.status == was.status)
    && (row.status != was.status ==>
          && (row.status == Completed ==> was.status == Confirmed && row.endsAt <= now)
          && (row.status == NoShow ==> was.status == Confirmed && row.startsAt <= now)
          && (row.status == Expiring ==> row.expiresAt.Some? && row.expiresAt.value <= now))
    && (row.status == was.status ==> row.expiresAt == was.expiresAt)
  }

  /** A transaction moves bookings only as their time allows, and leaves what is settled alone. */
  ghost predicate Decides(db: Db, next: Db, now: Instant) {
    && |db.bookings| <= |next.bookings| && |db.refunds| <= |next.refunds| && db.reminders <= next.reminders
    && (forall b | 0 <= b < |db.bookings| :: MovesInTime(db.bookings[b], next.bookings[b], now))
    && (forall b | |db.bookings| <= b < |next.bookings| :: next.bookings[b].status in CREATABLE)
    && (forall r | 0 <= r < |db.refunds| && db.refunds[r].status != RefundStatus.Pending ::
          next.refunds[r] == db.refunds[r])
  }

  /** The moment a transaction looks at, if it looks at the time at all. */
  predicate IsBy(op: Op, now: Instant) {
    op.BeginOp? || op.CompleteOp? || op.NoShowOp? ==> op.now <= now
  }

  lemma CancelDecides(
    db: Db, b: RowId, to: BookingStatus, amount: Option<RefundAmount>, lenient: bool,
    mayRefund: bool, key: IdempotencyKey, now: Instant)
    requires to == CanceledByCustomer || to == CanceledByBusiness
    ensures Decides(db, After(db, Cancel(db, b, to, amount, lenient, mayRefund, key)), now)
  {
  }

  lemma ApproveDecides(
    db: Db, b: RowId, suggested: Cents, retained: Option<Cents>, mayRefund: bool, key: IdempotencyKey, now: Instant)
    ensures Decides(db, After(db, ApproveCancellation(db, b, suggested, retained, mayRefund, key)), now)
  {
    var amount := ApprovalIsCancel(db, b, suggested, retained, mayRefund, key);
    CancelDecides(db, b, CanceledByCustomer, Some(amount), true, mayRefund, key, now);
  }

  lemma BusinessCancelDecides(
    db: Db, b: RowId, refund: Option<Cents>, mayRefund: bool, key: IdempotencyKey, now: Instant)
    ensures Decides(db, After(db, CancelByBusiness(db, b, refund, mayRefund, key)), now)
  {
    if refund.None? {
      CancelDecides(db, b, CanceledByBusiness, None, true, mayRefund, key, now);
    } else {
      CancelDecides(db, b, CanceledByBusiness, Some(Additional(refund.value)), refund.value <= 0, mayRefund, key, now);
    }
  }

  lemma AttendDecides(db: Db, b: RowId, to: BookingStatus, at: Instant, now: Instant)
    requires (to == Completed || to == NoShow) && at <= now
    ensures Decides(db, After(db, Attend(db, b, to, at)), now)
  {
    if Attend(db, b, to, at).Commit? {
      var status := db.bookings[b].status;
      assert to in Transitions(status) <==> status == Confirmed;
    }
  }

  lemma PaymentDecides(db: Db, op: Op, now: Instant)
    requires op.AttachOp? || op.ConfirmOp? || op.FailOp?
    ensures Decides(db, Apply(db, op), now)
  {
  }

  lemma ExpiryDecides(db: Db, op: Op, now: Instant)
    requires (op.BeginOp? || op.ReleaseOp?) && IsBy(op, now)
    ensures Decides(db, Apply(db, op), now)
  {
  }

  lemma CreationDecides(db: Db, op: Op, now: Instant)
    requires op.ReserveOp? || op.RescheduleOp?
    ensures Decides(db, Apply(db, op), now)
  {
  }

  lemma FireDecides(db: Db, op: Op, now: Instant)
    requires op.FireOp?
    ensures Decides(db, Apply(db, op), now)
  {
  }

  lemma BookingOpDecides(db: Db, op: Op, now: Instant)
    requires !MovesMoney(op) && IsBy(op, now)
    ensures Decides(db, Apply(db, op), now)
  {
    if op.AttachOp? || op.ConfirmOp? || op.FailOp? {
      PaymentDecides(db, op, now);
    } else if op.BeginOp? || op.ReleaseOp? {
      ExpiryDecides(db, op, now);
    } else if op.ReserveOp? || op.RescheduleOp? {
      CreationDecides(db, op, now);
    } else if op.FireOp? {
      FireDecides(db, op, now);
    } else {
      AttendDecides(db, op.booking, if op.CompleteOp? then Completed else NoShow, op.now, now);
    }
  }

  lemma ApplyDecides(db: Db, op: Op, now: Instant)
    requires IsBy(op, now)
    ensures Decides(db, Apply(db, op), now)
  {
    if !MovesMoney(op) {
      BookingOpDecides(db, op, now);
    } else {
      match op
      case CancelOp(b, paid, key) =>
        CancelDecides(db, b, CanceledByCustomer, Some(CumulativeTarget(paid)), true, true, key, now);
      case ApproveOp(b, suggested, retained, may, key) => ApproveDecides(db, b, suggested, retained, may, key, now);
      case BusinessCancelOp(b, refund, may, key) => BusinessCancelDecides(db, b, refund, may, key, now);
      case _ =>
    }
  }

  /** Terminal bookings, settled refunds and queued reminders are as they were. */
  ghost predicate StaysDecided(db: Db, later: Db) {
    && |db.bookings| <= |later.bookings| && |db.refunds| <= |later.refunds| && db.reminders <= later.reminders
    && (forall b | 0 <= b < |db.bookings| && IsTerminal(db.bookings[b].status) ::
          later.bookings[b].status == db.bookings[b].status)
    && (forall r | 0 <= r < |db.refunds| && db.refunds[r].status != RefundStatus.Pending ::
          later.refunds[r] == db.refunds[r])
  }

  lemma ApplyStaysDecided(db: Db, op: Op)
    ensures StaysDecided(db, Apply(db, op))
  {
    var now := if op.BeginOp? || op.CompleteOp? || op.NoShowOp? then op.now else 0;
    ApplyDecides(db, op, now);
    assert forall b | 0 <= b < |db.bookings| :: MovesInTime(db.bookings[b], Apply(db, op).bookings[b], now);
  }

  lemma OneMore(ops: seq<Op>, op: Op)
    ensures Run(ops + [op]) == Apply(Run(ops), op)
  {
    assert (ops + [op])[..|ops|] == ops;
  }

  lemma LastOf(ops: seq<Op>, more: seq<Op>)
    requires more != []
    ensures ops + more == (ops + more[..|more| - 1]) + [more[|more| - 1]]
  {
  }

  lemma StaysDecidedTwice(db: Db, middle: Db, later: Db)
    requires StaysDecided(db, middle) && StaysDecided(middle, later)
    ensures StaysDecided(db, later)
  {
  }

  /**
   * What is decided stays decided: however a run goes on, a booking that reached a terminal status
   * keeps it, late payments, releases and failures included, and a settled refund keeps its row.
   */
  lemma {:induction false} DecidedForGood(ops: seq<Op>, more: seq<Op>)
    ensures StaysDecided(Run(ops), Run(ops + more))
    decreases |more|
  {
    if more == [] {
      assert ops + more == ops;
    } else {
      var init, last := more[..|more| - 1], more[|more| - 1];
      DecidedForGood(ops, init);
      LastOf(ops, more);
      OneMore(ops + init, last);
      ApplyStaysDecided(Run(ops + init), last);
      StaysDecidedTwice(Run(ops), Run(ops + init), Run(ops + more));
    }
  }

  /**
   * Nothing happens before its time: in every run whose clock has not passed a moment, by then a
   * completed booking has ended, a missed one has begun, and an expiring one has run out.
   */
  lemma {:induction false} NothingBeforeItsTime(ops: seq<Op>, now: Instant, b: RowId)
    requires forall i | 0 <= i < |ops| :: IsBy(ops[i], now)
    requires b < |Run(ops).bookings|
    ensures
      var row := Run(ops).bookings[b];
      && (row.status == Completed ==> row.endsAt <= now)
      && (row.status == NoShow ==> row.startsAt <= now)
      && (row.status == Expiring ==> row.expiresAt.Some? && row.expiresAt.value <= now)
  {
    if ops != [] {
      var init := ops[..|ops| - 1];
      ApplyDecides(Run(init), ops[|ops| - 1], now);
      if b < |Run(init).bookings| {
        NothingBeforeItsTime(init, now, b);
        assert MovesInTime(Run(init).bookings[b], Run(ops).bookings[b], now);
      } else {
        assert Run(ops).bookings[b].status in CREATABLE;
      }
    }
  }
}
