/**
 * Expiring a reservation in two phases while its customer may be paying: reading, asking and deciding are
 * separate steps of any number of workers.
 */
module ExpiryWorld {
  import opened Outcomes
  import opened BookingStatuses
  import opened Records
  import opened Bookings
  import opened Operations
  import opened Refunds
  import C = Cancellations

  /** A checkout session at the provider; it is created for one booking and only moves forward. */
  datatype SessionState = Open | Closed | Paid | CompletedUnpaid | PaidLate

  datatype CheckoutSession = CheckoutSession(owner: RowId, state: SessionState)

  datatype ExpireAnswer = WasExpired | CompleteAndPaid | CompleteUnpaid

  datatype Message =
    | Read(booking: RowId, attached: Option<SessionId>)
    | Answer(booking: RowId, session: SessionId, answer: ExpireAnswer)

  /**
   * The database, the provider's sessions, and everything the workers have read or been told. A
   * message stays for good: a worker may act on it late, twice, or never.
   */
  datatype World = World(db: Db, sessions: seq<CheckoutSession>, known: set<Message>)

  datatype Action =
      /** Any transaction that does not involve the checkout session, beginning an expiry included. */
    | Transact(op: Op)
    | OpenSession(owner: RowId)
    | AttachSession(session: SessionId)
    | Pay(session: SessionId)
    | CompleteWithoutPaying(session: SessionId)
    | SettleLate(session: SessionId)
    | LapseAtProvider(session: SessionId)
      /** The provider's webhook about a paid session. */
    | PaidWebhook(session: SessionId, amount: Cents, charge: Option<ChargeId>)
      /** Phase two, one step at a time. */
    | ReadBooking(booking: RowId)
    | AskProvider(booking: RowId, session: SessionId)
    | Decide(message: Message, amount: Cents, charge: Option<ChargeId>)

  predicate WasPaid(state: SessionState) {
    state == Paid || state == PaidLate
  }

  /** What the provider answers when it is asked to expire a session. */
  function AnswerOf(state: SessionState): ExpireAnswer {
    match state
    case Open => WasExpired
    case Closed => WasExpired
    case Paid => CompleteAndPaid
    case PaidLate => CompleteAndPaid
    case CompletedUnpaid => CompleteUnpaid
  }

  function MoveSession(w: World, s: SessionId, from: SessionState, to: SessionState): World {
    if s < |w.sessions| && w.sessions[s].state == from then
      w.(sessions := w.sessions[s := w.sessions[s].(state := to)])
    else w
  }

  /** The booking an event about a session is for: the one naming it, else the one it was opened for. */
  function Resolve(w: World, s: SessionId): RowId
    requires s < |w.sessions|
  {
    match NamedBy(w.db.bookings, s)
    case Some(b) => b
    case None => w.sessions[s].owner
  }

  function NamedBy(bookings: seq<Booking>, s: SessionId): (found: Option<RowId>)
    ensures found.Some? ==> found.value < |bookings| && bookings[found.value].session == Some(s)
    ensures found.None? ==> forall b | 0 <= b < |bookings| :: bookings[b].session != Some(s)
  {
    if bookings == [] then None
    else
      var last := |bookings| - 1;
      match NamedBy(bookings[..last], s)
      case Some(b) => Some(b)
      case None => if bookings[last].session == Some(s) then Some(last) else None
  }

  predicate InvolvesSession(op: Op) {
    op.AttachOp? || op.ConfirmOp? || op.ReleaseOp?
  }

  function OpenStep(w: World, b: RowId): World {
    if b < |w.db.bookings| && w.db.bookings[b].rescheduledFrom == None then
      w.(sessions := w.sessions + [CheckoutSession(b, Open)])
    else w
  }

  function AttachStep(w: World, s: SessionId): World {
    if s >= |w.sessions| then w else w.(db := Apply(w.db, AttachOp(w.sessions[s].owner, s)))
  }

  function WebhookStep(w: World, s: SessionId, amount: Cents, charge: Option<ChargeId>): World {
    if s < |w.sessions| && WasPaid(w.sessions[s].state) then
      w.(db := Apply(w.db, ConfirmOp(Resolve(w, s), s, amount, charge)))
    else w
  }

  function ReadStep(w: World, b: RowId): World {
    if b < |w.db.bookings| && w.db.bookings[b].status == Expiring then
      w.(known := w.known + {Read(b, w.db.bookings[b].session)})
    else w
  }

  /** Asking expires an open session; one that is complete answers with how it ended. */
  function AskStep(w: World, b: RowId, s: SessionId): World {
    if Read(b, Some(s)) in w.known && s < |w.sessions| then
      MoveSession(w, s, Open, Closed).(known := w.known + {Answer(b, s, AnswerOf(w.sessions[s].state))})
    else w
  }

  /** Releasing is the answer to everything but a payment. */
  function DecideOp(message: Message, amount: Cents, charge: Option<ChargeId>): Option<Op> {
    match message
    case Read(b, None) => Some(ReleaseOp(b))
    case Read(_, Some(_)) => None
    case Answer(b, s, CompleteAndPaid) => Some(ConfirmOp(b, s, amount, charge))
    case Answer(b, _, _) => Some(ReleaseOp(b))
  }

  function DecideStep(w: World, message: Message, amount: Cents, charge: Option<ChargeId>): World {
    if message !in w.known then w
    else
      match DecideOp(message, amount, charge)
      case Some(op) => w.(db := Apply(w.db, op))
      case None => w
  }

  function Step(w: World, action: Action): World {
    match action
    case Transact(op) => if InvolvesSession(op) then w else w.(db := Apply(w.db, op))
    case OpenSession(b) => OpenStep(w, b)
    case AttachSession(s) => AttachStep(w, s)
    case Pay(s) => MoveSession(w, s, Open, Paid)
    case CompleteWithoutPaying(s) => MoveSession(w, s, Open, CompletedUnpaid)
    case SettleLate(s) => MoveSession(w, s, CompletedUnpaid, PaidLate)
    case LapseAtProvider(s) => MoveSession(w, s, Open, Closed)
    case PaidWebhook(s, amount, charge) => WebhookStep(w, s, amount, charge)
    case ReadBooking(b) => ReadStep(w, b)
    case AskProvider(b, s) => AskStep(w, b, s)
    case Decide(message, amount, charge) => DecideStep(w, message, amount, charge)
  }

  const NOTHING := World(EMPTY, [], {})

  function WorldFrom(w: World, actions: seq<Action>): World {
    if actions == [] then w else Step(WorldFrom(w, actions[..|actions| - 1]), actions[|actions| - 1])
  }

  // ── the invariant ────────────────────────────────────────────────────────────────────────

  /** What the provider's side of an answer looks like from then on. */
  predicate Confirms(state: SessionState, answer: ExpireAnswer) {
    match answer
    case WasExpired => state == Closed
    case CompleteAndPaid => WasPaid(state)
    case CompleteUnpaid => state == CompletedUnpaid || state == PaidLate
  }

  ghost predicate MessageOk(w: World, m: Message) {
    match m
    case Read(b, session) =>
      && b < |w.db.bookings| && w.db.bookings[b].status != PendingPayment
      && (session.Some? ==>
            && session.value < |w.sessions| && w.sessions[session.value].owner == b
            && (w.db.bookings[b].session == session || WasConfirmed(w.db.bookings[b].status)))
    case Answer(b, s, answer) =>
      && Read(b, Some(s)) in w.known
      && s < |w.sessions| && Confirms(w.sessions[s].state, answer)
  }

  /** Some worker knows a reason to let the booking go. */
  ghost predicate MayRelease(w: World, b: RowId) {
    || Read(b, None) in w.known
    || (exists s: SessionId :: Answer(b, s, WasExpired) in w.known)
    || (exists s: SessionId :: Answer(b, s, CompleteUnpaid) in w.known)
  }

  ghost predicate BookingOk(w: World, b: RowId)
    requires b < |w.db.bookings|
  {
    var row := w.db.bookings[b];
    && (row.session.Some? ==> row.session.value < |w.sessions| && w.sessions[row.session.value].owner == b)
    && (row.status == Expired ==> MayRelease(w, b))
  }

  ghost predicate KnowledgeOk(w: World) {
    && (forall m | m in w.known :: MessageOk(w, m))
    && (forall b | 0 <= b < |w.db.bookings| :: BookingOk(w, b))
  }

  // ── what the other transactions do to a booking ──────────────────────────────────────────

  predicate BookingStep(was: Booking, row: Booking) {
    && row.session == was.session
    && (WasConfirmed(was.status) ==> WasConfirmed(row.status))
    && (row.status == Expired ==> was.status == Expired)
    && (was.status == Expiring ==> row.status == Expiring)
    && (was.status == PaymentFailed ==> row.status == PaymentFailed)
    && (row.status == PendingPayment ==> was.status == PendingPayment)
  }

  ghost predicate LeavesSessions(db: Db, next: Db) {
    && |db.bookings| <= |next.bookings|
    && (forall b | 0 <= b < |db.bookings| :: BookingStep(db.bookings[b], next.bookings[b]))
    && (forall b | |db.bookings| <= b < |next.bookings| ::
          next.bookings[b].session == None && next.bookings[b].status != Expired)
  }

  lemma CancelLeaves(
    db: Db, b: RowId, to: BookingStatus, amount: Option<RefundAmount>, lenient: bool,
    mayRefund: bool, key: IdempotencyKey)
    requires to == CanceledByCustomer || to == CanceledByBusiness
    ensures LeavesSessions(db, After(db, C.Cancel(db, b, to, amount, lenient, mayRefund, key)))
  {
    if C.Cancel(db, b, to, amount, lenient, mayRefund, key).Commit? {
      var moved := MoveTo(db, b, db.bookings[b].(status := to));
      if amount.Some? {
        assert After(moved, Reserve(moved, b, amount.value, lenient, key)).bookings == moved.bookings;
      }
    }
  }

  lemma AttendLeaves(db: Db, b: RowId, to: BookingStatus, now: Instant)
    requires to == Completed || to == NoShow
    ensures LeavesSessions(db, After(db, Attend(db, b, to, now)))
  {
  }

  lemma MoneyOpLeaves(db: Db, op: Op)
    requires MovesMoney(op)
    ensures LeavesSessions(db, Apply(db, op))
  {
    match op
    case CancelOp(b, paid, key) =>
      CancelLeaves(db, b, CanceledByCustomer, Some(CumulativeTarget(paid)), true, true, key);
    case ApproveOp(b, suggested, retained, may, key) =>
      var amount := ApprovalIsCancel(db, b, suggested, retained, may, key);
      CancelLeaves(db, b, CanceledByCustomer, Some(amount), true, may, key);
    case BusinessCancelOp(b, refund, may, key) =>
      if refund.None? {
        CancelLeaves(db, b, CanceledByBusiness, None, true, may, key);
      } else {
        CancelLeaves(db, b, CanceledByBusiness, Some(Additional(refund.value)), refund.value <= 0, may, key);
      }
    case _ =>
  }

  lemma TransactLeaves(db: Db, op: Op)
    requires !InvolvesSession(op)
    ensures LeavesSessions(db, Apply(db, op))
  {
    if MovesMoney(op) {
      MoneyOpLeaves(db, op);
    } else {
      match op
      case CompleteOp(b, now) => AttendLeaves(db, b, Completed, now);
      case NoShowOp(b, now) => AttendLeaves(db, b, NoShow, now);
      case _ =>
    }
  }

  // ── each step keeps the invariant ────────────────────────────────────────────────────────

  lemma TransactKeeps(w: World, op: Op)
    requires KnowledgeOk(w)
    ensures KnowledgeOk(Step(w, Transact(op)))
  {
    if !InvolvesSession(op) {
      var next := Step(w, Transact(op));
      TransactLeaves(w.db, op);
      KnowledgeStays(w, next);
    }
  }

  /** New rows and moves that leave the sessions alone do not make anything known wrong. */
  lemma KnowledgeStays(w: World, next: World)
    requires KnowledgeOk(w) && next == w.(db := next.db)
    requires LeavesSessions(w.db, next.db)
    ensures KnowledgeOk(next)
  {
    forall m | m in next.known ensures MessageOk(next, m) {
      assert MessageOk(w, m);
      assert m.Read? ==> BookingStep(w.db.bookings[m.booking], next.db.bookings[m.booking]);
    }
    forall b | 0 <= b < |next.db.bookings| ensures BookingOk(next, b) {
      if b < |w.db.bookings| {
        assert BookingOk(w, b) && BookingStep(w.db.bookings[b], next.db.bookings[b]);
        if w.db.bookings[b].status == Expired { ReasonStays(w, next, b); }
      }
    }
  }

  lemma ReasonStays(w: World, next: World, b: RowId)
    requires w.known <= next.known && MayRelease(w, b)
    ensures MayRelease(next, b)
  {
    if s: SessionId :| Answer(b, s, WasExpired) in w.known {
      assert Answer(b, s, WasExpired) in next.known;
    }
    if s: SessionId :| Answer(b, s, CompleteUnpaid) in w.known {
      assert Answer(b, s, CompleteUnpaid) in next.known;
    }
  }

  lemma SessionStepKeeps(w: World, next: World)
    requires KnowledgeOk(w) && next == w.(sessions := next.sessions)
    requires |w.sessions| <= |next.sessions|
    requires forall s | 0 <= s < |w.sessions| ::
               next.sessions[s].owner == w.sessions[s].owner && Forward(w.sessions[s].state, next.sessions[s].state)
    ensures KnowledgeOk(next)
  {
    forall m | m in next.known ensures MessageOk(next, m) {
      assert MessageOk(w, m);
    }
    forall b | 0 <= b < |next.db.bookings| ensures BookingOk(next, b) {
      assert BookingOk(w, b);
      if w.db.bookings[b].status == Expired { ReasonStays(w, next, b); }
    }
  }

  /** How a session may move at the provider. */
  predicate Forward(from: SessionState, to: SessionState) {
    to == from || from == Open || (from == CompletedUnpaid && to == PaidLate)
  }

  lemma LearnKeeps(w: World, m: Message)
    requires KnowledgeOk(w) && MessageOk(w.(known := w.known + {m}), m)
    ensures KnowledgeOk(w.(known := w.known + {m}))
  {
    var next := w.(known := w.known + {m});
    forall other | other in next.known ensures MessageOk(next, other) {
      assert other != m ==> MessageOk(w, other);
    }
    forall b | 0 <= b < |next.db.bookings| ensures BookingOk(next, b) {
      assert BookingOk(w, b);
      if w.db.bookings[b].status == Expired { ReasonStays(w, next, b); }
    }
  }

  lemma AttachKeepsKnowledge(w: World, s: SessionId)
    requires KnowledgeOk(w)
    ensures KnowledgeOk(Step(w, AttachSession(s)))
  {
    var next := AttachStep(w, s);
    forall m | m in next.known ensures MessageOk(next, m) {
      assert MessageOk(w, m);
    }
    forall b | 0 <= b < |next.db.bookings| ensures BookingOk(next, b) {
      assert BookingOk(w, b);
      if w.db.bookings[b].status == Expired { ReasonStays(w, next, b); }
    }
  }

  lemma ConfirmKeepsKnowledge(w: World, s: SessionId, amount: Cents, charge: Option<ChargeId>)
    requires KnowledgeOk(w) && s < |w.sessions|
    ensures KnowledgeOk(w.(db := Apply(w.db, ConfirmOp(w.sessions[s].owner, s, amount, charge))))
  {
    var next := w.(db := Apply(w.db, ConfirmOp(w.sessions[s].owner, s, amount, charge)));
    forall m | m in next.known ensures MessageOk(next, m) {
      assert MessageOk(w, m);
    }
    forall b | 0 <= b < |next.db.bookings| ensures BookingOk(next, b) {
      assert BookingOk(w, b);
      if w.db.bookings[b].status == Expired { ReasonStays(w, next, b); }
    }
  }

  lemma ReleaseKeepsKnowledge(w: World, b: RowId)
    requires KnowledgeOk(w) && MayRelease(w, b)
    ensures KnowledgeOk(w.(db := Apply(w.db, ReleaseOp(b))))
  {
    var next := w.(db := Apply(w.db, ReleaseOp(b)));
    ReasonStays(w, next, b);
    forall m | m in next.known ensures MessageOk(next, m) {
      assert MessageOk(w, m);
    }
    forall c | 0 <= c < |next.db.bookings| ensures BookingOk(next, c) {
      assert BookingOk(w, c);
      if w.db.bookings[c].status == Expired { ReasonStays(w, next, c); }
    }
  }

  /** The booking an event resolves to is the one the session was opened for. */
  lemma ResolvesToOwner(w: World, s: SessionId)
    requires KnowledgeOk(w) && s < |w.sessions|
    ensures Resolve(w, s) == w.sessions[s].owner
  {
    var named := NamedBy(w.db.bookings, s);
    if named.Some? {
      assert BookingOk(w, named.value);
    }
  }

  lemma AskKeeps(w: World, b: RowId, s: SessionId)
    requires KnowledgeOk(w)
    ensures KnowledgeOk(Step(w, AskProvider(b, s)))
  {
    if Read(b, Some(s)) in w.known && s < |w.sessions| {
      var asked := MoveSession(w, s, Open, Closed);
      SessionStepKeeps(w, asked);
      LearnKeeps(asked, Answer(b, s, AnswerOf(w.sessions[s].state)));
    }
  }

  lemma DecideKeeps(w: World, message: Message, amount: Cents, charge: Option<ChargeId>)
    requires KnowledgeOk(w)
    ensures KnowledgeOk(Step(w, Decide(message, amount, charge)))
  {
    if message in w.known {
      assert MessageOk(w, message);
      match message
      case Read(b, None) => ReleaseKeepsKnowledge(w, b);
      case Read(_, Some(_)) =>
      case Answer(b, s, CompleteAndPaid) =>
        assert MessageOk(w, Read(b, Some(s)));
        ConfirmKeepsKnowledge(w, s, amount, charge);
      case Answer(b, s, _) => ReleaseKeepsKnowledge(w, b);
    }
  }

  lemma StepKeeps(w: World, action: Action)
    requires KnowledgeOk(w)
    ensures KnowledgeOk(Step(w, action))
  {
    match action
    case Transact(op) => TransactKeeps(w, op);
    case OpenSession(b) => SessionStepKeeps(w, OpenStep(w, b));
    case AttachSession(s) => AttachKeepsKnowledge(w, s);
    case Pay(s) => SessionStepKeeps(w, MoveSession(w, s, Open, Paid));
    case CompleteWithoutPaying(s) => SessionStepKeeps(w, MoveSession(w, s, Open, CompletedUnpaid));
    case SettleLate(s) => SessionStepKeeps(w, MoveSession(w, s, CompletedUnpaid, PaidLate));
    case LapseAtProvider(s) => SessionStepKeeps(w, MoveSession(w, s, Open, Closed));
    case PaidWebhook(s, amount, charge) =>
      if s < |w.sessions| && WasPaid(w.sessions[s].state) {
        ResolvesToOwner(w, s);
        ConfirmKeepsKnowledge(w, s, amount, charge);
      }
    case ReadBooking(b) =>
      if b < |w.db.bookings| && w.db.bookings[b].status == Expiring {
        assert BookingOk(w, b);
        LearnKeeps(w, Read(b, w.db.bookings[b].session));
      }
    case AskProvider(b, s) => AskKeeps(w, b, s);
    case Decide(message, amount, charge) => DecideKeeps(w, message, amount, charge);
  }

  lemma {:induction false} WorldsStayOk(w: World, actions: seq<Action>)
    requires KnowledgeOk(w)
    ensures KnowledgeOk(WorldFrom(w, actions))
  {
    if actions != [] {
      WorldsStayOk(w, actions[..|actions| - 1]);
      StepKeeps(WorldFrom(w, actions[..|actions| - 1]), actions[|actions| - 1]);
    }
  }

  function WorldAfter(actions: seq<Action>): World {
    WorldFrom(NOTHING, actions)
  }

  lemma EveryWorldIsOk(actions: seq<Action>)
    ensures KnowledgeOk(WorldAfter(actions))
  {
    WorldsStayOk(NOTHING, actions);
  }

  // ── what holds of every run ──────────────────────────────────────────────────────────────

  /** What is known about a booking that expired with a session attached, when nobody read it without one. */
  lemma ExpiredMeansUnpaid(w: World, b: RowId, s: SessionId)
    requires KnowledgeOk(w) && b < |w.db.bookings| && Read(b, None) !in w.known
    requires w.db.bookings[b].status == Expired && w.db.bookings[b].session == Some(s)
    ensures s < |w.sessions| && w.sessions[s].owner == b
    ensures w.sessions[s].state in {Closed, CompletedUnpaid, PaidLate}
  {
    assert BookingOk(w, b) && MayRelease(w, b);
    forall other: SessionId, answer | Answer(b, other, answer) in w.known && answer != CompleteAndPaid
      ensures other == s && Confirms(w.sessions[s].state, answer)
    {
      assert MessageOk(w, Answer(b, other, answer)) && MessageOk(w, Read(b, Some(other)));
    }
  }

  /** The guard attaching lacks: the booking is still waiting for its first answer. */
  predicate AttachesInTime(w: World, action: Action) {
    action.AttachSession? && Step(w, action) != w ==>
      && action.session < |w.sessions|
      && w.sessions[action.session].owner < |w.db.bookings|
      && w.db.bookings[w.sessions[action.session].owner].status == PendingPayment
  }

  predicate AlwaysAttachesInTime(actions: seq<Action>) {
    actions != [] ==>
      var init := actions[..|actions| - 1];
      AlwaysAttachesInTime(init) && AttachesInTime(WorldAfter(init), actions[|actions| - 1])
  }

  /** Nobody acts on having read no session for a booking that has one and was not confirmed. */
  ghost predicate NothingReadTooEarly(w: World) {
    forall b | 0 <= b < |w.db.bookings| && Read(b, None) in w.known && w.db.bookings[b].session.Some? ::
      WasConfirmed(w.db.bookings[b].status)
  }

  lemma InTimeReadsNothingEarly(w: World, action: Action)
    requires KnowledgeOk(w) && NothingReadTooEarly(w) && AttachesInTime(w, action)
    ensures NothingReadTooEarly(Step(w, action))
  {
    var next := Step(w, action);
    if action.Transact? && !InvolvesSession(action.op) {
      TransactLeaves(w.db, action.op);
    }
    forall b | 0 <= b < |next.db.bookings| && Read(b, None) in next.known && next.db.bookings[b].session.Some?
      ensures WasConfirmed(next.db.bookings[b].status)
    {
      if Read(b, None) in w.known {
        assert MessageOk(w, Read(b, None));
        assert action.Transact? && !InvolvesSession(action.op) ==>
            BookingStep(w.db.bookings[b], next.db.bookings[b]);
      }
    }
  }

  lemma {:induction false} RunsReadNothingEarly(actions: seq<Action>)
    requires AlwaysAttachesInTime(actions)
    ensures NothingReadTooEarly(WorldAfter(actions))
  {
    if actions != [] {
      var init := actions[..|actions| - 1];
      RunsReadNothingEarly(init);
      EveryWorldIsOk(init);
      InTimeReadsNothingEarly(WorldAfter(init), actions[|actions| - 1]);
    }
  }

  /**
   * In every run that attaches sessions only to bookings still PENDING_PAYMENT, a booking that is
   * EXPIRED with a session was closed unpaid at the provider: the session expired, or it completed
   * without being paid, whatever became of it later.
   */
  lemma ExpiredOnlyUnpaid(actions: seq<Action>, b: RowId)
    requires AlwaysAttachesInTime(actions) && b < |WorldAfter(actions).db.bookings|
    requires WorldAfter(actions).db.bookings[b].status == Expired
    requires WorldAfter(actions).db.bookings[b].session.Some?
    ensures
      var w := WorldAfter(actions);
      var s := w.db.bookings[b].session.value;
      && s < |w.sessions| && w.sessions[s].owner == b
      && w.sessions[s].state in {Closed, CompletedUnpaid, PaidLate}
  {
    EveryWorldIsOk(actions);
    RunsReadNothingEarly(actions);
    ExpiredMeansUnpaid(WorldAfter(actions), b, WorldAfter(actions).db.bookings[b].session.value);
  }

  /** What may happen to an expiring booking in one step. */
  ghost predicate StaysOrIsDecided(w: World, action: Action, b: RowId)
    requires b < |w.db.bookings|
  {
    var next := Step(w, action);
    && b < |next.db.bookings|
    && next.db.bookings[b].status in {Expiring, Confirmed, Expired}
    && (next.db.bookings[b].status == Confirmed ==> PaidFor(w, b))
    && (next.db.bookings[b].status == Expired ==>
          && action.Decide? && action.message in w.known && action.message.booking == b
          && (action.message == Read(b, None)
              || (action.message.Answer? && action.message.answer != CompleteAndPaid)))
  }

  /** Some session opened for this booking was paid. */
  ghost predicate PaidFor(w: World, b: RowId) {
    exists s: SessionId :: s < |w.sessions| && w.sessions[s].owner == b && WasPaid(w.sessions[s].state)
  }

  lemma ConfirmTouchesOne(db: Db, b: RowId, c: RowId, s: SessionId, amount: Cents, charge: Option<ChargeId>)
    requires c < |db.bookings|
    ensures c < |Apply(db, ConfirmOp(b, s, amount, charge)).bookings|
    ensures b != c ==> Apply(db, ConfirmOp(b, s, amount, charge)).bookings[c] == db.bookings[c]
    ensures Apply(db, ConfirmOp(b, s, amount, charge)).bookings[c].status in {db.bookings[c].status, Confirmed}
  {
  }

  lemma ExpiringTransact(w: World, op: Op, b: RowId)
    requires b < |w.db.bookings| && w.db.bookings[b].status == Expiring
    ensures StaysOrIsDecided(w, Transact(op), b)
  {
    if !InvolvesSession(op) {
      TransactLeaves(w.db, op);
      assert BookingStep(w.db.bookings[b], Apply(w.db, op).bookings[b]);
    }
  }

  lemma ExpiringDecide(w: World, message: Message, amount: Cents, charge: Option<ChargeId>, b: RowId)
    requires KnowledgeOk(w) && b < |w.db.bookings| && w.db.bookings[b].status == Expiring
    ensures StaysOrIsDecided(w, Decide(message, amount, charge), b)
  {
    if message in w.known && message.Answer? {
      assert MessageOk(w, message) && MessageOk(w, Read(message.booking, Some(message.session)));
      ConfirmTouchesOne(w.db, message.booking, b, message.session, amount, charge);
    }
  }

  lemma ExpiringStep(w: World, action: Action, b: RowId)
    requires KnowledgeOk(w) && b < |w.db.bookings| && w.db.bookings[b].status == Expiring
    ensures StaysOrIsDecided(w, action, b)
  {
    match action
    case Transact(op) => ExpiringTransact(w, op, b);
    case PaidWebhook(s, amount, charge) =>
      if s < |w.sessions| {
        ResolvesToOwner(w, s);
        ConfirmTouchesOne(w.db, w.sessions[s].owner, b, s, amount, charge);
      }
    case Decide(message, amount, charge) => ExpiringDecide(w, message, amount, charge, b);
    case _ =>
  }

  /**
   * Until somebody decides, an expiring booking goes on occupying its employee: in every run the
   * only steps that move it are a confirmation, for a session of its own that was paid, and a
   * decision made from an answer that says its session was not paid, or from a read that found no
   * session at all.
   */
  lemma {:induction false} BlockedUntilDecided(actions: seq<Action>, action: Action, b: RowId)
    requires b < |WorldAfter(actions).db.bookings| && WorldAfter(actions).db.bookings[b].status == Expiring
    ensures StaysOrIsDecided(WorldAfter(actions), action, b)
  {
    EveryWorldIsOk(actions);
    ExpiringStep(WorldAfter(actions), action, b);
  }

  /** One undisturbed round of phase two. */
  function Round(b: RowId, s: SessionId, state: SessionState, amount: Cents, charge: Option<ChargeId>): seq<Action> {
    [ReadBooking(b), AskProvider(b, s), Decide(Answer(b, s, AnswerOf(state)), amount, charge)]
  }

  /** An answer is about a session of the booking, the one attached unless it was confirmed since. */
  lemma AnswersAreAboutItsOwn(w: World, b: RowId, s: SessionId, answer: ExpireAnswer)
    requires KnowledgeOk(w) && Answer(b, s, answer) in w.known
    ensures s < |w.sessions| && w.sessions[s].owner == b && Confirms(w.sessions[s].state, answer)
    ensures b < |w.db.bookings|
    ensures w.db.bookings[b].session == Some(s) || WasConfirmed(w.db.bookings[b].status)
  {
    assert MessageOk(w, Answer(b, s, answer)) && MessageOk(w, Read(b, Some(s)));
  }

  /** Some step lets the booking go. */
  ghost predicate CanExpire(w: World, b: RowId) {
    exists action :: b < |Step(w, action).db.bookings| && Step(w, action).db.bookings[b].status == Expired
  }

  lemma ReleasesAtOnce(w: World, b: RowId, message: Message)
    requires b < |w.db.bookings| && w.db.bookings[b].status == Expiring && message in w.known
    requires message == Read(b, None)
             || (message.Answer? && message.booking == b && message.answer != CompleteAndPaid)
    ensures CanExpire(w, b)
  {
    assert Step(w, Decide(message, 0, None)).db.bookings[b].status == Expired;
  }

  lemma CanExpireIffMayRelease(w: World, b: RowId)
    requires KnowledgeOk(w) && b < |w.db.bookings| && w.db.bookings[b].status == Expiring
    ensures CanExpire(w, b) <==> MayRelease(w, b)
  {
    if CanExpire(w, b) {
      var action :| b < |Step(w, action).db.bookings| && Step(w, action).db.bookings[b].status == Expired;
      ExpiringStep(w, action, b);
      assert action.message in w.known;
    }
    if Read(b, None) in w.known {
      ReleasesAtOnce(w, b, Read(b, None));
    }
    forall s: SessionId, answer | Answer(b, s, answer) in w.known && answer != CompleteAndPaid ensures CanExpire(w, b) {
      ReleasesAtOnce(w, b, Answer(b, s, answer));
    }
  }

  /**
   * In every reachable state, an expiring booking whose own attached session was paid can lose its
   * appointment if and only if some worker read it without a session, or was told that the session
   * completed unpaid.
   */
  lemma PaidSessionIsLostIff(actions: seq<Action>, b: RowId, s: SessionId)
    requires
      var w := WorldAfter(actions);
      && b < |w.db.bookings| && w.db.bookings[b].status == Expiring && w.db.bookings[b].session == Some(s)
      && s < |w.sessions| && WasPaid(w.sessions[s].state)
    ensures
      var w := WorldAfter(actions);
      CanExpire(w, b) <==> Read(b, None) in w.known || Answer(b, s, CompleteUnpaid) in w.known
  {
    var w := WorldAfter(actions);
    EveryWorldIsOk(actions);
    CanExpireIffMayRelease(w, b);
    forall other: SessionId, answer | Answer(b, other, answer) in w.known && answer != CompleteAndPaid
      ensures other == s && answer == CompleteUnpaid
    {
      AnswersAreAboutItsOwn(w, b, other, answer);
    }
  }

  /** And one that has no session attached, paid for or not, if and only if some worker read just that. */
  lemma UnattachedIsLostIff(actions: seq<Action>, b: RowId)
    requires
      var w := WorldAfter(actions);
      b < |w.db.bookings| && w.db.bookings[b].status == Expiring && w.db.bookings[b].session == None
    ensures CanExpire(WorldAfter(actions), b) <==> Read(b, None) in WorldAfter(actions).known
  {
    var w := WorldAfter(actions);
    EveryWorldIsOk(actions);
    CanExpireIffMayRelease(w, b);
    forall other: SessionId, answer ensures Answer(b, other, answer) !in w.known {
      if Answer(b, other, answer) in w.known {
        AnswersAreAboutItsOwn(w, b, other, answer);
      }
    }
  }

  // ── when attaching is in time ────────────────────────────────────────────────────────────

  /** The session was paid in time, and its booking expired. */
  predicate PaidAndExpired(w: World, b: RowId, s: SessionId) {
    && b < |w.db.bookings| && s < |w.sessions|
    && w.sessions[s].state == Paid && w.db.bookings[b].status == Expired
  }

  predicate LosesPayment(w: World, more: seq<Action>, b: RowId, s: SessionId) {
    PaidAndExpired(WorldFrom(w, more), b, s)
  }

  /** The booking did not expire, and no worker holds a read of it without a session that it could still act on. */
  predicate IsInTime(w: World, b: RowId)
    requires b < |w.db.bookings|
  {
    && w.db.bookings[b].status != Expired
    && (w.db.bookings[b].status == Expiring ==> Read(b, None) !in w.known)
  }

  /** Out of reach of a release without an answer about this session. */
  predicate IsProtected(w: World, b: RowId, s: SessionId) {
    && b < |w.db.bookings| && s < |w.sessions|
    && (|| WasConfirmed(w.db.bookings[b].status)
        || w.db.bookings[b].status == PaymentFailed
        || (w.db.bookings[b].session == Some(s) && Read(b, None) !in w.known))
  }

  lemma ProtectedStays(w: World, action: Action, b: RowId, s: SessionId)
    requires KnowledgeOk(w) && IsProtected(w, b, s)
    ensures IsProtected(Step(w, action), b, s)
  {
    match action
    case Transact(op) =>
      if !InvolvesSession(op) {
        TransactLeaves(w.db, op);
        assert BookingStep(w.db.bookings[b], Apply(w.db, op).bookings[b]);
      }
    case _ =>
  }

  lemma {:induction false} ProtectedForGood(w: World, more: seq<Action>, b: RowId, s: SessionId)
    requires KnowledgeOk(w) && IsProtected(w, b, s)
    ensures IsProtected(WorldFrom(w, more), b, s) && !PaidAndExpired(WorldFrom(w, more), b, s)
  {
    WorldsStayOk(w, more);
    if more != [] {
      var init := more[..|more| - 1];
      WorldsStayOk(w, init);
      ProtectedForGood(w, init, b, s);
      ProtectedStays(WorldFrom(w, init), more[|more| - 1], b, s);
    }
    var later := WorldFrom(w, more);
    if later.db.bookings[b].status == Expired {
      ExpiredMeansUnpaid(later, b, s);
    }
  }

  /** What attaching writes when it writes anything. */
  lemma AttachWrites(w: World, s: SessionId)
    requires s < |w.sessions| && w.sessions[s].owner < |w.db.bookings|
    requires Step(w, AttachSession(s)) != w
    ensures
      var b := w.sessions[s].owner;
      var after := Step(w, AttachSession(s));
      && after == w.(db := after.db) && b < |after.db.bookings|
      && after.db.bookings[b] == w.db.bookings[b].(session := Some(s))
  {
  }

  lemma UnprotectedIsLost(w: World, b: RowId, s: SessionId)
    requires b < |w.db.bookings| && s < |w.sessions| && w.sessions[s].state == Open
    requires w.db.bookings[b].status == Expired
             || (w.db.bookings[b].status == Expiring && Read(b, None) in w.known)
    ensures LosesPayment(w, [Pay(s), Decide(Read(b, None), 0, None)], b, s)
  {
    TwoSteps(w, Pay(s), Decide(Read(b, None), 0, None));
    var paid := Step(w, Pay(s));
    assert paid == w.(sessions := paid.sessions) && paid.sessions[s].state == Paid;
  }

  lemma TwoSteps(w: World, first: Action, second: Action)
    ensures WorldFrom(w, [first, second]) == Step(Step(w, first), second)
  {
    assert [first, second][..1] == [first] && [first][..0] == [];
    assert WorldFrom(w, [first]) == Step(w, first);
  }

  lemma SafeIffInTime(w: World, b: RowId, s: SessionId)
    requires KnowledgeOk(w) && b < |w.db.bookings| && s < |w.sessions|
    requires w.db.bookings[b].session == Some(s) && w.sessions[s].state == Open
    requires Read(b, None) in w.known ==> w.db.bookings[b].status != PendingPayment
    ensures (forall more :: !LosesPayment(w, more, b, s)) <==> IsInTime(w, b)
  {
    if IsInTime(w, b) {
      assert IsProtected(w, b, s);
      forall more ensures !LosesPayment(w, more, b, s) {
        ProtectedForGood(w, more, b, s);
      }
    } else {
      UnprotectedIsLost(w, b, s);
    }
  }

  /**
   * Attaching a session in a reachable state can lose a payment made in time, in some future, if
   * and only if the booking expired already or some worker holds a read of it without a session.
   * Neither is so while the booking is PENDING_PAYMENT.
   */
  lemma AttachingIsSafeIffInTime(actions: seq<Action>, s: SessionId)
    requires
      var w := WorldAfter(actions);
      && s < |w.sessions| && w.sessions[s].state == Open
      && w.sessions[s].owner < |w.db.bookings| && w.db.bookings[w.sessions[s].owner].session == None
      && Step(w, AttachSession(s)) != w
    ensures
      var w := WorldAfter(actions);
      var b := w.sessions[s].owner;
      var after := Step(w, AttachSession(s));
      && ((forall more :: !LosesPayment(after, more, b, s)) <==> IsInTime(w, b))
      && (w.db.bookings[b].status == PendingPayment ==> IsInTime(w, b))
  {
    var w := WorldAfter(actions);
    var b := w.sessions[s].owner;
    EveryWorldIsOk(actions);
    StepKeeps(w, AttachSession(s));
    AttachWrites(w, s);
    assert Read(b, None) in w.known ==> MessageOk(w, Read(b, None));
    SafeIffInTime(Step(w, AttachSession(s)), b, s);
  }

  lemma GivesUpUnpaid(w: World, b: RowId, s: SessionId)
    requires b < |w.db.bookings| && w.db.bookings[b].status == Expiring
    requires Answer(b, s, CompleteUnpaid) in w.known
    ensures
      var next := Step(w, Decide(Answer(b, s, CompleteUnpaid), 0, None));
      && next.sessions == w.sessions
      && b < |next.db.bookings| && next.db.bookings[b].status == Expired
  {
  }

  /** Letting a booking go because its session completed unpaid is never final: it can still be paid. */
  lemma UnpaidIsNeverFinal(w: World, b: RowId, s: SessionId)
    requires KnowledgeOk(w) && b < |w.db.bookings| && w.db.bookings[b].status == Expiring
    requires Answer(b, s, CompleteUnpaid) in w.known
    ensures
      var later := WorldFrom(w, [Decide(Answer(b, s, CompleteUnpaid), 0, None), SettleLate(s)]);
      && b < |later.db.bookings| && later.db.bookings[b].status == Expired
      && s < |later.sessions| && later.sessions[s].owner == b && WasPaid(later.sessions[s].state)
  {
    var first := Decide(Answer(b, s, CompleteUnpaid), 0, None);
    AnswersAreAboutItsOwn(w, b, s, CompleteUnpaid);
    GivesUpUnpaid(w, b, s);
    TwoSteps(w, first, SettleLate(s));
  }

  // ── deciding ─────────────────────────────────────────────────────────────────────────────

  /** What the decision does to an expiring booking whose session is its own. */
  lemma DecisionMoves(db: Db, b: RowId, s: SessionId, answer: ExpireAnswer, amount: Cents, charge: Option<ChargeId>)
    requires b < |db.bookings| && db.bookings[b].status == Expiring && !SessionTaken(db.bookings, b, s)
    requires amount > 0 && (charge.Some? ==> !ChargeTaken(db.payments, s, charge.value))
    ensures
      var next := Apply(db, DecideOp(Answer(b, s, answer), amount, charge).value);
      b < |next.bookings| && next.bookings[b].status == if answer == CompleteAndPaid then Confirmed else Expired
  {
  }

  /** Reading and asking change nothing but what is known. */
  lemma AskedInTurn(w: World, b: RowId, s: SessionId)
    requires b < |w.db.bookings| && w.db.bookings[b].status == Expiring && w.db.bookings[b].session == Some(s)
    requires s < |w.sessions|
    ensures
      var asked := Step(Step(w, ReadBooking(b)), AskProvider(b, s));
      asked.db == w.db && Answer(b, s, AnswerOf(w.sessions[s].state)) in asked.known
  {
    var read := Step(w, ReadBooking(b));
    assert read == w.(known := w.known + {Read(b, Some(s))});
  }

  lemma RoundSettles(w: World, b: RowId, s: SessionId, amount: Cents, charge: Option<ChargeId>)
    requires b < |w.db.bookings| && w.db.bookings[b].status == Expiring && w.db.bookings[b].session == Some(s)
    requires s < |w.sessions| && !SessionTaken(w.db.bookings, b, s)
    requires amount > 0 && (charge.Some? ==> !ChargeTaken(w.db.payments, s, charge.value))
    ensures
      var answer := AnswerOf(w.sessions[s].state);
      var asked := Step(Step(w, ReadBooking(b)), AskProvider(b, s));
      var done := Step(asked, Decide(Answer(b, s, answer), amount, charge));
      && b < |done.db.bookings|
      && done.db.bookings[b].status == if WasPaid(w.sessions[s].state) then Confirmed else Expired
  {
    AskedInTurn(w, b, s);
    DecisionMoves(w.db, b, s, AnswerOf(w.sessions[s].state), amount, charge);
  }

  /**
   * And somebody can always decide: from every reachable state one undisturbed round settles an
   * expiring booking, confirming it exactly when its session was paid.
   */
  lemma RoundDecides(actions: seq<Action>, b: RowId, s: SessionId, amount: Cents, charge: Option<ChargeId>)
    requires
      var w := WorldAfter(actions);
      && b < |w.db.bookings| && w.db.bookings[b].status == Expiring && w.db.bookings[b].session == Some(s)
      && s < |w.sessions|
      && amount > 0 && (charge.Some? ==> !ChargeTaken(w.db.payments, s, charge.value))
    ensures
      var w := WorldAfter(actions);
      var done := WorldFrom(w, Round(b, s, w.sessions[s].state, amount, charge));
      && b < |done.db.bookings|
      && done.db.bookings[b].status == if WasPaid(w.sessions[s].state) then Confirmed else Expired
  {
    EveryWorldIsOk(actions);
    OnlyOwnerHoldsSession(WorldAfter(actions), b, s);
    RoundSettles(WorldAfter(actions), b, s, amount, charge);
    var answer := AnswerOf(WorldAfter(actions).sessions[s].state);
    ThreeSteps(WorldAfter(actions), ReadBooking(b), AskProvider(b, s), Decide(Answer(b, s, answer), amount, charge));
  }

  lemma OnlyOwnerHoldsSession(w: World, b: RowId, s: SessionId)
    requires KnowledgeOk(w) && b < |w.db.bookings| && w.db.bookings[b].session == Some(s)
    ensures !SessionTaken(w.db.bookings, b, s)
  {
    forall c: nat | c < |w.db.bookings| && w.db.bookings[c].session == Some(s) ensures c == b {
      assert BookingOk(w, c) && BookingOk(w, b);
    }
  }

  lemma ThreeSteps(w: World, first: Action, second: Action, third: Action)
    ensures WorldFrom(w, [first, second, third]) == Step(Step(Step(w, first), second), third)
  {
    assert [first, second, third][..2] == [first, second];
    assert [first, second][..1] == [first];
    assert [first][..0] == [];
    assert WorldFrom(w, [first]) == Step(w, first);
  }
}
