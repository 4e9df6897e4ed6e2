/**
 * The refund ledger against the payment provider: any number of workers executing refunds, lost
 * answers and retries, and webhooks that arrive late, twice or out of order.
 */
module RefundWorld {
  import opened Outcomes
  import opened Records
  import opened Refunds
  import opened Operations
  import opened BookingStatuses
  import opened Sums
  import B = Bookings
  import C = Cancellations

  /** The provider's own record of a refund; its position is its id. One issued by hand has no key. */
  datatype ProviderRefund = ProviderRefund(
    key: Option<IdempotencyKey>, charge: ChargeId, amount: Cents, status: RefundStatus)

  /** What is on its way between the workers and the provider. */
  datatype Message =
    | Call(refund: RowId, key: IdempotencyKey, charge: ChargeId, amount: Cents)
    | Answer(refund: RowId, id: ProviderRefundId, status: RefundStatus)
    | Refusal(refund: RowId)
    | NoCharge(refund: RowId)
    | Webhook(id: ProviderRefundId, handle: Option<IdempotencyKey>, status: RefundStatus)

  /**
   * The database, the provider, and every message ever sent. A message is never taken off the
   * wire: it may be delivered late, again, out of order, or never.
   */
  datatype World = World(
    db: Db, provider: seq<ProviderRefund>, rejected: set<IdempotencyKey>, wire: set<Message>)

  datatype Action =
    | Transact(op: Op)
      /** A worker reads the refund it is about to execute. */
    | ReadRefund(refund: RowId)
      /** The provider takes a call: a key it knows is answered again, a new one decided once. */
    | TakeCall(call: Message, accept: bool, status: RefundStatus)
      /** A refund leaves `pending` at the provider. */
    | Progress(id: ProviderRefundId, status: RefundStatus)
      /** The provider sends a webhook, with or without the key it was given. */
    | Notify(id: ProviderRefundId, keyed: bool, status: RefundStatus)
      /** Somebody refunds in the provider's own dashboard. */
    | IssueByHand(charge: ChargeId, amount: Cents)
      /** A message reaches the settlement. */
    | Deliver(message: Message)
      /**
       * A worker whose call is out meets an error that is not known to be transient, be it from the
       * provider or from settling the provider's answer, and records the refund as failed.
       */
    | GiveUp(call: Message)

  /** What a message may say of a refund: where it stands, or that it was pending once. */
  predicate MayReport(current: RefundStatus, said: RefundStatus) {
    said == current || said == RefundStatus.Pending
  }

  function FindKey(provider: seq<ProviderRefund>, key: IdempotencyKey): (found: Option<ProviderRefundId>)
    ensures found.Some? ==> found.value < |provider| && provider[found.value].key == Some(key)
    ensures found.None? ==> forall i | 0 <= i < |provider| :: provider[i].key != Some(key)
  {
    if provider == [] then None
    else
      var last := |provider| - 1;
      match FindKey(provider[..last], key)
      case Some(i) => Some(i)
      case None => if provider[last].key == Some(key) then Some(last) else None
  }

  function ReadStep(w: World, refund: RowId): World {
    if refund >= |w.db.refunds| || w.db.refunds[refund].status != RefundStatus.Pending then w
    else
      var row := w.db.refunds[refund];
      if row.payment >= |w.db.payments| then w
      else
        match w.db.payments[row.payment].charge
        case None => w.(wire := w.wire + {NoCharge(refund)})
        case Some(charge) => w.(wire := w.wire + {Call(refund, row.key, charge, row.amount)})
  }

  function TakeStep(w: World, call: Message, accept: bool, status: RefundStatus): World {
    if call !in w.wire || !call.Call? then w
    else
      match FindKey(w.provider, call.key)
      case Some(id) =>
        if MayReport(w.provider[id].status, status) then
          w.(wire := w.wire + {Answer(call.refund, id, status)})
        else w
      case None =>
        if call.key in w.rejected || !accept then
          w.(rejected := w.rejected + {call.key}, wire := w.wire + {Refusal(call.refund)})
        else
          w.(provider := w.provider + [ProviderRefund(Some(call.key), call.charge, call.amount, status)],
             wire := w.wire + {Answer(call.refund, |w.provider|, status)})
  }

  function ProgressStep(w: World, id: ProviderRefundId, status: RefundStatus): World {
    if id >= |w.provider| || w.provider[id].status != RefundStatus.Pending then w
    else w.(provider := w.provider[id := w.provider[id].(status := status)])
  }

  function NotifyStep(w: World, id: ProviderRefundId, keyed: bool, status: RefundStatus): World {
    if id >= |w.provider| || !MayReport(w.provider[id].status, status) then w
    else w.(wire := w.wire + {Webhook(id, if keyed then w.provider[id].key else None, status)})
  }

  /** The settlement a delivered message leads to. */
  function Delivered(db: Db, message: Message): Db {
    match message
    case Answer(r, id, status) => After(db, Settle(db, r, status, Some(id)))
    case Refusal(r) => After(db, Settle(db, r, RefundStatus.Failed, None))
    case NoCharge(r) => After(db, Settle(db, r, RefundStatus.Failed, None))
    case Webhook(id, handle, status) => After(db, ProviderUpdate(db, id, handle, status))
    case Call(_, _, _, _) => db
  }

  /** Settlements come from messages here, so the bare ones are not transactions of their own. */
  predicate IsSettlement(op: Op) {
    op.SettleOp? || op.UpdateOp?
  }

  function Step(w: World, action: Action): World {
    match action
    case Transact(op) => if IsSettlement(op) then w else w.(db := Apply(w.db, op))
    case ReadRefund(r) => ReadStep(w, r)
    case TakeCall(call, accept, status) => TakeStep(w, call, accept, status)
    case Progress(id, status) => ProgressStep(w, id, status)
    case Notify(id, keyed, status) => NotifyStep(w, id, keyed, status)
    case IssueByHand(charge, amount) =>
      w.(provider := w.provider + [ProviderRefund(None, charge, amount, RefundStatus.Pending)])
    case Deliver(message) => if message in w.wire then w.(db := Delivered(w.db, message)) else w
    case GiveUp(call) => GiveUpStep(w, call)
  }

  function GiveUpStep(w: World, call: Message): World {
    if call in w.wire && call.Call? then w.(db := After(w.db, Settle(w.db, call.refund, RefundStatus.Failed, None)))
    else w
  }

  const NOTHING := World(EMPTY, [], {}, {})

  function WorldFrom(w: World, actions: seq<Action>): World {
    if actions == [] then w else Step(WorldFrom(w, actions[..|actions| - 1]), actions[|actions| - 1])
  }

  function WorldAfter(actions: seq<Action>): World {
    WorldFrom(NOTHING, actions)
  }

  // ── the invariant ────────────────────────────────────────────────────────────────────────

  /** Money that went back, or still may. */
  predicate Live(status: RefundStatus) {
    status == RefundStatus.Pending || status == RefundStatus.Succeeded
  }

  function ChargeOf(db: Db, r: RowId): Option<ChargeId> {
    if r < |db.refunds| && db.refunds[r].payment < |db.payments| then db.payments[db.refunds[r].payment].charge
    else None
  }

  /** This provider refund was made for this row. */
  predicate Owns(w: World, r: RowId, id: ProviderRefundId) {
    && r < |w.db.refunds| && id < |w.provider|
    && w.provider[id].key == Some(w.db.refunds[r].key)
    && w.provider[id].amount == w.db.refunds[r].amount
    && ChargeOf(w.db, r) == Some(w.provider[id].charge)
  }

  /** No money went back for this row and none ever will. */
  ghost predicate Dead(w: World, r: RowId)
    requires r < |w.db.refunds|
  {
    || w.db.refunds[r].key in w.rejected
    || ChargeOf(w.db, r) == None
    || exists id: nat :: Owns(w, r, id) && !Live(w.provider[id].status)
  }

  ghost predicate MessageOk(w: World, m: Message) {
    match m
    case Call(r, key, charge, amount) =>
      && r < |w.db.refunds| && w.db.refunds[r].key == key && w.db.refunds[r].amount == amount
      && ChargeOf(w.db, r) == Some(charge)
    case Answer(r, id, status) => Owns(w, r, id) && MayReport(w.provider[id].status, status)
    case Refusal(r) => r < |w.db.refunds| && w.db.refunds[r].key in w.rejected
    case NoCharge(r) => r < |w.db.refunds| && ChargeOf(w.db, r) == None
    case Webhook(id, handle, status) =>
      && id < |w.provider| && MayReport(w.provider[id].status, status)
      && (handle.Some? ==> w.provider[id].key == handle)
  }

  ghost predicate RowOk(w: World, r: RowId)
    requires r < |w.db.refunds|
  {
    var row := w.db.refunds[r];
    && (row.providerId.Some? ==> Owns(w, r, row.providerId.value))
    && (row.status == RefundStatus.Succeeded ==>
          exists id: nat :: Owns(w, r, id) && w.provider[id].status == RefundStatus.Succeeded)
  }

  /** What is recorded as failed has failed, these rows aside: nothing comes of it at the provider any more. */
  ghost predicate SoundBut(w: World, except: set<RowId>) {
    forall r | 0 <= r < |w.db.refunds| && !Live(w.db.refunds[r].status) && r !in except :: Dead(w, r)
  }

  ghost predicate Sound(w: World) {
    SoundBut(w, {})
  }

  ghost predicate ProviderOk(w: World) {
    && (forall id | 0 <= id < |w.provider| && w.provider[id].key.Some? ::
          && w.provider[id].key.value !in w.rejected
          && exists r: nat :: Owns(w, r, id))
    && (forall i, j | 0 <= i < j < |w.provider| :: w.provider[i].key.Some? ==> w.provider[i].key != w.provider[j].key)
  }

  ghost predicate WorldInv(w: World) {
    && Inv(w.db)
    && ProviderOk(w)
    && (forall m | m in w.wire :: MessageOk(w, m))
    && (forall r | 0 <= r < |w.db.refunds| :: RowOk(w, r))
  }

  // ── what one step may do to what is already there ────────────────────────────────────────

  predicate SameRefund(db: Db, next: Db, r: RowId)
    requires r < |db.refunds|
  {
    && r < |next.refunds|
    && next.refunds[r].key == db.refunds[r].key
    && next.refunds[r].amount == db.refunds[r].amount
    && next.refunds[r].payment == db.refunds[r].payment
    && ChargeOf(next, r) == ChargeOf(db, r)
  }

  ghost predicate Grows(db: Db, next: Db) {
    forall r | 0 <= r < |db.refunds| :: SameRefund(db, next, r)
  }

  predicate SameAtProvider(was: ProviderRefund, now: ProviderRefund) {
    && now == was.(status := now.status)
    && (was.status != RefundStatus.Pending ==> now.status == was.status)
  }

  ghost predicate Extends(w: World, next: World) {
    && Grows(w.db, next.db)
    && |w.provider| <= |next.provider|
    && (forall id | 0 <= id < |w.provider| :: SameAtProvider(w.provider[id], next.provider[id]))
    && w.rejected <= next.rejected
  }

  lemma OwnsStays(w: World, next: World, r: RowId, id: ProviderRefundId)
    requires Extends(w, next) && Owns(w, r, id)
    ensures Owns(next, r, id)
  {
    assert SameRefund(w.db, next.db, r);
    assert SameAtProvider(w.provider[id], next.provider[id]);
  }

  lemma DeadStays(w: World, next: World, r: RowId)
    requires Extends(w, next) && r < |w.db.refunds| && Dead(w, r)
    ensures r < |next.db.refunds| && Dead(next, r)
  {
    assert SameRefund(w.db, next.db, r);
    if id: nat :| Owns(w, r, id) && !Live(w.provider[id].status) {
      OwnsStays(w, next, r, id);
      assert SameAtProvider(w.provider[id], next.provider[id]);
    }
  }

  lemma MessageStays(w: World, next: World, m: Message)
    requires Extends(w, next) && MessageOk(w, m)
    ensures MessageOk(next, m)
  {
    match m
    case Call(r, _, _, _) => assert SameRefund(w.db, next.db, r);
    case Answer(r, id, _) =>
      OwnsStays(w, next, r, id);
      assert SameAtProvider(w.provider[id], next.provider[id]);
    case Refusal(r) => assert SameRefund(w.db, next.db, r);
    case NoCharge(r) => assert SameRefund(w.db, next.db, r);
    case Webhook(id, _, _) => assert SameAtProvider(w.provider[id], next.provider[id]);
  }

  /** A row whose own columns did not move stays right. */
  lemma RowStays(w: World, next: World, r: RowId)
    requires Extends(w, next) && r < |w.db.refunds| && RowOk(w, r)
    requires r < |next.db.refunds|
    requires next.db.refunds[r].status == w.db.refunds[r].status
    requires next.db.refunds[r].providerId == w.db.refunds[r].providerId
    ensures RowOk(next, r)
  {
    var row := w.db.refunds[r];
    if row.providerId.Some? {
      OwnsStays(w, next, r, row.providerId.value);
    }
    if row.status == RefundStatus.Succeeded {
      var id: nat :| Owns(w, r, id) && w.provider[id].status == RefundStatus.Succeeded;
      OwnsStays(w, next, r, id);
      assert SameAtProvider(w.provider[id], next.provider[id]);
    }
  }

  /** The row a provider refund was made for is the only one with its key. */
  lemma OwnerIsUnique(w: World, r: RowId, other: RowId, id: ProviderRefundId)
    requires Inv(w.db) && Owns(w, r, id) && other < |w.db.refunds|
    requires w.provider[id].key == Some(w.db.refunds[other].key)
    ensures other == r
  {
    assert RefundRowsOk(w.db.refunds, |w.db.payments|);
  }

  // ── the booking transactions ─────────────────────────────────────────────────────────────

  /** What the booking transactions do to refunds: they only add pending ones. */
  ghost predicate OnlyReserves(db: Db, next: Db) {
    && Grows(db, next)
    && |db.refunds| <= |next.refunds|
    && (forall r | 0 <= r < |db.refunds| :: next.refunds[r] == db.refunds[r])
    && (forall r | |db.refunds| <= r < |next.refunds| ::
          next.refunds[r].status == RefundStatus.Pending && next.refunds[r].providerId == None)
  }

  lemma SameTablesReserve(db: Db, next: Db)
    requires next.refunds == db.refunds && |next.payments| >= |db.payments|
    requires forall p | 0 <= p < |db.payments| :: next.payments[p].charge == db.payments[p].charge
    requires RefundRowsOk(db.refunds, |db.payments|)
    ensures OnlyReserves(db, next)
  {
  }

  lemma ReserveOnlyReserves(db: Db, b: RowId, amount: RefundAmount, lenient: bool, key: IdempotencyKey)
    requires RefundRowsOk(db.refunds, |db.payments|)
    ensures OnlyReserves(db, After(db, Reserve(db, b, amount, lenient, key)))
  {
  }

  lemma ConfirmOnlyReserves(db: Db, b: RowId, session: SessionId, amount: Cents, charge: Option<ChargeId>)
    requires Inv(db)
    ensures OnlyReserves(db, After(db, B.Confirm(db, b, session, amount, charge)))
  {
    var next := After(db, B.Confirm(db, b, session, amount, charge));
    if next != db {
      ConfirmedSessionIsFresh(db, b, session);
      forall r | 0 <= r < |db.refunds| ensures SameRefund(db, next, r) {
        assert BooksBalance(db, db.refunds[r].payment);
      }
    }
  }

  lemma CancelOnlyReserves(
    db: Db, b: RowId, to: BookingStatus, amount: Option<RefundAmount>, lenient: bool,
    mayRefund: bool, key: IdempotencyKey)
    requires RefundRowsOk(db.refunds, |db.payments|)
    ensures OnlyReserves(db, After(db, C.Cancel(db, b, to, amount, lenient, mayRefund, key)))
  {
    if C.Cancel(db, b, to, amount, lenient, mayRefund, key).Commit? {
      var moved := B.MoveTo(db, b, db.bookings[b].(status := to));
      if amount.Some? {
        ReserveOnlyReserves(moved, b, amount.value, lenient, key);
      }
    }
  }

  lemma ApproveOnlyReserves(
    db: Db, b: RowId, suggested: Cents, retained: Option<Cents>, mayRefund: bool, key: IdempotencyKey)
    requires RefundRowsOk(db.refunds, |db.payments|)
    ensures OnlyReserves(db, After(db, C.ApproveCancellation(db, b, suggested, retained, mayRefund, key)))
  {
    var amount := ApprovalIsCancel(db, b, suggested, retained, mayRefund, key);
    CancelOnlyReserves(db, b, CanceledByCustomer, Some(amount), true, mayRefund, key);
  }

  lemma BusinessCancelOnlyReserves(
    db: Db, b: RowId, refund: Option<Cents>, mayRefund: bool, key: IdempotencyKey)
    requires RefundRowsOk(db.refunds, |db.payments|)
    ensures OnlyReserves(db, After(db, C.CancelByBusiness(db, b, refund, mayRefund, key)))
  {
    if refund.None? {
      CancelOnlyReserves(db, b, CanceledByBusiness, None, true, mayRefund, key);
    } else {
      CancelOnlyReserves(db, b, CanceledByBusiness, Some(Additional(refund.value)), refund.value <= 0, mayRefund, key);
    }
  }

  lemma BookingOpOnlyReserves(db: Db, op: Op)
    requires Inv(db) && !MovesMoney(op)
    ensures OnlyReserves(db, Apply(db, op))
  {
    if op.ConfirmOp? {
      ConfirmOnlyReserves(db, op.booking, op.session, op.amount, op.charge);
    } else {
      BookingOpLeavesCharges(db, op);
      SameTablesReserve(db, Apply(db, op));
    }
  }

  lemma BookingOpLeavesCharges(db: Db, op: Op)
    requires !MovesMoney(op) && !op.ConfirmOp?
    ensures Apply(db, op).refunds == db.refunds && |Apply(db, op).payments| >= |db.payments|
    ensures forall p | 0 <= p < |db.payments| :: Apply(db, op).payments[p].charge == db.payments[p].charge
  {
  }

  lemma ApplyOnlyReserves(db: Db, op: Op)
    requires Inv(db) && !IsSettlement(op)
    ensures OnlyReserves(db, Apply(db, op))
  {
    match op
    case CancelOp(b, paid, key) =>
      CancelOnlyReserves(db, b, CanceledByCustomer, Some(CumulativeTarget(paid)), true, true, key);
    case ApproveOp(b, suggested, retained, may, key) => ApproveOnlyReserves(db, b, suggested, retained, may, key);
    case BusinessCancelOp(b, refund, may, key) => BusinessCancelOnlyReserves(db, b, refund, may, key);
    case RefundOp(b, amount, key) => ReserveOnlyReserves(db, b, Additional(amount), false, key);
    case CashOp(_, _) => SameTablesReserve(db, Apply(db, op));
    case _ => BookingOpOnlyReserves(db, op);
  }

  lemma TransactKeeps(w: World, op: Op)
    requires WorldInv(w)
    ensures WorldInv(Step(w, Transact(op)))
  {
    if !IsSettlement(op) {
      var next := Step(w, Transact(op));
      ApplyKeeps(w.db, op);
      ApplyOnlyReserves(w.db, op);
      forall m | m in next.wire ensures MessageOk(next, m) {
        MessageStays(w, next, m);
      }
      forall r | 0 <= r < |next.db.refunds| ensures RowOk(next, r) {
        if r < |w.db.refunds| {
          RowStays(w, next, r);
        }
      }
      ProviderStays(w, next);
    }
  }

  lemma ProviderStays(w: World, next: World)
    requires ProviderOk(w) && Extends(w, next)
    requires next.provider == w.provider && next.rejected == w.rejected
    ensures ProviderOk(next)
  {
    forall id | 0 <= id < |next.provider| && next.provider[id].key.Some?
      ensures exists r: nat :: Owns(next, r, id)
    {
      var r: nat :| Owns(w, r, id);
      OwnsStays(w, next, r, id);
    }
  }

  // ── the workers and the provider ─────────────────────────────────────────────────────────

  lemma ReadKeeps(w: World, refund: RowId)
    requires WorldInv(w)
    ensures WorldInv(Step(w, ReadRefund(refund)))
  {
    var next := ReadStep(w, refund);
    forall m | m in next.wire ensures MessageOk(next, m) {
      if m in w.wire {
        MessageStays(w, next, m);
      }
    }
    forall r | 0 <= r < |next.db.refunds| ensures RowOk(next, r) {
      RowStays(w, next, r);
    }
    ProviderStays(w, next);
  }

  lemma ProviderStepKeeps(w: World, next: World)
    requires WorldInv(w) && Extends(w, next) && next.db == w.db && ProviderOk(next)
    requires forall m | m in next.wire && m !in w.wire :: MessageOk(next, m)
    ensures WorldInv(next)
  {
    forall m | m in next.wire ensures MessageOk(next, m) {
      if m in w.wire {
        MessageStays(w, next, m);
      }
    }
    forall r | 0 <= r < |next.db.refunds| ensures RowOk(next, r) {
      RowStays(w, next, r);
    }
  }

  /** A provider that only learns of rejections, or whose refunds only move, keeps its records right. */
  lemma RecordsStay(w: World, next: World)
    requires ProviderOk(w) && Extends(w, next) && |next.provider| == |w.provider|
    requires forall id | 0 <= id < |w.provider| && w.provider[id].key.Some? ::
               w.provider[id].key.value !in next.rejected
    ensures ProviderOk(next)
  {
    assert forall id | 0 <= id < |w.provider| :: SameAtProvider(w.provider[id], next.provider[id]);
    forall id | 0 <= id < |next.provider| && next.provider[id].key.Some?
      ensures exists r: nat :: Owns(next, r, id)
    {
      var r: nat :| Owns(w, r, id);
      OwnsStays(w, next, r, id);
    }
  }

  /** A key the provider knows is answered for the same row again. */
  lemma AnswerAgainKeeps(w: World, call: Message, accept: bool, status: RefundStatus)
    requires WorldInv(w) && call in w.wire && call.Call? && FindKey(w.provider, call.key).Some?
    ensures WorldInv(TakeStep(w, call, accept, status))
  {
    var next := TakeStep(w, call, accept, status);
    var known := FindKey(w.provider, call.key).value;
    assert MessageOk(w, call);
    var r: nat :| Owns(w, r, known);
    OwnerIsUnique(w, r, call.refund, known);
    RecordsStay(w, next);
    ProviderStepKeeps(w, next);
  }

  lemma RejectKeeps(w: World, call: Message, accept: bool, status: RefundStatus)
    requires WorldInv(w) && call in w.wire && call.Call? && FindKey(w.provider, call.key).None?
    requires call.key in w.rejected || !accept
    ensures WorldInv(TakeStep(w, call, accept, status))
  {
    var next := TakeStep(w, call, accept, status);
    assert MessageOk(w, call);
    RecordsStay(w, next);
    ProviderStepKeeps(w, next);
  }

  /** Records added at the end leave the ones before them with their owners. */
  lemma OwnersStay(w: World, next: World)
    requires ProviderOk(w) && Extends(w, next)
    ensures forall id | 0 <= id < |w.provider| && w.provider[id].key.Some? :: exists r: nat :: Owns(next, r, id)
  {
    forall id | 0 <= id < |w.provider| && w.provider[id].key.Some? ensures exists r: nat :: Owns(next, r, id) {
      var r: nat :| Owns(w, r, id);
      OwnsStays(w, next, r, id);
    }
  }

  lemma AcceptKeeps(w: World, call: Message, status: RefundStatus)
    requires WorldInv(w) && call in w.wire && call.Call? && FindKey(w.provider, call.key).None?
    requires call.key !in w.rejected
    ensures WorldInv(TakeStep(w, call, true, status))
  {
    var next := TakeStep(w, call, true, status);
    assert MessageOk(w, call);
    assert Owns(next, call.refund, |w.provider|);
    OwnersStay(w, next);
    assert ProviderOk(next);
    ProviderStepKeeps(w, next);
  }

  lemma TakeKeeps(w: World, call: Message, accept: bool, status: RefundStatus)
    requires WorldInv(w)
    ensures WorldInv(Step(w, TakeCall(call, accept, status)))
  {
    if call in w.wire && call.Call? {
      if FindKey(w.provider, call.key).Some? {
        AnswerAgainKeeps(w, call, accept, status);
      } else if call.key in w.rejected || !accept {
        RejectKeeps(w, call, accept, status);
      } else {
        AcceptKeeps(w, call, status);
      }
    }
  }

  lemma ProgressKeeps(w: World, id: ProviderRefundId, status: RefundStatus)
    requires WorldInv(w)
    ensures WorldInv(Step(w, Progress(id, status)))
  {
    var next := ProgressStep(w, id, status);
    RecordsStay(w, next);
    ProviderStepKeeps(w, next);
  }

  lemma NotifyKeeps(w: World, id: ProviderRefundId, keyed: bool, status: RefundStatus)
    requires WorldInv(w)
    ensures WorldInv(Step(w, Notify(id, keyed, status)))
  {
    var next := NotifyStep(w, id, keyed, status);
    RecordsStay(w, next);
    ProviderStepKeeps(w, next);
  }

  lemma IssueByHandKeeps(w: World, charge: ChargeId, amount: Cents)
    requires WorldInv(w)
    ensures WorldInv(Step(w, IssueByHand(charge, amount)))
  {
    var next := Step(w, IssueByHand(charge, amount));
    OwnersStay(w, next);
    assert ProviderOk(next);
    ProviderStepKeeps(w, next);
  }

  // ── settlement ───────────────────────────────────────────────────────────────────────────

  lemma SettleGrows(db: Db, refund: RowId, status: RefundStatus, providerId: Option<ProviderRefundId>)
    ensures Grows(db, After(db, Settle(db, refund, status, providerId)))
  {
  }

  /** A settlement that says what the provider reported keeps the two sides together. */
  lemma SettlementKeeps(w: World, r: RowId, status: RefundStatus, providerId: Option<ProviderRefundId>)
    requires WorldInv(w) && r < |w.db.refunds|
    requires providerId.Some? ==> Owns(w, r, providerId.value)
    requires status == RefundStatus.Succeeded ==>
               providerId.Some? && w.provider[providerId.value].status == RefundStatus.Succeeded
    ensures WorldInv(w.(db := After(w.db, Settle(w.db, r, status, providerId))))
  {
    var next := w.(db := After(w.db, Settle(w.db, r, status, providerId)));
    SettleKeeps(w.db, r, status, providerId);
    SettleGrows(w.db, r, status, providerId);
    forall m | m in next.wire ensures MessageOk(next, m) {
      MessageStays(w, next, m);
    }
    ProviderStays(w, next);
    forall q | 0 <= q < |next.db.refunds| ensures RowOk(next, q) {
      if next.db.refunds[q] == w.db.refunds[q] {
        RowStays(w, next, q);
      } else {
        assert RowOk(w, r);
        if next.db.refunds[r].providerId.Some? {
          OwnsStays(w, next, r, next.db.refunds[r].providerId.value);
        }
      }
    }
  }

  lemma DeliverKeeps(w: World, message: Message)
    requires WorldInv(w)
    ensures WorldInv(Step(w, Deliver(message)))
  {
    if message in w.wire {
      assert MessageOk(w, message);
      match message
      case Answer(r, id, status) => SettlementKeeps(w, r, status, Some(id));
      case Refusal(r) => SettlementKeeps(w, r, RefundStatus.Failed, None);
      case NoCharge(r) => SettlementKeeps(w, r, RefundStatus.Failed, None);
      case Webhook(id, handle, status) =>
        var found := FindByHandle(w.db.refunds, id, handle);
        if found.Some? {
          WebhookFindsOwner(w, id, handle, found.value);
          SettlementKeeps(w, found.value, status, Some(id));
        }
      case Call(_, _, _, _) =>
    }
  }

  /** Whichever handle a webhook matches by, the row is the one the refund was made for. */
  lemma WebhookFindsOwner(w: World, id: ProviderRefundId, handle: Option<IdempotencyKey>, r: RowId)
    requires WorldInv(w) && id < |w.provider| && r < |w.db.refunds|
    requires handle.Some? ==> w.provider[id].key == handle
    requires MatchesHandle(w.db.refunds[r], id, handle)
    ensures Owns(w, r, id)
  {
    assert RowOk(w, r);
    if w.db.refunds[r].providerId != Some(id) {
      var owner: nat :| Owns(w, owner, id);
      OwnerIsUnique(w, owner, r, id);
    }
  }

  lemma GiveUpKeeps(w: World, call: Message)
    requires WorldInv(w)
    ensures WorldInv(Step(w, GiveUp(call)))
  {
    if call in w.wire && call.Call? {
      assert MessageOk(w, call);
      SettlementKeeps(w, call.refund, RefundStatus.Failed, None);
    }
  }

  lemma StepKeeps(w: World, action: Action)
    requires WorldInv(w)
    ensures WorldInv(Step(w, action))
  {
    match action
    case Transact(op) => TransactKeeps(w, op);
    case ReadRefund(r) => ReadKeeps(w, r);
    case TakeCall(call, accept, status) => TakeKeeps(w, call, accept, status);
    case Progress(id, status) => ProgressKeeps(w, id, status);
    case Notify(id, keyed, status) => NotifyKeeps(w, id, keyed, status);
    case IssueByHand(charge, amount) => IssueByHandKeeps(w, charge, amount);
    case Deliver(message) => DeliverKeeps(w, message);
    case GiveUp(call) => GiveUpKeeps(w, call);
  }

  lemma {:induction false} WorldsKeepInv(w: World, actions: seq<Action>)
    requires WorldInv(w)
    ensures WorldInv(WorldFrom(w, actions))
  {
    if actions != [] {
      WorldsKeepInv(w, actions[..|actions| - 1]);
      StepKeeps(WorldFrom(w, actions[..|actions| - 1]), actions[|actions| - 1]);
    }
  }

  lemma EveryWorldIsOk(actions: seq<Action>)
    ensures WorldInv(WorldAfter(actions))
  {
    RunsKeepInv([]);
    WorldsKeepInv(NOTHING, actions);
  }

  // ── giving up ────────────────────────────────────────────────────────────────────────────

  /**
   * What a worker would have to know before it records a failure: that the provider rejected the
   * key, or holds a refund under it that failed. The provider can be asked for both.
   */
  ghost predicate MayGiveUp(w: World, action: Action) {
    action.GiveUp? && action.call in w.wire && action.call.Call?
    && action.call.refund < |w.db.refunds| && w.db.refunds[action.call.refund].status == RefundStatus.Pending ==>
      Dead(w, action.call.refund)
  }

  ghost predicate GivesUpKnowingly(w: World, actions: seq<Action>) {
    actions != [] ==>
      var init := actions[..|actions| - 1];
      GivesUpKnowingly(w, init) && MayGiveUp(WorldFrom(w, init), actions[|actions| - 1])
  }

  /** The refunds a call was ever sent for. */
  function CalledFor(w: World): set<RowId> {
    set m | m in w.wire && m.Call? :: m.refund
  }

  /** No step but giving up fails a refund without the provider having done so. */
  lemma SettlementIsSound(
    w: World, r: RowId, status: RefundStatus, providerId: Option<ProviderRefundId>, except: set<RowId>)
    requires SoundBut(w, except) && r < |w.db.refunds|
    requires !Live(status) && w.db.refunds[r].status == RefundStatus.Pending && r !in except ==> Dead(w, r)
    ensures SoundBut(w.(db := After(w.db, Settle(w.db, r, status, providerId))), except)
  {
    var next := w.(db := After(w.db, Settle(w.db, r, status, providerId)));
    SettleGrows(w.db, r, status, providerId);
    forall q | 0 <= q < |next.db.refunds| && !Live(next.db.refunds[q].status) && q !in except ensures Dead(next, q) {
      assert next.db.refunds[q] == w.db.refunds[q] || q == r;
      DeadStays(w, next, q);
    }
  }

  lemma DeliverIsSound(w: World, message: Message, except: set<RowId>)
    requires WorldInv(w) && SoundBut(w, except)
    ensures SoundBut(Step(w, Deliver(message)), except)
  {
    if message in w.wire {
      assert MessageOk(w, message);
      match message
      case Answer(r, id, status) => SettlementIsSound(w, r, status, Some(id), except);
      case Refusal(r) => SettlementIsSound(w, r, RefundStatus.Failed, None, except);
      case NoCharge(r) => SettlementIsSound(w, r, RefundStatus.Failed, None, except);
      case Webhook(id, handle, status) =>
        var found := FindByHandle(w.db.refunds, id, handle);
        if found.Some? {
          WebhookFindsOwner(w, id, handle, found.value);
          SettlementIsSound(w, found.value, status, Some(id), except);
        }
      case Call(_, _, _, _) =>
    }
  }

  /** Rows that did not move stay soundly failed. */
  lemma OthersStaySound(w: World, next: World, except: set<RowId>)
    requires SoundBut(w, except) && Extends(w, next)
    requires forall r | 0 <= r < |next.db.refunds| && !Live(next.db.refunds[r].status) ::
               r < |w.db.refunds| && !Live(w.db.refunds[r].status)
    ensures SoundBut(next, except)
  {
    forall r | 0 <= r < |next.db.refunds| && !Live(next.db.refunds[r].status) && r !in except ensures Dead(next, r) {
      DeadStays(w, next, r);
    }
  }

  lemma TransactIsSound(w: World, op: Op, except: set<RowId>)
    requires WorldInv(w) && SoundBut(w, except)
    ensures SoundBut(Step(w, Transact(op)), except)
  {
    if !IsSettlement(op) {
      ApplyOnlyReserves(w.db, op);
      OthersStaySound(w, Step(w, Transact(op)), except);
    }
  }

  lemma GiveUpIsSound(w: World, call: Message, except: set<RowId>)
    requires WorldInv(w) && SoundBut(w, except)
    requires MayGiveUp(w, GiveUp(call)) || CalledFor(w) <= except
    ensures SoundBut(Step(w, GiveUp(call)), except)
  {
    if call in w.wire && call.Call? {
      assert MessageOk(w, call) && call.refund in CalledFor(w);
      SettlementIsSound(w, call.refund, RefundStatus.Failed, None, except);
    }
  }

  /** The steps between the workers and the provider leave the database alone. */
  lemma OthersExtend(w: World, action: Action)
    requires !action.Transact? && !action.Deliver? && !action.GiveUp?
    ensures Step(w, action).db == w.db && Extends(w, Step(w, action))
  {
  }

  lemma StepIsSound(w: World, action: Action, except: set<RowId>)
    requires WorldInv(w) && SoundBut(w, except)
    requires MayGiveUp(w, action) || CalledFor(w) <= except
    ensures SoundBut(Step(w, action), except)
  {
    match action
    case Deliver(message) => DeliverIsSound(w, message, except);
    case GiveUp(call) => GiveUpIsSound(w, call, except);
    case Transact(op) => TransactIsSound(w, op, except);
    case _ =>
      OthersExtend(w, action);
      OthersStaySound(w, Step(w, action), except);
  }

  lemma CallsStayOut(w: World, action: Action)
    ensures CalledFor(w) <= CalledFor(Step(w, action))
  {
    assert w.wire <= Step(w, action).wire;
  }

  /** A run that gives up knowingly fails nothing wrongly, and any run at most what a call was sent for. */
  lemma {:induction false} RunsAreSound(w: World, actions: seq<Action>, except: set<RowId>)
    requires WorldInv(w) && SoundBut(w, except)
    requires GivesUpKnowingly(w, actions) || CalledFor(WorldFrom(w, actions)) <= except
    ensures SoundBut(WorldFrom(w, actions), except)
  {
    if actions != [] {
      var init, last := actions[..|actions| - 1], actions[|actions| - 1];
      WorldsKeepInv(w, init);
      CallsStayOut(WorldFrom(w, init), last);
      RunsAreSound(w, init, except);
      StepIsSound(WorldFrom(w, init), last, except);
    }
  }

  // ── what holds of every run ──────────────────────────────────────────────────────────────

  /** No refund is live at the provider and failed here. */
  ghost predicate NothingLost(w: World) {
    forall r: nat, id: nat | Owns(w, r, id) && Live(w.provider[id].status) :: Live(w.db.refunds[r].status)
  }

  lemma SoundLosesNothing(w: World)
    requires WorldInv(w) && Sound(w)
    ensures NothingLost(w)
  {
    forall r: nat, id: nat | Owns(w, r, id) && Live(w.provider[id].status) ensures Live(w.db.refunds[r].status) {
      OneRecord(w, r, id);
    }
  }

  /** A row has at most one record at the provider. */
  lemma OneRecord(w: World, r: RowId, id: ProviderRefundId)
    requires ProviderOk(w) && Owns(w, r, id)
    ensures forall other: nat | Owns(w, r, other) :: other == id
  {
    forall other: nat | Owns(w, r, other) ensures other == id {
      assert w.provider[other].key == w.provider[id].key;
    }
  }

  lemma KnowingRunsLoseNothing(actions: seq<Action>)
    requires GivesUpKnowingly(NOTHING, actions)
    ensures Sound(WorldAfter(actions)) && NothingLost(WorldAfter(actions))
  {
    EveryWorldIsOk([]);
    EveryWorldIsOk(actions);
    RunsAreSound(NOTHING, actions, {});
    SoundLosesNothing(WorldAfter(actions));
  }

  /**
   * In every run, a refund the provider made for this system carries the stored key of exactly one
   * local refund, with the amount and the charge the provider moved, and no local refund says
   * SUCCEEDED unless the provider does. And as long as no worker gave up on a refund the provider
   * could still make, that local refund is PENDING or SUCCEEDED while the provider's is live.
   */
  lemma LiveRefundHasOneRow(actions: seq<Action>, id: ProviderRefundId)
    requires id < |WorldAfter(actions).provider| && WorldAfter(actions).provider[id].key.Some?
    ensures
      var w := WorldAfter(actions);
      var made := w.provider[id];
      exists r: nat ::
        && Owns(w, r, id)
        && (forall other: nat | other < |w.db.refunds| && w.db.refunds[other].key == made.key.value :: other == r)
        && (w.db.refunds[r].status == RefundStatus.Succeeded ==> made.status == RefundStatus.Succeeded)
        && (GivesUpKnowingly(NOTHING, actions) && Live(made.status) ==> Live(w.db.refunds[r].status))
  {
    var w := WorldAfter(actions);
    EveryWorldIsOk(actions);
    var r: nat :| Owns(w, r, id);
    forall other: nat | other < |w.db.refunds| && w.db.refunds[other].key == w.provider[id].key.value
      ensures other == r
    {
      OwnerIsUnique(w, r, other, id);
    }
    SettledAgrees(w, r, id);
    if GivesUpKnowingly(NOTHING, actions) {
      KnowingRunsLoseNothing(actions);
    }
  }

  lemma SettledAgrees(w: World, r: RowId, id: ProviderRefundId)
    requires WorldInv(w) && Owns(w, r, id)
    ensures w.db.refunds[r].status == RefundStatus.Succeeded ==> w.provider[id].status == RefundStatus.Succeeded
  {
    assert RowOk(w, r);
    OneRecord(w, r, id);
  }

  /** A future, in which nobody else gives up too early, ends with a refund lost. */
  ghost predicate Loses(w: World, more: seq<Action>) {
    GivesUpKnowingly(w, more) && !NothingLost(WorldFrom(w, more))
  }

  lemma SoundFuturesLoseNothing(w: World, more: seq<Action>)
    requires WorldInv(w) && Sound(w)
    ensures !Loses(w, more)
  {
    if GivesUpKnowingly(w, more) {
      RunsAreSound(w, more, {});
      WorldsKeepInv(w, more);
      SoundLosesNothing(WorldFrom(w, more));
    }
  }

  /** A call for a refund that was failed wrongly is still taken: the provider's refund has a failed row. */
  lemma CallStillLands(w: World, call: Message)
    requires WorldInv(w) && call in w.wire && call.Call? && MessageOk(w, call)
    requires !Live(w.db.refunds[call.refund].status) && !Dead(w, call.refund)
    ensures !NothingLost(Step(w, TakeCall(call, true, RefundStatus.Succeeded)))
  {
    var r := call.refund;
    var next := Step(w, TakeCall(call, true, RefundStatus.Succeeded));
    var known := FindKey(w.provider, call.key);
    if known.Some? {
      var owner: nat :| Owns(w, owner, known.value);
      OwnerIsUnique(w, owner, r, known.value);
      assert Owns(next, r, known.value) && Live(next.provider[known.value].status);
    } else {
      assert Owns(next, r, |w.provider|);
    }
  }

  lemma WrongFailureIsLost(w: World, call: Message)
    requires WorldInv(w) && call in w.wire && call.Call? && MessageOk(w, call)
    requires !Live(w.db.refunds[call.refund].status) && !Dead(w, call.refund)
    ensures Loses(w, [TakeCall(call, true, RefundStatus.Succeeded)])
  {
    var taken := TakeCall(call, true, RefundStatus.Succeeded);
    CallStillLands(w, call);
    assert [taken][..0] == [];
    assert WorldFrom(w, [taken]) == Step(w, taken);
  }

  lemma SafeIffSound(w: World)
    requires WorldInv(w) && SoundBut(w, CalledFor(w))
    ensures (forall more :: !Loses(w, more)) <==> Sound(w)
  {
    if Sound(w) {
      forall more ensures !Loses(w, more) {
        SoundFuturesLoseNothing(w, more);
      }
    } else {
      var r :| 0 <= r < |w.db.refunds| && !Live(w.db.refunds[r].status) && !Dead(w, r);
      var call :| call in w.wire && call.Call? && call.refund == r;
      assert MessageOk(w, call);
      WrongFailureIsLost(w, call);
    }
  }

  /**
   * After any run, whoever gave up on what: no future loses a refund, if nobody gives up too early
   * from then on, if and only if the provider is done with every refund that is recorded as failed.
   */
  lemma NothingIsLostIffSound(actions: seq<Action>)
    ensures (forall more :: !Loses(WorldAfter(actions), more)) <==> Sound(WorldAfter(actions))
  {
    EveryWorldIsOk([]);
    EveryWorldIsOk(actions);
    RunsAreSound(NOTHING, actions, CalledFor(WorldAfter(actions)));
    SafeIffSound(WorldAfter(actions));
  }

  /**
   * So giving up is safe exactly when the provider is done with the refund. If the worker gives up
   * on a pending refund whose call is out, then no future loses a refund, however it goes on, if
   * and only if the key was rejected or the provider's refund under it has failed by then.
   */
  lemma GivingUpIsSafeIffDead(actions: seq<Action>, call: Message)
    requires GivesUpKnowingly(NOTHING, actions)
    requires
      var w := WorldAfter(actions);
      && call in w.wire && call.Call? && call.refund < |w.db.refunds|
      && w.db.refunds[call.refund].status == RefundStatus.Pending
    ensures
      var w := WorldAfter(actions);
      (forall more :: !Loses(Step(w, GiveUp(call)), more)) <==> Dead(w, call.refund)
  {
    EveryWorldIsOk(actions);
    KnowingRunsLoseNothing(actions);
    GivingUpLosesIff(WorldAfter(actions), call);
  }

  lemma GivingUpLosesIff(w: World, call: Message)
    requires WorldInv(w) && Sound(w) && call in w.wire && call.Call? && call.refund < |w.db.refunds|
    requires w.db.refunds[call.refund].status == RefundStatus.Pending
    ensures (forall more :: !Loses(Step(w, GiveUp(call)), more)) <==> Dead(w, call.refund)
  {
    var after := Step(w, GiveUp(call));
    GiveUpKeeps(w, call);
    GivenUpIsCalledFor(w, call);
    GivenUpIsSoundIffDead(w, call);
    SafeIffSound(after);
  }

  lemma GivenUpIsCalledFor(w: World, call: Message)
    requires WorldInv(w) && Sound(w)
    ensures SoundBut(Step(w, GiveUp(call)), CalledFor(Step(w, GiveUp(call))))
  {
    GiveUpIsSound(w, call, CalledFor(w));
  }

  lemma GivenUpIsSoundIffDead(w: World, call: Message)
    requires WorldInv(w) && Sound(w) && call in w.wire && call.Call? && call.refund < |w.db.refunds|
    requires w.db.refunds[call.refund].status == RefundStatus.Pending
    ensures Sound(Step(w, GiveUp(call))) <==> Dead(w, call.refund)
  {
    var r := call.refund;
    var after := Step(w, GiveUp(call));
    SettleGrows(w.db, r, RefundStatus.Failed, None);
    FailingCommits(w.db, r);
    assert SameRefund(w.db, after.db, r);
    if Dead(w, r) {
      GiveUpIsSound(w, call, {});
    } else {
      assert !Dead(after, r);
    }
  }

  lemma FailingCommits(db: Db, r: RowId)
    requires Inv(db) && r < |db.refunds| && db.refunds[r].status == RefundStatus.Pending
    ensures After(db, Settle(db, r, RefundStatus.Failed, None)).refunds ==
            db.refunds[r := db.refunds[r].(status := RefundStatus.Failed)]
  {
    assert RefundRowsOk(db.refunds, |db.payments|);
  }

  /** What each provider refund made for this system weighs on a charge. */
  function AtProvider(provider: seq<ProviderRefund>, charge: ChargeId, statuses: set<RefundStatus>): (cents: seq<Cents>)
    ensures |cents| == |provider|
  {
    seq(|provider|, i requires 0 <= i < |provider| =>
      if provider[i].key.Some? && provider[i].charge == charge && provider[i].status in statuses
      then provider[i].amount else 0)
  }

  /** What each refund row weighs on a payment. */
  function InBooks(refunds: seq<Refund>, payment: RowId, statuses: set<RefundStatus>): (cents: seq<Cents>)
    ensures |cents| == |refunds|
  {
    seq(|refunds|, i requires 0 <= i < |refunds| =>
      if refunds[i].payment == payment && refunds[i].status in statuses then refunds[i].amount else 0)
  }

  lemma {:induction false} BooksSum(refunds: seq<Refund>, payment: RowId)
    ensures Sum(InBooks(refunds, payment, {RefundStatus.Pending, RefundStatus.Succeeded})) ==
            SumRefunds(refunds, payment, RefundStatus.Pending) + SumRefunds(refunds, payment, RefundStatus.Succeeded)
    ensures Sum(InBooks(refunds, payment, {RefundStatus.Succeeded})) ==
            SumRefunds(refunds, payment, RefundStatus.Succeeded)
  {
    if refunds != [] {
      var init := refunds[..|refunds| - 1];
      BooksSum(init, payment);
      var both, settled := {RefundStatus.Pending, RefundStatus.Succeeded}, {RefundStatus.Succeeded};
      assert InBooks(refunds, payment, both)[..|init|] == InBooks(init, payment, both);
      assert InBooks(refunds, payment, settled)[..|init|] == InBooks(init, payment, settled);
    }
  }

  ghost function OwnerOf(w: World, id: ProviderRefundId): RowId {
    if r: nat :| Owns(w, r, id) then r else 0
  }

  ghost function RecordOf(w: World, r: RowId): ProviderRefundId {
    if id: nat :| Owns(w, r, id) then id else 0
  }

  /** A refund that is live at the provider and failed here. */
  predicate IsLost(w: World, r: RowId)
    requires r < |w.db.refunds|
  {
    !Live(w.db.refunds[r].status) && exists id | 0 <= id < |w.provider| :: Owns(w, r, id) && Live(w.provider[id].status)
  }

  /** What each lost refund of a payment weighs. */
  function LostFrom(w: World, payment: RowId): (cents: seq<Cents>)
    ensures |cents| == |w.db.refunds|
  {
    seq(|w.db.refunds|, r requires 0 <= r < |w.db.refunds| =>
      if w.db.refunds[r].payment == payment && IsLost(w, r) then w.db.refunds[r].amount else 0)
  }

  lemma MoneyIsBounded(w: World, p: RowId, charge: ChargeId)
    requires WorldInv(w) && p < |w.db.payments| && w.db.payments[p].charge == Some(charge)
    ensures
      var sent := Sum(AtProvider(w.provider, charge, {RefundStatus.Succeeded}));
      var live := Sum(AtProvider(w.provider, charge, {RefundStatus.Pending, RefundStatus.Succeeded}));
      && w.db.payments[p].refunded <= sent <= live <= Committed(w.db, p) + Sum(LostFrom(w, p))
      && Committed(w.db, p) <= w.db.payments[p].amount
  {
    var both, settled := {RefundStatus.Pending, RefundStatus.Succeeded}, {RefundStatus.Succeeded};
    assert BooksBalance(w.db, p);
    BooksSum(w.db.refunds, p);
    BooksWithinProvider(w, p, charge);
    ProviderWithinBooks(w, p, charge);
    AmountsArePositive(w);
    var sent, live := AtProvider(w.provider, charge, settled), AtProvider(w.provider, charge, both);
    MatchedSum(sent, live, seq(|sent|, i => i));
  }

  lemma NothingLostWeighsNothing(w: World, p: RowId)
    requires NothingLost(w)
    ensures Sum(LostFrom(w, p)) == 0
  {
    SumOfZeros(LostFrom(w, p));
  }

  /**
   * The main result. In every run, for every payment: the books never claim more went back than
   * the provider sent, and what the provider has sent or may still send back on the charge never
   * exceeds what the books hold committed, which is within the payment, and what was lost by
   * giving up too early. Where nobody gave up on a refund the provider could still make, nothing
   * is lost, and the payment bounds it all.
   */
  lemma NeverRefundsMoreThanPaid(actions: seq<Action>, p: RowId, charge: ChargeId)
    requires p < |WorldAfter(actions).db.payments| && WorldAfter(actions).db.payments[p].charge == Some(charge)
    ensures
      var w := WorldAfter(actions);
      var sent := Sum(AtProvider(w.provider, charge, {RefundStatus.Succeeded}));
      var live := Sum(AtProvider(w.provider, charge, {RefundStatus.Pending, RefundStatus.Succeeded}));
      var lost := Sum(LostFrom(w, p));
      && w.db.payments[p].refunded <= sent <= live <= Committed(w.db, p) + lost
      && Committed(w.db, p) <= w.db.payments[p].amount
      && (GivesUpKnowingly(NOTHING, actions) ==> lost == 0)
  {
    EveryWorldIsOk(actions);
    MoneyIsBounded(WorldAfter(actions), p, charge);
    if GivesUpKnowingly(NOTHING, actions) {
      KnowingRunsLoseNothing(actions);
      NothingLostWeighsNothing(WorldAfter(actions), p);
    }
  }

  lemma AmountsArePositive(w: World)
    requires WorldInv(w)
    ensures forall id | 0 <= id < |w.provider| && w.provider[id].key.Some? :: w.provider[id].amount > 0
  {
    forall id | 0 <= id < |w.provider| && w.provider[id].key.Some? ensures w.provider[id].amount > 0 {
      var r: nat :| Owns(w, r, id);
      assert RefundRowsOk(w.db.refunds, |w.db.payments|);
    }
  }

  /** Every settled row is backed by its own provider refund. */
  lemma BooksWithinProvider(w: World, p: RowId, charge: ChargeId)
    requires WorldInv(w) && p < |w.db.payments| && w.db.payments[p].charge == Some(charge)
    ensures Sum(InBooks(w.db.refunds, p, {RefundStatus.Succeeded})) <=
            Sum(AtProvider(w.provider, charge, {RefundStatus.Succeeded}))
  {
    var left := InBooks(w.db.refunds, p, {RefundStatus.Succeeded});
    var right := AtProvider(w.provider, charge, {RefundStatus.Succeeded});
    var partner := seq(|left|, r requires 0 <= r < |left| => RecordOf(w, r));
    AmountsArePositive(w);
    forall r | 0 <= r < |left| && left[r] > 0
      ensures Owns(w, r, partner[r]) && w.provider[partner[r]].status == RefundStatus.Succeeded
    {
      assert RowOk(w, r);
      SettledAgrees(w, r, partner[r]);
    }
    MatchedSum(left, right, partner);
  }

  /** Every live provider refund on the charge is backed by its own committed row, or its row was lost. */
  lemma ProviderWithinBooks(w: World, p: RowId, charge: ChargeId)
    requires WorldInv(w) && p < |w.db.payments| && w.db.payments[p].charge == Some(charge)
    ensures Sum(AtProvider(w.provider, charge, {RefundStatus.Pending, RefundStatus.Succeeded})) <=
            Sum(InBooks(w.db.refunds, p, {RefundStatus.Pending, RefundStatus.Succeeded})) + Sum(LostFrom(w, p))
  {
    var left := AtProvider(w.provider, charge, {RefundStatus.Pending, RefundStatus.Succeeded});
    var books, lost := InBooks(w.db.refunds, p, {RefundStatus.Pending, RefundStatus.Succeeded}), LostFrom(w, p);
    var partner := seq(|left|, id requires 0 <= id < |left| => OwnerOf(w, id));
    assert RefundRowsOk(w.db.refunds, |w.db.payments|);
    forall id | 0 <= id < |left| && left[id] > 0
      ensures Owns(w, partner[id], id) && w.db.refunds[partner[id]].payment == p
    {
      assert SessionsOk(w.db.bookings, w.db.payments);
    }
    MatchedSum(left, Added(books, lost), partner);
    SumAdded(books, lost);
  }
}
