/**
 * What reaches a pending refund once the provider decided it: by the answer to a call or by a webhook, after
 * lost answers and retries, in every world the workers, the provider and the wire can get to.
 */
module RefundDelivery {
  import opened Outcomes
  import opened Records
  import opened Refunds
  import opened RefundWorld

  /** The message reports this refund of the provider in a form that leads to its row. */
  predicate Reports(w: World, m: Message, r: RowId, id: ProviderRefundId, status: RefundStatus)
    requires r < |w.db.refunds|
  {
    || m == Answer(r, id, status)
    || (m.Webhook? && m.id == id && m.status == status && MatchesHandle(w.db.refunds[r], id, m.handle))
  }

  /** No other row answers to a handle of this provider refund, or stores its id. */
  lemma HandleIsTheOwners(w: World, r: RowId, id: ProviderRefundId, handle: Option<IdempotencyKey>)
    requires WorldInv(w) && Owns(w, r, id)
    requires handle.Some? ==> w.provider[id].key == handle
    ensures forall q | 0 <= q < |w.db.refunds| && q != r ::
              !MatchesHandle(w.db.refunds[q], id, handle) && w.db.refunds[q].providerId != Some(id)
  {
    forall q | 0 <= q < |w.db.refunds| && q != r
      ensures !MatchesHandle(w.db.refunds[q], id, handle) && w.db.refunds[q].providerId != Some(id)
    {
      if MatchesHandle(w.db.refunds[q], id, handle) {
        WebhookFindsOwner(w, id, handle, q);
        OwnerIsUnique(w, r, q, id);
      }
    }
  }

  /**
   * In every run, an answer or a webhook that leads to a pending refund gives it the outcome it
   * reports and the provider's id, and its payment's total follows. Of all rows and payments
   * nothing else moves, and the message stays on the wire.
   */
  lemma ReportSettlesItsOwner(
    actions: seq<Action>, m: Message, r: RowId, id: ProviderRefundId, status: RefundStatus)
    requires
      var w := WorldAfter(actions);
      && m in w.wire && Owns(w, r, id) && Reports(w, m, r, id, status)
      && w.db.refunds[r].status == RefundStatus.Pending
    ensures
      var w, next := WorldAfter(actions), WorldAfter(actions + [Deliver(m)]);
      IsSettledAs(w.db, next.db, r, status, Some(id)) && next == w.(db := next.db)
  {
    var w := WorldAfter(actions);
    EveryWorldIsOk(actions);
    assert (actions + [Deliver(m)])[..|actions|] == actions;
    DeliverySettles(w, m, r, id, status);
  }

  lemma DeliverySettles(w: World, m: Message, r: RowId, id: ProviderRefundId, status: RefundStatus)
    requires WorldInv(w) && m in w.wire && Owns(w, r, id) && Reports(w, m, r, id, status)
    requires w.db.refunds[r].status == RefundStatus.Pending
    ensures IsSettledAs(w.db, Step(w, Deliver(m)).db, r, status, Some(id))
    ensures Step(w, Deliver(m)) == w.(db := Step(w, Deliver(m)).db)
  {
    assert MessageOk(w, m);
    if m.Webhook? {
      HandleIsTheOwners(w, r, id, m.handle);
      WebhookSettlesItsRow(w.db, id, m.handle, status);
    } else {
      HandleIsTheOwners(w, r, id, None);
      PendingIsSettled(w.db, r, status, Some(id));
    }
  }

  /** A webhook without a key that comes before its refund's row stores the id moves nothing. */
  lemma EarlyWebhookMovesNothing(actions: seq<Action>, m: Message, r: RowId)
    requires
      var w := WorldAfter(actions);
      && m in w.wire && m.Webhook? && Owns(w, r, m.id)
      && m.handle == None && w.db.refunds[r].providerId != Some(m.id)
    ensures WorldAfter(actions + [Deliver(m)]) == WorldAfter(actions)
  {
    var w := WorldAfter(actions);
    EveryWorldIsOk(actions);
    assert (actions + [Deliver(m)])[..|actions|] == actions;
    HandleIsTheOwners(w, r, m.id, None);
    WebhookSettlesItsRow(w.db, m.id, None, m.status);
  }

  /**
   * A call that is retried, because its answer was lost, is answered for the record the first one
   * made, with where that stands by then or as pending; no second record is made.
   */
  lemma RetryFindsItsRecord(
    actions: seq<Action>, call: Message, accept: bool, status: RefundStatus, id: ProviderRefundId)
    requires
      var w := WorldAfter(actions);
      && call in w.wire && call.Call? && Owns(w, call.refund, id)
      && (status == w.provider[id].status || status == RefundStatus.Pending)
    ensures
      var w := WorldAfter(actions);
      Step(w, TakeCall(call, accept, status)) == w.(wire := w.wire + {Answer(call.refund, id, status)})
  {
    var w := WorldAfter(actions);
    EveryWorldIsOk(actions);
    assert MessageOk(w, call);
    KnownKeyIsFound(w, id);
  }

  lemma KnownKeyIsFound(w: World, id: ProviderRefundId)
    requires ProviderOk(w) && id < |w.provider| && w.provider[id].key.Some?
    ensures FindKey(w.provider, w.provider[id].key.value) == Some(id)
  {
    var found := FindKey(w.provider, w.provider[id].key.value);
    assert found.Some?;
  }

  /** A refund issued by hand is one more record, pending, that no row of this system owns or learns of by key. */
  lemma IssuedByHandIsNobodys(actions: seq<Action>, charge: ChargeId, amount: Cents, r: RowId)
    ensures
      var w := WorldAfter(actions);
      var next := Step(w, IssueByHand(charge, amount));
      && next == w.(provider := next.provider) && |next.provider| == |w.provider| + 1
      && next.provider[..|w.provider|] == w.provider
      && next.provider[|w.provider|] == ProviderRefund(None, charge, amount, RefundStatus.Pending)
      && !Owns(next, r, |w.provider|)
  {
  }

  // ── undisturbed rounds ───────────────────────────────────────────────────────────────────

  /** A refund waiting for its first call. */
  ghost predicate Waits(w: World, r: RowId) {
    && r < |w.db.refunds| && w.db.refunds[r].status == RefundStatus.Pending
    && (forall id | 0 <= id < |w.provider| :: w.provider[id].key != Some(w.db.refunds[r].key))
    && w.db.refunds[r].key !in w.rejected
  }

  /** The worker's call for a refund, or the finding that there is nothing to call about. */
  function Asked(w: World, r: RowId): Message
    requires r < |w.db.refunds|
  {
    var row := w.db.refunds[r];
    match ChargeOf(w.db, r)
    case Some(charge) => Call(r, row.key, charge, row.amount)
    case None => NoCharge(r)
  }

  /** The call goes out and the provider decides it. */
  function Called(w: World, r: RowId, accept: bool, status: RefundStatus): World
    requires r < |w.db.refunds|
  {
    Step(Step(w, ReadRefund(r)), TakeCall(Asked(w, r), accept, status))
  }

  /** A refund pending at the provider is decided there, and a webhook with the key is sent. */
  function Notified(w: World, id: ProviderRefundId, status: RefundStatus): World {
    Step(Step(w, Progress(id, status)), Notify(id, true, status))
  }

  /**
   * In every run, one undisturbed round settles a refund nobody called about yet by what the
   * provider decides: with the decided status and the new record's id when it took the call, whether
   * the answer arrives or a later webhook does; as failed when it refused, or when there is no charge.
   */
  lemma RoundSettles(actions: seq<Action>, r: RowId, accept: bool, status: RefundStatus)
    requires Waits(WorldAfter(actions), r)
    ensures
      var w := WorldAfter(actions);
      var id, row := |w.provider|, w.db.refunds[r];
      if ChargeOf(w.db, r).None? then
        var next := Step(Step(w, ReadRefund(r)), Deliver(NoCharge(r)));
        IsSettledAs(w.db, next.db, r, RefundStatus.Failed, row.providerId)
      else if !accept then
        var next := Step(Called(w, r, false, status), Deliver(Refusal(r)));
        IsSettledAs(w.db, next.db, r, RefundStatus.Failed, row.providerId)
      else
        var answered := Step(Called(w, r, true, status), Deliver(Answer(r, id, status)));
        var told := Notified(Called(w, r, true, RefundStatus.Pending), id, status);
        && IsSettledAs(w.db, answered.db, r, status, Some(id))
        && IsSettledAs(w.db, Step(told, Deliver(Webhook(id, Some(row.key), status))).db, r, status, Some(id))
  {
    var w := WorldAfter(actions);
    EveryWorldIsOk(actions);
    if ChargeOf(w.db, r).None? {
      UnchargedRound(w, r);
    } else if !accept {
      RefusedRound(w, r, status);
    } else {
      AnsweredRound(w, r, status);
      NotifiedRound(w, r, status);
    }
  }

  lemma FailureSettles(w: World, m: Message, r: RowId)
    requires LedgerInv(w.db) && r < |w.db.refunds| && w.db.refunds[r].status == RefundStatus.Pending
    requires m in w.wire && (m == Refusal(r) || m == NoCharge(r))
    ensures IsSettledAs(w.db, Step(w, Deliver(m)).db, r, RefundStatus.Failed, w.db.refunds[r].providerId)
  {
    PendingIsSettled(w.db, r, RefundStatus.Failed, None);
  }

  lemma UnchargedRound(w: World, r: RowId)
    requires WorldInv(w) && Waits(w, r) && ChargeOf(w.db, r).None?
    ensures IsSettledAs(w.db, Step(Step(w, ReadRefund(r)), Deliver(NoCharge(r))).db, r, RefundStatus.Failed,
                        w.db.refunds[r].providerId)
  {
    var asked := Step(w, ReadRefund(r));
    StepKeeps(w, ReadRefund(r));
    assert asked.db == w.db && NoCharge(r) in asked.wire;
    FailureSettles(asked, NoCharge(r), r);
  }

  /** Asking and deciding leave the refund with a record of its own, or with a rejected key. */
  lemma CallIsTaken(w: World, r: RowId, accept: bool, status: RefundStatus)
    requires WorldInv(w) && Waits(w, r) && ChargeOf(w.db, r).Some?
    ensures
      var next, id := Called(w, r, accept, status), |w.provider|;
      && WorldInv(next) && next.db == w.db
      && (if accept then
            && Answer(r, id, status) in next.wire && Owns(next, r, id)
            && next.provider[id].status == status && |next.provider| == id + 1
          else Refusal(r) in next.wire)
  {
    var asked := Step(w, ReadRefund(r));
    var call := Asked(w, r);
    assert BooksBalance(w.db, w.db.refunds[r].payment);
    assert asked == w.(wire := w.wire + {call}) && call.Call?;
    StepKeeps(w, ReadRefund(r));
    StepKeeps(asked, TakeCall(call, accept, status));
    assert FindKey(asked.provider, call.key).None?;
    if accept {
      assert MessageOk(Called(w, r, accept, status), Answer(r, |w.provider|, status));
    }
  }

  lemma RefusedRound(w: World, r: RowId, status: RefundStatus)
    requires WorldInv(w) && Waits(w, r) && ChargeOf(w.db, r).Some?
    ensures IsSettledAs(w.db, Step(Called(w, r, false, status), Deliver(Refusal(r))).db, r, RefundStatus.Failed,
                        w.db.refunds[r].providerId)
  {
    CallIsTaken(w, r, false, status);
    FailureSettles(Called(w, r, false, status), Refusal(r), r);
  }

  lemma AnsweredRound(w: World, r: RowId, status: RefundStatus)
    requires WorldInv(w) && Waits(w, r) && ChargeOf(w.db, r).Some?
    ensures
      var id := |w.provider|;
      IsSettledAs(w.db, Step(Called(w, r, true, status), Deliver(Answer(r, id, status))).db, r, status, Some(id))
  {
    CallIsTaken(w, r, true, status);
    DeliverySettles(Called(w, r, true, status), Answer(r, |w.provider|, status), r, |w.provider|, status);
  }

  lemma OutcomeIsTold(w: World, r: RowId, id: ProviderRefundId, status: RefundStatus)
    requires WorldInv(w) && Owns(w, r, id) && w.provider[id].status == RefundStatus.Pending
    ensures
      var told := Notified(w, id, status);
      && WorldInv(told) && Owns(told, r, id) && told.db == w.db
      && Webhook(id, Some(w.db.refunds[r].key), status) in told.wire
  {
    StepKeeps(w, Progress(id, status));
    StepKeeps(Step(w, Progress(id, status)), Notify(id, true, status));
  }

  lemma NotifiedRound(w: World, r: RowId, status: RefundStatus)
    requires WorldInv(w) && Waits(w, r) && ChargeOf(w.db, r).Some?
    ensures
      var id := |w.provider|;
      var told := Notified(Called(w, r, true, RefundStatus.Pending), id, status);
      IsSettledAs(w.db, Step(told, Deliver(Webhook(id, Some(w.db.refunds[r].key), status))).db, r, status, Some(id))
  {
    var id, key := |w.provider|, w.db.refunds[r].key;
    CallIsTaken(w, r, true, RefundStatus.Pending);
    OutcomeIsTold(Called(w, r, true, RefundStatus.Pending), r, id, status);
    var told := Notified(Called(w, r, true, RefundStatus.Pending), id, status);
    DeliverySettles(told, Webhook(id, Some(key), status), r, id, status);
  }
}
