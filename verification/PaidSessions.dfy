/**
 * What the provider's word about a checkout session comes to for the booking it was opened for, in every world
 * that checkouts, webhooks and the workers that expire reservations can get to between them.
 */
module PaidSessions {
  import opened Outcomes
  import opened BookingStatuses
  import opened Records
  import opened Operations
  import opened Effects
  import opened ExpiryWorld

  /** Every step is some transaction of the booking services, or leaves the database alone. */
  lemma StepIsATransaction(w: World, action: Action) returns (op: Op)
    ensures Step(w, action).db == w.db || Step(w, action).db == Apply(w.db, op)
  {
    op := ReleaseOp(0);
    match action
    case Transact(one) => op := one;
    case AttachSession(s) => if s < |w.sessions| { op := AttachOp(w.sessions[s].owner, s); }
    case PaidWebhook(s, amount, charge) => if s < |w.sessions| { op := ConfirmOp(Resolve(w, s), s, amount, charge); }
    case Decide(message, amount, charge) =>
      var decided := DecideOp(message, amount, charge);
      if decided.Some? { op := decided.value; }
    case _ =>
  }

  lemma {:induction false} WorldsKeepBooks(actions: seq<Action>)
    ensures Inv(WorldAfter(actions).db)
  {
    if actions == [] {
      RunsKeepInv([]);
    } else {
      var w := WorldAfter(actions[..|actions| - 1]);
      WorldsKeepBooks(actions[..|actions| - 1]);
      var op := StepIsATransaction(w, actions[|actions| - 1]);
      ApplyKeeps(w.db, op);
    }
  }

  /** Nothing stands in the way of a payment for this session: its booking is open, and the charge is new. */
  predicate MayBePaid(w: World, s: SessionId, amount: Cents, charge: Option<ChargeId>) {
    && s < |w.sessions| && w.sessions[s].owner < |w.db.bookings| && amount > 0
    && IsOpen(w.db.bookings[w.sessions[s].owner].status)
    && (charge.Some? ==> forall p | 0 <= p < |w.db.payments| :: w.db.payments[p].charge != charge)
  }

  /** The booking the session was opened for is confirmed, names it, and is paid with it. */
  ghost predicate ConfirmsOwner(w: World, next: World, s: SessionId, amount: Cents, charge: Option<ChargeId>)
    requires s < |w.sessions| && w.sessions[s].owner < |w.db.bookings|
  {
    var b := w.sessions[s].owner;
    && MovedTo(w.db, next.db, b, Confirmed) && next.db.bookings[b].session == Some(s)
    && (exists p: nat :: PaysWith(w.db, next.db, p, b, s, amount, charge))
    && next == w.(db := next.db)
  }

  /**
   * In every run, the webhook about a paid session confirms the booking it was opened for, if that is
   * still open, whether the booking names the session yet or not, and pays it; a session that was not
   * paid moves nothing.
   */
  lemma PaidWebhookConfirms(actions: seq<Action>, s: SessionId, amount: Cents, charge: Option<ChargeId>)
    requires MayBePaid(WorldAfter(actions), s, amount, charge)
    ensures
      var w, next := WorldAfter(actions), Step(WorldAfter(actions), PaidWebhook(s, amount, charge));
      if w.sessions[s].state == Paid || w.sessions[s].state == PaidLate then ConfirmsOwner(w, next, s, amount, charge)
      else next == w
  {
    EveryWorldIsOk(actions);
    WorldsKeepBooks(actions);
    WebhookConfirms(WorldAfter(actions), s, amount, charge);
  }

  lemma WebhookConfirms(w: World, s: SessionId, amount: Cents, charge: Option<ChargeId>)
    requires KnowledgeOk(w) && Inv(w.db) && MayBePaid(w, s, amount, charge)
    ensures
      var next := Step(w, PaidWebhook(s, amount, charge));
      if w.sessions[s].state == Paid || w.sessions[s].state == PaidLate then ConfirmsOwner(w, next, s, amount, charge)
      else next == w
  {
    ResolvesToOwner(w, s);
    WebhookIsATransaction(w, s, amount, charge);
    if WasPaid(w.sessions[s].state) {
      OwnerIsConfirmed(w, Step(w, PaidWebhook(s, amount, charge)), s, amount, charge);
    }
  }

  lemma WebhookIsATransaction(w: World, s: SessionId, amount: Cents, charge: Option<ChargeId>)
    requires s < |w.sessions|
    ensures Step(w, PaidWebhook(s, amount, charge)) ==
            if WasPaid(w.sessions[s].state) then w.(db := Apply(w.db, ConfirmOp(Resolve(w, s), s, amount, charge)))
            else w
  {
  }

  lemma OwnerIsConfirmed(w: World, next: World, s: SessionId, amount: Cents, charge: Option<ChargeId>)
    requires KnowledgeOk(w) && Inv(w.db) && MayBePaid(w, s, amount, charge)
    requires next == w.(db := Apply(w.db, ConfirmOp(w.sessions[s].owner, s, amount, charge)))
    ensures ConfirmsOwner(w, next, s, amount, charge)
  {
    var b := w.sessions[s].owner;
    OnlyTheOwnerNames(w, s);
    ConfirmationAnswers(w.db, b, s, amount, charge);
    ConfirmationPaysItsSession(w.db, b, s, amount, charge);
  }

  lemma OnlyTheOwnerNames(w: World, s: SessionId)
    requires KnowledgeOk(w) && s < |w.sessions|
    ensures forall b | 0 <= b < |w.db.bookings| && w.db.bookings[b].session == Some(s) :: b == w.sessions[s].owner
  {
    forall b | 0 <= b < |w.db.bookings| && w.db.bookings[b].session == Some(s) ensures b == w.sessions[s].owner {
      assert BookingOk(w, b);
    }
  }

  /** This session is in this state afterwards, and nothing else moved. */
  predicate OnlyBecame(w: World, next: World, s: SessionId, state: SessionState)
    requires s < |w.sessions|
  {
    next == w.(sessions := w.sessions[s := CheckoutSession(w.sessions[s].owner, state)])
  }

  /** A session is paid, lapses or completes unpaid only while it is open, and is paid late only after that. */
  lemma SessionsMoveForward(w: World, s: SessionId)
    requires s < |w.sessions|
    ensures
      var was := w.sessions[s].state;
      && OnlyBecame(w, Step(w, Pay(s)), s, if was == Open then Paid else was)
      && OnlyBecame(w, Step(w, LapseAtProvider(s)), s, if was == Open then Closed else was)
      && OnlyBecame(w, Step(w, CompleteWithoutPaying(s)), s, if was == Open then CompletedUnpaid else was)
      && OnlyBecame(w, Step(w, SettleLate(s)), s, if was == CompletedUnpaid then PaidLate else was)
  {
    assert w.sessions[s := w.sessions[s]] == w.sessions;
    assert w.sessions[s].(state := w.sessions[s].state) == w.sessions[s];
  }
}
