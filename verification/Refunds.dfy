/**
 * The refund ledger: reserving part of a payment's balance, and settling what was reserved.
 */
module Refunds {
  import opened Outcomes
  import opened BookingStatuses
  import opened Records

  /**
   * What "refund this" means. An additional amount is sent on top of whatever already went back;
   * a cumulative target is what the customer should have received in total afterwards.
   */
  datatype RefundAmount = Additional(cents: Cents) | CumulativeTarget(cents: Cents)

  datatype Reservation = Reservation(refund: Option<RowId>, additional: Cents, refundable: Cents)

  /** Statuses a payment has once its money arrived. */
  predicate Settled(status: PaymentStatus) {
    status != PaymentStatus.Pending && status != PaymentStatus.Failed
  }

  function Contribution(refund: Refund, payment: RowId, status: RefundStatus): Cents {
    if refund.payment == payment && refund.status == status then refund.amount else 0
  }

  /** What the database aggregates: the refunds of one payment in one status. */
  function SumRefunds(refunds: seq<Refund>, payment: RowId, status: RefundStatus): Cents {
    if refunds == [] then 0
    else SumRefunds(refunds[..|refunds| - 1], payment, status) +
         Contribution(refunds[|refunds| - 1], payment, status)
  }

  /** Money that went back or is already promised. */
  function Committed(db: Db, payment: RowId): Cents
    requires payment < |db.payments|
  {
    db.payments[payment].refunded + SumRefunds(db.refunds, payment, RefundStatus.Pending)
  }

  /** The payment a refund of this booking's money comes out of: its first one with a balance. */
  function FindRefundable(payments: seq<Payment>, root: RowId): (found: Option<RowId>)
    ensures found.Some? ==>
              && found.value < |payments|
              && payments[found.value].booking == root
              && HasBalance(payments[found.value].status)
              && forall p | 0 <= p < found.value :: payments[p].booking != root || !HasBalance(payments[p].status)
    ensures found.None? ==> forall p | 0 <= p < |payments| ::
              payments[p].booking != root || !HasBalance(payments[p].status)
  {
    if payments == [] then None
    else
      var last := |payments| - 1;
      match FindRefundable(payments[..last], root)
      case Some(p) => Some(p)
      case None =>
        if payments[last].booking == root && HasBalance(payments[last].status) then Some(last)
        else None
  }

  predicate HasBalance(status: PaymentStatus) {
    status == PaymentStatus.Succeeded || status == PaymentStatus.PartiallyRefunded
  }

  /** How much one reservation moves; a target stops short at the balance. */
  function AdditionalFor(amount: RefundAmount, reserved: Cents, refundable: Cents): Cents {
    match amount
    case Additional(cents) => cents
    case CumulativeTarget(target) =>
      var outstanding := target - reserved;
      if outstanding <= 0 then 0
      else if outstanding < refundable then outstanding
      else refundable
  }

  predicate KeyTaken(refunds: seq<Refund>, key: IdempotencyKey) {
    exists i | 0 <= i < |refunds| :: refunds[i].key == key
  }

  /** Set money aside for a refund, within the balance of its payment. */
  function Reserve(db: Db, booking: RowId, amount: RefundAmount, lenient: bool, key: IdempotencyKey)
    : Tx<Db, Reservation>
  {
    if booking >= |db.bookings| then Abort(NotFound)
    else
      match FindRefundable(db.payments, RootOf(db, booking))
      case None => if lenient then Commit(db, Reservation(None, 0, 0)) else Abort(PaymentNotRefundable)
      case Some(p) =>
        var refundable := db.payments[p].amount - Committed(db, p);
        var additional := AdditionalFor(amount, Committed(db, p), refundable);
        if additional <= 0 then
          if amount.Additional? && !lenient then Abort(PaymentNotRefundable)
          else Commit(db, Reservation(None, 0, refundable))
        else if additional > refundable then Abort(PaymentNotRefundable)
        else if KeyTaken(db.refunds, key) then Abort(ConstraintViolation)
        else
          var id := |db.refunds|;
          Commit(
            db.(refunds := db.refunds + [Refund(booking, p, additional, RefundStatus.Pending, key, None)],
                outbox := db.outbox + [RefundRequested(id)]),
            Reservation(Some(id), additional, refundable))
  }

  method ReserveInTransaction(
    tx: Database, booking: RowId, amount: RefundAmount, lenient: bool, key: IdempotencyKey)
    returns (result: Result<Reservation>)
    modifies tx
    ensures result == ResultOf(Reserve(old(tx.View()), booking, amount, lenient, key))
    ensures tx.View() == After(old(tx.View()), Reserve(old(tx.View()), booking, amount, lenient, key))
  {
    if booking >= |tx.bookings| { return Err(NotFound); }
    var root := RootOf(tx.View(), booking);
    var found := FindRefundable(tx.payments, root);
    if found.None? {
      if lenient { return Ok(Reservation(None, 0, 0)); }
      return Err(PaymentNotRefundable);
    }

    var payment := tx.payments[found.value];
    var pending := SumRefunds(tx.refunds, found.value, RefundStatus.Pending);
    var reserved := payment.refunded + pending;
    var refundable := payment.amount - reserved;
    var additional := AdditionalFor(amount, reserved, refundable);

    if additional <= 0 {
      if amount.Additional? && !lenient { return Err(PaymentNotRefundable); }
      return Ok(Reservation(None, 0, refundable));
    }
    if additional > refundable { return Err(PaymentNotRefundable); }
    if KeyTaken(tx.refunds, key) { return Err(ConstraintViolation); }

    var id := |tx.refunds|;
    var refund := Refund(booking, found.value, additional, RefundStatus.Pending, key, None);
    tx.refunds := tx.refunds + [refund];
    tx.outbox := tx.outbox + [RefundRequested(id)];
    return Ok(Reservation(Some(id), additional, refundable));
  }

  /** What a payment's status becomes once its refunded total was recomputed. */
  function PaymentStatusFor(amount: Cents, refunded: Cents, current: PaymentStatus): PaymentStatus {
    if refunded <= 0 then
      if current == PaymentStatus.Failed then current else PaymentStatus.Succeeded
    else if refunded >= amount then PaymentStatus.Refunded
    else PaymentStatus.PartiallyRefunded
  }

  /** The payment with its total recomputed from the refunds themselves. */
  function Recomputed(payment: Payment, refunded: Cents): Payment {
    payment.(refunded := refunded,
             status := PaymentStatusFor(payment.amount, refunded, payment.status))
  }

  predicate ProviderIdTaken(refunds: seq<Refund>, except: RowId, id: ProviderRefundId) {
    exists i | 0 <= i < |refunds| :: i != except && refunds[i].providerId == Some(id)
  }

  /** Record a refund's outcome. Only a pending refund moves. */
  function Settle(db: Db, refund: RowId, status: RefundStatus, providerId: Option<ProviderRefundId>)
    : Tx<Db, ()>
  {
    if refund >= |db.refunds| || db.refunds[refund].status != RefundStatus.Pending then Commit(db, ())
    else if providerId.Some? && ProviderIdTaken(db.refunds, refund, providerId.value) then
      Abort(ConstraintViolation)
    else
      var row := db.refunds[refund];
      var settled := row.(status := status,
                          providerId := if providerId.Some? then providerId else row.providerId);
      var refunds := db.refunds[refund := settled];
      if row.payment >= |db.payments| then Abort(NotFound)
      else
        var total := SumRefunds(refunds, row.payment, RefundStatus.Succeeded);
        Commit(
          db.(refunds := refunds,
              payments := db.payments[row.payment := Recomputed(db.payments[row.payment], total)],
              outbox := db.outbox +
                        (if status == RefundStatus.Succeeded then [RefundSucceeded(refund)] else [])),
          ())
  }

  method RecomputePaymentTotals(tx: Database, payment: RowId)
    requires payment < |tx.payments|
    modifies tx`payments
    ensures tx.payments == old(tx.payments)[payment :=
              Recomputed(old(tx.payments[payment]),
                         SumRefunds(tx.refunds, payment, RefundStatus.Succeeded))]
  {
    var row := tx.payments[payment];
    var refunded := SumRefunds(tx.refunds, payment, RefundStatus.Succeeded);
    tx.payments := tx.payments[payment :=
      row.(refunded := refunded, status := PaymentStatusFor(row.amount, refunded, row.status))];
  }

  /**
   * Every outcome of a refund is written here. The lock it takes is on the refund's row only;
   * `SettlementRaces` is about settlements of one payment that overlap.
   */
  method ApplySettlement(
    tx: Database, refund: RowId, status: RefundStatus, providerId: Option<ProviderRefundId>)
    returns (result: Result<()>)
    modifies tx
    ensures result == ResultOf(Settle(old(tx.View()), refund, status, providerId))
    ensures tx.View() == After(old(tx.View()), Settle(old(tx.View()), refund, status, providerId))
  {
    if refund >= |tx.refunds| { return Ok(()); }
    var row := tx.refunds[refund];
    if row.status != RefundStatus.Pending { return Ok(()); }
    if providerId.Some? && ProviderIdTaken(tx.refunds, refund, providerId.value) {
      return Err(ConstraintViolation);
    }
    if row.payment >= |tx.payments| { return Err(NotFound); }

    var settled := row.(status := status);
    if providerId.Some? {
      settled := settled.(providerId := providerId);
    }
    tx.refunds := tx.refunds[refund := settled];
    RecomputePaymentTotals(tx, row.payment);
    if status == RefundStatus.Succeeded {
      tx.outbox := tx.outbox + [RefundSucceeded(refund)];
    }
    return Ok(());
  }

  /** The refund a provider's event is about: by the provider's id, or by the key stored here. */
  function FindByHandle(refunds: seq<Refund>, id: ProviderRefundId, key: Option<IdempotencyKey>)
    : (found: Option<RowId>)
    ensures found.Some? ==> found.value < |refunds| && MatchesHandle(refunds[found.value], id, key)
    ensures found.None? ==> forall i | 0 <= i < |refunds| :: !MatchesHandle(refunds[i], id, key)
  {
    if refunds == [] then None
    else
      var last := |refunds| - 1;
      match FindByHandle(refunds[..last], id, key)
      case Some(i) => Some(i)
      case None => if MatchesHandle(refunds[last], id, key) then Some(last) else None
  }

  predicate MatchesHandle(refund: Refund, id: ProviderRefundId, key: Option<IdempotencyKey>) {
    refund.providerId == Some(id) || (key.Some? && refund.key == key.value)
  }

  /** A webhook's report settles the row it matches, and without a match nothing moves. */
  function ProviderUpdate(db: Db, id: ProviderRefundId, key: Option<IdempotencyKey>, status: RefundStatus)
    : Tx<Db, ()>
  {
    match FindByHandle(db.refunds, id, key)
    case None => Commit(db, ())
    case Some(i) => Settle(db, i, status, Some(id))
  }

  method ApplyProviderUpdate(
    tx: Database, id: ProviderRefundId, key: Option<IdempotencyKey>, status: RefundStatus)
    returns (result: Result<()>)
    modifies tx
    ensures result == ResultOf(ProviderUpdate(old(tx.View()), id, key, status))
    ensures tx.View() == After(old(tx.View()), ProviderUpdate(old(tx.View()), id, key, status))
  {
    var found := FindByHandle(tx.refunds, id, key);
    if found.None? { return Ok(()); }
    result := ApplySettlement(tx, found.value, status, Some(id));
  }

  // ── what every step keeps ────────────────────────────────────────────────────────────────

  /** One payment's books agree with its refund rows. */
  ghost predicate BooksBalance(db: Db, p: RowId)
    requires p < |db.payments|
  {
    var payment := db.payments[p];
    && payment.amount > 0
    && payment.refunded == SumRefunds(db.refunds, p, RefundStatus.Succeeded)
    && Committed(db, p) <= payment.amount
    && (Settled(payment.status) ==>
          payment.status == PaymentStatusFor(payment.amount, payment.refunded, PaymentStatus.Succeeded))
    && (!Settled(payment.status) ==> forall i | 0 <= i < |db.refunds| :: db.refunds[i].payment != p)
  }

  ghost predicate RefundRowsOk(refunds: seq<Refund>, payments: nat) {
    && (forall i | 0 <= i < |refunds| :: refunds[i].payment < payments && refunds[i].amount > 0)
    && (forall i, j | 0 <= i < j < |refunds| :: refunds[i].key != refunds[j].key)
  }

  ghost predicate LedgerInv(db: Db) {
    && (forall p | 0 <= p < |db.payments| :: BooksBalance(db, p))
    && RefundRowsOk(db.refunds, |db.payments|)
  }

  lemma SumAppend(refunds: seq<Refund>, refund: Refund, p: RowId, status: RefundStatus)
    ensures SumRefunds(refunds + [refund], p, status) ==
            SumRefunds(refunds, p, status) + Contribution(refund, p, status)
  {
    assert (refunds + [refund])[..|refunds|] == refunds;
  }

  lemma {:induction false} SumUpdate(refunds: seq<Refund>, i: nat, refund: Refund, p: RowId, status: RefundStatus)
    requires i < |refunds|
    ensures SumRefunds(refunds[i := refund], p, status) ==
            SumRefunds(refunds, p, status)
            - Contribution(refunds[i], p, status) + Contribution(refund, p, status)
  {
    var last := |refunds| - 1;
    if i == last {
      assert refunds[i := refund][..last] == refunds[..last];
    } else {
      assert refunds[i := refund][..last] == refunds[..last][i := refund];
      SumUpdate(refunds[..last], i, refund, p, status);
    }
  }

  lemma {:induction false} SumBounds(refunds: seq<Refund>, p: RowId, status: RefundStatus)
    requires forall i | 0 <= i < |refunds| :: refunds[i].amount > 0
    ensures SumRefunds(refunds, p, status) >= 0
    ensures (forall i | 0 <= i < |refunds| :: refunds[i].payment != p) ==> SumRefunds(refunds, p, status) == 0
  {
    if refunds != [] {
      SumBounds(refunds[..|refunds| - 1], p, status);
    }
  }

  lemma ReserveKeepsLedger(db: Db, booking: RowId, amount: RefundAmount, lenient: bool, key: IdempotencyKey)
    requires LedgerInv(db)
    ensures LedgerInv(After(db, Reserve(db, booking, amount, lenient, key)))
  {
    var next := After(db, Reserve(db, booking, amount, lenient, key));
    if next != db {
      var row := next.refunds[|db.refunds|];
      assert next.refunds == db.refunds + [row];
      forall p | 0 <= p < |next.payments| ensures BooksBalance(next, p) {
        assert BooksBalance(db, p);
        SumAppend(db.refunds, row, p, RefundStatus.Succeeded);
        SumAppend(db.refunds, row, p, RefundStatus.Pending);
      }
    }
  }

  lemma SettleKeepsLedger(db: Db, refund: RowId, status: RefundStatus, providerId: Option<ProviderRefundId>)
    requires LedgerInv(db)
    ensures LedgerInv(After(db, Settle(db, refund, status, providerId)))
  {
    var next := After(db, Settle(db, refund, status, providerId));
    if next != db {
      var row := db.refunds[refund];
      forall p | 0 <= p < |next.payments| ensures BooksBalance(next, p) {
        assert BooksBalance(db, p);
        SumUpdate(db.refunds, refund, next.refunds[refund], p, RefundStatus.Succeeded);
        SumUpdate(db.refunds, refund, next.refunds[refund], p, RefundStatus.Pending);
        SumBounds(next.refunds, p, RefundStatus.Succeeded);
        SumBounds(next.refunds, p, RefundStatus.Pending);
      }
    }
  }

  function Min(a: int, b: int): int { if a < b then a else b }
  function Max(a: int, b: int): int { if a < b then b else a }

  /** Only this refund row and its payment's total move, and the total by what the outcome says. */
  ghost predicate IsSettledAs(db: Db, next: Db, r: RowId, status: RefundStatus, providerId: Option<ProviderRefundId>)
    requires r < |db.refunds|
  {
    var row := db.refunds[r];
    var sent := if status == RefundStatus.Succeeded then row.amount else 0;
    && |next.refunds| == |db.refunds| && |next.payments| == |db.payments| && row.payment < |db.payments|
    && next.refunds[r] == row.(status := status, providerId := providerId)
    && (forall q | 0 <= q < |db.refunds| && q != r :: next.refunds[q] == db.refunds[q])
    && (forall p | 0 <= p < |db.payments| && p != row.payment :: next.payments[p] == db.payments[p])
    && (var was, now := db.payments[row.payment], next.payments[row.payment];
        && now == was.(refunded := was.refunded + sent, status := now.status)
        && (now.status == PaymentStatus.Refunded <==> now.refunded == now.amount)
        && (now.status == PaymentStatus.Succeeded <==> now.refunded == 0)
        && (now.status == PaymentStatus.PartiallyRefunded <==> 0 < now.refunded < now.amount))
    && next == db.(refunds := next.refunds, payments := next.payments, outbox := next.outbox)
    && next.outbox == if status == RefundStatus.Succeeded then db.outbox + [RefundSucceeded(r)] else db.outbox
  }

  /** A pending refund gets the outcome it is settled with, and the payment's total follows. */
  lemma PendingIsSettled(db: Db, r: RowId, status: RefundStatus, providerId: Option<ProviderRefundId>)
    requires LedgerInv(db) && r < |db.refunds| && db.refunds[r].status == RefundStatus.Pending
    requires forall q | 0 <= q < |db.refunds| && q != r :: db.refunds[q].providerId != providerId || providerId == None
    ensures
      var id := if providerId.Some? then providerId else db.refunds[r].providerId;
      IsSettledAs(db, After(db, Settle(db, r, status, providerId)), r, status, id)
  {
    var next := After(db, Settle(db, r, status, providerId));
    var p := db.refunds[r].payment;
    assert BooksBalance(db, p);
    SumUpdate(db.refunds, r, next.refunds[r], p, RefundStatus.Succeeded);
    SettleKeepsLedger(db, r, status, providerId);
    assert BooksBalance(next, p);
    SumBounds(next.refunds, p, RefundStatus.Succeeded);
    SumBounds(next.refunds, p, RefundStatus.Pending);
  }

  /**
   * A webhook settles the one row its handle leads to: a pending one gets the reported outcome and
   * the provider's id, one that was settled before stays as it is, and without a row nothing moves.
   */
  lemma WebhookSettlesItsRow(db: Db, id: ProviderRefundId, key: Option<IdempotencyKey>, status: RefundStatus)
    requires LedgerInv(db)
    ensures
      var next := After(db, ProviderUpdate(db, id, key, status));
      && ((forall q | 0 <= q < |db.refunds| :: !MatchesHandle(db.refunds[q], id, key)) ==> next == db)
      && (forall r | 0 <= r < |db.refunds| && MatchesHandle(db.refunds[r], id, key)
                     && (forall q | 0 <= q < |db.refunds| && q != r :: !MatchesHandle(db.refunds[q], id, key)) ::
            if db.refunds[r].status == RefundStatus.Pending then IsSettledAs(db, next, r, status, Some(id))
            else next == db)
  {
    var found := FindByHandle(db.refunds, id, key);
    forall r | 0 <= r < |db.refunds| && MatchesHandle(db.refunds[r], id, key)
               && (forall q | 0 <= q < |db.refunds| && q != r :: !MatchesHandle(db.refunds[q], id, key))
      ensures found == Some(r)
    {
      assert found.Some? && MatchesHandle(db.refunds[found.value], id, key);
    }
    if found.Some? && db.refunds[found.value].status == RefundStatus.Pending
       && (forall q | 0 <= q < |db.refunds| && q != found.value :: !MatchesHandle(db.refunds[q], id, key))
    {
      PendingIsSettled(db, found.value, status, Some(id));
    }
  }

  /**
   * Reserving towards a cumulative target raises the committed total to the target, as far as the
   * charge allows, and never lowers it. No other payment's total moves.
   */
  lemma TargetRaisesCommitted(db: Db, booking: RowId, target: Cents, lenient: bool, key: IdempotencyKey)
    requires LedgerInv(db) && booking < |db.bookings| && !KeyTaken(db.refunds, key)
    requires FindRefundable(db.payments, RootOf(db, booking)).Some?
    ensures Reserve(db, booking, CumulativeTarget(target), lenient, key).Commit?
    ensures
      var p := FindRefundable(db.payments, RootOf(db, booking)).value;
      var Commit(next, reservation) := Reserve(db, booking, CumulativeTarget(target), lenient, key);
      && next.payments == db.payments
      && Committed(next, p) == Max(Committed(db, p), Min(target, db.payments[p].amount))
      && reservation.additional == Committed(next, p) - Committed(db, p)
      && (reservation.refund.Some? <==> Committed(next, p) > Committed(db, p))
      && forall q | 0 <= q < |db.payments| && q != p :: Committed(next, q) == Committed(db, q)
  {
    var p := FindRefundable(db.payments, RootOf(db, booking)).value;
    assert BooksBalance(db, p);
    var Commit(next, reservation) := Reserve(db, booking, CumulativeTarget(target), lenient, key);
    if reservation.refund.Some? {
      var row := next.refunds[|db.refunds|];
      forall q | 0 <= q < |db.payments|
        ensures Committed(next, q) == Committed(db, q) + Contribution(row, q, RefundStatus.Pending)
      {
        SumAppend(db.refunds, row, q, RefundStatus.Pending);
      }
    }
  }

  /** The state after asking, leniently, for a cumulative target. */
  function Towards(db: Db, booking: RowId, target: Cents, key: IdempotencyKey): Db {
    After(db, Reserve(db, booking, CumulativeTarget(target), true, key))
  }

  /** A target that is already met, or capped at a total already reached, moves nothing. */
  lemma MetTargetMovesNothing(db: Db, booking: RowId, target: Cents, key: IdempotencyKey)
    requires booking < |db.bookings| && FindRefundable(db.payments, RootOf(db, booking)).Some?
    requires
      var p := FindRefundable(db.payments, RootOf(db, booking)).value;
      Committed(db, p) >= Min(target, db.payments[p].amount)
    ensures Towards(db, booking, target, key) == db
  {
  }

  lemma TowardsRaises(db: Db, booking: RowId, target: Cents, key: IdempotencyKey, other: IdempotencyKey)
    requires LedgerInv(db) && booking < |db.bookings| && key != other
    requires !KeyTaken(db.refunds, key) && !KeyTaken(db.refunds, other)
    requires FindRefundable(db.payments, RootOf(db, booking)).Some?
    ensures
      var p := FindRefundable(db.payments, RootOf(db, booking)).value;
      var next := Towards(db, booking, target, key);
      && LedgerInv(next) && !KeyTaken(next.refunds, other)
      && next.payments == db.payments && next.bookings == db.bookings
      && Committed(next, p) == Max(Committed(db, p), Min(target, db.payments[p].amount))
  {
    TargetRaisesCommitted(db, booking, target, true, key);
    ReserveKeepsLedger(db, booking, CumulativeTarget(target), true, key);
  }

  /** Stating the same target again moves nothing. */
  lemma TargetRepeats(db: Db, booking: RowId, target: Cents, k1: IdempotencyKey, k2: IdempotencyKey)
    requires LedgerInv(db) && booking < |db.bookings| && k1 != k2
    requires !KeyTaken(db.refunds, k1) && !KeyTaken(db.refunds, k2)
    ensures Towards(Towards(db, booking, target, k1), booking, target, k2) ==
            Towards(db, booking, target, k1)
  {
    if FindRefundable(db.payments, RootOf(db, booking)).Some? {
      TowardsRaises(db, booking, target, k1, k2);
      MetTargetMovesNothing(Towards(db, booking, target, k1), booking, target, k2);
    }
  }

  /** Two targets reach one total, in either order. */
  lemma {:induction false} TargetsCommute(
    db: Db, booking: RowId, first: Cents, second: Cents, k1: IdempotencyKey, k2: IdempotencyKey)
    requires LedgerInv(db) && booking < |db.bookings| && k1 != k2
    requires !KeyTaken(db.refunds, k1) && !KeyTaken(db.refunds, k2)
    requires FindRefundable(db.payments, RootOf(db, booking)).Some?
    ensures
      var p := FindRefundable(db.payments, RootOf(db, booking)).value;
      var both := Towards(Towards(db, booking, first, k1), booking, second, k2);
      var swapped := Towards(Towards(db, booking, second, k2), booking, first, k1);
      && both.payments == swapped.payments == db.payments
      && Committed(both, p) == Committed(swapped, p)
         == Max(Committed(db, p), Min(Max(first, second), db.payments[p].amount))
  {
    TowardsRaises(db, booking, first, k1, k2);
    TowardsRaises(db, booking, second, k2, k1);
    var one, other := Towards(db, booking, first, k1), Towards(db, booking, second, k2);
    TargetRaisesCommitted(one, booking, second, true, k2);
    TargetRaisesCommitted(other, booking, first, true, k1);
  }

  /** An additional amount is added exactly, or refused: never rounded down to what is left. */
  lemma AdditionalIsExact(db: Db, booking: RowId, cents: Cents, key: IdempotencyKey)
    requires LedgerInv(db) && booking < |db.bookings| && !KeyTaken(db.refunds, key)
    requires FindRefundable(db.payments, RootOf(db, booking)).Some?
    ensures
      var p := FindRefundable(db.payments, RootOf(db, booking)).value;
      var outcome := Reserve(db, booking, Additional(cents), false, key);
      && (outcome.Commit? <==> 0 < cents <= db.payments[p].amount - Committed(db, p))
      && (outcome.Commit? ==> Committed(outcome.state, p) == Committed(db, p) + cents)
      && (outcome.Abort? ==> outcome.error == PaymentNotRefundable)
  {
    var outcome := Reserve(db, booking, Additional(cents), false, key);
    if outcome.Commit? {
      SumAppend(db.refunds, outcome.state.refunds[|db.refunds|],
                FindRefundable(db.payments, RootOf(db, booking)).value, RefundStatus.Pending);
    }
  }
}
