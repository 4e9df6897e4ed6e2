/**
 * How a charge is refunded twice: a refund of all of it is made at the provider, recording the
 * provider's answer fails for good, the worker gives the refund up, and the balance that is free
 * again is refunded once more. It is a run of the refunds against the payment provider.
 */
module RefundRuns {
  import opened Outcomes
  import opened BookingStatuses
  import opened Records
  import opened Refunds
  import opened Operations
  import opened Sums
  import opened RefundWorld
  import B = Bookings

  lemma Then(actions: seq<Action>, action: Action)
    ensures WorldAfter(actions + [action]) == Step(WorldAfter(actions), action)
  {
    assert (actions + [action])[..|actions|] == actions;
  }

  /** A paid booking: one charge of one hundred. */
  const PAID: seq<Action> :=
    [] + [Transact(ReserveOp(B.Customer(0), 10, 20, 100))] + [Transact(ConfirmOp(0, 0, 100, Some(7)))]

  const FIRST_CALL: Message := Call(0, 1, 7, 100)
  const SECOND_CALL: Message := Call(1, 2, 7, 100)

  /** It is refunded in full, the provider takes the call, and settling the answer fails. */
  const GIVEN_UP: seq<Action> :=
    PAID + [Transact(RefundOp(0, 100, 1))] + [ReadRefund(0)]
    + [TakeCall(FIRST_CALL, true, RefundStatus.Succeeded)] + [GiveUp(FIRST_CALL)]

  /** The balance is free again, and is refunded once more. */
  const REFUNDED_TWICE: seq<Action> :=
    GIVEN_UP + [Transact(RefundOp(0, 100, 2))] + [ReadRefund(1)]
    + [TakeCall(SECOND_CALL, true, RefundStatus.Succeeded)]

  /** The parts of a world the run is about. */
  predicate Shows(w: World, refunds: seq<Refund>, provider: seq<ProviderRefund>) {
    && |w.db.bookings| == 1 && w.db.bookings[0].financialRoot == None
    && w.db.payments == [Payment(0, 0, 100, 0, PaymentStatus.Succeeded, Some(7))]
    && w.db.refunds == refunds && w.provider == provider && w.rejected == {}
  }

  lemma PaidWorld()
    ensures Shows(WorldAfter(PAID), [], [])
  {
    var reserve := Transact(ReserveOp(B.Customer(0), 10, 20, 100));
    Then([], reserve);
    var w := WorldAfter([] + [reserve]);
    assert w.db.bookings == [Booking(PendingPayment, Some(0), 10, 20, 100, None, None, None)];
    assert w.db.payments == [] && w.db.refunds == [];
    Then([] + [reserve], Transact(ConfirmOp(0, 0, 100, Some(7))));
  }

  lemma Reserves(w: World, refunds: seq<Refund>, provider: seq<ProviderRefund>, key: IdempotencyKey)
    requires Shows(w, refunds, provider) && SumRefunds(refunds, 0, RefundStatus.Pending) == 0
    requires forall i | 0 <= i < |refunds| :: refunds[i].key != key
    ensures Shows(Step(w, Transact(RefundOp(0, 100, key))),
                  refunds + [Refund(0, 0, 100, RefundStatus.Pending, key, None)], provider)
  {
    assert w.db.payments[..0] == [];
    assert FindRefundable(w.db.payments, 0) == Some(0);
  }

  lemma Calls(w: World, refunds: seq<Refund>, provider: seq<ProviderRefund>, key: IdempotencyKey)
    requires Shows(w, refunds + [Refund(0, 0, 100, RefundStatus.Pending, key, None)], provider)
    requires forall i | 0 <= i < |provider| :: provider[i].key != Some(key)
    ensures
      var call := Call(|refunds|, key, 7, 100);
      var done := Step(Step(w, ReadRefund(|refunds|)), TakeCall(call, true, RefundStatus.Succeeded));
      && call in done.wire
      && Shows(done, w.db.refunds, provider + [ProviderRefund(Some(key), 7, 100, RefundStatus.Succeeded)])
  {
    var call := Call(|refunds|, key, 7, 100);
    var read := Step(w, ReadRefund(|refunds|));
    assert read == w.(wire := w.wire + {call});
    assert FindKey(provider, key).None?;
  }

  /** One refund of the whole charge: reserved under a key, called for, and made. */
  lemma RefundIsMade(
    actions: seq<Action>, refunds: seq<Refund>, provider: seq<ProviderRefund>, key: IdempotencyKey)
    requires Shows(WorldAfter(actions), refunds, provider)
    requires SumRefunds(refunds, 0, RefundStatus.Pending) == 0
    requires forall i | 0 <= i < |refunds| :: refunds[i].key != key
    requires forall i | 0 <= i < |provider| :: provider[i].key != Some(key)
    ensures
      var call := Call(|refunds|, key, 7, 100);
      var done := WorldAfter(actions + [Transact(RefundOp(0, 100, key))] + [ReadRefund(|refunds|)]
                             + [TakeCall(call, true, RefundStatus.Succeeded)]);
      && call in done.wire
      && Shows(done, refunds + [Refund(0, 0, 100, RefundStatus.Pending, key, None)],
               provider + [ProviderRefund(Some(key), 7, 100, RefundStatus.Succeeded)])
  {
    var refund, read := Transact(RefundOp(0, 100, key)), ReadRefund(|refunds|);
    Then(actions, refund);
    Then(actions + [refund], read);
    Then(actions + [refund] + [read], TakeCall(Call(|refunds|, key, 7, 100), true, RefundStatus.Succeeded));
    Reserves(WorldAfter(actions), refunds, provider, key);
    Calls(Step(WorldAfter(actions), refund), refunds, provider, key);
  }

  lemma GivesUp(w: World, row: Refund, provider: seq<ProviderRefund>)
    requires Shows(w, [row], provider) && FIRST_CALL in w.wire
    requires row == Refund(0, 0, 100, RefundStatus.Pending, 1, None)
    ensures Shows(Step(w, GiveUp(FIRST_CALL)), [row.(status := RefundStatus.Failed)], provider)
  {
    OneRow(row.(status := RefundStatus.Failed));
    assert [row][0 := row.(status := RefundStatus.Failed)] == [row.(status := RefundStatus.Failed)];
  }

  const FAILED: Refund := Refund(0, 0, 100, RefundStatus.Failed, 1, None)
  const FIRST_MADE: ProviderRefund := ProviderRefund(Some(1), 7, 100, RefundStatus.Succeeded)
  const SECOND_MADE: ProviderRefund := ProviderRefund(Some(2), 7, 100, RefundStatus.Succeeded)

  lemma GivenUpWorld()
    ensures Shows(WorldAfter(GIVEN_UP), [FAILED], [FIRST_MADE])
  {
    var row := FAILED.(status := RefundStatus.Pending);
    var called := PAID + [Transact(RefundOp(0, 100, 1))] + [ReadRefund(0)]
                  + [TakeCall(FIRST_CALL, true, RefundStatus.Succeeded)];
    PaidWorld();
    RefundIsMade(PAID, [], [], 1);
    assert [] + [row] == [row] && [] + [FIRST_MADE] == [FIRST_MADE];
    GivesUp(WorldAfter(called), row, [FIRST_MADE]);
    Then(called, GiveUp(FIRST_CALL));
  }

  /**
   * So a worker that gives up on an answer it could not record makes the charge refundable twice:
   * two hundred sent on a payment of one hundred.
   */
  lemma GivingUpRefundsTwice()
    ensures
      var w := WorldAfter(REFUNDED_TWICE);
      && w.db.payments == [Payment(0, 0, 100, 0, PaymentStatus.Succeeded, Some(7))]
      && Sum(AtProvider(w.provider, 7, {RefundStatus.Succeeded})) == 200
      && !NothingLost(w)
  {
    GivenUpWorld();
    OneRow(FAILED);
    RefundIsMade(GIVEN_UP, [FAILED], [FIRST_MADE], 2);
    var w := WorldAfter(REFUNDED_TWICE);
    assert w.provider == [FIRST_MADE, SECOND_MADE] && w.db.refunds[0] == FAILED;
    assert Owns(w, 0, 0);
    assert AtProvider(w.provider, 7, {RefundStatus.Succeeded}) == [100, 100];
    SumOfPair(100, 100);
  }

  lemma OneRow(row: Refund)
    ensures SumRefunds([row], 0, RefundStatus.Pending) == Contribution(row, 0, RefundStatus.Pending)
    ensures SumRefunds([row], 0, RefundStatus.Succeeded) == Contribution(row, 0, RefundStatus.Succeeded)
  {
    assert [row][..0] == [];
  }
}
