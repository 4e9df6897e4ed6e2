/**
 * Three ways in which a booking is lost although it was paid for: its session was attached after a
 * worker had read that there is none, its session was never attached at all, or its session had
 * completed without being paid and was paid afterwards. Each is a run of the expiry of a reservation.
 */
module ExpiryRuns {
  import opened Outcomes
  import opened BookingStatuses
  import opened Records
  import opened Bookings
  import opened Operations
  import opened ExpiryWorld

  lemma Then(w: World, actions: seq<Action>, action: Action)
    ensures WorldFrom(w, actions + [action]) == Step(WorldFrom(w, actions), action)
  {
    assert (actions + [action])[..|actions|] == actions;
  }

  /** A reservation that was due, and the session opened for it. */
  const RESERVED: seq<Action> := [Transact(ReserveOp(Customer(0), 10, 20, 100)), OpenSession(0)]

  /**
   * Attaching does not look at the status. A session attached after a worker read that there is
   * none can be paid, and the booking expires.
   */
  const ATTACHED_LATE: seq<Action> :=
    RESERVED + [Transact(BeginOp(0, 0))] + [ReadBooking(0)] + [AttachSession(0)] + [Pay(0)]
    + [Decide(Read(0, None), 0, None)]

  /** The ordinary order: attached first, read by a worker afterwards. */
  const ATTACHED: seq<Action> := RESERVED + [AttachSession(0)] + [Transact(BeginOp(0, 0))] + [ReadBooking(0)]

  /** A session that completes unpaid is given up, and its payment can still arrive afterwards. */
  const PAID_TOO_LATE: seq<Action> :=
    ATTACHED + [CompleteWithoutPaying(0)] + [AskProvider(0, 0)] + [Decide(Answer(0, 0, CompleteUnpaid), 0, None)]
    + [SettleLate(0)]

  lemma ReservedWorld() returns (w: World)
    ensures w == WorldAfter(RESERVED)
    ensures w.sessions == [CheckoutSession(0, Open)] && w.known == {}
    ensures w.db.bookings == [Booking(PendingPayment, Some(0), 10, 20, 100, None, None, None)]
    ensures w.db.payments == []
  {
    var first := Transact(ReserveOp(Customer(0), 10, 20, 100));
    assert RESERVED == ([] + [first]) + [OpenSession(0)];
    Then(NOTHING, [], first);
    Then(NOTHING, [] + [first], OpenSession(0));
    w := WorldAfter(RESERVED);
  }

  lemma ExpiringReservation() returns (w: World)
    ensures w == WorldAfter(RESERVED + [Transact(BeginOp(0, 0))])
    ensures w.sessions == [CheckoutSession(0, Open)] && w.known == {}
    ensures w.db.bookings == [Booking(Expiring, Some(0), 10, 20, 100, None, None, None)] && w.db.payments == []
  {
    w := ReservedWorld();
    Then(NOTHING, RESERVED, Transact(BeginOp(0, 0)));
    w := WorldAfter(RESERVED + [Transact(BeginOp(0, 0))]);
  }

  /** The reservation began to expire, and a worker read that it has no session. */
  lemma ReadWithoutSession() returns (w: World)
    ensures w == WorldAfter(RESERVED + [Transact(BeginOp(0, 0))] + [ReadBooking(0)])
    ensures w.sessions == [CheckoutSession(0, Open)] && w.known == {Read(0, None)}
    ensures w.db.bookings == [Booking(Expiring, Some(0), 10, 20, 100, None, None, None)] && w.db.payments == []
  {
    w := ExpiringReservation();
    Then(NOTHING, RESERVED + [Transact(BeginOp(0, 0))], ReadBooking(0));
    w := WorldAfter(RESERVED + [Transact(BeginOp(0, 0))] + [ReadBooking(0)]);
  }

  lemma LateAttachLosesPaidBooking()
    ensures
      var w := WorldAfter(ATTACHED_LATE);
      && |w.db.bookings| == |w.sessions| == 1
      && w.db.bookings[0].status == Expired && w.db.bookings[0].session == Some(0)
      && w.sessions[0] == CheckoutSession(0, Paid)
  {
    var w := ReadWithoutSession();
    var actions := RESERVED + [Transact(BeginOp(0, 0))] + [ReadBooking(0)];
    Then(NOTHING, actions, AttachSession(0));
    var attached := Step(w, AttachSession(0));
    assert attached.db.bookings == [Booking(Expiring, Some(0), 10, 20, 100, Some(0), None, None)];
    Then(NOTHING, actions + [AttachSession(0)], Pay(0));
    Then(NOTHING, actions + [AttachSession(0)] + [Pay(0)], Decide(Read(0, None), 0, None));
  }

  /** A session that was opened, and paid, but never attached is not asked about at all. */
  const NEVER_ATTACHED: seq<Action> :=
    RESERVED + [Transact(BeginOp(0, 0))] + [ReadBooking(0)] + [Pay(0)] + [Decide(Read(0, None), 0, None)]

  lemma NeverAttachedLosesPaidBooking()
    ensures
      var w := WorldAfter(NEVER_ATTACHED);
      && |w.db.bookings| == |w.sessions| == 1
      && w.db.bookings[0].status == Expired && w.db.bookings[0].session == None
      && w.sessions[0] == CheckoutSession(0, Paid)
  {
    var w := ReadWithoutSession();
    var actions := RESERVED + [Transact(BeginOp(0, 0))] + [ReadBooking(0)];
    Then(NOTHING, actions, Pay(0));
    Then(NOTHING, actions + [Pay(0)], Decide(Read(0, None), 0, None));
  }

  lemma AttachNames(db: Db)
    requires db.bookings == [Booking(PendingPayment, Some(0), 10, 20, 100, None, None, None)] && db.payments == []
    ensures Apply(db, AttachOp(0, 0)).bookings == [Booking(PendingPayment, Some(0), 10, 20, 100, Some(0), None, None)]
  {
  }

  lemma AttachedReservation() returns (w: World)
    ensures w == WorldAfter(RESERVED + [AttachSession(0)])
    ensures w.sessions == [CheckoutSession(0, Open)] && w.known == {}
    ensures w.db.bookings == [Booking(PendingPayment, Some(0), 10, 20, 100, Some(0), None, None)]
  {
    w := ReservedWorld();
    AttachNames(w.db);
    Then(NOTHING, RESERVED, AttachSession(0));
    w := WorldAfter(RESERVED + [AttachSession(0)]);
  }

  lemma AttachedExpiring() returns (w: World)
    ensures w == WorldAfter(RESERVED + [AttachSession(0)] + [Transact(BeginOp(0, 0))])
    ensures w.sessions == [CheckoutSession(0, Open)] && w.known == {}
    ensures w.db.bookings == [Booking(Expiring, Some(0), 10, 20, 100, Some(0), None, None)]
  {
    w := AttachedReservation();
    Then(NOTHING, RESERVED + [AttachSession(0)], Transact(BeginOp(0, 0)));
    w := WorldAfter(RESERVED + [AttachSession(0)] + [Transact(BeginOp(0, 0))]);
  }

  lemma AttachedWorld() returns (w: World)
    ensures w == WorldAfter(ATTACHED)
    ensures w.sessions == [CheckoutSession(0, Open)] && w.known == {Read(0, Some(0))}
    ensures w.db.bookings == [Booking(Expiring, Some(0), 10, 20, 100, Some(0), None, None)]
  {
    w := AttachedExpiring();
    Then(NOTHING, RESERVED + [AttachSession(0)] + [Transact(BeginOp(0, 0))], ReadBooking(0));
    w := WorldAfter(ATTACHED);
  }

  /** The session completed without being paid, and the provider says so. */
  lemma CompletedWorld() returns (w: World)
    ensures w == WorldAfter(ATTACHED + [CompleteWithoutPaying(0)] + [AskProvider(0, 0)])
    ensures w.sessions == [CheckoutSession(0, CompletedUnpaid)]
    ensures Answer(0, 0, CompleteUnpaid) in w.known
    ensures w.db.bookings == [Booking(Expiring, Some(0), 10, 20, 100, Some(0), None, None)]
  {
    w := AttachedWorld();
    Then(NOTHING, ATTACHED, CompleteWithoutPaying(0));
    w := WorldAfter(ATTACHED + [CompleteWithoutPaying(0)]);
    Then(NOTHING, ATTACHED + [CompleteWithoutPaying(0)], AskProvider(0, 0));
    w := WorldAfter(ATTACHED + [CompleteWithoutPaying(0)] + [AskProvider(0, 0)]);
  }

  lemma AsynchronousPaymentLosesBooking()
    ensures
      var w := WorldAfter(PAID_TOO_LATE);
      && |w.db.bookings| == |w.sessions| == 1
      && w.db.bookings[0].status == Expired && w.db.bookings[0].session == Some(0)
      && w.sessions[0] == CheckoutSession(0, PaidLate)
  {
    var w := CompletedWorld();
    var actions := ATTACHED + [CompleteWithoutPaying(0)] + [AskProvider(0, 0)];
    Then(NOTHING, actions, Decide(Answer(0, 0, CompleteUnpaid), 0, None));
    Then(NOTHING, actions + [Decide(Answer(0, 0, CompleteUnpaid), 0, None)], SettleLate(0));
  }
}
