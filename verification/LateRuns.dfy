/**
 * What late writes do: an approval of a reschedule that lands after the customer has cancelled, with
 * everything set aside as a refund, and a reminder that lands after its booking has been moved. Both
 * are runs of the steps of stale reads, from an empty database on, over a booking that was paid for.
 */
module LateRuns {
  import opened Outcomes
  import opened BookingStatuses
  import opened Records
  import opened Refunds
  import opened Bookings
  import opened Cancellations
  import opened Operations
  import opened ManagementLinks
  import opened ReminderFiring
  import opened StaleReads

  lemma Then(steps: seq<Step>, step: Step)
    ensures WorldAfter(steps + [step]) == Take(WorldAfter(steps), step)
  {
    assert (steps + [step])[..|steps|] == steps;
  }

  /** A booking that was paid, and an approval that has just read it. */
  const READ: seq<Step> :=
    [] + [Transact(ReserveOp(Customer(0), 10, 20, 100))] + [Transact(ConfirmOp(0, 0, 100, Some(7)))]
    + [ReadForApproval(0)]

  const SOLD: Booking := Booking(Confirmed, None, 10, 20, 100, Some(0), None, None)
  const MOVED: Booking := Booking(Confirmed, None, 50, 60, 100, None, Some(0), Some(0))

  lemma ReadWorld()
    ensures WorldAfter(READ).known == {ForApproval(0, SOLD)}
    ensures
      var db := WorldAfter(READ).db;
      && db.bookings == [SOLD] && db.refunds == [] && db.reminders == []
      && db.tokens == [ManagementToken(0, false)]
      && db.payments == [Payment(0, 0, 100, 0, PaymentStatus.Succeeded, Some(7))]
  {
    var reserve := Transact(ReserveOp(Customer(0), 10, 20, 100));
    var confirm := Transact(ConfirmOp(0, 0, 100, Some(7)));
    Then([], reserve);
    var w := WorldAfter([] + [reserve]);
    assert w.db.bookings == [Booking(PendingPayment, Some(0), 10, 20, 100, None, None, None)];
    assert w.db.payments == [] && w.db.refunds == [] && w.db.tokens == [] && w.db.reminders == [] && w.known == {};
    Then([] + [reserve], confirm);
    Then([] + [reserve] + [confirm], ReadForApproval(0));
  }

  /** The customer cancels, and everything that was paid is set aside for them. */
  lemma CustomerCancels(db: Db)
    requires db.bookings == [SOLD] && db.refunds == []
    requires db.payments == [Payment(0, 0, 100, 0, PaymentStatus.Succeeded, Some(7))]
    ensures
      var next := Apply(db, CancelOp(0, 100, 1));
      && next.bookings == [SOLD.(status := CanceledByCustomer)]
      && next.refunds == [Refund(0, 0, 100, RefundStatus.Pending, 1, None)]
  {
    var moved := MoveTo(db, 0, SOLD.(status := CanceledByCustomer));
    assert moved.bookings == [SOLD.(status := CanceledByCustomer)];
    assert moved.payments[..0] == [];
    assert FindRefundable(moved.payments, 0) == Some(0);
  }

  /**
   * A customer who cancels while an approval has read the booking gets the full refund set aside,
   * and then the approval lands: the booking is no longer cancelled by the customer, and a new one,
   * at the same price, is confirmed in its place.
   */
  lemma LateApprovalUndoesCancellation()
    ensures
      var canceled := WorldAfter(READ + [Transact(CancelOp(0, 100, 1))]).db;
      var later := WorldAfter(READ + [Transact(CancelOp(0, 100, 1))] + [Approve(ForApproval(0, SOLD), 50)]).db;
      && canceled.bookings == [SOLD.(status := CanceledByCustomer)]
      && canceled.refunds == later.refunds == [Refund(0, 0, 100, RefundStatus.Pending, 1, None)]
      && later.bookings == [SOLD.(status := CanceledByBusiness), MOVED]
      && !StaysDecided(canceled, later)
  {
    ReadWorld();
    CustomerCancels(WorldAfter(READ).db);
    Then(READ, Transact(CancelOp(0, 100, 1)));
    Then(READ + [Transact(CancelOp(0, 100, 1))], Approve(ForApproval(0, SOLD), 50));
    var canceled := WorldAfter(READ + [Transact(CancelOp(0, 100, 1))]).db;
    LateUndoesDecision(canceled, 0, SOLD, 50);
  }

  /** The booking is moved, and the reminder is queued for what it was. */
  lemma MovedThenReminded(db: Db)
    requires db.bookings == [SOLD] && db.reminders == [] && db.tokens == [ManagementToken(0, false)]
    ensures
      var moved := ApproveFrom(db, 0, SOLD, 50);
      var later := QueueReminder(moved, 0, 60, 0, false);
      && moved.bookings == later.bookings == [SOLD.(status := CanceledByBusiness), MOVED]
      && moved.tokens == [ManagementToken(0, true), ManagementToken(1, false)]
      && later.tokens == [ManagementToken(0, true), ManagementToken(1, false), ManagementToken(0, false)]
  {
    assert !AlreadyReplaced(db.bookings, 0);
    assert RevokeTokens(db.tokens, 0) == [ManagementToken(0, true)];
  }

  /**
   * A reminder that looked at a booking before it was moved leaves a link to the old appointment
   * that works, though every link to it had been revoked.
   */
  lemma LateReminderLeavesALink()
    ensures
      var looked := READ + [ReadForReminder(0, 60, 0, [60])];
      var moved := WorldAfter(looked + [Approve(ForApproval(0, SOLD), 50)]).db;
      var later := WorldAfter(looked + [Approve(ForApproval(0, SOLD), 50)] + [Remind(ForReminder(0, 60, 0), false)]).db;
      && moved.bookings == later.bookings == [SOLD.(status := CanceledByBusiness), MOVED]
      && moved.tokens == [ManagementToken(0, true), ManagementToken(1, false)]
      && later.tokens == [ManagementToken(0, true), ManagementToken(1, false), ManagementToken(0, false)]
      && !LinksOk(later)
  {
    var looked := READ + [ReadForReminder(0, 60, 0, [60])];
    var approve, remind := Approve(ForApproval(0, SOLD), 50), Remind(ForReminder(0, 60, 0), false);
    ReadWorld();
    Then(READ, ReadForReminder(0, 60, 0, [60]));
    Then(looked, approve);
    Then(looked + [approve], remind);
    MovedThenReminded(WorldAfter(looked).db);
    var later := WorldAfter(looked + [approve] + [remind]).db;
    assert later.bookings[1].rescheduledFrom == Some(0);
    assert AlreadyReplaced(later.bookings, 0) && later.tokens[2] == ManagementToken(0, false);
  }
}
