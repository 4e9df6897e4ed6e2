/**
 * The links customers manage a booking with: which of them work, and which reminders carried one.
 */
module ManagementLinks {
  import opened Outcomes
  import opened BookingStatuses
  import opened Records
  import opened Bookings
  import opened Cancellations
  import opened Operations
  import opened ReminderFiring

  /** A link is revoked exactly when its booking was replaced, and what was replaced is cancelled. */
  ghost predicate LinksOk(db: Db) {
    && (forall t | 0 <= t < |db.tokens| ::
          && db.tokens[t].booking < |db.bookings|
          && (db.tokens[t].revoked <==> AlreadyReplaced(db.bookings, db.tokens[t].booking)))
    && (forall b | 0 <= b < |db.bookings| && db.bookings[b].rescheduledFrom.Some? ::
          && db.bookings[b].rescheduledFrom.value < |db.bookings|
          && db.bookings[db.bookings[b].rescheduledFrom.value].status == CanceledByBusiness)
  }

  /** Bookings come and move, but nothing is replaced and no link is issued. */
  lemma LinksStay(db: Db, next: Db, now: Instant)
    requires LinksOk(db) && next.tokens == db.tokens && Decides(db, next, now)
    requires forall b | |db.bookings| <= b < |next.bookings| :: next.bookings[b].rescheduledFrom == None
    ensures LinksOk(next)
  {
    assert forall b | 0 <= b < |db.bookings| :: MovesInTime(db.bookings[b], next.bookings[b], now);
    forall c: nat ensures AlreadyReplaced(next.bookings, c) <==> AlreadyReplaced(db.bookings, c) {
      if b :| 0 <= b < |db.bookings| && db.bookings[b].rescheduledFrom == Some(c) {
        assert next.bookings[b].rescheduledFrom == Some(c);
      }
    }
  }

  lemma LinkIsAdded(db: Db, b: RowId)
    requires LinksOk(db) && b < |db.bookings| && !AlreadyReplaced(db.bookings, b)
    ensures LinksOk(db.(tokens := db.tokens + [ManagementToken(b, false)]))
  {
  }

  /** The replacement gets the one new link, and every link to what it replaces is revoked. */
  lemma MoveKeepsLinks(db: Db, next: Db, b: RowId, row: Booking)
    requires LinksOk(db) && b < |db.bookings| && row.rescheduledFrom == Some(b)
    requires next.bookings == db.bookings[b := db.bookings[b].(status := CanceledByBusiness)] + [row]
    requires next.tokens == RevokeTokens(db.tokens, b) + [ManagementToken(|db.bookings|, false)]
    ensures LinksOk(next)
  {
    forall c: nat | c != b ensures AlreadyReplaced(next.bookings, c) <==> AlreadyReplaced(db.bookings, c) {
      if d :| 0 <= d < |db.bookings| && db.bookings[d].rescheduledFrom == Some(c) {
        assert next.bookings[d].rescheduledFrom == Some(c);
      }
    }
    assert next.bookings[|db.bookings|].rescheduledFrom == Some(b);
  }

  predicate IssuesLinks(op: Op) {
    op.ReserveOp? || op.ConfirmOp? || op.RescheduleOp? || op.FireOp?
  }

  lemma OthersLeaveTokens(db: Db, op: Op)
    requires !IssuesLinks(op)
    ensures Apply(db, op).tokens == db.tokens && |Apply(db, op).bookings| == |db.bookings|
  {
    if op.ApproveOp? {
      var amount := ApprovalIsCancel(db, op.booking, op.suggested, op.retained, op.mayRefund, op.key);
    }
  }

  lemma ConfirmKeepsLinks(db: Db, op: Op, now: Instant)
    requires LinksOk(db) && op.ConfirmOp?
    ensures LinksOk(Apply(db, op))
  {
    var next := Apply(db, op);
    if next != db {
      ApplyDecides(db, op, now);
      LinksStay(db, next.(tokens := db.tokens), now);
      LinkIsAdded(next.(tokens := db.tokens), op.booking);
    }
  }

  lemma ReserveKeepsLinks(db: Db, op: Op, now: Instant)
    requires LinksOk(db) && op.ReserveOp?
    ensures LinksOk(Apply(db, op))
  {
    var next := Apply(db, op);
    ApplyDecides(db, op, now);
    LinksStay(db, next.(tokens := db.tokens), now);
    if next.tokens != db.tokens {
      LinkIsAdded(next.(tokens := db.tokens), |db.bookings|);
    }
  }

  lemma QueueKeepsLinks(db: Db, b: RowId, offset: int, epochSeconds: int, texts: bool)
    requires LinksOk(db) && b < |db.bookings| && !AlreadyReplaced(db.bookings, b)
    ensures LinksOk(QueueReminder(db, b, offset, epochSeconds, texts))
  {
    LinkIsAdded(db, b);
  }

  lemma ApplyKeepsLinks(db: Db, op: Op)
    requires LinksOk(db)
    ensures LinksOk(Apply(db, op))
  {
    var now := if op.BeginOp? || op.CompleteOp? || op.NoShowOp? then op.now else 0;
    match op
    case ReserveOp(_, _, _, _) => ReserveKeepsLinks(db, op, now);
    case ConfirmOp(_, _, _, _) => ConfirmKeepsLinks(db, op, now);
    case RescheduleOp(b, startsAt) =>
      if Reschedule(db, b, startsAt).Commit? {
        MoveKeepsLinks(db, Apply(db, op), b, Replacement(db, b, startsAt));
      }
    case FireOp(b, offset, epochSeconds, offsets, texts) =>
      if MayFire(db, b, offset, epochSeconds, offsets) {
        QueueKeepsLinks(db, b, offset, epochSeconds, texts);
      }
    case _ =>
      OthersLeaveTokens(db, op);
      ApplyDecides(db, op, now);
      LinksStay(db, Apply(db, op), now);
  }

  /** After any run a link works if and only if its booking was not replaced, whoever sent it. */
  lemma {:induction false} LinksWorkUntilMoved(ops: seq<Op>)
    ensures LinksOk(Run(ops))
  {
    if ops != [] {
      LinksWorkUntilMoved(ops[..|ops| - 1]);
      ApplyKeepsLinks(Run(ops[..|ops| - 1]), ops[|ops| - 1]);
    }
  }

  // ── reminders ────────────────────────────────────────────────────────────────────────────

  lemma OthersLeaveReminders(db: Db, op: Op)
    requires !op.FireOp?
    ensures Apply(db, op).reminders == db.reminders
  {
    if op.ApproveOp? {
      var amount := ApprovalIsCancel(db, op.booking, op.suggested, op.retained, op.mayRefund, op.key);
    }
  }

  /**
   * After any run, every reminder that is counted queued a message, and each message of a booking,
   * an offset and a time was queued once.
   */
  lemma {:induction false} RemindersAreQueuedOnce(ops: seq<Op>)
    ensures RemindersOk(Run(ops).reminders)
  {
    if ops != [] {
      var db, op := Run(ops[..|ops| - 1]), ops[|ops| - 1];
      RemindersAreQueuedOnce(ops[..|ops| - 1]);
      if op.FireOp? {
        QueueKeepsReminders(db, op.booking, op.offset, op.epochSeconds, op.texts);
      } else {
        OthersLeaveReminders(db, op);
      }
    }
  }

  /**
   * A firing that is delivered again, at whatever point of whatever continuation, changes nothing:
   * no message, and no link that works is left behind.
   */
  lemma RedeliveryChangesNothing(ops: seq<Op>, fire: Op, more: seq<Op>)
    requires fire.FireOp? && MayFire(Run(ops), fire.booking, fire.offset, fire.epochSeconds, fire.offsets)
    ensures Apply(Run(ops + [fire] + more), fire) == Run(ops + [fire] + more)
  {
    OneMore(ops, fire);
    DecidedForGood(ops + [fire], more);
    QueuedForGood(Run(ops), Run(ops + [fire] + more), fire.booking, fire.offset, fire.epochSeconds, fire.texts);
  }
}
