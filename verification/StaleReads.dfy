/**
 * Services that look at a booking first and write later, with no lock on its row in between: approving a
 * reschedule, and firing a reminder.
 */
module StaleReads {
  import opened Outcomes
  import opened BookingStatuses
  import opened Records
  import opened Refunds
  import opened Bookings
  import opened Cancellations
  import opened Operations
  import opened ManagementLinks
  import opened ReminderFiring

  /** What was seen when the booking was read and found fit. */
  datatype Read =
    | ForApproval(booking: RowId, seen: Booking)
    | ForReminder(booking: RowId, offset: int, epochSeconds: int)

  /** What was read stays for good: whoever read it may write late, more than once, or never. */
  datatype World = World(db: Db, known: set<Read>)

  datatype Step =
    | Transact(op: Op)
    | ReadForApproval(booking: RowId)
    | Approve(read: Read, startsAt: Instant)
    | ReadForReminder(booking: RowId, offset: int, epochSeconds: int, offsets: seq<int>)
    | Remind(read: Read, texts: bool)

  /**
   * The writes of an approval, made from the row it read; a second replacement of a booking
   * violates a unique column, and everything is rolled back.
   */
  function ApproveFrom(db: Db, b: RowId, seen: Booking, startsAt: Instant): Db {
    if b >= |db.bookings| || AlreadyReplaced(db.bookings, b) then db
    else
      var id := |db.bookings|;
      var root := if seen.financialRoot.Some? then seen.financialRoot.value else b;
      var row := Booking(Confirmed, None, startsAt, startsAt + (seen.endsAt - seen.startsAt), seen.price, None,
                         Some(b), Some(root));
      db.(bookings := db.bookings[b := db.bookings[b].(status := CanceledByBusiness)] + [row],
          history := db.history + [StatusChange(b, Some(seen.status), CanceledByBusiness)]
                     + [StatusChange(id, None, Confirmed)],
          tokens := RevokeTokens(db.tokens, b) + [ManagementToken(id, false)],
          outbox := db.outbox + [BookingRescheduled(id, b), ReminderSchedule(id)])
  }

  function Take(w: World, step: Step): World {
    match step
    case Transact(op) => w.(db := Apply(w.db, op))
    case ReadForApproval(b) =>
      if b < |w.db.bookings| && w.db.bookings[b].status == Confirmed then
        w.(known := w.known + {ForApproval(b, w.db.bookings[b])})
      else w
    case Approve(read, startsAt) =>
      if read in w.known && read.ForApproval? then
        w.(db := ApproveFrom(w.db, read.booking, read.seen, startsAt))
      else w
    case ReadForReminder(b, offset, epochSeconds, offsets) =>
      if MayFire(w.db, b, offset, epochSeconds, offsets) then
        w.(known := w.known + {ForReminder(b, offset, epochSeconds)})
      else w
    case Remind(read, texts) =>
      if read in w.known && read.ForReminder? then
        w.(db := QueueReminder(w.db, read.booking, read.offset, read.epochSeconds, texts))
      else w
  }

  const NOTHING := World(EMPTY, {})

  function WorldAfter(steps: seq<Step>): World {
    if steps == [] then NOTHING else Take(WorldAfter(steps[..|steps| - 1]), steps[|steps| - 1])
  }

  /** What was read is about a booking that was confirmed then, on the terms it still has. */
  ghost predicate ReadsOk(w: World) {
    forall read | read in w.known ::
      && read.booking < |w.db.bookings|
      && (read.ForApproval? ==>
            read.seen.status == Confirmed && SameTerms(read.seen, w.db.bookings[read.booking]))
  }

  lemma TakeKeepsReads(w: World, step: Step)
    requires ReadsOk(w)
    ensures ReadsOk(Take(w, step))
  {
    var next := Take(w, step);
    if step.Transact? {
      var op := step.op;
      var now := if op.BeginOp? || op.CompleteOp? || op.NoShowOp? then op.now else 0;
      ApplyDecides(w.db, op, now);
      forall read | read in next.known && read.ForApproval?
        ensures SameTerms(read.seen, next.db.bookings[read.booking])
      {
        assert MovesInTime(w.db.bookings[read.booking], next.db.bookings[read.booking], now);
      }
    }
  }

  lemma {:induction false} ReadsStayOk(steps: seq<Step>)
    ensures ReadsOk(WorldAfter(steps))
  {
    if steps != [] {
      ReadsStayOk(steps[..|steps| - 1]);
      TakeKeepsReads(WorldAfter(steps[..|steps| - 1]), steps[|steps| - 1]);
    }
  }

  // ── an approval that lands ───────────────────────────────────────────────────────────────

  /** The approval writes something. */
  predicate Lands(w: World, step: Step) {
    && step.Approve? && step.read in w.known && step.read.ForApproval?
    && step.read.booking < |w.db.bookings| && !AlreadyReplaced(w.db.bookings, step.read.booking)
  }

  /** If it does, the booking is still what was read. */
  predicate LandsInTime(w: World, step: Step) {
    Lands(w, step) ==> w.db.bookings[step.read.booking].status == Confirmed
  }

  lemma InTimeIsAtomic(db: Db, b: RowId, seen: Booking, startsAt: Instant)
    requires b < |db.bookings| && seen.status == Confirmed && SameTerms(seen, db.bookings[b])
    requires !AlreadyReplaced(db.bookings, b) ==> db.bookings[b].status == Confirmed
    ensures
      var next := ApproveFrom(db, b, seen, startsAt);
      next == db || next == Apply(db, RescheduleOp(b, startsAt))
  {
    if !AlreadyReplaced(db.bookings, b) {
      var next := ApproveFrom(db, b, seen, startsAt);
      var atomic := Reschedule(db, b, startsAt).state;
      assert next.bookings == atomic.bookings && next.history == atomic.history;
    }
  }

  /** One that lands late leaves a history that is no run of the status machine. */
  lemma LateBreaksHistory(db: Db, b: RowId, seen: Booking, startsAt: Instant)
    requires HistoriesValid(db.bookings, db.history) && b < |db.bookings| && !AlreadyReplaced(db.bookings, b)
    requires seen.status == Confirmed && db.bookings[b].status != Confirmed
    ensures
      var next := ApproveFrom(db, b, seen, startsAt);
      !HistoriesValid(next.bookings, next.history)
  {
    var next := ApproveFrom(db, b, seen, startsAt);
    var left := StatusChange(b, Some(Confirmed), CanceledByBusiness);
    var made := StatusChange(|db.bookings|, None, Confirmed);
    var rows := HistoryOf(db.history, b);
    assert HistoryOk(db.bookings[b], rows);
    HistoryOfAppend(db.history, left, b);
    HistoryOfAppend(db.history + [left], made, b);
    assert HistoryOf(next.history, b) == rows + [left];
    assert (rows + [left])[|rows|].from != Some((rows + [left])[|rows| - 1].to);
    assert !HistoryOk(next.bookings[b], HistoryOf(next.history, b));
  }

  /** What it undoes: any decision but a cancellation by the business. */
  lemma LateUndoesDecision(db: Db, b: RowId, seen: Booking, startsAt: Instant)
    requires b < |db.bookings| && !AlreadyReplaced(db.bookings, b)
    ensures StaysDecided(db, ApproveFrom(db, b, seen, startsAt)) <==>
            !IsTerminal(db.bookings[b].status) || db.bookings[b].status == CanceledByBusiness
  {
    var next := ApproveFrom(db, b, seen, startsAt);
    assert next.bookings[b].status == CanceledByBusiness;
    assert forall c: nat | c < |db.bookings| && c != b :: next.bookings[c] == db.bookings[c];
  }

  ghost predicate AlwaysInTime(steps: seq<Step>) {
    steps != [] ==>
      var init := steps[..|steps| - 1];
      AlwaysInTime(init) && LandsInTime(WorldAfter(init), steps[|steps| - 1])
  }

  lemma TakeKeeps(w: World, step: Step)
    requires Inv(w.db) && ReadsOk(w) && LandsInTime(w, step)
    ensures Inv(Take(w, step).db) && StaysDecided(w.db, Take(w, step).db)
  {
    match step
    case Transact(op) =>
      ApplyKeeps(w.db, op);
      ApplyStaysDecided(w.db, op);
    case Approve(read, startsAt) =>
      if read in w.known && read.ForApproval? {
        InTimeIsAtomic(w.db, read.booking, read.seen, startsAt);
        ApplyKeeps(w.db, RescheduleOp(read.booking, startsAt));
        ApplyStaysDecided(w.db, RescheduleOp(read.booking, startsAt));
      }
    case Remind(read, texts) =>
      if read in w.known && read.ForReminder? {
        QueueKeeps(w.db, read.booking, read.offset, read.epochSeconds, texts);
      }
    case _ =>
  }

  /** A run in which no approval lands late keeps the ledger, the histories, the sessions and the chains. */
  lemma {:induction false} InTimeKeepsAll(steps: seq<Step>)
    requires AlwaysInTime(steps)
    ensures Inv(WorldAfter(steps).db)
  {
    if steps == [] {
      RunsKeepInv([]);
    } else {
      var init := steps[..|steps| - 1];
      InTimeKeepsAll(init);
      ReadsStayOk(init);
      TakeKeeps(WorldAfter(init), steps[|steps| - 1]);
    }
  }

  /** The histories are runs of the machine, and the last step undid nothing. */
  ghost predicate IsRight(steps: seq<Step>) {
    && HistoriesValid(WorldAfter(steps).db.bookings, WorldAfter(steps).db.history)
    && (steps != [] ==> StaysDecided(WorldAfter(steps[..|steps| - 1]).db, WorldAfter(steps).db))
  }

  ghost predicate AlwaysRight(steps: seq<Step>) {
    IsRight(steps) && (steps != [] ==> AlwaysRight(steps[..|steps| - 1]))
  }

  lemma LateIsWrong(init: seq<Step>, step: Step)
    requires HistoriesValid(WorldAfter(init).db.bookings, WorldAfter(init).db.history)
    requires !LandsInTime(WorldAfter(init), step)
    ensures
      var next := Take(WorldAfter(init), step).db;
      !HistoriesValid(next.bookings, next.history)
  {
    ReadsStayOk(init);
    var w := WorldAfter(init);
    LateBreaksHistory(w.db, step.read.booking, step.read.seen, step.startsAt);
  }

  /**
   * In every run, whatever else happens between reading and writing: the status histories are runs
   * of the machine and what was decided stays decided at every step, if and only if each approval
   * that lands finds its booking still CONFIRMED.
   */
  lemma {:induction false} ApprovalsAreSafeIffInTime(steps: seq<Step>)
    ensures AlwaysRight(steps) <==> AlwaysInTime(steps)
  {
    if steps == [] {
      RunsKeepInv([]);
    } else {
      var init, last := steps[..|steps| - 1], steps[|steps| - 1];
      ApprovalsAreSafeIffInTime(init);
      if AlwaysInTime(init) {
        if LandsInTime(WorldAfter(init), last) {
          InTimeKeepsAll(init);
          ReadsStayOk(init);
          TakeKeeps(WorldAfter(init), last);
        } else {
          LateIsWrong(init, last);
        }
      }
    }
  }

  // ── a reminder that lands ────────────────────────────────────────────────────────────────

  /** A reminder that queues a message finds its booking not replaced since. */
  predicate RemindsInTime(w: World, step: Step) {
    step.Remind? && Take(w, step) != w ==> !AlreadyReplaced(w.db.bookings, step.read.booking)
  }

  ghost predicate AlwaysRemindsInTime(steps: seq<Step>) {
    steps != [] ==>
      var init := steps[..|steps| - 1];
      AlwaysRemindsInTime(init) && RemindsInTime(WorldAfter(init), steps[|steps| - 1])
  }

  ghost predicate LinksAlwaysOk(steps: seq<Step>) {
    LinksOk(WorldAfter(steps).db) && (steps != [] ==> LinksAlwaysOk(steps[..|steps| - 1]))
  }

  lemma ApproveKeepsLinks(db: Db, b: RowId, seen: Booking, startsAt: Instant)
    requires LinksOk(db)
    ensures LinksOk(ApproveFrom(db, b, seen, startsAt))
  {
    var next := ApproveFrom(db, b, seen, startsAt);
    if next != db {
      MoveKeepsLinks(db, next, b, next.bookings[|db.bookings|]);
    }
  }

  lemma LinksOkIffInTime(w: World, step: Step)
    requires LinksOk(w.db) && ReadsOk(w)
    ensures LinksOk(Take(w, step).db) <==> RemindsInTime(w, step)
  {
    match step
    case Transact(op) => ApplyKeepsLinks(w.db, op);
    case Approve(read, startsAt) =>
      if read in w.known && read.ForApproval? {
        ApproveKeepsLinks(w.db, read.booking, read.seen, startsAt);
      }
    case Remind(read, texts) =>
      if Take(w, step) != w {
        var next := Take(w, step).db;
        assert next.tokens[|w.db.tokens|] == ManagementToken(read.booking, false);
        if RemindsInTime(w, step) {
          QueueKeepsLinks(w.db, read.booking, read.offset, read.epochSeconds, texts);
        }
      }
    case _ =>
  }

  /**
   * In every run, late approvals included: no link ever works for a booking that was replaced if
   * and only if each reminder that queues a message finds its booking not replaced since it looked.
   */
  lemma {:induction false} LinksAreSafeIffInTime(steps: seq<Step>)
    ensures LinksAlwaysOk(steps) <==> AlwaysRemindsInTime(steps)
  {
    if steps != [] {
      var init := steps[..|steps| - 1];
      LinksAreSafeIffInTime(init);
      if LinksAlwaysOk(init) {
        ReadsStayOk(init);
        LinksOkIffInTime(WorldAfter(init), steps[|steps| - 1]);
      }
    }
  }
}
