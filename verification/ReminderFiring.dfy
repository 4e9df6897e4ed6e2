/**
 * Firing a reminder: if the appointment still is what the job says, mint a link, queue what is not
 * queued yet, and take the link back when nothing was.
 */
module ReminderFiring {
  import opened Outcomes
  import opened BookingStatuses
  import opened Records
  import R = Reminders

  datatype FireOutcome = Sent | Skipped

  /** The unique key of a message: booking, offset and time, and the channel. */
  predicate Holds(row: QueuedReminder, booking: RowId, offset: int, epochSeconds: int, sms: bool) {
    && row.booking == booking && row.offset == offset && row.epochSeconds == epochSeconds
    && (if sms then row.sms else row.email)
  }

  predicate IsQueued(reminders: seq<QueuedReminder>, booking: RowId, offset: int, epochSeconds: int, sms: bool) {
    exists i | 0 <= i < |reminders| :: Holds(reminders[i], booking, offset, epochSeconds, sms)
  }

  /** What the job has to find, and the offset has to be one that is configured. */
  predicate MayFire(db: Db, booking: RowId, offset: int, epochSeconds: int, offsets: seq<int>) {
    && booking < |db.bookings| && db.bookings[booking].status == Confirmed
    && R.StartsAtEpochSeconds(db.bookings[booking].startsAt) == epochSeconds
    && offset in offsets
  }

  function Announce(outbox: seq<Event>, booking: RowId, yes: bool): seq<Event> {
    if yes then outbox + [NotificationSend(booking)] else outbox
  }

  /** The transaction of a firing; it does not look at the booking again. */
  function QueueReminder(db: Db, booking: RowId, offset: int, epochSeconds: int, texts: bool): Db {
    var email := !IsQueued(db.reminders, booking, offset, epochSeconds, false);
    var sms := texts && !IsQueued(db.reminders, booking, offset, epochSeconds, true);
    if !email && !sms then db
    else
      db.(tokens := db.tokens + [ManagementToken(booking, false)],
          reminders := db.reminders + [QueuedReminder(booking, offset, epochSeconds, email, sms)],
          outbox := Announce(Announce(db.outbox, booking, email), booking, sms))
  }

  /** `texts` when text messages are switched on and the customer has a number. */
  function Fire(db: Db, booking: RowId, offset: int, epochSeconds: int, offsets: seq<int>, texts: bool)
    : (Db, FireOutcome)
  {
    if !MayFire(db, booking, offset, epochSeconds, offsets) then (db, Skipped)
    else (QueueReminder(db, booking, offset, epochSeconds, texts), Sent)
  }

  method FireReminder(
    tx: Database, booking: RowId, offset: int, epochSeconds: int, offsets: seq<int>, texts: bool)
    returns (outcome: FireOutcome)
    modifies tx
    ensures (tx.View(), outcome) == Fire(old(tx.View()), booking, offset, epochSeconds, offsets, texts)
  {
    if booking >= |tx.bookings| { return Skipped; }
    var row := tx.bookings[booking];
    if row.status != Confirmed { return Skipped; }
    if R.StartsAtEpochSeconds(row.startsAt) != epochSeconds { return Skipped; }
    if offset !in offsets { return Skipped; }

    var issued := |tx.tokens|;
    tx.tokens := tx.tokens + [ManagementToken(booking, false)];
    var email := !IsQueued(tx.reminders, booking, offset, epochSeconds, false);
    if email { tx.outbox := tx.outbox + [NotificationSend(booking)]; }
    var sms := false;
    if texts {
      sms := !IsQueued(tx.reminders, booking, offset, epochSeconds, true);
      if sms { tx.outbox := tx.outbox + [NotificationSend(booking)]; }
    }
    if email || sms {
      tx.reminders := tx.reminders + [QueuedReminder(booking, offset, epochSeconds, email, sms)];
    } else {
      tx.tokens := tx.tokens[..issued];
    }
    return Sent;
  }

  /** How many firings queued a message for a booking. */
  function CountFired(reminders: seq<QueuedReminder>, booking: RowId): nat {
    if reminders == [] then 0
    else CountFired(reminders[..|reminders| - 1], booking) +
         (if reminders[|reminders| - 1].booking == booking then 1 else 0)
  }

  /** How many messages to a booking were handed to the sender. */
  function CountSends(outbox: seq<Event>, booking: RowId): nat {
    if outbox == [] then 0
    else CountSends(outbox[..|outbox| - 1], booking) +
         (if outbox[|outbox| - 1] == NotificationSend(booking) then 1 else 0)
  }

  lemma SendsAppend(outbox: seq<Event>, event: Event, b: RowId)
    ensures CountSends(outbox + [event], b) == CountSends(outbox, b) + (if event == NotificationSend(b) then 1 else 0)
  {
    assert (outbox + [event])[..|outbox|] == outbox;
  }

  /** A channel is new: the message was not there, and is now. */
  predicate IsNew(db: Db, next: Db, booking: RowId, offset: int, epochSeconds: int, sms: bool) {
    && !IsQueued(db.reminders, booking, offset, epochSeconds, sms)
    && IsQueued(next.reminders, booking, offset, epochSeconds, sms)
  }

  /**
   * A firing that finds the appointment as the job says leaves its email queued, and its text message
   * exactly if texts are sent or it was there before. Each message that is new is handed to the sender
   * once, one link is minted if there is any, and nothing else moves; a firing that finds it otherwise
   * changes nothing.
   */
  lemma FiringQueuesWhatIsMissing(
    db: Db, booking: RowId, offset: int, epochSeconds: int, offsets: seq<int>, texts: bool)
    ensures
      var (next, outcome) := Fire(db, booking, offset, epochSeconds, offsets, texts);
      var fires := booking < |db.bookings| && db.bookings[booking].status == Confirmed
                   && R.StartsAtEpochSeconds(db.bookings[booking].startsAt) == epochSeconds && offset in offsets;
      var mail := IsNew(db, next, booking, offset, epochSeconds, false);
      var text := IsNew(db, next, booking, offset, epochSeconds, true);
      && (outcome == Sent <==> fires)
      && (!fires ==> next == db)
      && (fires ==>
            && IsQueued(next.reminders, booking, offset, epochSeconds, false)
            && (IsQueued(next.reminders, booking, offset, epochSeconds, true) <==>
                  texts || IsQueued(db.reminders, booking, offset, epochSeconds, true)))
      && CountSends(next.outbox, booking) ==
           CountSends(db.outbox, booking) + (if mail then 1 else 0) + (if text then 1 else 0)
      && next.tokens == (if mail || text then db.tokens + [ManagementToken(booking, false)] else db.tokens)
      && next == db.(tokens := next.tokens, reminders := next.reminders, outbox := next.outbox)
      && db.outbox <= next.outbox && db.reminders <= next.reminders && |next.reminders| <= |db.reminders| + 1
  {
    var (next, outcome) := Fire(db, booking, offset, epochSeconds, offsets, texts);
    if next != db {
      var row := next.reminders[|db.reminders|];
      assert next.reminders == db.reminders + [row];
      QueueOneMore(db.reminders, row, booking, offset, epochSeconds, false);
      QueueOneMore(db.reminders, row, booking, offset, epochSeconds, true);
      SendsAppend(db.outbox, NotificationSend(booking), booking);
      SendsAppend(Announce(db.outbox, booking, row.email), NotificationSend(booking), booking);
    }
  }

  lemma QueueOneMore(
    reminders: seq<QueuedReminder>, row: QueuedReminder, booking: RowId, offset: int, epochSeconds: int, sms: bool)
    ensures IsQueued(reminders + [row], booking, offset, epochSeconds, sms) <==>
            IsQueued(reminders, booking, offset, epochSeconds, sms) || Holds(row, booking, offset, epochSeconds, sms)
  {
    var more := reminders + [row];
    if IsQueued(reminders, booking, offset, epochSeconds, sms) {
      var i :| 0 <= i < |reminders| && Holds(reminders[i], booking, offset, epochSeconds, sms);
      assert Holds(more[i], booking, offset, epochSeconds, sms);
    }
    assert more[|reminders|] == row;
  }

  lemma FiredAppend(reminders: seq<QueuedReminder>, row: QueuedReminder, b: RowId)
    ensures CountFired(reminders + [row], b) == CountFired(reminders, b) + (if row.booking == b then 1 else 0)
  {
    assert (reminders + [row])[..|reminders|] == reminders;
  }

  /** Every row stands for a message, and no message is queued twice. */
  ghost predicate RemindersOk(reminders: seq<QueuedReminder>) {
    && (forall i | 0 <= i < |reminders| :: reminders[i].email || reminders[i].sms)
    && (forall i, j | 0 <= i < j < |reminders| :: Differ(reminders[i], reminders[j]))
  }

  predicate Differ(a: QueuedReminder, b: QueuedReminder) {
    a.booking == b.booking && a.offset == b.offset && a.epochSeconds == b.epochSeconds ==>
      !(a.email && b.email) && !(a.sms && b.sms)
  }

  lemma QueueKeepsReminders(db: Db, booking: RowId, offset: int, epochSeconds: int, texts: bool)
    requires RemindersOk(db.reminders)
    ensures RemindersOk(QueueReminder(db, booking, offset, epochSeconds, texts).reminders)
  {
    var next := QueueReminder(db, booking, offset, epochSeconds, texts);
    forall i, j | 0 <= i < j < |next.reminders| ensures Differ(next.reminders[i], next.reminders[j]) {
      if j == |db.reminders| {
        assert forall sms :: Holds(db.reminders[i], booking, offset, epochSeconds, sms) ==>
            IsQueued(db.reminders, booking, offset, epochSeconds, sms);
      }
    }
  }

  /** Once everything a firing would queue is there, it finds nothing to do, however much was queued since. */
  lemma QueuedForGood(db: Db, later: Db, booking: RowId, offset: int, epochSeconds: int, texts: bool)
    requires QueueReminder(db, booking, offset, epochSeconds, texts).reminders <= later.reminders
    ensures QueueReminder(later, booking, offset, epochSeconds, texts) == later
  {
    var next := QueueReminder(db, booking, offset, epochSeconds, texts);
    forall sms | sms ==> texts ensures IsQueued(later.reminders, booking, offset, epochSeconds, sms) {
      assert IsQueued(next.reminders, booking, offset, epochSeconds, sms) by {
        if !IsQueued(db.reminders, booking, offset, epochSeconds, sms) {
          assert Holds(next.reminders[|db.reminders|], booking, offset, epochSeconds, sms);
        } else {
          var i :| 0 <= i < |db.reminders| && Holds(db.reminders[i], booking, offset, epochSeconds, sms);
          assert Holds(next.reminders[i], booking, offset, epochSeconds, sms);
        }
      }
      var i :| 0 <= i < |next.reminders| && Holds(next.reminders[i], booking, offset, epochSeconds, sms);
      assert Holds(later.reminders[i], booking, offset, epochSeconds, sms);
    }
  }
}
