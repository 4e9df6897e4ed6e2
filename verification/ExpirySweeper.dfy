/** The sweep that begins the expiry of whatever reservations are overdue. */
module ExpirySweeper {
  import opened Outcomes
  import opened BookingStatuses
  import opened Records
  import opened Bookings

  predicate IsOverdue(row: Booking, now: Instant) {
    row.status == PendingPayment && row.expiresAt.Some? && row.expiresAt.value <= now
  }

  /** The bookings a list names that are overdue in this state. */
  function Overdue(bookings: seq<Booking>, due: seq<RowId>, now: Instant): set<RowId> {
    set b | b in due && b < |bookings| && IsOverdue(bookings[b], now)
  }

  /** The same bookings, with these on their way out. */
  function WithExpiring(bookings: seq<Booking>, which: set<RowId>): (moved: seq<Booking>)
    ensures |moved| == |bookings|
    ensures forall b | 0 <= b < |bookings| ::
              moved[b] == if b in which then bookings[b].(status := Expiring) else bookings[b]
  {
    seq(|bookings|, b requires 0 <= b < |bookings| =>
      if b in which then bookings[b].(status := Expiring) else bookings[b])
  }

  /** One more of the list: it is begun if it is overdue and was not begun already. */
  lemma BeginsOne(db: Db, bookings: seq<Booking>, due: seq<RowId>, b: RowId, now: Instant)
    requires db.bookings == WithExpiring(bookings, Overdue(bookings, due, now))
    ensures
      var done := Overdue(bookings, due, now);
      var more := Overdue(bookings, due + [b], now);
      var (next, outcome) := Begin(db, b, now);
      && next.bookings == WithExpiring(bookings, more)
      && |more| == |done| + (if outcome == Began then 1 else 0)
      && |next.history| == |db.history| + (if outcome == Began then 1 else 0)
      && next.payments == db.payments && next.refunds == db.refunds
  {
    var done := Overdue(bookings, due, now);
    if b < |bookings| && IsOverdue(bookings[b], now) && b !in due {
      assert Overdue(bookings, due + [b], now) == done + {b};
    } else {
      assert Overdue(bookings, due + [b], now) == done;
    }
  }

  /**
   * A sweep over a list read earlier, which may name a booking twice or one that another worker
   * has moved since. It begins expiry for exactly the bookings that are still overdue, once
   * each, touches no other booking, and reports how many it began.
   */
  method SweepOverdue(tx: Database, due: seq<RowId>, now: Instant) returns (began: nat)
    modifies tx
    ensures tx.bookings == WithExpiring(old(tx.bookings), Overdue(old(tx.bookings), due, now))
    ensures began == |Overdue(old(tx.bookings), due, now)|
    ensures |tx.history| == |old(tx.history)| + began
    ensures tx.payments == old(tx.payments) && tx.refunds == old(tx.refunds)
  {
    began := 0;
    ghost var before := tx.View();
    for i := 0 to |due|
      invariant tx.bookings == WithExpiring(before.bookings, Overdue(before.bookings, due[..i], now))
      invariant began == |Overdue(before.bookings, due[..i], now)|
      invariant |tx.history| == |before.history| + began
      invariant tx.payments == before.payments && tx.refunds == before.refunds
    {
      BeginsOne(tx.View(), before.bookings, due[..i], due[i], now);
      assert due[..i + 1] == due[..i] + [due[i]];
      var outcome := BeginExpiry(tx, due[i], now);
      if outcome == Began {
        began := began + 1;
      }
    }
    assert due[..|due|] == due;
  }
}
