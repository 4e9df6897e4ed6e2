/**
 * What a slot check reads: the busy intervals of a window around the slot's local date, instead of
 * everything the employee ever did.
 */
module SnapshotWindow {
  import opened BookingStatuses
  import opened Calendar

  const MINUTE: int := 60_000
  const HOUR: int := 60 * MINUTE
  const DAY: int := 24 * HOUR

  /** Whole days read on each side of the slot's own. */
  const PADDING_DAYS: int := 1

  /** Half-open: an interval that ends where another starts does not touch it. */
  datatype Interval = Interval(start: Instant, end: Instant)

  predicate IsEmpty(i: Interval) {
    i.end <= i.start
  }

  predicate Overlaps(a: Interval, b: Interval) {
    !IsEmpty(a) && !IsEmpty(b) && a.start < b.end && b.start < a.end
  }

  /** The number of the local date an instant falls on, where the zone is `offset` ahead of UTC. */
  function LocalDate(instant: Instant, offset: int): int {
    (instant + offset) / DAY
  }

  /** UTC midnight of the padded local dates. */
  function Window(from: int, to: int): Interval {
    Interval((from - PADDING_DAYS) * DAY, (to + PADDING_DAYS + 1) * DAY)
  }

  /** A slot's own time with its buffers. */
  function BlockOf(startsAt: Instant, prep: nat, tail: nat): Interval {
    Interval(startsAt - prep, startsAt + tail)
  }

  /** The condition rows are read under. */
  predicate InWindow(i: Interval, window: Interval) {
    i.start < window.end && i.end > window.start
  }

  function Within(busy: seq<Interval>, window: Interval): seq<Interval> {
    if busy == [] then []
    else
      var init, last := busy[..|busy| - 1], busy[|busy| - 1];
      Within(init, window) + (if InWindow(last, window) then [last] else [])
  }

  /** The engine's test against what the employee is busy with. */
  predicate Clear(block: Interval, busy: seq<Interval>) {
    forall i | 0 <= i < |busy| :: !Overlaps(block, busy[i])
  }

  predicate ClearInWindow(startsAt: Instant, offset: int, prep: nat, tail: nat, busy: seq<Interval>) {
    var date := LocalDate(startsAt, offset);
    Clear(BlockOf(startsAt, prep, tail), Within(busy, Window(date, date)))
  }

  // ── loading ──────────────────────────────────────────────────────────────────────────────

  function BookedBy(rows: seq<Appointment>, e: EmployeeId, window: Interval): seq<Interval> {
    if rows == [] then []
    else
      var before, last := BookedBy(rows[..|rows| - 1], e, window), rows[|rows| - 1];
      var own := Interval(last.blockFrom, last.blockTo);
      if Takes(last, e) && InWindow(own, window) then before + [own] else before
  }

  function BlockedBy(rows: seq<BlockedTime>, e: EmployeeId, window: Interval): seq<Interval> {
    if rows == [] then []
    else
      var before, last := BlockedBy(rows[..|rows| - 1], e, window), rows[|rows| - 1];
      var own := Interval(last.from, last.to);
      if last.employee == e && !last.deleted && InWindow(own, window) then before + [own] else before
  }

  function Get(busy: map<EmployeeId, seq<Interval>>, e: EmployeeId): seq<Interval> {
    if e in busy then busy[e] else []
  }

  function Add(busy: map<EmployeeId, seq<Interval>>, e: EmployeeId, i: Interval)
    : (more: map<EmployeeId, seq<Interval>>)
    ensures more.Keys == busy.Keys + {e}
    ensures Get(more, e) == Get(busy, e) + [i]
    ensures forall other | other != e :: Get(more, other) == Get(busy, other)
  {
    busy[e := Get(busy, e) + [i]]
  }

  /** Two queries, grouped by employee: the appointments that count, then the blocked time. */
  method LoadBusy(table: Table, employees: set<EmployeeId>, window: Interval)
    returns (busy: map<EmployeeId, seq<Interval>>)
    ensures forall e | e in employees ::
              Get(busy, e) == BookedBy(table.appointments, e, window) + BlockedBy(table.blocked, e, window)
    ensures busy.Keys <= employees
  {
    busy := map[];
    for i := 0 to |table.appointments|
      invariant busy.Keys <= employees
      invariant forall e | e in employees :: Get(busy, e) == BookedBy(table.appointments[..i], e, window)
    {
      var row := table.appointments[i];
      var block := Interval(row.blockFrom, row.blockTo);
      assert table.appointments[..i + 1][..i] == table.appointments[..i];
      if row.employee in employees && IsBlocking(row.status) && InWindow(block, window) {
        busy := Add(busy, row.employee, block);
      }
    }
    assert table.appointments[..|table.appointments|] == table.appointments;
    busy := AddBlocked(table.blocked, employees, window, busy);
  }

  lemma AppendsNext(before: seq<Interval>, rows: seq<BlockedTime>, i: nat, e: EmployeeId, window: Interval)
    requires i < |rows|
    ensures
      var own := Interval(rows[i].from, rows[i].to);
      before + BlockedBy(rows[..i + 1], e, window) ==
      if rows[i].employee == e && !rows[i].deleted && InWindow(own, window)
      then before + BlockedBy(rows[..i], e, window) + [own]
      else before + BlockedBy(rows[..i], e, window)
  {
    assert rows[..i + 1][..i] == rows[..i];
  }

  method AddBlocked(
    rows: seq<BlockedTime>, employees: set<EmployeeId>, window: Interval, busy: map<EmployeeId, seq<Interval>>)
    returns (more: map<EmployeeId, seq<Interval>>)
    requires busy.Keys <= employees
    ensures more.Keys <= employees
    ensures forall e | e in employees :: Get(more, e) == Get(busy, e) + BlockedBy(rows, e, window)
  {
    more := busy;
    for i := 0 to |rows|
      invariant more.Keys <= employees
      invariant forall e | e in employees :: Get(more, e) == Get(busy, e) + BlockedBy(rows[..i], e, window)
    {
      var row := rows[i];
      forall e: EmployeeId {
        AppendsNext(Get(busy, e), rows, i, e, window);
      }
      if row.employee in employees && !row.deleted && InWindow(Interval(row.from, row.to), window) {
        more := Add(more, row.employee, Interval(row.from, row.to));
      }
    }
    assert rows[..|rows|] == rows;
  }

  // ── the window loses nothing ─────────────────────────────────────────────────────────────

  lemma {:induction false} WithinKeepsOverlaps(block: Interval, busy: seq<Interval>, window: Interval)
    requires window.start <= block.start && block.end <= window.end
    ensures Clear(block, Within(busy, window)) <==> Clear(block, busy)
  {
    if busy != [] {
      var init, last := busy[..|busy| - 1], busy[|busy| - 1];
      WithinKeepsOverlaps(block, init, window);
      var kept := Within(init, window);
      assert busy == init + [last];
      assert Clear(block, kept + [last]) <==> Clear(block, kept) && !Overlaps(block, last) by {
        assert (kept + [last])[|kept|] == last;
        assert forall i | 0 <= i < |kept| :: (kept + [last])[i] == kept[i];
      }
      assert Clear(block, busy) <==> Clear(block, init) && !Overlaps(block, last) by {
        assert busy[|init|] == last;
        assert forall i | 0 <= i < |init| :: busy[i] == init[i];
      }
      assert kept + [] == kept;
    }
  }

  /**
   * Reading the window gives every slot of a zone the same answer as reading everything, whatever
   * the employee is busy with, exactly when the buffers fit the slack the padding leaves beside
   * the zone's offset.
   */
  lemma WindowIsEnough(offset: int, prep: nat, tail: nat)
    requires 0 < tail
    ensures
      (forall startsAt, busy ::
         ClearInWindow(startsAt, offset, prep, tail, busy) <==> Clear(BlockOf(startsAt, prep, tail), busy)) <==>
      (prep <= DAY - offset && tail <= DAY + offset + 1)
  {
    if prep <= DAY - offset && tail <= DAY + offset + 1 {
      forall startsAt, busy
        ensures ClearInWindow(startsAt, offset, prep, tail, busy) <==> Clear(BlockOf(startsAt, prep, tail), busy)
      {
        var date := LocalDate(startsAt, offset);
        assert date * DAY <= startsAt + offset < (date + 1) * DAY;
        WithinKeepsOverlaps(BlockOf(startsAt, prep, tail), busy, Window(date, date));
      }
    } else if prep > DAY - offset {
      var startsAt := -offset;
      var first := Interval(startsAt - prep, startsAt - prep + 1);
      MissedOutside(startsAt, offset, prep, tail, first);
    } else {
      var startsAt := DAY - 1 - offset;
      var last := Interval(startsAt + tail - 1, startsAt + tail);
      MissedOutside(startsAt, offset, prep, tail, last);
    }
  }

  lemma MissedOutside(startsAt: Instant, offset: int, prep: nat, tail: nat, busy: Interval)
    requires Overlaps(BlockOf(startsAt, prep, tail), busy)
    requires var date := LocalDate(startsAt, offset); !InWindow(busy, Window(date, date))
    ensures ClearInWindow(startsAt, offset, prep, tail, [busy])
    ensures !Clear(BlockOf(startsAt, prep, tail), [busy])
  {
    assert [busy][..0] == [];
    assert [busy][0] == busy;
  }

  /**
   * The bounds the database holds services to, in any zone on earth: buffers of at most two hours,
   * at most eight hours of service, offsets from twelve hours behind UTC to fourteen ahead.
   */
  lemma ServicesFitTheWindow(startsAt: Instant, offset: int, prep: nat, duration: nat, cleanup: nat, busy: seq<Interval>)
    requires -12 * HOUR <= offset <= 14 * HOUR
    requires prep <= 120 * MINUTE && cleanup <= 120 * MINUTE && 5 * MINUTE <= duration <= 480 * MINUTE
    ensures ClearInWindow(startsAt, offset, prep, duration + cleanup, busy) <==>
            Clear(BlockOf(startsAt, prep, duration + cleanup), busy)
  {
    WindowIsEnough(offset, prep, duration + cleanup);
  }

  // ── what the calendar lock protects is what is checked ───────────────────────────────────

  predicate RowsHaveLength(table: Table) {
    && (forall i | 0 <= i < |table.appointments| :: table.appointments[i].blockFrom < table.appointments[i].blockTo)
    && (forall i | 0 <= i < |table.blocked| :: table.blocked[i].from < table.blocked[i].to)
  }

  lemma {:induction false} BookedIsTaken(rows: seq<Appointment>, e: EmployeeId, window: Interval, block: Interval)
    requires forall i | 0 <= i < |rows| :: rows[i].blockFrom < rows[i].blockTo
    requires window.start <= block.start < block.end <= window.end
    ensures Clear(block, BookedBy(rows, e, window)) <==>
            forall i | 0 <= i < |rows| :: Takes(rows[i], e) ==>
              !Overlap(rows[i].blockFrom, rows[i].blockTo, block.start, block.end)
  {
    if rows != [] {
      var init, last := rows[..|rows| - 1], rows[|rows| - 1];
      BookedIsTaken(init, e, window, block);
      var kept, own := BookedBy(init, e, window), Interval(last.blockFrom, last.blockTo);
      assert forall i | 0 <= i < |kept| :: (kept + [own])[i] == kept[i];
      assert (kept + [own])[|kept|] == own;
      assert Clear(block, kept + [own]) <==> Clear(block, kept) && !Overlaps(block, own);
      assert forall i | 0 <= i < |init| :: rows[i] == init[i];
    }
  }

  lemma {:induction false} BlockedIsBlocked(rows: seq<BlockedTime>, e: EmployeeId, window: Interval, block: Interval)
    requires forall i | 0 <= i < |rows| :: rows[i].from < rows[i].to
    requires window.start <= block.start < block.end <= window.end
    ensures Clear(block, BlockedBy(rows, e, window)) <==>
            forall i | 0 <= i < |rows| :: rows[i].employee == e && !rows[i].deleted ==>
              !Overlap(rows[i].from, rows[i].to, block.start, block.end)
  {
    if rows != [] {
      var init, last := rows[..|rows| - 1], rows[|rows| - 1];
      BlockedIsBlocked(init, e, window, block);
      var kept, own := BlockedBy(init, e, window), Interval(last.from, last.to);
      assert forall i | 0 <= i < |kept| :: (kept + [own])[i] == kept[i];
      assert (kept + [own])[|kept|] == own;
      assert Clear(block, kept + [own]) <==> Clear(block, kept) && !Overlaps(block, own);
      assert forall i | 0 <= i < |init| :: rows[i] == init[i];
    }
  }

  /**
   * The check a reservation makes on its loaded snapshot finds a slot clear exactly when the
   * calendar itself does: no appointment that counts and no blocked time in the way.
   */
  lemma SnapshotSeesTheCalendar(
    table: Table, e: EmployeeId, startsAt: Instant, offset: int, prep: nat, duration: nat, cleanup: nat)
    requires RowsHaveLength(table)
    requires -12 * HOUR <= offset <= 14 * HOUR
    requires prep <= 120 * MINUTE && cleanup <= 120 * MINUTE && 5 * MINUTE <= duration <= 480 * MINUTE
    ensures
      var date := LocalDate(startsAt, offset);
      var window := Window(date, date);
      var block := BlockOf(startsAt, prep, duration + cleanup);
      Clear(block, BookedBy(table.appointments, e, window) + BlockedBy(table.blocked, e, window)) <==>
      TimeFree(table, e, block.start, block.end)
      && forall i | 0 <= i < |table.blocked| :: var b := table.blocked[i];
           b.employee == e && !b.deleted ==> !Overlap(b.from, b.to, block.start, block.end)
  {
    var date := LocalDate(startsAt, offset);
    var window, block := Window(date, date), BlockOf(startsAt, prep, duration + cleanup);
    assert date * DAY <= startsAt + offset < (date + 1) * DAY;
    BookedIsTaken(table.appointments, e, window, block);
    BlockedIsBlocked(table.blocked, e, window, block);
    var booked, blocked := BookedBy(table.appointments, e, window), BlockedBy(table.blocked, e, window);
    assert forall i | 0 <= i < |booked| :: (booked + blocked)[i] == booked[i];
    assert forall i | 0 <= i < |blocked| :: (booked + blocked)[|booked| + i] == blocked[i];
    assert Clear(block, booked + blocked) <==> Clear(block, booked) && Clear(block, blocked);
  }
}
