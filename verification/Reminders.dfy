/** Rebuilding the reminders the queue has lost: bounded, page by page, tenant by tenant. */
module Reminders {
  import opened Outcomes

  type BookingId = nat
  type OrganizationId = nat

  /** Epoch milliseconds. */
  type Instant = int

  /** How many jobs one rebuild puts back, and how many bookings it reads at a time. */
  const BATCH: nat := 500

  const MINUTE: int := 60_000

  /** A confirmed booking that starts within the horizon. */
  datatype Booking = Booking(id: BookingId, organization: OrganizationId, startsAt: Instant)

  /** What names a reminder: its job id, and the key a sent one is remembered by. */
  datatype Reminder = Reminder(offset: int, booking: BookingId, epochSeconds: int)

  function StartsAtEpochSeconds(startsAt: Instant): int {
    startsAt / 1000
  }

  function ReminderOf(b: Booking, offset: int): Reminder {
    Reminder(offset, b.id, StartsAtEpochSeconds(b.startsAt))
  }

  /** A reminder whose time has passed is skipped. */
  predicate IsDue(b: Booking, offset: int, now: Instant) {
    b.startsAt - offset * MINUTE - now > 0
  }

  /** Every reminder that should be queued and is not, and was not handled before. */
  function Missing(
    bookings: seq<Booking>, offsets: OrganizationId -> seq<int>, handled: set<Reminder>, jobs: set<Reminder>, now: Instant)
    : set<Reminder>
  {
    set b, o | b in bookings && o in offsets(b.organization) && IsDue(b, o, now)
               && ReminderOf(b, o) !in handled && ReminderOf(b, o) !in jobs :: ReminderOf(b, o)
  }

  /** Nothing is missing for this booking. */
  predicate IsCovered(b: Booking, offsets: seq<int>, handled: set<Reminder>, jobs: set<Reminder>, now: Instant) {
    forall o | o in offsets && IsDue(b, o, now) :: ReminderOf(b, o) in handled || ReminderOf(b, o) in jobs
  }

  // ── grouping ─────────────────────────────────────────────────────────────────────────────

  datatype Group = Group(organization: OrganizationId, bookings: seq<Booking>)

  /** An organization's bookings, in the order they are listed. */
  function BookingsOf(bookings: seq<Booking>, organization: OrganizationId): seq<Booking> {
    if bookings == [] then []
    else
      var init, last := BookingsOf(bookings[..|bookings| - 1], organization), bookings[|bookings| - 1];
      if last.organization == organization then init + [last] else init
  }

  /** The organizations of a list, in the order they are first named. */
  function FirstNamed(bookings: seq<Booking>): seq<OrganizationId> {
    if bookings == [] then []
    else
      var init, last := FirstNamed(bookings[..|bookings| - 1]), bookings[|bookings| - 1];
      if last.organization in init then init else init + [last.organization]
  }

  /** A group for each organization in that order, holding all of its bookings in theirs. */
  predicate IsGrouping(groups: seq<Group>, bookings: seq<Booking>) {
    var organizations := FirstNamed(bookings);
    && |groups| == |organizations|
    && forall i | 0 <= i < |groups| ::
         groups[i] == Group(organizations[i], BookingsOf(bookings, organizations[i]))
  }

  lemma {:induction false} FirstNamedIsDistinct(bookings: seq<Booking>)
    ensures forall i, j | 0 <= i < j < |FirstNamed(bookings)| :: FirstNamed(bookings)[i] != FirstNamed(bookings)[j]
    ensures forall b | b in bookings :: b.organization in FirstNamed(bookings)
  {
    if bookings != [] {
      FirstNamedIsDistinct(bookings[..|bookings| - 1]);
      assert bookings == bookings[..|bookings| - 1] + [bookings[|bookings| - 1]];
    }
  }

  lemma {:induction false} BookingsOfAreOwn(bookings: seq<Booking>, organization: OrganizationId)
    ensures forall b :: b in BookingsOf(bookings, organization) <==> b in bookings && b.organization == organization
  {
    if bookings != [] {
      BookingsOfAreOwn(bookings[..|bookings| - 1], organization);
      assert bookings == bookings[..|bookings| - 1] + [bookings[|bookings| - 1]];
    }
  }

  /** Nobody is left out, and nobody else's booking is in a group. */
  lemma GroupsHoldAll(groups: seq<Group>, bookings: seq<Booking>)
    requires IsGrouping(groups, bookings)
    ensures forall i | 0 <= i < |groups| :: forall b | b in groups[i].bookings ::
              b in bookings && b.organization == groups[i].organization
    ensures forall b | b in bookings :: exists i | 0 <= i < |groups| :: b in groups[i].bookings
  {
    FirstNamedIsDistinct(bookings);
    forall i | 0 <= i < |groups|
      ensures forall b :: b in groups[i].bookings <==> b in bookings && b.organization == groups[i].organization
    {
      BookingsOfAreOwn(bookings, groups[i].organization);
    }
    forall b | b in bookings ensures exists i | 0 <= i < |groups| :: b in groups[i].bookings {
      var i :| 0 <= i < |groups| && FirstNamed(bookings)[i] == b.organization;
      assert groups[i].organization == b.organization;
    }
  }

  function FindGroup(groups: seq<Group>, organization: OrganizationId): (found: Option<nat>)
    ensures found.Some? ==> found.value < |groups| && groups[found.value].organization == organization
    ensures found.None? ==> forall i | 0 <= i < |groups| :: groups[i].organization != organization
  {
    if groups == [] then None
    else
      var last := |groups| - 1;
      match FindGroup(groups[..last], organization)
      case Some(i) => Some(i)
      case None => if groups[last].organization == organization then Some(last) else None
  }

  /** Put a booking with its organization, or open a group for it at the end. */
  function AddToGroup(groups: seq<Group>, b: Booking): (more: seq<Group>)
    ensures |groups| <= |more|
    ensures forall i | 0 <= i < |more| ::
              more[i].organization == if i < |groups| then groups[i].organization else b.organization
  {
    match FindGroup(groups, b.organization)
    case Some(i) => groups[i := groups[i].(bookings := groups[i].bookings + [b])]
    case None => groups + [Group(b.organization, [b])]
  }

  lemma AddKeepsGrouping(groups: seq<Group>, bookings: seq<Booking>, b: Booking)
    requires IsGrouping(groups, bookings)
    ensures IsGrouping(AddToGroup(groups, b), bookings + [b])
  {
    assert (bookings + [b])[..|bookings|] == bookings;
    FirstNamedIsDistinct(bookings);
    if FindGroup(groups, b.organization).None? {
      assert b.organization !in FirstNamed(bookings);
      BookingsOfAreOwn(bookings, b.organization);
      var own := BookingsOf(bookings, b.organization);
      assert own != [] ==> own[0] in own && own[0].organization in FirstNamed(bookings);
      assert own == [];
    }
  }

  method GroupByOrganization(bookings: seq<Booking>) returns (groups: seq<Group>)
    ensures IsGrouping(groups, bookings)
  {
    groups := [];
    for i := 0 to |bookings|
      invariant IsGrouping(groups, bookings[..i])
    {
      AddKeepsGrouping(groups, bookings[..i], bookings[i]);
      groups := AddToGroup(groups, bookings[i]);
      assert bookings[..i + 1] == bookings[..i] + [bookings[i]];
    }
    assert bookings[..|bookings|] == bookings;
  }

  /** A reminder lies ahead for as many minutes before the appointment as its offset says. */
  predicate LiesAhead(startsAt: Instant, minutes: int, now: Instant) {
    now < startsAt - minutes * 60 * 1000
  }

  /** A reminder of some listed booking, at an offset of its organization, for its time to the second. */
  ghost predicate IsWanted(
    r: Reminder, bookings: seq<Booking>, offsets: OrganizationId -> seq<int>, now: Instant)
  {
    exists b | b in bookings ::
      && r.booking == b.id && r.offset in offsets(b.organization) && LiesAhead(b.startsAt, r.offset, now)
      && r.epochSeconds * 1000 <= b.startsAt < (r.epochSeconds + 1) * 1000
  }

  /** What is missing is what is wanted, neither handled nor queued, and nothing else. */
  lemma MissingIsWanted(
    bookings: seq<Booking>, offsets: OrganizationId -> seq<int>, handled: set<Reminder>, jobs: set<Reminder>,
    now: Instant, r: Reminder)
    ensures r in Missing(bookings, offsets, handled, jobs, now) <==>
            IsWanted(r, bookings, offsets, now) && r !in handled && r !in jobs
  {
    if IsWanted(r, bookings, offsets, now) {
      var b :| b in bookings && r.booking == b.id && r.offset in offsets(b.organization)
               && LiesAhead(b.startsAt, r.offset, now)
               && r.epochSeconds * 1000 <= b.startsAt < (r.epochSeconds + 1) * 1000;
      assert r == ReminderOf(b, r.offset) && IsDue(b, r.offset, now);
    }
  }

  /** When every booking is covered, all that was missing was added, and nothing is missing now. */
  lemma CoveredMeansAdded(
    bookings: seq<Booking>, offsets: OrganizationId -> seq<int>, handled: set<Reminder>, before: set<Reminder>,
    jobs: set<Reminder>, now: Instant)
    requires forall b | b in bookings :: IsCovered(b, offsets(b.organization), handled, jobs, now)
    requires jobs - before <= Missing(bookings, offsets, handled, before, now)
    ensures jobs - before == Missing(bookings, offsets, handled, before, now)
    ensures Missing(bookings, offsets, handled, jobs, now) == {}
  {
  }

  lemma {:induction false} SubsetIsSmaller<T>(a: set<T>, b: set<T>)
    requires a <= b
    ensures |a| <= |b|
  {
    if a != {} {
      var x :| x in a;
      SubsetIsSmaller(a - {x}, b - {x});
    }
  }

  // ── one rebuild ──────────────────────────────────────────────────────────────────────────

  /** The queue's delayed jobs, and the sweep that puts lost ones back. */
  class ReminderReconciler {
    var jobs: set<Reminder>

    constructor (jobs: set<Reminder>)
      ensures this.jobs == jobs
    {
      this.jobs := jobs;
    }

    /** Only missing reminders were added, each counted once, and no more than the budget. */
    ghost predicate Added(before: set<Reminder>, missing: set<Reminder>, requeued: nat)
      reads this
    {
      && before <= jobs
      && jobs - before <= missing
      && |jobs - before| == requeued <= BATCH
    }

    /** One booking's offsets, until the budget is spent. */
    method RebuildBooking(
      b: Booking, offsets: seq<int>, handled: set<Reminder>, now: Instant, requeued: nat,
      ghost before: set<Reminder>, ghost missing: set<Reminder>)
      returns (count: nat)
      requires Added(before, missing, requeued)
      requires forall o | o in offsets && IsDue(b, o, now) :: ReminderOf(b, o) in handled + before + missing
      modifies this
      ensures Added(before, missing, count) && requeued <= count && old(jobs) <= jobs
      ensures count < BATCH ==> IsCovered(b, offsets, handled, jobs, now)
    {
      count := requeued;
      for i := 0 to |offsets|
        invariant Added(before, missing, count) && requeued <= count && old(jobs) <= jobs
        invariant count < BATCH ==> IsCovered(b, offsets[..i], handled, jobs, now)
      {
        if count >= BATCH { return; }
        assert offsets[..i + 1] == offsets[..i] + [offsets[i]] && offsets[i] in offsets;
        var job := ReminderOf(b, offsets[i]);
        if IsDue(b, offsets[i], now) && job !in handled && job !in jobs {
          ghost var was := jobs;
          jobs := jobs + {job};
          assert jobs - before == (was - before) + {job};
          count := count + 1;
        }
      }
      assert offsets[..|offsets|] == offsets;
    }

    /** One organization's bookings, with that organization's own offsets. */
    method RebuildGroup(
      group: Group, offsets: OrganizationId -> seq<int>, handled: set<Reminder>, now: Instant, requeued: nat,
      ghost before: set<Reminder>, ghost missing: set<Reminder>)
      returns (count: nat)
      requires Added(before, missing, requeued)
      requires forall b | b in group.bookings :: b.organization == group.organization
      requires forall b, o | b in group.bookings && o in offsets(b.organization) && IsDue(b, o, now) ::
                 ReminderOf(b, o) in handled + before + missing
      modifies this
      ensures Added(before, missing, count) && requeued <= count && old(jobs) <= jobs
      ensures count < BATCH ==> forall b | b in group.bookings ::
                IsCovered(b, offsets(b.organization), handled, jobs, now)
    {
      count := requeued;
      var own := offsets(group.organization);
      for i := 0 to |group.bookings|
        invariant Added(before, missing, count) && requeued <= count && old(jobs) <= jobs
        invariant count < BATCH ==> forall b | b in group.bookings[..i] ::
                    IsCovered(b, offsets(b.organization), handled, jobs, now)
      {
        var b := group.bookings[i];
        assert b in group.bookings && group.bookings[..i + 1] == group.bookings[..i] + [b];
        count := RebuildBooking(b, own, handled, now, count, before, missing);
        if count >= BATCH { return; }
      }
      assert group.bookings[..|group.bookings|] == group.bookings;
    }

    /** One page: what was already handled for its bookings, then group by group. */
    method RebuildPage(
      page: seq<Booking>, offsets: OrganizationId -> seq<int>, handled: set<Reminder>, now: Instant, requeued: nat,
      ghost before: set<Reminder>, ghost missing: set<Reminder>)
      returns (count: nat)
      requires Added(before, missing, requeued)
      requires forall b, o | b in page && o in offsets(b.organization) && IsDue(b, o, now) ::
                 ReminderOf(b, o) in handled + before + missing
      modifies this
      ensures Added(before, missing, count) && requeued <= count && old(jobs) <= jobs
      ensures count < BATCH ==> forall b | b in page :: IsCovered(b, offsets(b.organization), handled, jobs, now)
    {
      count := requeued;
      var pageIds := set b | b in page :: b.id;
      var alreadyHandled := set r | r in handled && r.booking in pageIds;
      var groups := GroupByOrganization(page);
      GroupsHoldAll(groups, page);
      for i := 0 to |groups|
        invariant Added(before, missing, count) && requeued <= count && old(jobs) <= jobs
        invariant count < BATCH ==> forall g | 0 <= g < i :: forall b | b in groups[g].bookings ::
                    IsCovered(b, offsets(b.organization), handled, jobs, now)
      {
        if count >= BATCH { return; }
        count := RebuildGroup(groups[i], offsets, alreadyHandled, now, count, before, missing);
      }
    }

    /**
     * Re-enqueue what is missing. It ends, and it puts back exactly as many distinct jobs as are
     * missing, up to the budget; below the budget nothing stays missing.
     */
    method RunOnce(
      bookings: seq<Booking>, offsets: OrganizationId -> seq<int>, handled: set<Reminder>, now: Instant)
      returns (requeued: nat)
      modifies this
      ensures old(jobs) <= jobs && jobs - old(jobs) <= Missing(bookings, offsets, handled, old(jobs), now)
      ensures requeued == |jobs - old(jobs)|
      ensures requeued == var missing := |Missing(bookings, offsets, handled, old(jobs), now)|;
                          if missing < BATCH then missing else BATCH
      ensures requeued < BATCH ==> Missing(bookings, offsets, handled, jobs, now) == {}
    {
      ghost var before, missing := jobs, Missing(bookings, offsets, handled, jobs, now);
      requeued := 0;
      var read := 0;
      while requeued < BATCH
        invariant read <= |bookings| && Added(before, missing, requeued)
        invariant requeued < BATCH ==> forall b | b in bookings[..read] ::
                    IsCovered(b, offsets(b.organization), handled, jobs, now)
        decreases |bookings| - read, BATCH - requeued
      {
        var end := if read + BATCH < |bookings| then read + BATCH else |bookings|;
        var page := bookings[read..end];
        if page == [] { break; }
        assert forall b | b in page :: b in bookings;
        requeued := RebuildPage(page, offsets, handled, now, requeued, before, missing);
        assert bookings[..end] == bookings[..read] + page;
        read := end;
        if |page| < BATCH { break; }
      }
      assert bookings[..|bookings|] == bookings;
      SubsetIsSmaller(jobs - before, missing);
      if requeued < BATCH {
        CoveredMeansAdded(bookings, offsets, handled, before, jobs, now);
      }
    }
  }
}
