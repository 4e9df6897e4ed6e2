/** Account events arrive in any order; a row remembers the time of the newest one applied to it. */
module AccountUpdates {
  import opened Outcomes

  type Instant = int

  datatype Flags = Flags(detailsSubmitted: bool, chargesEnabled: bool)

  /** One delivery of an event, with the provider's timestamp where it has one. */
  datatype AccountEvent = AccountEvent(flags: Flags, at: Option<Instant>)

  datatype Account = Account(flags: Flags, updatedAt: Option<Instant>)

  /** Not older than what the row already shows. */
  predicate Applies(account: Account, event: AccountEvent) {
    event.at.None? || account.updatedAt.None? || account.updatedAt.value <= event.at.value
  }

  function Handled(account: Account, event: AccountEvent): Account {
    if !Applies(account, event) then account
    else Account(event.flags, if event.at.Some? then event.at else account.updatedAt)
  }

  class Organization {
    var flags: Flags
    var updatedAt: Option<Instant>

    constructor (flags: Flags)
      ensures View() == Account(flags, None)
    {
      this.flags, updatedAt := flags, None;
    }

    function View(): Account
      reads this
    {
      Account(flags, updatedAt)
    }

    method Handle(event: AccountEvent) returns (applied: bool)
      modifies this
      ensures View() == Handled(old(View()), event)
      ensures applied <==> Applies(old(View()), event)
    {
      applied := event.at.None? || updatedAt.None? || updatedAt.value <= event.at.value;
      if applied {
        flags := event.flags;
        if event.at.Some? {
          updatedAt := event.at;
        }
      }
    }
  }

  function AfterAll(account: Account, events: seq<AccountEvent>): Account {
    if events == [] then account else Handled(AfterAll(account, events[..|events| - 1]), events[|events| - 1])
  }

  predicate AllDated(events: seq<AccountEvent>) {
    forall i | 0 <= i < |events| :: events[i].at.Some?
  }

  /** No event is newer than this one. */
  predicate IsNewest(events: seq<AccountEvent>, newest: AccountEvent) {
    newest in events && newest.at.Some?
    && forall e | e in events :: e.at.Some? ==> e.at.value <= newest.at.value
  }

  /** An event newer than this one came before it. */
  ghost predicate Stale(events: seq<AccountEvent>, i: nat)
    requires i < |events|
  {
    events[i].at.Some? && exists k | 0 <= k < i :: events[k].at.Some? && events[k].at.value > events[i].at.value
  }

  /** The time the row remembers: the newest of all timestamps, if there is any. */
  ghost predicate Remembers(events: seq<AccountEvent>, updatedAt: Option<Instant>) {
    match updatedAt
    case None => forall e | e in events :: e.at == None
    case Some(at) => (exists e | e in events :: e.at == Some(at)) && forall e | e in events && e.at.Some? :: e.at.value <= at
  }

  /** This event was not stale, and all after it were. */
  ghost predicate IsLastInTime(events: seq<AccountEvent>, i: nat) {
    i < |events| && !Stale(events, i) && forall j | i < j < |events| :: Stale(events, j)
  }

  /**
   * With and without timestamps: the row shows the flags of the last event that no newer one had
   * overtaken, and one without a timestamp is never overtaken; it remembers the newest time.
   */
  lemma {:induction false} EndsWithLastInTime(flags: Flags, events: seq<AccountEvent>)
    ensures
      var account := AfterAll(Account(flags, None), events);
      && Remembers(events, account.updatedAt)
      && (events == [] ==> account.flags == flags)
      && (events != [] ==> exists i: nat :: IsLastInTime(events, i) && account.flags == events[i].flags)
  {
    if events != [] {
      var init, last := events[..|events| - 1], |events| - 1;
      assert events == init + [events[last]];
      EndsWithLastInTime(flags, init);
      var before := AfterAll(Account(flags, None), init);
      assert Applies(before, events[last]) <==> !Stale(events, last) by {
        if before.updatedAt.Some? && events[last].at.Some? && before.updatedAt.value > events[last].at.value {
          var e :| e in init && e.at == before.updatedAt;
          var k :| 0 <= k < |init| && init[k] == e;
          assert events[k] == e;
        }
      }
      if Applies(before, events[last]) {
        assert IsLastInTime(events, last);
        assert events[last] in events;
      } else {
        var i: nat :| IsLastInTime(init, i) && before.flags == init[i].flags;
        StaleStays(init, events[last], i);
        assert IsLastInTime(events, i);
      }
    }
  }

  lemma StaleStays(init: seq<AccountEvent>, last: AccountEvent, i: nat)
    requires IsLastInTime(init, i)
    ensures !Stale(init + [last], i) && forall j | i < j < |init| :: Stale(init + [last], j)
  {
    forall j | i < j < |init| ensures Stale(init + [last], j) {
      assert Stale(init, j);
      var k :| 0 <= k < j && init[k].at.Some? && init[k].at.value > init[j].at.value;
      assert (init + [last])[k] == init[k];
    }
  }

  /** Whatever the order, the row ends up with the flags of a newest event. */
  lemma {:induction false} EndsWithNewest(flags: Flags, events: seq<AccountEvent>)
    requires AllDated(events) && |events| > 0
    ensures
      var account := AfterAll(Account(flags, None), events);
      IsNewest(events, AccountEvent(account.flags, account.updatedAt))
  {
    var init, last := events[..|events| - 1], events[|events| - 1];
    assert events == init + [last];
    if init != [] {
      EndsWithNewest(flags, init);
    }
  }

  /** The same events, in whatever order and however often each. */
  ghost predicate SameEvents(a: seq<AccountEvent>, b: seq<AccountEvent>) {
    forall e :: e in a <==> e in b
  }

  ghost predicate NewestAgree(events: seq<AccountEvent>) {
    forall e, f | IsNewest(events, e) && IsNewest(events, f) :: e.flags == f.flags
  }

  lemma AgreedNewestConverge(flags: Flags, a: seq<AccountEvent>, b: seq<AccountEvent>)
    requires AllDated(a) && |a| > 0 && SameEvents(a, b) && NewestAgree(a)
    ensures AfterAll(Account(flags, None), a) == AfterAll(Account(flags, None), b)
  {
    assert a[0] in b && AllDated(b) by {
      forall i | 0 <= i < |b| ensures b[i].at.Some? {
        assert b[i] in a;
      }
    }
    EndsWithNewest(flags, a);
    EndsWithNewest(flags, b);
    var x, y := AfterAll(Account(flags, None), a), AfterAll(Account(flags, None), b);
    var e, f := AccountEvent(x.flags, x.updatedAt), AccountEvent(y.flags, y.updatedAt);
    assert e in b && f in a;
    assert IsNewest(a, e) && IsNewest(a, f);
  }

  /** A newest event that is delivered once more wins. */
  lemma NewestAgainWins(flags: Flags, a: seq<AccountEvent>, e: AccountEvent)
    requires AllDated(a) && |a| > 0 && IsNewest(a, e)
    ensures SameEvents(a, a + [e]) && AfterAll(Account(flags, None), a + [e]) == Account(e.flags, e.at)
  {
    EndsWithNewest(flags, a);
    assert (a + [e])[..|a|] == a;
  }

  /**
   * Deliveries converge: all sequences of the same events, in any order and with any repeats,
   * leave the same row if and only if the newest events among them carry the same flags.
   */
  lemma DeliveriesConverge(flags: Flags, a: seq<AccountEvent>)
    requires AllDated(a) && |a| > 0
    ensures
      (forall b | SameEvents(a, b) :: AfterAll(Account(flags, None), b) == AfterAll(Account(flags, None), a))
      <==> NewestAgree(a)
  {
    if NewestAgree(a) {
      forall b | SameEvents(a, b) ensures AfterAll(Account(flags, None), b) == AfterAll(Account(flags, None), a) {
        AgreedNewestConverge(flags, a, b);
      }
    } else {
      var e, f :| IsNewest(a, e) && IsNewest(a, f) && e.flags != f.flags;
      NewestAgainWins(flags, a, e);
      NewestAgainWins(flags, a, f);
      assert SameEvents(a, a + [e]) && SameEvents(a, a + [f]);
    }
  }
}
