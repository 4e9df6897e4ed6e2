/** The calendar by what was asked of it: every committed work has its row, and the time it asked for. */
module CalendarWorks {
  import opened Outcomes
  import opened BookingStatuses
  import opened Calendar
  import opened CalendarExclusive

  datatype Kind = OfAppointment | OfBlocked | OfLeave

  function KindOf(work: Work): Kind {
    if work.Reserve? || work.Move? then OfAppointment else if work.Block? then OfBlocked else OfLeave
  }

  function Count(table: Table, kind: Kind): nat {
    match kind
    case OfAppointment => |table.appointments|
    case OfBlocked => |table.blocked|
    case OfLeave => |table.leave|
  }

  /** The row holds what the work asked for; only its status may have moved since. */
  predicate Stored(table: Table, work: Work, row: nat) {
    && row < Count(table, KindOf(work))
    && match work
       case Reserve(e, startsAt, from, to, _) =>
         var a := table.appointments[row];
         a.employee == e && a.startsAt == startsAt && a.blockFrom == from && a.blockTo == to
       case Move(_, _, e, startsAt, from, to) =>
         var a := table.appointments[row];
         a.employee == e && a.startsAt == startsAt && a.blockFrom == from && a.blockTo == to
       case Block(e, from, to) =>
         var b := table.blocked[row];
         b.employee == e && b.from == from && b.to == to
       case TakeLeave(e, from, to, _) =>
         var l := table.leave[row];
         l.employee == e && l.from == from && l.to == to
       case DecideLeave(i, e, from, to, _, _) =>
         var l := table.leave[row];
         row == i && l.employee == e && l.from == from && l.to == to
  }

  /** This transaction committed, and its work made this row. */
  predicate Made(w: World, t: nat, kind: Kind, row: nat) {
    && t < |w.transactions| && w.transactions[t].phase == Committed(row)
    && KindOf(w.transactions[t].work) == kind && !w.transactions[t].work.DecideLeave?
  }

  ghost predicate HasWork(w: World, kind: Kind, row: nat) {
    exists t: nat :: Made(w, t, kind, row)
  }

  /** Committed works and rows answer to each other, one to one. */
  ghost predicate Accounted(w: World) {
    && (forall t | 0 <= t < |w.transactions| && w.transactions[t].phase.Committed? ::
          Stored(w.table, w.transactions[t].work, w.transactions[t].phase.row))
    && (forall t, u, kind, row | Made(w, t, kind, row) && Made(w, u, kind, row) :: t == u)
    && (forall kind, row: nat | row < Count(w.table, kind) :: HasWork(w, kind, row))
  }

  // ── what a step leaves as it was ─────────────────────────────────────────────────────────

  /** Rows keep their place and everything but their status. */
  ghost predicate KeepsRows(table: Table, next: Table) {
    && |table.appointments| <= |next.appointments| && |table.blocked| <= |next.blocked| && |table.leave| <= |next.leave|
    && (forall i | 0 <= i < |table.appointments| ::
          next.appointments[i] == table.appointments[i].(status := next.appointments[i].status))
    && (forall i | 0 <= i < |table.blocked| ::
          next.blocked[i] == table.blocked[i].(deleted := next.blocked[i].deleted))
    && (forall i | 0 <= i < |table.leave| :: next.leave[i] == table.leave[i].(status := next.leave[i].status))
  }

  /** Committed transactions stay what they are. */
  ghost predicate KeepsCommitted(w: World, next: World) {
    && |w.transactions| <= |next.transactions|
    && (forall t | 0 <= t < |w.transactions| && w.transactions[t].phase.Committed? ::
          next.transactions[t] == w.transactions[t].(held := next.transactions[t].held))
  }

  lemma StepKeepsRows(hash: EmployeeId -> LockKey, w: World, step: Step)
    ensures KeepsRows(w.table, ApplyStep(hash, w, step).table)
    ensures KeepsCommitted(w, ApplyStep(hash, w, step))
  {
  }

  /** A step that commits nothing leaves the account as it is. */
  lemma OthersAccount(hash: EmployeeId -> LockKey, w: World, step: Step)
    requires Accounted(w) && !(step.Commit? && step.transaction < |w.transactions|
                               && w.transactions[step.transaction].phase == Written)
    ensures Accounted(ApplyStep(hash, w, step))
  {
    var next := ApplyStep(hash, w, step);
    StepKeepsRows(hash, w, step);
    NoneCommits(hash, w, step);
    forall kind, row: nat | row < Count(next.table, kind) ensures HasWork(next, kind, row) {
      assert row < Count(w.table, kind) ==> HasWork(w, kind, row);
      var t: nat :| Made(w, t, kind, row);
      assert Made(next, t, kind, row);
    }
    forall t, u, kind, row | Made(next, t, kind, row) && Made(next, u, kind, row) ensures t == u {
      assert Made(w, t, kind, row) && Made(w, u, kind, row);
    }
  }

  lemma NoneCommits(hash: EmployeeId -> LockKey, w: World, step: Step)
    requires !(step.Commit? && step.transaction < |w.transactions| && w.transactions[step.transaction].phase == Written)
    ensures
      var next := ApplyStep(hash, w, step);
      && (forall kind :: Count(next.table, kind) == Count(w.table, kind))
      && (forall t | 0 <= t < |next.transactions| && next.transactions[t].phase.Committed? ::
            && t < |w.transactions| && w.transactions[t].phase == next.transactions[t].phase
            && w.transactions[t].work == next.transactions[t].work)
  {
  }

  /** Committing a work makes its row, as asked for, and no other row of its kind. */
  lemma CommitAccounts(hash: EmployeeId -> LockKey, w: World, t: nat)
    requires WorldOk(hash, w) && Accounted(w) && t < |w.transactions| && w.transactions[t].phase == Written
    ensures Accounted(ApplyStep(hash, w, Step.Commit(t)))
  {
    var next := ApplyStep(hash, w, Step.Commit(t));
    var work := w.transactions[t].work;
    StepKeepsRows(hash, w, Step.Commit(t));
    CommitStores(hash, w, t);
    forall kind, row: nat | row < Count(next.table, kind) ensures HasWork(next, kind, row) {
      assert row < Count(w.table, kind) ==> HasWork(w, kind, row);
      if row < Count(w.table, kind) {
        var u: nat :| Made(w, u, kind, row);
        assert Made(next, u, kind, row);
      } else {
        assert Made(next, t, kind, row);
      }
    }
    forall u, v, kind, row | Made(next, u, kind, row) && Made(next, v, kind, row) ensures u == v {
      assert u == t || Made(w, u, kind, row);
      assert v == t || Made(w, v, kind, row);
    }
  }

  lemma CommitStores(hash: EmployeeId -> LockKey, w: World, t: nat)
    requires WorldOk(hash, w) && t < |w.transactions| && w.transactions[t].phase == Written
    ensures
      var next, work := ApplyStep(hash, w, Step.Commit(t)), w.transactions[t].work;
      var row := RowFor(w.table, work);
      && next.transactions == w.transactions[t := Transaction(work, {}, Committed(row))]
      && Stored(next.table, work, row)
      && (!work.DecideLeave? ==> row == Count(w.table, KindOf(work)))
      && (forall kind :: Count(next.table, kind) ==
            Count(w.table, kind) + (if kind == KindOf(work) && !work.DecideLeave? then 1 else 0))
  {
    assert TransactionOk(hash, w.table, w.transactions[t]);
  }

  lemma {:induction false} RunsAreAccounted(hash: EmployeeId -> LockKey, steps: seq<Step>)
    ensures Accounted(Run(hash, steps))
  {
    if steps != [] {
      var init, last := steps[..|steps| - 1], steps[|steps| - 1];
      RunsAreAccounted(hash, init);
      RunsAreExclusive(hash, init);
      var w := Run(hash, init);
      if last.Commit? && last.transaction < |w.transactions| && w.transactions[last.transaction].phase == Written {
        CommitAccounts(hash, w, last.transaction);
      } else {
        OthersAccount(hash, w, last);
      }
    }
  }

  /**
   * In every interleaving, whatever the lock hash: each committed work has a row with its employee
   * and the very times it asked for, each row was made by one committed work, and no two works made
   * the same row.
   */
  lemma WorksAndRowsAgree(hash: EmployeeId -> LockKey, steps: seq<Step>)
    ensures
      var w := Run(hash, steps);
      && (forall t | 0 <= t < |w.transactions| && w.transactions[t].phase.Committed? ::
            Stored(w.table, w.transactions[t].work, w.transactions[t].phase.row))
      && (forall kind, row: nat | row < Count(w.table, kind) :: HasWork(w, kind, row))
      && (forall t, u, kind, row | Made(w, t, kind, row) && Made(w, u, kind, row) :: t == u)
  {
    RunsAreAccounted(hash, steps);
  }

  // ── what one commit writes ───────────────────────────────────────────────────────────────

  /** The work's row has what was asked for, its status too, and of the rows before only what it decides moved. */
  ghost predicate Answers(table: Table, next: Table, work: Work, row: nat) {
    && KeepsRows(table, next) && Stored(next, work, row)
    && (forall kind :: Count(next, kind) ==
          Count(table, kind) + (if kind == KindOf(work) && !work.DecideLeave? then 1 else 0))
    && (forall i | 0 <= i < |table.appointments| ::
          next.appointments[i] == if work.Move? && i == work.appointment
                                  then table.appointments[i].(status := CanceledByBusiness)
                                  else table.appointments[i])
    && (forall i | 0 <= i < |table.blocked| :: next.blocked[i] == table.blocked[i])
    && (forall i | 0 <= i < |table.leave| && !(work.DecideLeave? && i == row) :: next.leave[i] == table.leave[i])
    && match work
       case Reserve(_, _, _, _, confirmed) =>
         next.appointments[row].status == if confirmed then Confirmed else PendingPayment
       case Move(_, _, _, _, _, _) => next.appointments[row].status == Confirmed
       case Block(_, _, _) => !next.blocked[row].deleted
       case TakeLeave(_, _, _, status) => next.leave[row].status == status
       case DecideLeave(_, _, _, _, _, status) => next.leave[row].status == status
  }

  /** In every interleaving, a commit answers its work, and ends it holding nothing. */
  lemma CommitAnswers(hash: EmployeeId -> LockKey, steps: seq<Step>, t: nat)
    requires t < |Run(hash, steps).transactions| && Run(hash, steps).transactions[t].phase == Written
    ensures
      var w, next := Run(hash, steps), ApplyStep(hash, Run(hash, steps), Step.Commit(t));
      var work := w.transactions[t].work;
      exists row: nat ::
        && next.transactions == w.transactions[t := Transaction(work, {}, Committed(row))]
        && Answers(w.table, next.table, work, row)
  {
    RunsAreExclusive(hash, steps);
    var w := Run(hash, steps);
    var work := w.transactions[t].work;
    CommitStores(hash, w, t);
    assert Answers(w.table, ApplyStep(hash, w, Step.Commit(t)).table, work, RowFor(w.table, work));
  }

  // ── time by what was asked for ───────────────────────────────────────────────────────────

  predicate Within(x: Instant, from: Instant, to: Instant) {
    from <= x < to
  }

  /** Some instant lies in both stretches of time. */
  ghost predicate Meet(from1: Instant, to1: Instant, from2: Instant, to2: Instant) {
    exists x: Instant :: Within(x, from1, to1) && Within(x, from2, to2)
  }

  lemma MeetIffOverlap(from1: Instant, to1: Instant, from2: Instant, to2: Instant)
    requires from1 < to1 && from2 < to2
    ensures Meet(from1, to1, from2, to2) <==> Overlap(from1, to1, from2, to2)
  {
    if Overlap(from1, to1, from2, to2) {
      var x := if from1 < from2 then from2 else from1;
      assert Within(x, from1, to1) && Within(x, from2, to2);
    }
  }

  /** The stretch a work asked for: an appointment's block with its buffers, or the time itself. */
  function From(work: Work): Instant {
    if KindOf(work) == OfAppointment then work.blockFrom else work.from
  }

  function To(work: Work): Instant {
    if KindOf(work) == OfAppointment then work.blockTo else work.to
  }

  /** A committed work whose appointment still blocks. */
  predicate Books(w: World, t: nat) {
    && t < |w.transactions| && w.transactions[t].phase.Committed? && KindOf(w.transactions[t].work) == OfAppointment
    && w.transactions[t].phase.row < |w.table.appointments|
    && IsBlocking(w.table.appointments[w.transactions[t].phase.row].status)
  }

  /** A committed work whose blocked time was not deleted. */
  predicate Blocks(w: World, t: nat) {
    && t < |w.transactions| && w.transactions[t].phase.Committed? && w.transactions[t].work.Block?
    && w.transactions[t].phase.row < |w.table.blocked|
    && !w.table.blocked[w.transactions[t].phase.row].deleted
  }

  /** A committed work whose leave is approved now. */
  predicate TakesLeave(w: World, t: nat) {
    && t < |w.transactions| && w.transactions[t].phase.Committed? && w.transactions[t].work.TakeLeave?
    && w.transactions[t].phase.row < |w.table.leave|
    && w.table.leave[w.transactions[t].phase.row].status == Approved
  }

  /**
   * In every interleaving, whatever the lock hash: of two committed works for one employee, one a
   * booking that still blocks and the other such a booking or blocked time not deleted, no instant
   * lies in the time both asked for, buffers included.
   */
  lemma WorksTakeTimeOnce(hash: EmployeeId -> LockKey, steps: seq<Step>, t: nat, u: nat)
    requires
      var w := Run(hash, steps);
      && t != u && Books(w, t) && (Books(w, u) || Blocks(w, u))
      && w.transactions[t].work.employee == w.transactions[u].work.employee
    ensures
      var mine, other := Run(hash, steps).transactions[t].work, Run(hash, steps).transactions[u].work;
      !Meet(From(mine), To(mine), From(other), To(other))
  {
    var w := Run(hash, steps);
    RunsAreAccounted(hash, steps);
    var mine, other := w.transactions[t], w.transactions[u];
    assert Stored(w.table, mine.work, mine.phase.row) && Stored(w.table, other.work, other.phase.row);
    if Books(w, u) && mine.phase.row == other.phase.row {
      assert Made(w, t, OfAppointment, mine.phase.row) && Made(w, u, OfAppointment, mine.phase.row);
    }
    TimeIsGivenOnce(hash, steps, mine.phase.row);
    assert !Overlap(From(mine.work), To(mine.work), From(other.work), To(other.work));
  }

  /** The writers without a lock: what an appointment or blocked time took is free again, and only that. */
  lemma ReleaseFreesItsTime(hash: EmployeeId -> LockKey, steps: seq<Step>, t: nat, step: Step)
    requires
      var w := Run(hash, steps);
      && (Books(w, t) || Blocks(w, t))
      && var row := w.transactions[t].phase.row;
         if Books(w, t) then
           && step.ChangeStatus? && step.appointment == row && !IsBlocking(step.to)
           && CanTransition(Some(w.table.appointments[row].status), step.to)
         else step == DeleteBlocked(row)
    ensures
      var w, next := Run(hash, steps), ApplyStep(hash, Run(hash, steps), step);
      forall u: nat ::
        && (Books(next, u) <==> Books(w, u) && u != t)
        && (Blocks(next, u) <==> Blocks(w, u) && u != t)
  {
    var w, next := Run(hash, steps), ApplyStep(hash, Run(hash, steps), step);
    RunsAreAccounted(hash, steps);
    var row, kind := w.transactions[t].phase.row, KindOf(w.transactions[t].work);
    assert Made(w, t, kind, row);
    forall u: nat | u != t && (Books(w, u) || Blocks(w, u)) && KindOf(w.transactions[u].work) == kind
      ensures w.transactions[u].phase.row != row
    {
      assert Made(w, u, kind, w.transactions[u].phase.row);
    }
  }

  // ── when a work commits ──────────────────────────────────────────────────────────────────

  ghost predicate NothingMeets(w: World, work: Work) {
    forall u: nat | (Books(w, u) || (Blocks(w, u) && !work.Block?)) && w.transactions[u].work.employee == work.employee ::
      !Meet(From(w.transactions[u].work), To(w.transactions[u].work), From(work), To(work))
  }

  ghost predicate NobodyStarts(w: World, employee: EmployeeId, from: Instant, to: Instant) {
    forall u: nat | Books(w, u) && w.transactions[u].work.employee == employee ::
      !Within(w.transactions[u].work.startsAt, from, to)
  }

  /** Nothing that was given away before stands in the way. */
  ghost predicate Clear(w: World, work: Work) {
    match work
    case Reserve(e, startsAt, _, _, _) => NothingMeets(w, work) && AtWork(w, e, startsAt)
    case Move(i, _, e, startsAt, _, _) =>
      && NothingMeets(w, work) && AtWork(w, e, startsAt)
      && i < |w.table.appointments| && w.table.appointments[i].status == Confirmed
    case Block(_, _, _) => NothingMeets(w, work)
    case TakeLeave(e, from, to, status) => status == Approved ==> NobodyStarts(w, e, from, to)
    case DecideLeave(_, e, from, to, seen, status) =>
      status == Approved && seen != Approved ==> NobodyStarts(w, e, from, to)
  }

  ghost predicate AtWork(w: World, employee: EmployeeId, startsAt: Instant) {
    forall u: nat | TakesLeave(w, u) && w.transactions[u].work.employee == employee ::
      !Within(startsAt, w.transactions[u].work.from, w.transactions[u].work.to)
  }

  lemma TimeIsFreeIff(hash: EmployeeId -> LockKey, w: World, work: Work)
    requires WorldOk(hash, w) && Accounted(w) && WellFormed(work) && (KindOf(work) == OfAppointment || work.Block?)
    ensures NothingMeets(w, work) <==>
            && TimeFree(w.table, work.employee, From(work), To(work))
            && (!work.Block? ==> forall i | 0 <= i < |w.table.blocked| :: var b := w.table.blocked[i];
                  b.employee == work.employee && !b.deleted ==> !Overlap(b.from, b.to, From(work), To(work)))
  {
    forall u: nat | Books(w, u) || Blocks(w, u)
      ensures var other := w.transactions[u].work;
              Meet(From(other), To(other), From(work), To(work)) <==> Overlap(From(other), To(other), From(work), To(work))
      ensures Stored(w.table, w.transactions[u].work, w.transactions[u].phase.row)
    {
      var other := w.transactions[u];
      assert TransactionOk(hash, w.table, other);
      MeetIffOverlap(From(other.work), To(other.work), From(work), To(work));
    }
    if NothingMeets(w, work) {
      forall i | 0 <= i < |w.table.appointments| && Takes(w.table.appointments[i], work.employee)
        ensures !Overlap(w.table.appointments[i].blockFrom, w.table.appointments[i].blockTo, From(work), To(work))
      {
        assert HasWork(w, OfAppointment, i);
        var u: nat :| Made(w, u, OfAppointment, i);
        assert Stored(w.table, w.transactions[u].work, i) && Books(w, u);
      }
      if !work.Block? {
        forall i | 0 <= i < |w.table.blocked| && w.table.blocked[i].employee == work.employee && !w.table.blocked[i].deleted
          ensures !Overlap(w.table.blocked[i].from, w.table.blocked[i].to, From(work), To(work))
        {
          assert HasWork(w, OfBlocked, i);
          var u: nat :| Made(w, u, OfBlocked, i);
          assert Stored(w.table, w.transactions[u].work, i) && Blocks(w, u);
        }
      }
    }
  }

  lemma DaysAreFreeIff(w: World, employee: EmployeeId, from: Instant, to: Instant)
    requires Accounted(w)
    ensures NobodyStarts(w, employee, from, to) <==> DaysFree(w.table, employee, from, to)
  {
    if NobodyStarts(w, employee, from, to) {
      forall i | 0 <= i < |w.table.appointments| && Takes(w.table.appointments[i], employee)
        ensures !(from <= w.table.appointments[i].startsAt < to)
      {
        assert HasWork(w, OfAppointment, i);
        var u: nat :| Made(w, u, OfAppointment, i);
        assert Stored(w.table, w.transactions[u].work, i) && Books(w, u);
      }
    } else {
      var u: nat :| Books(w, u) && w.transactions[u].work.employee == employee
                    && Within(w.transactions[u].work.startsAt, from, to);
      assert Stored(w.table, w.transactions[u].work, w.transactions[u].phase.row);
    }
  }

  lemma IsAtWorkIff(w: World, employee: EmployeeId, startsAt: Instant)
    requires Accounted(w)
    ensures AtWork(w, employee, startsAt) <==>
            forall i | 0 <= i < |w.table.leave| :: var l := w.table.leave[i];
              l.employee == employee && l.status == Approved ==> !(l.from <= startsAt < l.to)
  {
    if AtWork(w, employee, startsAt) {
      forall i | 0 <= i < |w.table.leave| && w.table.leave[i].employee == employee && w.table.leave[i].status == Approved
        ensures !(w.table.leave[i].from <= startsAt < w.table.leave[i].to)
      {
        assert HasWork(w, OfLeave, i);
        var u: nat :| Made(w, u, OfLeave, i);
        assert Stored(w.table, w.transactions[u].work, i) && TakesLeave(w, u);
      }
    } else {
      var u: nat :| TakesLeave(w, u) && w.transactions[u].work.employee == employee
                    && Within(startsAt, w.transactions[u].work.from, w.transactions[u].work.to);
      assert Stored(w.table, w.transactions[u].work, w.transactions[u].phase.row);
    }
  }

  lemma PassesIffClear(hash: EmployeeId -> LockKey, w: World, work: Work)
    requires WorldOk(hash, w) && Accounted(w) && WellFormed(work)
    ensures Passes(w.table, work) <==> Clear(w, work)
  {
    if KindOf(work) == OfAppointment {
      TimeIsFreeIff(hash, w, work);
      IsAtWorkIff(w, work.employee, work.startsAt);
    } else if work.Block? {
      TimeIsFreeIff(hash, w, work);
    } else {
      DaysAreFreeIff(w, work.employee, work.from, work.to);
    }
  }

  /** Whoever gives up takes nothing, and holds nothing from then on; a transaction that is over stays as it is. */
  lemma AbortLeavesNothing(hash: EmployeeId -> LockKey, w: World, t: nat)
    requires t < |w.transactions|
    ensures
      var next, was := ApplyStep(hash, w, Step.Abort(t)), w.transactions[t];
      if was.phase.Committed? || was.phase.Ended? then next == w
      else next == w.(transactions := w.transactions[t := Transaction(was.work, {}, Ended)])
  {
  }

  /** A work from its beginning to its end, with nobody in between. */
  function Alone(hash: EmployeeId -> LockKey, w: World, work: Work): World {
    var t := |w.transactions|;
    var locked := Locked(hash, w, work);
    ApplyStep(hash, ApplyStep(hash, ApplyStep(hash, locked, Check(t)), Write(t)), Step.Commit(t))
  }

  function Locked(hash: EmployeeId -> LockKey, w: World, work: Work): World {
    var t := |w.transactions|;
    var first := if work.Move? then work.oldEmployee else work.employee;
    var begun := ApplyStep(hash, w, Begin(work));
    ApplyStep(hash, ApplyStep(hash, begun, Acquire(t, hash(first))), Acquire(t, hash(work.employee)))
  }

  ghost predicate KeysAreFree(hash: EmployeeId -> LockKey, w: World, work: Work) {
    forall u | 0 <= u < |w.transactions| :: w.transactions[u].held !! Keys(hash, work)
  }

  lemma FreeKeysAreTaken(hash: EmployeeId -> LockKey, w: World, work: Work)
    requires WellFormed(work) && ReadsCommitted(w.table, work) && KeysAreFree(hash, w, work)
    ensures Locked(hash, w, work) ==
            w.(transactions := w.transactions + [Transaction(work, Keys(hash, work), Locking)])
  {
    var t := |w.transactions|;
    var first := if work.Move? then work.oldEmployee else work.employee;
    var begun := ApplyStep(hash, w, Begin(work));
    assert {first, work.employee} == Employees(work);
    assert hash(first) in Keys(hash, work) && hash(work.employee) in Keys(hash, work);
    assert Keys(hash, work) == {hash(first), hash(work.employee)};
    var one := ApplyStep(hash, begun, Acquire(t, hash(first)));
    assert one == SetTransaction(begun, t, {hash(first)}, Locking) by {
      assert begun.transactions[t].held + {hash(first)} == {hash(first)};
    }
    assert {hash(first)} + {hash(work.employee)} == Keys(hash, work);
    assert Locked(hash, w, work) == SetTransaction(one, t, Keys(hash, work), Locking);
  }

  /**
   * In every interleaving, a work whose locks are free and that nobody comes between commits if and
   * only if it meets nothing that was given away before, and it is answered then; otherwise the
   * table stays as it is.
   */
  lemma UndisturbedWorkCommitsIff(hash: EmployeeId -> LockKey, steps: seq<Step>, work: Work)
    requires
      var w := Run(hash, steps);
      ReadsCommitted(w.table, work) && KeysAreFree(hash, w, work)
    requires work.Block? ==> From(work) < To(work)
    requires KindOf(work) == OfAppointment ==> Within(work.startsAt, From(work), To(work))
    ensures
      var w := Run(hash, steps);
      var done := Alone(hash, w, work);
      var row := RowFor(w.table, work);
      if Clear(w, work) then
        && done.transactions == w.transactions + [Transaction(work, {}, Committed(row))]
        && Answers(w.table, done.table, work, row)
      else done == w.(transactions := w.transactions + [Transaction(work, {}, Ended)])
  {
    var w := Run(hash, steps);
    RunsAreExclusive(hash, steps);
    RunsAreAccounted(hash, steps);
    PassesIffClear(hash, w, work);
    FreeKeysAreTaken(hash, w, work);
    LockedWorkEnds(hash, w, work);
  }

  lemma EffectAnswers(table: Table, work: Work)
    requires work.Move? || work.DecideLeave? ==> ReadsCommitted(table, work)
    ensures Answers(table, Effect(table, work), work, RowFor(table, work))
  {
  }

  lemma LockedWorkEnds(hash: EmployeeId -> LockKey, w: World, work: Work)
    requires WellFormed(work) && ReadsCommitted(w.table, work)
    requires Locked(hash, w, work) == w.(transactions := w.transactions + [Transaction(work, Keys(hash, work), Locking)])
    ensures
      var done := Alone(hash, w, work);
      var row := RowFor(w.table, work);
      if Passes(w.table, work) then
        && done.transactions == w.transactions + [Transaction(work, {}, Committed(row))]
        && Answers(w.table, done.table, work, row)
      else done == w.(transactions := w.transactions + [Transaction(work, {}, Ended)])
  {
    var t := |w.transactions|;
    var locked := Locked(hash, w, work);
    var checked := ApplyStep(hash, locked, Check(t));
    if Passes(w.table, work) {
      assert checked == SetTransaction(locked, t, Keys(hash, work), Checked);
      var written := ApplyStep(hash, checked, Write(t));
      assert written == SetTransaction(checked, t, Keys(hash, work), Written);
      EffectAnswers(w.table, work);
      assert Alone(hash, w, work).table == Effect(w.table, work);
    } else {
      assert checked == SetTransaction(locked, t, {}, Ended);
    }
  }
}
