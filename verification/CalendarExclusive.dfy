/** With lock, check, write and commit as separate steps, no time of one employee is given away twice. */
module CalendarExclusive {
  import opened Outcomes
  import opened BookingStatuses
  import opened Calendar

  // ── what can happen to the table under a checked transaction ─────────────────────────────

  /** A table that takes no time the other did not take, except from these employees. */
  ghost predicate Eases(table: Table, next: Table, except: set<EmployeeId>) {
    && (forall i | 0 <= i < |next.appointments| && next.appointments[i].employee !in except ::
          i < |table.appointments| && SameOrReleased(table.appointments[i], next.appointments[i]))
    && (forall i | 0 <= i < |next.blocked| && next.blocked[i].employee !in except ::
          i < |table.blocked| && next.blocked[i] == table.blocked[i].(deleted := next.blocked[i].deleted)
          && (table.blocked[i].deleted ==> next.blocked[i].deleted))
    && (forall i | 0 <= i < |next.leave| && next.leave[i].employee !in except ::
          i < |table.leave| && next.leave[i] == table.leave[i])
  }

  predicate SameOrReleased(was: Appointment, now: Appointment) {
    now == was.(status := now.status) && (IsBlocking(now.status) ==> IsBlocking(was.status))
  }

  lemma FreeStays(table: Table, next: Table, work: Work, except: set<EmployeeId>)
    requires Free(table, work) && Eases(table, next, except) && work.employee !in except
    ensures Free(next, work)
  {
    assert forall i | 0 <= i < |next.appointments| && Takes(next.appointments[i], work.employee) ::
        i < |table.appointments| && SameOrReleased(table.appointments[i], next.appointments[i]);
  }

  lemma EffectEases(table: Table, work: Work)
    requires work.DecideLeave? && work.leave < |table.leave| ==> table.leave[work.leave].employee == work.employee
    ensures Eases(table, Effect(table, work), {work.employee})
  {
  }

  /** Committing what was checked keeps the calendar exclusive. */
  lemma EffectKeepsExclusive(hash: EmployeeId -> LockKey, table: Table, work: Work)
    requires Exclusive(table) && Free(table, work) && WellFormed(work)
    requires TransactionOk(hash, table, Transaction(work, {}, Locking))
    ensures Exclusive(Effect(table, work))
  {
    var next := Effect(table, work);
    forall i, j | 0 <= i < j < |next.appointments| ensures Apart(next.appointments[i], next.appointments[j]) {
      if j < |table.appointments| {
        assert Apart(table.appointments[i], table.appointments[j]);
      }
    }
    forall i, b | 0 <= i < |next.appointments| && 0 <= b < |next.blocked|
      ensures ApartFromBlocked(next.appointments[i], next.blocked[b])
    {
      if i < |table.appointments| && b < |table.blocked| {
        assert ApartFromBlocked(table.appointments[i], table.blocked[b]);
      }
    }
  }

  // ── every step keeps it ──────────────────────────────────────────────────────────────────

  lemma SetKeeps(hash: EmployeeId -> LockKey, w: World, t: nat, held: set<LockKey>, phase: Phase)
    requires WorldOk(hash, w) && t < |w.transactions|
    requires held <= w.transactions[t].held || forall u | 0 <= u < |w.transactions| && u != t ::
               held !! w.transactions[u].held
    requires TransactionOk(hash, w.table, w.transactions[t].(held := held, phase := phase))
    ensures WorldOk(hash, SetTransaction(w, t, held, phase))
  {
    var next := SetTransaction(w, t, held, phase);
    forall u | 0 <= u < |next.transactions| ensures TransactionOk(hash, next.table, next.transactions[u]) {
      assert TransactionOk(hash, w.table, w.transactions[u]);
    }
  }

  lemma AcquireKeeps(hash: EmployeeId -> LockKey, w: World, t: nat, key: LockKey)
    requires WorldOk(hash, w)
    ensures WorldOk(hash, ApplyStep(hash, w, Acquire(t, key)))
  {
    if t < |w.transactions| && w.transactions[t].phase == Locking && !HeldElsewhere(w, t, key) {
      assert TransactionOk(hash, w.table, w.transactions[t]);
      SetKeeps(hash, w, t, w.transactions[t].held + {key}, Locking);
    }
  }

  lemma CommitKeeps(hash: EmployeeId -> LockKey, w: World, t: nat)
    requires WorldOk(hash, w)
    ensures WorldOk(hash, ApplyStep(hash, w, Step.Commit(t)))
  {
    if t < |w.transactions| && w.transactions[t].phase == Written {
      var work := w.transactions[t].work;
      assert TransactionOk(hash, w.table, w.transactions[t]);
      EffectKeepsExclusive(hash, w.table, work);
      EffectEases(w.table, work);
      var next := ApplyStep(hash, w, Step.Commit(t));
      forall u | 0 <= u < |next.transactions| ensures TransactionOk(hash, next.table, next.transactions[u]) {
        assert TransactionOk(hash, w.table, w.transactions[u]);
        var other := w.transactions[u];
        if u != t && (other.phase == Checked || other.phase == Written) {
          assert hash(work.employee) in w.transactions[t].held;
          assert other.work.employee == work.employee ==> hash(work.employee) in other.held;
          FreeStays(w.table, next.table, other.work, {work.employee});
        }
      }
    }
  }

  /** A writer without a lock may release time, never take it: no transition leads back to blocking. */
  lemma UnlockedKeeps(hash: EmployeeId -> LockKey, w: World, next: World)
    requires WorldOk(hash, w) && Exclusive(next.table)
    requires next == w.(table := next.table) && next.table.leave == w.table.leave
    requires Eases(w.table, next.table, {})
    ensures WorldOk(hash, next)
  {
    forall u | 0 <= u < |next.transactions| ensures TransactionOk(hash, next.table, next.transactions[u]) {
      var t := w.transactions[u];
      assert TransactionOk(hash, w.table, t);
      if t.phase == Checked || t.phase == Written {
        FreeStays(w.table, next.table, t.work, {});
      }
    }
  }

  lemma {:induction false} StatusKeeps(hash: EmployeeId -> LockKey, w: World, i: nat, to: BookingStatus)
    requires WorldOk(hash, w)
    ensures WorldOk(hash, ApplyStep(hash, w, ChangeStatus(i, to)))
  {
    if i < |w.table.appointments| && CanTransition(Some(w.table.appointments[i].status), to) {
      var next := ApplyStep(hash, w, ChangeStatus(i, to));
      TransitionsDescend(w.table.appointments[i].status, to);
      forall a, b | 0 <= a < b < |next.table.appointments|
        ensures Apart(next.table.appointments[a], next.table.appointments[b])
      {
        assert Apart(w.table.appointments[a], w.table.appointments[b]);
      }
      forall a, b | 0 <= a < |next.table.appointments| && 0 <= b < |next.table.blocked|
        ensures ApartFromBlocked(next.table.appointments[a], next.table.blocked[b])
      {
        assert ApartFromBlocked(w.table.appointments[a], w.table.blocked[b]);
      }
      UnlockedKeeps(hash, w, next);
    }
  }

  lemma DeleteKeeps(hash: EmployeeId -> LockKey, w: World, i: nat)
    requires WorldOk(hash, w)
    ensures WorldOk(hash, ApplyStep(hash, w, DeleteBlocked(i)))
  {
    if i < |w.table.blocked| {
      var next := ApplyStep(hash, w, DeleteBlocked(i));
      forall a, b | 0 <= a < |next.table.appointments| && 0 <= b < |next.table.blocked|
        ensures ApartFromBlocked(next.table.appointments[a], next.table.blocked[b])
      {
        assert ApartFromBlocked(w.table.appointments[a], w.table.blocked[b]);
      }
      UnlockedKeeps(hash, w, next);
    }
  }

  lemma StepKeeps(hash: EmployeeId -> LockKey, w: World, step: Step)
    requires WorldOk(hash, w)
    ensures WorldOk(hash, ApplyStep(hash, w, step))
  {
    match step
    case Begin(work) =>
    case Acquire(t, key) => AcquireKeeps(hash, w, t, key);
    case Check(t) =>
      if t < |w.transactions| && w.transactions[t].phase == Locking
         && w.transactions[t].held == Keys(hash, w.transactions[t].work)
      {
        assert TransactionOk(hash, w.table, w.transactions[t]);
        if Passes(w.table, w.transactions[t].work) {
          SetKeeps(hash, w, t, w.transactions[t].held, Checked);
        } else {
          SetKeeps(hash, w, t, {}, Ended);
        }
      }
    case Write(t) =>
      if t < |w.transactions| && w.transactions[t].phase == Checked {
        assert TransactionOk(hash, w.table, w.transactions[t]);
        SetKeeps(hash, w, t, w.transactions[t].held, Written);
      }
    case Commit(t) => CommitKeeps(hash, w, t);
    case Abort(t) =>
      if t < |w.transactions| && InProgress(w.transactions[t].phase) {
        assert TransactionOk(hash, w.table, w.transactions[t]);
        SetKeeps(hash, w, t, {}, Ended);
      }
    case ChangeStatus(i, to) => StatusKeeps(hash, w, i, to);
    case DeleteBlocked(i) => DeleteKeeps(hash, w, i);
  }

  lemma {:induction false} RunsAreExclusive(hash: EmployeeId -> LockKey, steps: seq<Step>)
    ensures WorldOk(hash, Run(hash, steps))
  {
    if steps != [] {
      RunsAreExclusive(hash, steps[..|steps| - 1]);
      StepKeeps(hash, Run(hash, steps[..|steps| - 1]), steps[|steps| - 1]);
    }
  }

  /**
   * In every interleaving, whatever the lock hash: no two appointments that still count overlap
   * on one employee's block time, and none overlaps blocked time of the employee.
   */
  lemma TimeIsGivenOnce(hash: EmployeeId -> LockKey, steps: seq<Step>, i: nat)
    requires i < |Run(hash, steps).table.appointments|
    requires IsBlocking(Run(hash, steps).table.appointments[i].status)
    ensures
      var table := Run(hash, steps).table;
      var mine := table.appointments[i];
      && (forall j | 0 <= j < |table.appointments| && j != i && Takes(table.appointments[j], mine.employee) ::
            !Overlap(mine.blockFrom, mine.blockTo, table.appointments[j].blockFrom, table.appointments[j].blockTo))
      && (forall b | 0 <= b < |table.blocked|
                     && table.blocked[b].employee == mine.employee && !table.blocked[b].deleted ::
            !Overlap(mine.blockFrom, mine.blockTo, table.blocked[b].from, table.blocked[b].to))
  {
    RunsAreExclusive(hash, steps);
    var table := Run(hash, steps).table;
    var mine := table.appointments[i];
    forall j | 0 <= j < |table.appointments| && j != i && Takes(table.appointments[j], mine.employee)
      ensures !Overlap(mine.blockFrom, mine.blockTo, table.appointments[j].blockFrom, table.appointments[j].blockTo)
    {
      if j < i {
        assert Apart(table.appointments[j], mine);
      } else {
        assert Apart(mine, table.appointments[j]);
      }
    }
    assert forall b | 0 <= b < |table.blocked| :: ApartFromBlocked(mine, table.blocked[b]);
  }
}
