/**
 * How an appointment comes to start on approved leave: somebody opens approved leave to approve it
 * once more, it is withdrawn meanwhile and the day is booked, and the decision, judged on what was
 * read before the lock, commits without a check. It is a run of the calendar, whatever the hash is.
 */
module CalendarRuns {
  import opened BookingStatuses
  import opened Calendar
  import opened CalendarExclusive
  import opened CalendarLeave

  /** What is left of a one-employee transaction once it has begun. */
  function Finish(hash: EmployeeId -> LockKey, t: nat, employee: EmployeeId): seq<Step> {
    [Acquire(t, hash(employee)), Check(t), Write(t), Step.Commit(t)]
  }

  predicate Quiet(w: World) {
    forall t | 0 <= t < |w.transactions| :: w.transactions[t].held == {}
  }

  lemma Then(hash: EmployeeId -> LockKey, steps: seq<Step>, step: Step)
    ensures Run(hash, steps + [step]) == ApplyStep(hash, Run(hash, steps), step)
  {
    assert (steps + [step])[..|steps|] == steps;
  }

  /** The four steps on their own. */
  lemma FourSteps(hash: EmployeeId -> LockKey, w: World, t: nat)
    requires Quiet(w) && t < |w.transactions| && w.transactions[t].phase == Locking
    requires !w.transactions[t].work.Move? && Passes(w.table, w.transactions[t].work)
    ensures
      var key := hash(w.transactions[t].work.employee);
      var locked := ApplyStep(hash, w, Acquire(t, key));
      var done := ApplyStep(hash, ApplyStep(hash, ApplyStep(hash, locked, Check(t)), Write(t)), Step.Commit(t));
      && done.table == Effect(w.table, w.transactions[t].work)
      && done.transactions ==
           w.transactions[t := w.transactions[t].(phase := Committed(RowFor(w.table, w.transactions[t].work)))]
  {
    var work := w.transactions[t].work;
    assert Keys(hash, work) == {hash(work.employee)};
    var locked := ApplyStep(hash, w, Acquire(t, hash(work.employee)));
    assert !HeldElsewhere(w, t, hash(work.employee));
    assert w.transactions[t].held + {hash(work.employee)} == Keys(hash, work);
    assert locked == SetTransaction(w, t, Keys(hash, work), Locking);
    var checked := ApplyStep(hash, locked, Check(t));
    assert checked == SetTransaction(locked, t, Keys(hash, work), Checked);
    var written := ApplyStep(hash, checked, Write(t));
    assert written == SetTransaction(checked, t, Keys(hash, work), Written);
  }

  lemma Finishes(hash: EmployeeId -> LockKey, steps: seq<Step>, t: nat)
    requires
      var w := Run(hash, steps);
      && Quiet(w) && t < |w.transactions| && w.transactions[t].phase == Locking
      && !w.transactions[t].work.Move? && Passes(w.table, w.transactions[t].work)
    ensures
      var w := Run(hash, steps);
      var done := Run(hash, steps + Finish(hash, t, w.transactions[t].work.employee));
      && done.table == Effect(w.table, w.transactions[t].work)
      && done.transactions ==
           w.transactions[t := w.transactions[t].(phase := Committed(RowFor(w.table, w.transactions[t].work)))]
  {
    var e := Run(hash, steps).transactions[t].work.employee;
    var locked := steps + [Acquire(t, hash(e))];
    FourSteps(hash, Run(hash, steps), t);
    Then(hash, steps, Acquire(t, hash(e)));
    Then(hash, locked, Check(t));
    Then(hash, locked + [Check(t)], Write(t));
    Then(hash, locked + [Check(t)] + [Write(t)], Step.Commit(t));
    assert steps + Finish(hash, t, e) == locked + [Check(t)] + [Write(t)] + [Step.Commit(t)];
  }

  const TAKEN: Work := TakeLeave(0, 0, 10, Approved)
  const AGAIN: Work := DecideLeave(0, 0, 0, 10, Approved, Approved)
  const WITHDRAWN: Work := DecideLeave(0, 0, 0, 10, Approved, Requested)
  const BOOKED: Work := Reserve(0, 5, 5, 6, true)

  /** Leave is approved, and somebody opens it to approve it once more. */
  lemma LeaveIsTaken(hash: EmployeeId -> LockKey) returns (steps: seq<Step>)
    ensures Run(hash, steps) == World(
              Table([], [], [Leave(0, 0, 10, Approved)]),
              [Transaction(TAKEN, {}, Committed(0)), Transaction(AGAIN, {}, Locking)])
  {
    steps := [] + [Begin(TAKEN)];
    Then(hash, [], Begin(TAKEN));
    Finishes(hash, steps, 0);
    steps := steps + Finish(hash, 0, 0);
    Then(hash, steps, Begin(AGAIN));
    steps := steps + [Begin(AGAIN)];
  }

  /** Meanwhile it is withdrawn, and the day is booked. */
  lemma LeaveIsWithdrawn(hash: EmployeeId -> LockKey, before: seq<Step>) returns (steps: seq<Step>)
    requires Run(hash, before) == World(
               Table([], [], [Leave(0, 0, 10, Approved)]),
               [Transaction(TAKEN, {}, Committed(0)), Transaction(AGAIN, {}, Locking)])
    ensures Run(hash, steps) == World(
              Table([Appointment(0, 5, 5, 6, Confirmed)], [], [Leave(0, 0, 10, Requested)]),
              [Transaction(TAKEN, {}, Committed(0)), Transaction(AGAIN, {}, Locking),
               Transaction(WITHDRAWN, {}, Committed(0)), Transaction(BOOKED, {}, Committed(0))])
  {
    Then(hash, before, Begin(WITHDRAWN));
    steps := before + [Begin(WITHDRAWN)];
    Finishes(hash, steps, 2);
    steps := steps + Finish(hash, 2, 0);
    assert Run(hash, steps).table == Table([], [], [Leave(0, 0, 10, Requested)]);
    Then(hash, steps, Begin(BOOKED));
    steps := steps + [Begin(BOOKED)];
    Finishes(hash, steps, 3);
    steps := steps + Finish(hash, 3, 0);
  }

  /**
   * And unsound ones happen: two decisions and a reservation are enough to have an appointment on
   * approved leave, whatever the hash.
   */
  lemma StaleDecisionOverbooks(hash: EmployeeId -> LockKey) returns (steps: seq<Step>)
    ensures
      var table := Run(hash, steps).table;
      && table.appointments == [Appointment(0, 5, 5, 6, Confirmed)]
      && table.leave == [Leave(0, 0, 10, Approved)]
      && !LeaveRespected(table)
  {
    var taken := LeaveIsTaken(hash);
    steps := LeaveIsWithdrawn(hash, taken);
    Finishes(hash, steps, 1);
    steps := steps + Finish(hash, 1, 0);
    var table := Run(hash, steps).table;
    assert !ApartFromLeave(table.appointments[0], table.leave[0]);
  }
}
