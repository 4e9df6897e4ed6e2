/**
 * Leave in the calendar: whether appointments keep off it depends on decisions that are judged on
 * a status read before the lock.
 */
module CalendarLeave {
  import opened BookingStatuses
  import opened Calendar
  import opened CalendarExclusive

  /** No appointment that counts starts on a day of approved leave. */
  ghost predicate LeaveRespected(table: Table) {
    forall i, l | 0 <= i < |table.appointments| && 0 <= l < |table.leave| ::
      ApartFromLeave(table.appointments[i], table.leave[l])
  }

  predicate ApartFromLeave(a: Appointment, l: Leave) {
    Takes(a, l.employee) && l.status == Approved ==> !(l.from <= a.startsAt < l.to)
  }

  /**
   * What has to hold when an approval commits that was judged on a status read before the lock:
   * the leave is still approved, or nobody is booked on its days. Every other write was checked.
   */
  predicate IsSoundDecision(table: Table, work: Work) {
    work.DecideLeave? && work.status == Approved && work.seen == Approved && work.leave < |table.leave| ==>
      table.leave[work.leave].status == Approved || DaysFree(table, work.employee, work.from, work.to)
  }

  predicate CommitsSoundly(w: World, step: Step) {
    step.Commit? && step.transaction < |w.transactions| && w.transactions[step.transaction].phase == Written ==>
      IsSoundDecision(w.table, w.transactions[step.transaction].work)
  }

  /**
   * Committing what was checked keeps leave free of appointments, and committing an approval that
   * was judged as already approved does so if and only if it is a sound decision by then.
   */
  lemma EffectRespectsLeaveIff(hash: EmployeeId -> LockKey, table: Table, work: Work)
    requires LeaveRespected(table) && Free(table, work)
    requires TransactionOk(hash, table, Transaction(work, {}, Locking))
    ensures LeaveRespected(Effect(table, work)) <==> IsSoundDecision(table, work)
  {
    var next := Effect(table, work);
    if IsSoundDecision(table, work) {
      forall i, l | 0 <= i < |next.appointments| && 0 <= l < |next.leave|
        ensures ApartFromLeave(next.appointments[i], next.leave[l])
      {
        if i < |table.appointments| && l < |table.leave| {
          assert ApartFromLeave(table.appointments[i], table.leave[l]);
        }
      }
    } else {
      UnsoundDecisionOverbooks(hash, table, work);
    }
  }

  /** An unsound approval puts an appointment on approved leave, whatever was there before. */
  lemma UnsoundDecisionOverbooks(hash: EmployeeId -> LockKey, table: Table, work: Work)
    requires !IsSoundDecision(table, work)
    requires TransactionOk(hash, table, Transaction(work, {}, Locking))
    ensures !LeaveRespected(Effect(table, work))
  {
    var next := Effect(table, work);
    var i :| 0 <= i < |table.appointments| && Takes(table.appointments[i], work.employee)
             && work.from <= table.appointments[i].startsAt < work.to;
    assert !ApartFromLeave(next.appointments[i], next.leave[work.leave]);
  }

  /** A step that commits nothing only frees days, or leaves them as they are. */
  lemma OtherStepsRespectLeave(hash: EmployeeId -> LockKey, w: World, step: Step)
    requires LeaveRespected(w.table) && !step.Commit?
    ensures LeaveRespected(ApplyStep(hash, w, step).table)
  {
    var next := ApplyStep(hash, w, step).table;
    if step.ChangeStatus? && step.appointment < |w.table.appointments| {
      TransitionsDescend(w.table.appointments[step.appointment].status, step.to);
    }
    forall i, l | 0 <= i < |next.appointments| && 0 <= l < |next.leave|
      ensures ApartFromLeave(next.appointments[i], next.leave[l])
    {
      assert ApartFromLeave(w.table.appointments[i], w.table.leave[l]);
    }
  }

  lemma StepRespectsLeave(hash: EmployeeId -> LockKey, w: World, step: Step)
    requires WorldOk(hash, w) && LeaveRespected(w.table) && CommitsSoundly(w, step)
    ensures LeaveRespected(ApplyStep(hash, w, step).table)
  {
    if step.Commit? {
      if step.transaction < |w.transactions| && w.transactions[step.transaction].phase == Written {
        assert TransactionOk(hash, w.table, w.transactions[step.transaction]);
        EffectRespectsLeaveIff(hash, w.table, w.transactions[step.transaction].work);
      }
    } else {
      OtherStepsRespectLeave(hash, w, step);
    }
  }

  /** Every approval of the run that was judged as already approved was sound when it committed. */
  ghost predicate DecidesSoundly(hash: EmployeeId -> LockKey, steps: seq<Step>) {
    forall k | 0 <= k < |steps| :: CommitsSoundly(Run(hash, steps[..k]), steps[k])
  }

  ghost predicate AlwaysRespectsLeave(hash: EmployeeId -> LockKey, steps: seq<Step>) {
    forall k | 0 <= k <= |steps| :: LeaveRespected(Run(hash, steps[..k]).table)
  }

  lemma {:induction false} SoundRunRespectsLeave(hash: EmployeeId -> LockKey, steps: seq<Step>, k: nat)
    requires DecidesSoundly(hash, steps) && k <= |steps|
    ensures LeaveRespected(Run(hash, steps[..k]).table)
  {
    if k > 0 {
      SoundRunRespectsLeave(hash, steps, k - 1);
      RunsAreExclusive(hash, steps[..k - 1]);
      StepRespectsLeave(hash, Run(hash, steps[..k - 1]), steps[k - 1]);
      assert steps[..k][..k - 1] == steps[..k - 1];
    }
  }

  lemma UnsoundStepOverbooks(hash: EmployeeId -> LockKey, steps: seq<Step>, k: nat)
    requires k < |steps| && !CommitsSoundly(Run(hash, steps[..k]), steps[k])
    ensures !LeaveRespected(Run(hash, steps[..k + 1]).table)
  {
    var w := Run(hash, steps[..k]);
    RunsAreExclusive(hash, steps[..k]);
    assert TransactionOk(hash, w.table, w.transactions[steps[k].transaction]);
    UnsoundDecisionOverbooks(hash, w.table, w.transactions[steps[k].transaction].work);
    assert steps[..k + 1][..k] == steps[..k];
  }

  /**
   * In every interleaving, whatever the lock hash, no appointment that counts ever starts on
   * approved leave if and only if every approval that was judged as already approved found the
   * leave still approved, or its days free, when it committed.
   */
  lemma LeaveIsRespectedIff(hash: EmployeeId -> LockKey, steps: seq<Step>)
    ensures AlwaysRespectsLeave(hash, steps) <==> DecidesSoundly(hash, steps)
  {
    if DecidesSoundly(hash, steps) {
      forall k | 0 <= k <= |steps| ensures LeaveRespected(Run(hash, steps[..k]).table) {
        SoundRunRespectsLeave(hash, steps, k);
      }
    } else {
      var k :| 0 <= k < |steps| && !CommitsSoundly(Run(hash, steps[..k]), steps[k]);
      UnsoundStepOverbooks(hash, steps, k);
    }
  }
}
