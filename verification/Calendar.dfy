/**
 * One employee's time is given away once. Every writer that takes time locks the employee, checks
 * what is committed, writes, and commits, as separate steps beside any number of others; status
 * changes and the removal of blocked time take no lock at all.
 */
module Calendar {
  import opened Outcomes
  import opened BookingStatuses
  import Locks = CalendarLocks
  import Records

  type Instant = Records.Instant
  type EmployeeId = Locks.EmployeeId
  type LockKey = Locks.LockKey

  /** An appointment occupies its block: the booked time with its buffers on both sides. */
  datatype Appointment = Appointment(
    employee: EmployeeId, startsAt: Instant, blockFrom: Instant, blockTo: Instant, status: BookingStatus)

  datatype BlockedTime = BlockedTime(employee: EmployeeId, from: Instant, to: Instant, deleted: bool)

  datatype LeaveStatus = Requested | Approved | Rejected

  datatype Leave = Leave(employee: EmployeeId, from: Instant, to: Instant, status: LeaveStatus)

  /** What is committed. Rows keep their place; a deleted blocked time is only marked. */
  datatype Table = Table(appointments: seq<Appointment>, blocked: seq<BlockedTime>, leave: seq<Leave>)

  datatype Work =
    | Reserve(employee: EmployeeId, startsAt: Instant, blockFrom: Instant, blockTo: Instant, confirmed: bool)
      /** Approving a reschedule: a new appointment, and the old one cancelled. */
    | Move(appointment: nat, oldEmployee: EmployeeId,
           employee: EmployeeId, startsAt: Instant, blockFrom: Instant, blockTo: Instant)
    | Block(employee: EmployeeId, from: Instant, to: Instant)
    | TakeLeave(employee: EmployeeId, from: Instant, to: Instant, status: LeaveStatus)
      /** Deciding about leave. Everything but `status` was read before the lock was asked for. */
    | DecideLeave(leave: nat, employee: EmployeeId, from: Instant, to: Instant, seen: LeaveStatus, status: LeaveStatus)

  /** A committed transaction keeps where its row is. */
  datatype Phase = Locking | Checked | Written | Committed(row: nat) | Ended

  datatype Transaction = Transaction(work: Work, held: set<LockKey>, phase: Phase)

  datatype World = World(table: Table, transactions: seq<Transaction>)

  datatype Step =
    | Begin(work: Work)
    | Acquire(transaction: nat, key: LockKey)
    | Check(transaction: nat)
    | Write(transaction: nat)
    | Commit(transaction: nat)
    | Abort(transaction: nat)
      /** Confirming, expiring, cancelling, closing out: no calendar lock. */
    | ChangeStatus(appointment: nat, to: BookingStatus)
    | DeleteBlocked(blocked: nat)

  predicate Overlap(from1: Instant, to1: Instant, from2: Instant, to2: Instant) {
    from1 < to2 && from2 < to1
  }

  predicate Takes(a: Appointment, employee: EmployeeId) {
    a.employee == employee && IsBlocking(a.status)
  }

  /** Nothing committed stands in the way of a new appointment, and the day is workable. */
  predicate SlotFree(table: Table, employee: EmployeeId, startsAt: Instant, from: Instant, to: Instant) {
    && TimeFree(table, employee, from, to)
    && (forall i | 0 <= i < |table.blocked| :: var b := table.blocked[i];
          b.employee == employee && !b.deleted ==> !Overlap(b.from, b.to, from, to))
    && (forall i | 0 <= i < |table.leave| :: var l := table.leave[i];
          l.employee == employee && l.status == Approved ==> !(l.from <= startsAt < l.to))
  }

  /** No appointment's block reaches into this time. */
  predicate TimeFree(table: Table, employee: EmployeeId, from: Instant, to: Instant) {
    forall i | 0 <= i < |table.appointments| :: var a := table.appointments[i];
      Takes(a, employee) ==> !Overlap(a.blockFrom, a.blockTo, from, to)
  }

  /** No appointment starts on these days. */
  predicate DaysFree(table: Table, employee: EmployeeId, from: Instant, to: Instant) {
    forall i | 0 <= i < |table.appointments| :: var a := table.appointments[i];
      Takes(a, employee) ==> !(from <= a.startsAt < to)
  }

  /** The part of the check that speaks about the calendar. */
  predicate Free(table: Table, work: Work) {
    match work
    case Reserve(e, startsAt, from, to, _) => SlotFree(table, e, startsAt, from, to)
    case Move(_, _, e, startsAt, from, to) => SlotFree(table, e, startsAt, from, to)
    case Block(e, from, to) => TimeFree(table, e, from, to)
    case TakeLeave(e, from, to, status) => status == Approved ==> DaysFree(table, e, from, to)
    case DecideLeave(_, e, from, to, seen, status) =>
      status == Approved && seen != Approved ==> DaysFree(table, e, from, to)
  }

  /** The whole check. A reschedule also reads the old booking, without locking its row. */
  predicate Passes(table: Table, work: Work) {
    && Free(table, work)
    && (work.Move? ==> work.appointment < |table.appointments| && table.appointments[work.appointment].status == Confirmed)
  }

  /** Blocks are never empty: a service lasts at least five minutes, and blocked time ends after it starts. */
  predicate WellFormed(work: Work) {
    match work
    case Reserve(_, startsAt, from, to, _) => from <= startsAt < to
    case Move(_, _, _, startsAt, from, to) => from <= startsAt < to
    case Block(_, from, to) => from < to
    case TakeLeave(_, _, _, _) => true
    case DecideLeave(_, _, _, _, _, _) => true
  }

  /** What a transaction read before it began is what was committed then. */
  predicate ReadsCommitted(table: Table, work: Work) {
    match work
    case Move(i, was, _, _, _, _) => i < |table.appointments| && table.appointments[i].employee == was
    case DecideLeave(l, e, from, to, seen, _) =>
      l < |table.leave| && table.leave[l] == Leave(e, from, to, seen)
    case _ => true
  }

  function Employees(work: Work): set<EmployeeId> {
    if work.Move? then {work.oldEmployee, work.employee} else {work.employee}
  }

  function Keys(hash: EmployeeId -> LockKey, work: Work): set<LockKey> {
    set e | e in Employees(work) :: hash(e)
  }

  function Effect(table: Table, work: Work): Table {
    match work
    case Reserve(e, startsAt, from, to, confirmed) =>
      var row := Appointment(e, startsAt, from, to, if confirmed then Confirmed else PendingPayment);
      table.(appointments := table.appointments + [row])
    case Move(i, _, e, startsAt, from, to) =>
      var kept := if i < |table.appointments|
                  then table.appointments[i := table.appointments[i].(status := CanceledByBusiness)]
                  else table.appointments;
      table.(appointments := kept + [Appointment(e, startsAt, from, to, Confirmed)])
    case Block(e, from, to) => table.(blocked := table.blocked + [BlockedTime(e, from, to, false)])
    case TakeLeave(e, from, to, status) => table.(leave := table.leave + [Leave(e, from, to, status)])
    case DecideLeave(l, _, _, _, _, status) =>
      if l >= |table.leave| then table
      else table.(leave := table.leave[l := table.leave[l].(status := status)])
  }

  /** The place of the row that committing this work makes, or decides about. */
  function RowFor(table: Table, work: Work): nat {
    match work
    case Reserve(_, _, _, _, _) => |table.appointments|
    case Move(_, _, _, _, _, _) => |table.appointments|
    case Block(_, _, _) => |table.blocked|
    case TakeLeave(_, _, _, _) => |table.leave|
    case DecideLeave(l, _, _, _, _, _) => l
  }

  predicate InProgress(phase: Phase) {
    phase == Locking || phase == Checked || phase == Written
  }

  predicate HeldElsewhere(w: World, t: nat, key: LockKey) {
    exists u | 0 <= u < |w.transactions| :: u != t && key in w.transactions[u].held
  }

  function SetTransaction(w: World, t: nat, held: set<LockKey>, phase: Phase): World
    requires t < |w.transactions|
  {
    w.(transactions := w.transactions[t := w.transactions[t].(held := held, phase := phase)])
  }

  function ApplyStep(hash: EmployeeId -> LockKey, w: World, step: Step): World {
    match step
    case Begin(work) =>
      if WellFormed(work) && ReadsCommitted(w.table, work) then
        w.(transactions := w.transactions + [Transaction(work, {}, Locking)])
      else w
    case Acquire(t, key) =>
      if t < |w.transactions| && w.transactions[t].phase == Locking
         && key in Keys(hash, w.transactions[t].work) && !HeldElsewhere(w, t, key)
      then SetTransaction(w, t, w.transactions[t].held + {key}, Locking)
      else w
    case Check(t) =>
      if t < |w.transactions| && w.transactions[t].phase == Locking
         && w.transactions[t].held == Keys(hash, w.transactions[t].work)
      then
        if Passes(w.table, w.transactions[t].work)
        then SetTransaction(w, t, w.transactions[t].held, Checked)
        else SetTransaction(w, t, {}, Ended)
      else w
    case Write(t) =>
      if t < |w.transactions| && w.transactions[t].phase == Checked
      then SetTransaction(w, t, w.transactions[t].held, Written)
      else w
    case Commit(t) =>
      if t < |w.transactions| && w.transactions[t].phase == Written
      then
        var work := w.transactions[t].work;
        SetTransaction(w, t, {}, Committed(RowFor(w.table, work))).(table := Effect(w.table, work))
      else w
    case Abort(t) =>
      if t < |w.transactions| && InProgress(w.transactions[t].phase) then SetTransaction(w, t, {}, Ended) else w
    case ChangeStatus(i, to) =>
      if i < |w.table.appointments| && CanTransition(Some(w.table.appointments[i].status), to) then
        w.(table := w.table.(appointments :=
             w.table.appointments[i := w.table.appointments[i].(status := to)]))
      else w
    case DeleteBlocked(i) =>
      if i < |w.table.blocked| then
        w.(table := w.table.(blocked := w.table.blocked[i := w.table.blocked[i].(deleted := true)]))
      else w
  }

  const NOTHING := World(Table([], [], []), [])

  function Run(hash: EmployeeId -> LockKey, steps: seq<Step>): World {
    if steps == [] then NOTHING else ApplyStep(hash, Run(hash, steps[..|steps| - 1]), steps[|steps| - 1])
  }

  // ── the invariant ────────────────────────────────────────────────────────────────────────

  ghost predicate Exclusive(table: Table) {
    && (forall i, j | 0 <= i < j < |table.appointments| :: Apart(table.appointments[i], table.appointments[j]))
    && (forall i, b | 0 <= i < |table.appointments| && 0 <= b < |table.blocked| ::
          ApartFromBlocked(table.appointments[i], table.blocked[b]))
  }

  predicate Apart(a: Appointment, b: Appointment) {
    a.employee == b.employee && IsBlocking(a.status) && IsBlocking(b.status) ==>
      !Overlap(a.blockFrom, a.blockTo, b.blockFrom, b.blockTo)
  }

  predicate ApartFromBlocked(a: Appointment, b: BlockedTime) {
    Takes(a, b.employee) && !b.deleted ==> !Overlap(a.blockFrom, a.blockTo, b.from, b.to)
  }

  /** What a transaction past its check relies on is still so. */
  ghost predicate TransactionOk(hash: EmployeeId -> LockKey, table: Table, t: Transaction) {
    && WellFormed(t.work)
    && (t.work.DecideLeave? ==>
          && t.work.leave < |table.leave|
          && table.leave[t.work.leave].employee == t.work.employee
          && table.leave[t.work.leave].from == t.work.from && table.leave[t.work.leave].to == t.work.to)
    && (t.phase == Checked || t.phase == Written ==> t.held == Keys(hash, t.work) && Free(table, t.work))
  }

  ghost predicate WorldOk(hash: EmployeeId -> LockKey, w: World) {
    && Exclusive(w.table)
    && (forall t | 0 <= t < |w.transactions| :: TransactionOk(hash, w.table, w.transactions[t]))
    && (forall t, u | 0 <= t < |w.transactions| && 0 <= u < |w.transactions| && t != u ::
          w.transactions[t].held !! w.transactions[u].held)
  }
}
