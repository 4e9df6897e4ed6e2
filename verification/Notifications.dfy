/** Sending a notification: queued once per key, claimed, handed over and settled, beside other senders. */
module Notifications {
  import opened Outcomes

  datatype Status = Pending | Sending | Sent | Delivered | Failed

  /** `identified` once the provider's id for the message was stored, which is how reports find it. */
  datatype Notification = Notification(key: string, status: Status, identified: bool)

  /** What the provider's answer comes to. */
  datatype Verdict = Accepted | Retryable | Permanent

  // ── the row ──────────────────────────────────────────────────────────────────────────────

  predicate HasKey(rows: seq<Notification>, key: string) {
    exists n | 0 <= n < |rows| :: rows[n].key == key
  }

  /** Insert unless an identical message is there already. */
  function Queued(rows: seq<Notification>, key: string): seq<Notification> {
    if HasKey(rows, key) then rows else rows + [Notification(key, Pending, false)]
  }

  function SetStatus(rows: seq<Notification>, n: nat, status: Status): seq<Notification>
    requires n < |rows|
  {
    rows[n := rows[n].(status := status)]
  }

  /** The conditional update only one of two senders can make. */
  function Claimed(rows: seq<Notification>, n: nat): (seq<Notification>, bool)
    requires n < |rows|
  {
    if rows[n].status == Pending then (SetStatus(rows, n, Sending), true) else (rows, false)
  }

  /** What a sender writes once it knows how the call went, whatever the row says by then. */
  function AfterVerdict(verdict: Verdict): Status {
    match verdict
    case Accepted => Sent
    case Retryable => Pending
    case Permanent => Failed
  }

  function Recorded(rows: seq<Notification>, n: nat, verdict: Verdict): seq<Notification>
    requires n < |rows|
  {
    rows[n := Notification(rows[n].key, AfterVerdict(verdict), rows[n].identified || verdict == Accepted)]
  }

  /**
   * A row once its message was handed over: sent and known to the provider, to be sent again, or
   * failed for good.
   */
  function Answered(row: Notification, verdict: Verdict): Notification {
    match verdict
    case Accepted => Notification(row.key, Sent, true)
    case Retryable => row.(status := Pending)
    case Permanent => row.(status := Failed)
  }

  predicate IsSettled(row: Notification) {
    row.status == Delivered || row.status == Failed
  }

  /** A delivery report does not move a row that has settled, nor one it does not find. */
  function Reported(rows: seq<Notification>, n: nat, delivered: bool): seq<Notification>
    requires n < |rows|
  {
    if IsSettled(rows[n]) || !rows[n].identified then rows
    else SetStatus(rows, n, if delivered then Delivered else Failed)
  }

  /** Abandoned rows go back to PENDING; one that was settled since is left alone. */
  function Released(rows: seq<Notification>, abandoned: set<nat>): (released: seq<Notification>)
    ensures |released| == |rows|
    ensures forall n | 0 <= n < |rows| :: released[n] ==
              if n in abandoned && rows[n].status == Sending then rows[n].(status := Pending) else rows[n]
  {
    seq(|rows|, n requires 0 <= n < |rows| =>
      if n in abandoned && rows[n].status == Sending then rows[n].(status := Pending) else rows[n])
  }

  /** What a sender reports to its queue; a transient failure is thrown, so that the job is retried. */
  datatype Outcome = WasSent | HasFailed | Rethrown

  function OutcomeOf(verdict: Verdict): Outcome {
    match verdict
    case Accepted => WasSent
    case Retryable => Rethrown
    case Permanent => HasFailed
  }

  /** A stalled row as a sweep listed it, with the status it had then. */
  datatype Listed = Listed(row: nat, status: Status)

  /** The job a sweep queues is named by its row and by the window the sweep falls in. */
  datatype Job = Retry(row: nat, window: int)

  class NotificationTable {
    var rows: seq<Notification>
    /** The names the queue has taken; a name it knows is not queued again. */
    var jobs: set<Job>
    /** The rows the provider was called for, in order. */
    var called: seq<nat>

    constructor ()
      ensures rows == [] && jobs == {} && called == []
    {
      rows, jobs, called := [], {}, [];
    }

    method Queue(key: string) returns (id: Option<nat>)
      modifies this`rows
      ensures rows == Queued(old(rows), key)
      ensures id.None? <==> HasKey(old(rows), key)
      ensures id.Some? ==> id.value == |old(rows)| && rows[id.value] == Notification(key, Pending, false)
    {
      if HasKey(rows, key) { return None; }
      id := Some(|rows|);
      rows := rows + [Notification(key, Pending, false)];
    }

    method Claim(n: nat) returns (claimed: bool)
      requires n < |rows|
      modifies this`rows
      ensures (rows, claimed) == Claimed(old(rows), n)
    {
      claimed := rows[n].status == Pending;
      if claimed {
        rows := rows[n := rows[n].(status := Sending)];
      }
    }

    method RecordOutcome(n: nat, verdict: Verdict)
      requires n < |rows|
      modifies this`rows
      ensures rows == Recorded(old(rows), n, verdict)
    {
      var row := rows[n].(status := AfterVerdict(verdict));
      rows := rows[n := if verdict == Accepted then row.(identified := true) else row];
    }

    method ApplyDeliveryStatus(n: nat, delivered: bool)
      requires n < |rows|
      modifies this`rows
      ensures rows == Reported(old(rows), n, delivered)
      ensures var was := old(rows)[n];
              rows[n] == if was.identified && was.status != Delivered && was.status != Failed
                         then was.(status := if delivered then Delivered else Failed) else was
    {
      if rows[n].identified && rows[n].status != Delivered && rows[n].status != Failed {
        rows := rows[n := rows[n].(status := if delivered then Delivered else Failed)];
      }
    }

    /**
     * One delivery of a send job that nobody disturbs, with the answer the provider would give.
     * The provider is called if and only if the row is PENDING, and no other row is touched.
     */
    method Send(n: nat, verdict: Verdict) returns (outcome: Outcome)
      requires n < |rows|
      modifies this`rows, this`called
      ensures |rows| == |old(rows)| && forall m | 0 <= m < |rows| && m != n :: rows[m] == old(rows)[m]
      ensures old(rows)[n].status == Pending ==>
                && called == old(called) + [n] && rows[n] == Answered(old(rows)[n], verdict)
                && (outcome == WasSent <==> verdict == Accepted) && (outcome == Rethrown <==> verdict == Retryable)
      ensures old(rows)[n].status != Pending ==>
                && called == old(called) && rows[n] == old(rows)[n]
                && (outcome == HasFailed <==> rows[n].status == Failed) && outcome != Rethrown
    {
      if rows[n].status != Pending {
        return if rows[n].status == Failed then HasFailed else WasSent;
      }
      var claimed := Claim(n);
      if !claimed { return WasSent; }
      called := called + [n];
      RecordOutcome(n, verdict);
      outcome := OutcomeOf(verdict);
    }

    /**
     * A sweep over the rows it listed some time ago. Those listed as SENDING and still SENDING
     * go back to PENDING, every other row is left as it is, and each listed row has a job of this
     * window in the queue, however often the window is swept.
     */
    method ReleaseAndEnqueue(stalled: seq<Listed>, window: int) returns (count: nat)
      modifies this`rows, this`jobs
      ensures |rows| == |old(rows)|
      ensures forall n | 0 <= n < |rows| :: rows[n] ==
                if old(rows)[n].status == Sending && Listed(n, Sending) in stalled
                then old(rows)[n].(status := Pending) else old(rows)[n]
      ensures jobs == old(jobs) + JobsFor(stalled, window)
      ensures count == |stalled|
    {
      var abandoned: set<nat> := {};
      for i := 0 to |stalled|
        invariant forall n :: n in abandoned <==> Listed(n, Sending) in stalled[..i]
      {
        if stalled[i].status == Sending {
          abandoned := abandoned + {stalled[i].row};
        }
        assert stalled[..i + 1] == stalled[..i] + [stalled[i]];
      }
      assert stalled[..|stalled|] == stalled;
      if abandoned != {} {
        rows := Released(rows, abandoned);
      }
      ghost var released := rows;
      for i := 0 to |stalled|
        invariant rows == released && jobs == old(jobs) + JobsFor(stalled[..i], window)
      {
        jobs := jobs + {Retry(stalled[i].row, window)};
        assert stalled[..i + 1] == stalled[..i] + [stalled[i]];
        OneMoreJob(stalled[..i], stalled[i], window);
      }
      count := |stalled|;
    }
  }

  function JobsFor(stalled: seq<Listed>, window: int): set<Job> {
    set l | l in stalled :: Retry(l.row, window)
  }

  lemma OneMoreJob(stalled: seq<Listed>, listed: Listed, window: int)
    ensures JobsFor(stalled + [listed], window) == JobsFor(stalled, window) + {Retry(listed.row, window)}
  {
    assert listed in stalled + [listed];
    forall l | l in stalled ensures l in stalled + [listed] {
    }
  }

  // ── any number of senders ────────────────────────────────────────────────────────────────

  /** How far one delivery of a send job has come. */
  datatype Progress = SawPending | HoldsClaim | Called(verdict: Verdict) | Done

  datatype Sender = Sender(row: nat, progress: Progress)

  /** `calls` counts the provider calls made for each row, `handedBack` how often it went back to PENDING. */
  datatype World = World(rows: seq<Notification>, senders: seq<Sender>, calls: seq<nat>, handedBack: seq<nat>)

  datatype Action =
    | QueueMessage(key: string)
    | BeginSend(row: nat)
    | Claim(sender: nat)
    | CallProvider(sender: nat, verdict: Verdict)
    | Record(sender: nat)
    | Report(row: nat, delivered: bool)
    | Sweep(abandoned: set<nat>)

  function Advance(w: World, s: nat, progress: Progress): World
    requires s < |w.senders|
  {
    w.(senders := w.senders[s := w.senders[s].(progress := progress)])
  }

  function QueueStep(w: World, key: string): World {
    if HasKey(w.rows, key) then w
    else w.(rows := Queued(w.rows, key), calls := w.calls + [0], handedBack := w.handedBack + [0])
  }

  function ClaimStep(w: World, s: nat): World
    requires s < |w.senders| && w.senders[s].row < |w.rows|
  {
    var (rows, claimed) := Claimed(w.rows, w.senders[s].row);
    Advance(w.(rows := rows), s, if claimed then HoldsClaim else Done)
  }

  function RecordStep(w: World, s: nat): World
    requires s < |w.senders| && w.senders[s].row < |w.rows| == |w.handedBack| && w.senders[s].progress.Called?
  {
    var n := w.senders[s].row;
    var status := AfterVerdict(w.senders[s].progress.verdict);
    Advance(w.(rows := Recorded(w.rows, n, w.senders[s].progress.verdict),
               handedBack := if status == Pending then w.handedBack[n := w.handedBack[n] + 1] else w.handedBack),
            s, Done)
  }

  function SweepStep(w: World, abandoned: set<nat>): World
    requires |w.handedBack| == |w.rows|
  {
    w.(rows := Released(w.rows, abandoned),
       handedBack := seq(|w.rows|, n requires 0 <= n < |w.rows| =>
         if n in abandoned && w.rows[n].status == Sending then w.handedBack[n] + 1 else w.handedBack[n]))
  }

  predicate WellFormed(w: World) {
    && |w.calls| == |w.handedBack| == |w.rows|
    && forall s | 0 <= s < |w.senders| :: w.senders[s].row < |w.rows|
  }

  function Step(w: World, action: Action): World
    requires WellFormed(w)
  {
    match action
    case QueueMessage(key) => QueueStep(w, key)
    case BeginSend(n) =>
      if n < |w.rows| && w.rows[n].status == Pending then
        w.(senders := w.senders + [Sender(n, SawPending)])
      else w
    case Claim(s) => if s < |w.senders| && w.senders[s].progress == SawPending then ClaimStep(w, s) else w
    case CallProvider(s, verdict) =>
      if s < |w.senders| && w.senders[s].progress == HoldsClaim then
        var n := w.senders[s].row;
        Advance(w.(calls := w.calls[n := w.calls[n] + 1]), s, Called(verdict))
      else w
    case Record(s) => if s < |w.senders| && w.senders[s].progress.Called? then RecordStep(w, s) else w
    case Report(n, delivered) => if n < |w.rows| then w.(rows := Reported(w.rows, n, delivered)) else w
    case Sweep(abandoned) => SweepStep(w, abandoned)
  }

  const NOTHING := World([], [], [], [])

  function RunFrom(w: World, actions: seq<Action>): (later: World)
    requires WellFormed(w)
    ensures WellFormed(later) && |w.rows| <= |later.rows|
  {
    if actions == [] then w else Step(RunFrom(w, actions[..|actions| - 1]), actions[|actions| - 1])
  }

  function Run(actions: seq<Action>): (w: World)
    ensures WellFormed(w)
  {
    RunFrom(NOTHING, actions)
  }

  // ── how often the provider is called ─────────────────────────────────────────────────────

  /** A sender that has not called yet for its claim, or, of all, one that has not recorded yet. */
  predicate Owes(sender: Sender, n: nat, all: bool) {
    sender.row == n && (sender.progress == HoldsClaim || (all && sender.progress.Called?))
  }

  function Owing(senders: seq<Sender>, n: nat, all: bool): nat {
    if senders == [] then 0
    else Owing(senders[..|senders| - 1], n, all) + Count(Owes(senders[|senders| - 1], n, all))
  }

  function Count(yes: bool): nat {
    if yes then 1 else 0
  }

  lemma {:induction false} OwingAfter(senders: seq<Sender>, s: nat, sender: Sender, n: nat, all: bool)
    requires s < |senders|
    ensures Owing(senders[s := sender], n, all) ==
            Owing(senders, n, all) - Count(Owes(senders[s], n, all)) + Count(Owes(sender, n, all))
  {
    var last := |senders| - 1;
    if s == last {
      assert senders[s := sender][..last] == senders[..last];
    } else {
      assert senders[s := sender][..last] == senders[..last][s := sender];
      OwingAfter(senders[..last], s, sender, n, all);
    }
  }

  /** The call a PENDING row still allows. */
  function Allowed(row: Notification): nat {
    Count(row.status == Pending)
  }

  /** A row nobody is sending needs nobody to record for it, one with an id was recorded already. */
  function AtRest(row: Notification): nat {
    Count(row.status != Sending) + Count(row.identified && (row.status == Pending || row.status == Sending))
  }

  /** Calls made, about to be made and still allowed; and senders that are not through with the row. */
  ghost predicate CallsAreCovered(w: World, n: nat)
    requires WellFormed(w) && n < |w.rows|
  {
    && w.calls[n] + Owing(w.senders, n, false) + Allowed(w.rows[n]) <= 1 + w.handedBack[n]
    && Owing(w.senders, n, true) + AtRest(w.rows[n]) <= 1 + w.handedBack[n]
  }

  ghost predicate WorldInv(w: World) {
    && WellFormed(w)
    && (forall n | 0 <= n < |w.rows| :: CallsAreCovered(w, n))
    && (forall m, n | 0 <= m < n < |w.rows| :: w.rows[m].key != w.rows[n].key)
  }

  lemma {:induction false} NobodyOwesYet(senders: seq<Sender>, n: nat, all: bool)
    requires forall s | 0 <= s < |senders| :: senders[s].row < n
    ensures Owing(senders, n, all) == 0
  {
    if senders != [] {
      NobodyOwesYet(senders[..|senders| - 1], n, all);
    }
  }

  /** A step by one sender, accounted for at its own row. */
  lemma SenderStepKeeps(w: World, next: World, s: nat)
    requires WorldInv(w) && WellFormed(next) && s < |w.senders| == |next.senders|
    requires next.senders == w.senders[s := Sender(w.senders[s].row, next.senders[s].progress)]
    requires |next.rows| == |w.rows| && forall n | 0 <= n < |w.rows| :: next.rows[n].key == w.rows[n].key
    requires forall n | 0 <= n < |w.rows| && n != w.senders[s].row ::
               next.rows[n] == w.rows[n] && next.calls[n] == w.calls[n] && next.handedBack[n] == w.handedBack[n]
    requires
      var n := w.senders[s].row;
      && next.calls[n] + Count(Owes(next.senders[s], n, false)) + Allowed(next.rows[n]) - next.handedBack[n] <=
         w.calls[n] + Count(Owes(w.senders[s], n, false)) + Allowed(w.rows[n]) - w.handedBack[n]
      && Count(Owes(next.senders[s], n, true)) + AtRest(next.rows[n]) - next.handedBack[n] <=
         Count(Owes(w.senders[s], n, true)) + AtRest(w.rows[n]) - w.handedBack[n]
    ensures WorldInv(next)
  {
    forall n | 0 <= n < |next.rows| ensures CallsAreCovered(next, n) {
      assert CallsAreCovered(w, n);
      OwingAfter(w.senders, s, next.senders[s], n, false);
      OwingAfter(w.senders, s, next.senders[s], n, true);
    }
  }

  lemma QueueKeeps(w: World, key: string)
    requires WorldInv(w)
    ensures WorldInv(Step(w, QueueMessage(key)))
  {
    var next := Step(w, QueueMessage(key));
    forall n | 0 <= n < |next.rows| ensures CallsAreCovered(next, n) {
      if n < |w.rows| {
        assert CallsAreCovered(w, n);
      } else {
        NobodyOwesYet(w.senders, n, false);
        NobodyOwesYet(w.senders, n, true);
      }
    }
  }

  lemma BeginKeeps(w: World, n: nat)
    requires WorldInv(w)
    ensures WorldInv(Step(w, BeginSend(n)))
  {
    var next := Step(w, BeginSend(n));
    forall m | 0 <= m < |next.rows| ensures CallsAreCovered(next, m) {
      assert CallsAreCovered(w, m);
      assert next != w ==> next.senders[..|w.senders|] == w.senders;
    }
  }

  lemma RowStepKeeps(w: World, action: Action)
    requires WorldInv(w) && (action.Report? || action.Sweep?)
    ensures WorldInv(Step(w, action))
  {
    var next := Step(w, action);
    forall n | 0 <= n < |next.rows| ensures CallsAreCovered(next, n) {
      assert CallsAreCovered(w, n);
    }
  }

  lemma StepKeeps(w: World, action: Action)
    requires WorldInv(w)
    ensures WorldInv(Step(w, action))
  {
    match action
    case QueueMessage(key) => QueueKeeps(w, key);
    case BeginSend(n) => BeginKeeps(w, n);
    case Claim(s) =>
      if s < |w.senders| && w.senders[s].progress == SawPending {
        SenderStepKeeps(w, Step(w, action), s);
      }
    case CallProvider(s, verdict) =>
      if s < |w.senders| && w.senders[s].progress == HoldsClaim {
        SenderStepKeeps(w, Step(w, action), s);
      }
    case Record(s) =>
      if s < |w.senders| && w.senders[s].progress.Called? {
        SenderStepKeeps(w, Step(w, action), s);
      }
    case Report(_, _) => RowStepKeeps(w, action);
    case Sweep(_) => RowStepKeeps(w, action);
  }

  lemma {:induction false} RunsKeepInv(w: World, actions: seq<Action>)
    requires WorldInv(w)
    ensures WorldInv(RunFrom(w, actions))
  {
    if actions != [] {
      RunsKeepInv(w, actions[..|actions| - 1]);
      StepKeeps(RunFrom(w, actions[..|actions| - 1]), actions[|actions| - 1]);
    }
  }

  /**
   * Whatever the senders, redeliveries, sweeps and reports do, a message has one row, and the
   * provider is called for it at most once more than the row was returned to PENDING.
   */
  lemma OneCallPerReturn(actions: seq<Action>, n: nat)
    requires n < |Run(actions).rows|
    ensures Run(actions).calls[n] <= 1 + Run(actions).handedBack[n]
    ensures forall m | 0 <= m < |Run(actions).rows| && m != n :: Run(actions).rows[m].key != Run(actions).rows[n].key
  {
    RunsKeepInv(NOTHING, actions);
    assert CallsAreCovered(Run(actions), n);
  }

  /** A sender nobody disturbs is one run of the four steps: it makes one call, and leaves what Send leaves. */
  lemma SendIsFourSteps(w: World, n: nat, verdict: Verdict)
    requires WellFormed(w) && n < |w.rows| && w.rows[n].status == Pending
    ensures
      var s := |w.senders|;
      var claimed := Step(Step(w, BeginSend(n)), Claim(s));
      var done := Step(Step(claimed, CallProvider(s, verdict)), Record(s));
      && done.rows == w.rows[n := Answered(w.rows[n], verdict)]
      && done.handedBack == (if verdict == Retryable then w.handedBack[n := w.handedBack[n] + 1] else w.handedBack)
      && done.calls == w.calls[n := w.calls[n] + 1]
      && done.senders == w.senders + [Sender(n, Done)]
  {
    var s := |w.senders|;
    var begun := Step(w, BeginSend(n));
    var claimed := Step(begun, Claim(s));
    assert claimed.rows == SetStatus(w.rows, n, Sending) && claimed.senders == w.senders + [Sender(n, HoldsClaim)];
    var called := Step(claimed, CallProvider(s, verdict));
    assert called.rows == claimed.rows && called.senders == w.senders + [Sender(n, Called(verdict))];
  }

  // ── whether a settled row stays settled ──────────────────────────────────────────────────

  /** A sender that is not through with the row, and will or may record something else than it shows. */
  predicate MayOverwrite(sender: Sender, n: nat, status: Status) {
    && sender.row == n
    && (sender.progress == HoldsClaim
        || (sender.progress.Called? && AfterVerdict(sender.progress.verdict) != status))
  }

  ghost predicate NobodyOverwrites(w: World, n: nat)
    requires n < |w.rows|
  {
    forall s | 0 <= s < |w.senders| :: !MayOverwrite(w.senders[s], n, w.rows[n].status)
  }

  lemma NobodyOverwritesInAStep(w: World, action: Action, n: nat)
    requires WellFormed(w) && n < |w.rows| && IsSettled(w.rows[n]) && NobodyOverwrites(w, n)
    ensures n < |Step(w, action).rows| && Step(w, action).rows[n].status == w.rows[n].status
    ensures NobodyOverwrites(Step(w, action), n)
  {
  }

  lemma {:induction false} SettledForGood(w: World, more: seq<Action>, n: nat)
    requires WellFormed(w) && n < |w.rows| && IsSettled(w.rows[n]) && NobodyOverwrites(w, n)
    ensures RunFrom(w, more).rows[n].status == w.rows[n].status && NobodyOverwrites(RunFrom(w, more), n)
  {
    if more != [] {
      SettledForGood(w, more[..|more| - 1], n);
      NobodyOverwritesInAStep(RunFrom(w, more[..|more| - 1]), more[|more| - 1], n);
    }
  }

  predicate Overwrites(w: World, more: seq<Action>, n: nat)
    requires WellFormed(w) && n < |w.rows|
  {
    RunFrom(w, more).rows[n].status != w.rows[n].status
  }

  lemma LateSenderOverwrites(w: World, s: nat, n: nat)
    requires WellFormed(w) && n < |w.rows| && IsSettled(w.rows[n])
    requires s < |w.senders| && MayOverwrite(w.senders[s], n, w.rows[n].status)
    ensures exists more :: Overwrites(w, more, n)
  {
    if w.senders[s].progress == HoldsClaim {
      var called := Step(w, CallProvider(s, Accepted));
      var more := [CallProvider(s, Accepted), Record(s)];
      assert more[..1] == [CallProvider(s, Accepted)] && more[..1][..0] == [];
      assert RunFrom(w, more[..1]) == called;
      assert RunFrom(w, more) == Step(called, Record(s));
      assert Overwrites(w, more, n);
    } else {
      assert [Record(s)][..0] == [];
      assert RunFrom(w, [Record(s)]) == Step(w, Record(s));
      assert Overwrites(w, [Record(s)], n);
    }
  }

  lemma {:induction false} OneOwes(senders: seq<Sender>, s: nat, n: nat)
    requires s < |senders| && Owes(senders[s], n, true)
    ensures Owing(senders, n, true) > 0
  {
    if s < |senders| - 1 {
      OneOwes(senders[..|senders| - 1], s, n);
    }
  }

  /**
   * A settled row keeps its status in every future if and only if no sender is still at work on it
   * that may record another one. While the row was never given back to PENDING, there is none.
   */
  lemma SettledIsFinalIff(actions: seq<Action>, n: nat)
    requires n < |Run(actions).rows| && IsSettled(Run(actions).rows[n])
    ensures (forall more :: !Overwrites(Run(actions), more, n)) <==> NobodyOverwrites(Run(actions), n)
    ensures Run(actions).handedBack[n] == 0 ==> NobodyOverwrites(Run(actions), n)
  {
    var w := Run(actions);
    RunsKeepInv(NOTHING, actions);
    assert CallsAreCovered(w, n);
    if NobodyOverwrites(w, n) {
      forall more ensures !Overwrites(w, more, n) {
        SettledForGood(w, more, n);
      }
    } else {
      var s :| 0 <= s < |w.senders| && MayOverwrite(w.senders[s], n, w.rows[n].status);
      OneOwes(w.senders, s, n);
      LateSenderOverwrites(w, s, n);
    }
  }

  // ── the run that overwrites one ──────────────────────────────────────────────────────────

  lemma Then(actions: seq<Action>, action: Action)
    ensures Run(actions + [action]) == Step(Run(actions), action)
  {
    assert (actions + [action])[..|actions|] == actions;
  }

  /** A sender claims a message and is slow; a sweep takes it for dead. */
  const TAKEN_FOR_DEAD: seq<Action> := [] + [QueueMessage("k")] + [BeginSend(0)] + [Claim(0)] + [Sweep({0})]

  /** The copy a second sender makes is delivered. */
  const DELIVERED: seq<Action> :=
    TAKEN_FOR_DEAD + [BeginSend(0)] + [Claim(1)] + [CallProvider(1, Accepted)] + [Record(1)] + [Report(0, true)]

  lemma TakenForDead()
    ensures Run(TAKEN_FOR_DEAD) == World([Notification("k", Pending, false)], [Sender(0, HoldsClaim)], [0], [1])
  {
    var queued: seq<Action> := [] + [QueueMessage("k")];
    Then([], QueueMessage("k"));
    assert Run(queued) == World([Notification("k", Pending, false)], [], [0], [0]);
    Then(queued, BeginSend(0));
    Then(queued + [BeginSend(0)], Claim(0));
    assert Run(queued + [BeginSend(0)] + [Claim(0)])
        == World([Notification("k", Sending, false)], [Sender(0, HoldsClaim)], [0], [0]);
    Then(queued + [BeginSend(0)] + [Claim(0)], Sweep({0}));
  }

  lemma SecondIsDelivered()
    ensures Run(DELIVERED) ==
            World([Notification("k", Delivered, true)], [Sender(0, HoldsClaim), Sender(0, Done)], [1], [1])
  {
    TakenForDead();
    var again := TAKEN_FOR_DEAD + [BeginSend(0)];
    Then(TAKEN_FOR_DEAD, BeginSend(0));
    Then(again, Claim(1));
    assert Run(again + [Claim(1)])
        == World([Notification("k", Sending, false)], [Sender(0, HoldsClaim), Sender(0, HoldsClaim)], [0], [1]);
    Then(again + [Claim(1)], CallProvider(1, Accepted));
    Then(again + [Claim(1)] + [CallProvider(1, Accepted)], Record(1));
    assert Run(again + [Claim(1)] + [CallProvider(1, Accepted)] + [Record(1)])
        == World([Notification("k", Sent, true)], [Sender(0, HoldsClaim), Sender(0, Done)], [1], [1]);
    Then(again + [Claim(1)] + [CallProvider(1, Accepted)] + [Record(1)], Report(0, true));
  }

  /** And then the first sender wakes up: the customer gets a second copy, and the row is SENT again. */
  lemma DeliveredIsOverwritten()
    ensures
      var settled, later := Run(DELIVERED), Run(DELIVERED + [CallProvider(0, Accepted)] + [Record(0)]);
      && |settled.rows| == |later.rows| == |later.calls| == 1
      && settled.rows[0].status == Delivered && later.rows[0].status == Sent && later.calls[0] == 2
  {
    SecondIsDelivered();
    Then(DELIVERED, CallProvider(0, Accepted));
    Then(DELIVERED + [CallProvider(0, Accepted)], Record(0));
  }
}
