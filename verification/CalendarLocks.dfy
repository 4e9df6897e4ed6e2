/**
 * Taking the per-employee calendar locks: sorted, without repetition, one at a time, each keyed on
 * a hash of the employee's id and held to the end of the transaction.
 */
module CalendarLocks {
  import opened Outcomes

  /** Employee ids, named by their place in the order the ids sort in. */
  type EmployeeId = nat

  /** What an id hashes to; several ids may share a key. */
  type LockKey = int

  predicate Ascending(ids: seq<EmployeeId>) {
    forall i, j | 0 <= i < j < |ids| :: ids[i] < ids[j]
  }

  function Insert(id: EmployeeId, ids: seq<EmployeeId>): (more: seq<EmployeeId>)
    requires Ascending(ids)
    ensures Ascending(more)
    ensures forall e :: e in more <==> e == id || e in ids
  {
    if ids == [] || id < ids[0] then [id] + ids
    else if id == ids[0] then ids
    else
      assert ids == [ids[0]] + ids[1..];
      var rest := Insert(id, ids[1..]);
      assert forall i | 0 <= i < |rest| :: rest[i] in rest;
      [ids[0]] + rest
  }

  /** The order locks are taken in: every id once, ascending. */
  function Ordered(ids: seq<EmployeeId>): (ordered: seq<EmployeeId>)
    ensures Ascending(ordered)
    ensures forall e :: e in ordered <==> e in ids
  {
    if ids == [] then []
    else
      assert ids == ids[..|ids| - 1] + [ids[|ids| - 1]];
      Insert(ids[|ids| - 1], Ordered(ids[..|ids| - 1]))
  }

  /** A transaction somewhere in the acquisition loop: `taken` of its locks are held. */
  datatype Transaction = Transaction(ids: seq<EmployeeId>, taken: nat, ended: bool)

  datatype Step =
    | Begin(employees: seq<EmployeeId>)
    | Acquire(transaction: nat)
    | End(transaction: nat)

  type Session = seq<Transaction>

  predicate Holds(hash: EmployeeId -> LockKey, t: Transaction, key: LockKey) {
    !t.ended && exists i | 0 <= i < |t.ids| :: i < t.taken && hash(t.ids[i]) == key
  }

  predicate Waiting(t: Transaction) {
    !t.ended && t.taken < |t.ids|
  }

  /** The lock is taken at once unless another transaction holds it; one's own is no obstacle. */
  predicate Blocked(hash: EmployeeId -> LockKey, s: Session, t: nat)
    requires t < |s| && Waiting(s[t])
  {
    HeldByOther(hash, s, t, hash(s[t].ids[s[t].taken]))
  }

  predicate HeldByOther(hash: EmployeeId -> LockKey, s: Session, t: nat, key: LockKey) {
    exists u | 0 <= u < |s| :: u != t && Holds(hash, s[u], key)
  }

  function Apply(hash: EmployeeId -> LockKey, s: Session, step: Step): Session {
    match step
    case Begin(employees) => s + [Transaction(Ordered(employees), 0, false)]
    case Acquire(t) =>
      if t < |s| && Waiting(s[t]) && !Blocked(hash, s, t) then s[t := s[t].(taken := s[t].taken + 1)] else s
    case End(t) => if t < |s| then s[t := s[t].(ended := true)] else s
  }

  /** A transaction that ends gives all its locks back, and nobody else's. */
  lemma EndingFreesItsLocks(hash: EmployeeId -> LockKey, s: Session, t: nat, u: nat, key: LockKey)
    requires t < |s| && u < |s|
    ensures
      var next := Apply(hash, s, End(t));
      |next| == |s| && (Holds(hash, next[u], key) <==> Holds(hash, s[u], key) && u != t)
  {
  }

  function Run(hash: EmployeeId -> LockKey, steps: seq<Step>): Session {
    if steps == [] then [] else Apply(hash, Run(hash, steps[..|steps| - 1]), steps[|steps| - 1])
  }

  predicate WaitsFor(hash: EmployeeId -> LockKey, s: Session, t: nat, u: nat) {
    && t < |s| && u < |s| && t != u
    && Waiting(s[t]) && Holds(hash, s[u], hash(s[t].ids[s[t].taken]))
  }

  /** Transactions that wait for each other in a ring. */
  predicate IsRing(hash: EmployeeId -> LockKey, s: Session, ring: seq<nat>) {
    |ring| > 0 && forall i | 0 <= i < |ring| :: WaitsFor(hash, s, ring[i], Neighbour(ring, i))
  }

  function Neighbour(ring: seq<nat>, i: nat): nat
    requires i < |ring|
  {
    if i + 1 < |ring| then ring[i + 1] else ring[0]
  }

  ghost predicate Deadlocked(hash: EmployeeId -> LockKey, s: Session) {
    exists ring :: IsRing(hash, s, ring)
  }

  predicate InPlay(steps: seq<Step>, employees: set<EmployeeId>) {
    forall i | 0 <= i < |steps| && steps[i].Begin? :: forall e | e in steps[i].employees :: e in employees
  }

  /** Ids that share a key share it with everything that sorts between them. */
  ghost predicate Convex(hash: EmployeeId -> LockKey, employees: set<EmployeeId>) {
    forall a, b, c | a in employees && b in employees && c in employees ::
      a < b < c && hash(a) == hash(c) ==> hash(b) == hash(a)
  }

  /**
   * The acquisition loop, run until it has everything or has to wait. It gets through exactly
   * when no other transaction holds any of the keys, and it touches nobody else's locks.
   */
  method TakeAll(hash: EmployeeId -> LockKey, s: Session, t: nat) returns (after: Session, granted: bool)
    requires t < |s| && !s[t].ended && s[t].taken == 0
    ensures |after| == |s| && after == s[t := s[t].(taken := after[t].taken)]
    ensures granted <==> after[t].taken == |s[t].ids|
    ensures granted <==> forall e | e in s[t].ids :: !HeldByOther(hash, s, t, hash(e))
    ensures granted ==> forall e | e in s[t].ids :: Holds(hash, after[t], hash(e))
  {
    after := s;
    var ids := s[t].ids;
    for i := 0 to |ids|
      invariant after == s[t := s[t].(taken := i)]
      invariant forall j | 0 <= j < i :: !HeldByOther(hash, s, t, hash(ids[j]))
    {
      assert HeldByOther(hash, after, t, hash(ids[i])) <==> HeldByOther(hash, s, t, hash(ids[i])) by {
        assert forall u | 0 <= u < |s| && u != t :: after[u] == s[u];
      }
      if Blocked(hash, after, t) {
        assert ids[i] in s[t].ids;
        return after, false;
      }
      after := Apply(hash, after, Acquire(t));
    }
    forall e | e in ids ensures Holds(hash, after[t], hash(e)) {
      var j :| 0 <= j < |ids| && ids[j] == e;
      assert after[t].ids[j] == e;
    }
    return after, true;
  }

  // ── no ring when keys are convex ─────────────────────────────────────────────────────────

  ghost predicate SessionOk(hash: EmployeeId -> LockKey, s: Session, employees: set<EmployeeId>) {
    && (forall t | 0 <= t < |s| :: Ascending(s[t].ids) && s[t].taken <= |s[t].ids|)
    && (forall t | 0 <= t < |s| :: forall e | e in s[t].ids :: e in employees)
    && (forall t, u, key | 0 <= t < |s| && 0 <= u < |s| && t != u :: !(Holds(hash, s[t], key) && Holds(hash, s[u], key)))
  }

  lemma {:induction false} RunIsOk(hash: EmployeeId -> LockKey, steps: seq<Step>, employees: set<EmployeeId>)
    requires InPlay(steps, employees)
    ensures SessionOk(hash, Run(hash, steps), employees)
  {
    if steps != [] {
      var init, last := steps[..|steps| - 1], steps[|steps| - 1];
      RunIsOk(hash, init, employees);
      var s := Run(hash, init);
      var next := Apply(hash, s, last);
      forall t, u, key | 0 <= t < |next| && 0 <= u < |next| && t != u
        ensures !(Holds(hash, next[t], key) && Holds(hash, next[u], key))
      {
        HoldsAfter(hash, s, last, t, key);
        HoldsAfter(hash, s, last, u, key);
      }
    }
  }

  /** What a transaction holds after a step it held before, or nobody else held. */
  lemma HoldsAfter(hash: EmployeeId -> LockKey, s: Session, step: Step, t: nat, key: LockKey)
    requires forall v | 0 <= v < |s| :: s[v].taken <= |s[v].ids|
    requires t < |Apply(hash, s, step)|
    ensures Holds(hash, Apply(hash, s, step)[t], key) ==>
              && t < |s|
              && (Holds(hash, s[t], key) ||
                  (step == Acquire(t) && forall u | 0 <= u < |s| && u != t :: !Holds(hash, s[u], key)))
  {
  }

  /** Along a chain of waiting, the id waited for grows. */
  lemma WaitedForGrows(
    hash: EmployeeId -> LockKey, s: Session, employees: set<EmployeeId>, t: nat, u: nat, v: nat)
    requires SessionOk(hash, s, employees) && Convex(hash, employees)
    requires WaitsFor(hash, s, t, u) && WaitsFor(hash, s, u, v)
    ensures s[t].ids[s[t].taken] < s[u].ids[s[u].taken]
  {
    var wanted, next := s[t].ids[s[t].taken], s[u].ids[s[u].taken];
    var i :| 0 <= i < |s[u].ids| && i < s[u].taken && hash(s[u].ids[i]) == hash(wanted);
    assert s[u].ids[i] < next && s[u].ids[i] in s[u].ids && next in s[u].ids && wanted in s[t].ids;
    assert !Holds(hash, s[u], hash(next));
  }

  lemma {:induction false} RingGrows(
    hash: EmployeeId -> LockKey, s: Session, employees: set<EmployeeId>, ring: seq<nat>, k: nat)
    requires SessionOk(hash, s, employees) && Convex(hash, employees)
    requires IsRing(hash, s, ring) && 0 < k < |ring|
    ensures ring[0] < |s| && ring[k] < |s| && Waiting(s[ring[0]]) && Waiting(s[ring[k]])
    ensures s[ring[0]].ids[s[ring[0]].taken] < s[ring[k]].ids[s[ring[k]].taken]
  {
    assert Neighbour(ring, k - 1) == ring[k];
    assert WaitsFor(hash, s, ring[0], Neighbour(ring, 0)) && WaitsFor(hash, s, ring[k - 1], ring[k]);
    WaitedForGrows(hash, s, employees, ring[k - 1], ring[k], Neighbour(ring, k));
    if k > 1 {
      RingGrows(hash, s, employees, ring, k - 1);
    }
  }

  lemma ConvexKeysNeverDeadlock(hash: EmployeeId -> LockKey, steps: seq<Step>, employees: set<EmployeeId>)
    requires InPlay(steps, employees) && Convex(hash, employees)
    ensures !Deadlocked(hash, Run(hash, steps))
  {
    var s := Run(hash, steps);
    RunIsOk(hash, steps, employees);
    forall ring: seq<nat> ensures !IsRing(hash, s, ring) {
      if IsRing(hash, s, ring) {
        var last := |ring| - 1;
        assert WaitsFor(hash, s, ring[last], ring[0]);
        WaitedForGrows(hash, s, employees, ring[last], ring[0], Neighbour(ring, 0));
        if last > 0 {
          RingGrows(hash, s, employees, ring, last);
        }
        assert false;
      }
    }
  }

  /** In particular when no two ids in play share a key. */
  lemma DistinctKeysNeverDeadlock(hash: EmployeeId -> LockKey, steps: seq<Step>, employees: set<EmployeeId>)
    requires InPlay(steps, employees)
    requires forall a, b | a in employees && b in employees && a != b :: hash(a) != hash(b)
    ensures !Deadlocked(hash, Run(hash, steps))
  {
    ConvexKeysNeverDeadlock(hash, steps, employees);
  }

  // ── a ring when they are not ─────────────────────────────────────────────────────────────

  /** Two transactions over three employees, the outer two sharing a key. */
  function CrossingLocks(a: EmployeeId, b: EmployeeId, c: EmployeeId): seq<Step> {
    [Begin([a, b]), Begin([b, c]), Acquire(0), Acquire(1)]
  }

  lemma CrossedLocks(hash: EmployeeId -> LockKey, a: EmployeeId, b: EmployeeId, c: EmployeeId)
    requires a < b < c && hash(b) != hash(a)
    ensures Run(hash, CrossingLocks(a, b, c)) == [Transaction([a, b], 1, false), Transaction([b, c], 1, false)]
  {
    OrderedPair(a, b);
    OrderedPair(b, c);
    var first, second := Transaction([a, b], 0, false), Transaction([b, c], 0, false);
    Then(hash, [], Begin([a, b]));
    Then(hash, [] + [Begin([a, b])], Begin([b, c]));
    var begun := [] + [Begin([a, b])] + [Begin([b, c])];
    assert Run(hash, begun) == [first, second];
    Then(hash, begun, Acquire(0));
    Then(hash, begun + [Acquire(0)], Acquire(1));
    assert CrossingLocks(a, b, c) == begun + [Acquire(0)] + [Acquire(1)];
    FirstLocks(hash, first, second);
  }

  lemma SharedKeyDeadlocks(hash: EmployeeId -> LockKey, a: EmployeeId, b: EmployeeId, c: EmployeeId)
    requires a < b < c && hash(a) == hash(c) && hash(b) != hash(a)
    ensures Deadlocked(hash, Run(hash, CrossingLocks(a, b, c)))
  {
    CrossedLocks(hash, a, b, c);
    var first, second := Transaction([a, b], 1, false), Transaction([b, c], 1, false);
    var s := [first, second];
    assert first.ids[0] == a && first.ids[1] == b && second.ids[0] == b && second.ids[1] == c;
    assert Holds(hash, first, hash(c)) && Holds(hash, second, hash(b));
    assert WaitsFor(hash, s, 0, 1) && WaitsFor(hash, s, 1, 0);
    assert IsRing(hash, s, [0, 1]);
  }

  lemma Then(hash: EmployeeId -> LockKey, steps: seq<Step>, step: Step)
    ensures Run(hash, steps + [step]) == Apply(hash, Run(hash, steps), step)
  {
    assert (steps + [step])[..|steps|] == steps;
  }

  /** Each of two fresh transactions gets its first lock, unless they want the same. */
  lemma FirstLocks(hash: EmployeeId -> LockKey, first: Transaction, second: Transaction)
    requires |first.ids| > 0 && |second.ids| > 0 && hash(first.ids[0]) != hash(second.ids[0])
    requires first.taken == second.taken == 0 && !first.ended && !second.ended
    ensures Apply(hash, Apply(hash, [first, second], Acquire(0)), Acquire(1)) ==
            [first.(taken := 1), second.(taken := 1)]
  {
    assert !Blocked(hash, [first, second], 0);
    var s := Apply(hash, [first, second], Acquire(0));
    assert s == [first.(taken := 1), second];
    assert !Blocked(hash, s, 1);
  }

  lemma OrderedPair(a: EmployeeId, b: EmployeeId)
    requires a < b
    ensures Ordered([a, b]) == [a, b]
  {
    assert [a, b][..1] == [a] && [a][..0] == [];
    assert Ordered([a]) == [a];
    assert Insert(b, [a]) == [a] + Insert(b, []);
  }

  /**
   * Locks taken in sorted order never deadlock if and only if the hash is convex on the ids in
   * play: sharing a key across an id that sorts in between is enough for two transactions to
   * wait for each other.
   */
  lemma DeadlockFreeIffConvex(hash: EmployeeId -> LockKey, employees: set<EmployeeId>)
    ensures Convex(hash, employees) <==>
            forall steps | InPlay(steps, employees) :: !Deadlocked(hash, Run(hash, steps))
  {
    if Convex(hash, employees) {
      forall steps | InPlay(steps, employees) ensures !Deadlocked(hash, Run(hash, steps)) {
        ConvexKeysNeverDeadlock(hash, steps, employees);
      }
    } else {
      var a, b, c :| a in employees && b in employees && c in employees
                     && a < b < c && hash(a) == hash(c) && hash(b) != hash(a);
      SharedKeyDeadlocks(hash, a, b, c);
      assert InPlay(CrossingLocks(a, b, c), employees);
    }
  }
}
