/** Office sessions, which end when idle or too old, and the index that revokes them. */
module Sessions {
  import opened Outcomes

  /** Milliseconds, on one clock. */
  type Instant = int

  type SessionId = nat
  type UserId = nat

  datatype OfficeSession = OfficeSession(user: UserId, createdAt: Instant, lastSeenAt: Instant)

  /** A stored value and the moment it disappears by itself. */
  datatype Stored<T> = Stored(value: T, expiresAt: Instant)

  datatype Lifetimes = Lifetimes(idle: nat, absolute: nat)

  predicate IsAlive<T>(stored: Stored<T>, now: Instant) {
    now < stored.expiresAt
  }

  /** The seconds an expiry is given in, rounded up. */
  function WholeSeconds(ms: nat): (rounded: nat)
    ensures ms <= rounded
  {
    (ms + 999) / 1000 * 1000
  }

  class SessionStore {
    const lifetimes: Lifetimes
    var sessions: map<SessionId, Stored<OfficeSession>>
    var index: map<UserId, Stored<set<SessionId>>>
    /** The moment of the last command. */
    ghost var clock: Instant

    constructor (lifetimes: Lifetimes)
      ensures Valid() && this.lifetimes == lifetimes && sessions == map[]
    {
      this.lifetimes := lifetimes;
      sessions, index := map[], map[];
    }

    /** What reading a session would answer at some moment. */
    predicate IsReadable(sid: SessionId, now: Instant)
      reads this
    {
      && sid in sessions && IsAlive(sessions[sid], now)
      && now - sessions[sid].value.createdAt < lifetimes.absolute
    }

    function Members(user: UserId, now: Instant): set<SessionId>
      reads this
    {
      if user in index && IsAlive(index[user], now) then index[user].value else {}
    }

    /** Until it is too old to be read, a session is named by its user's index, which outlives it. */
    ghost predicate IsNamed(sid: SessionId)
      requires sid in sessions
      reads this
    {
      var session := sessions[sid].value;
      || clock - session.createdAt >= lifetimes.absolute
      || (session.user in index && sid in index[session.user].value
          && index[session.user].expiresAt >= session.createdAt + lifetimes.absolute)
    }

    ghost predicate Valid()
      reads this
    {
      && (forall sid | sid in sessions :: IsNamed(sid) && sessions[sid].value.createdAt <= clock)
      && (forall user, sid | user in index && sid in index[user].value && sid in sessions ::
            sessions[sid].value.user == user)
    }

    /** A fresh id, the session under it, and its name in the user's index. */
    method Create(sid: SessionId, user: UserId, now: Instant)
      requires Valid() && sid !in sessions && now >= clock
      requires forall u | u in index :: sid !in index[u].value
      modifies this
      ensures Valid() && clock == now
      ensures sessions == old(sessions)[sid := Stored(OfficeSession(user, now, now), now + lifetimes.idle)]
      ensures lifetimes.idle > 0 && lifetimes.absolute > 0 ==> IsReadable(sid, now)
    {
      var members := Members(user, now);
      sessions := sessions[sid := Stored(OfficeSession(user, now, now), now + lifetimes.idle)];
      index := index[user := Stored(members + {sid}, now + WholeSeconds(lifetimes.absolute))];
      clock := now;
    }

    /** Load a session and let its idle time begin again; one past its age is destroyed. */
    method Read(sid: SessionId, now: Instant) returns (session: Option<OfficeSession>)
      requires Valid() && now >= clock
      modifies this
      ensures Valid() && clock == now
      ensures session.Some? <==> old(IsReadable(sid, now))
      ensures session.Some? ==>
                && session.value == old(sessions[sid].value).(lastSeenAt := now)
                && sessions == old(sessions)[sid := Stored(session.value, now + lifetimes.idle)]
      ensures forall other | other != sid :: other in sessions <==> other in old(sessions)
      ensures forall other | other != sid && other in sessions :: sessions[other] == old(sessions)[other]
    {
      if sid !in sessions || !IsAlive(sessions[sid], now) {
        clock := now;
        return None;
      }
      var found := sessions[sid].value;
      if now - found.createdAt >= lifetimes.absolute {
        Destroy(sid, now);
        return None;
      }
      var touched := found.(lastSeenAt := now);
      sessions := sessions[sid := Stored(touched, now + lifetimes.idle)];
      clock := now;
      return Some(touched);
    }

    method Destroy(sid: SessionId, now: Instant)
      requires Valid() && now >= clock
      modifies this
      ensures Valid() && clock == now
      ensures sessions == old(sessions) - {sid}
    {
      if sid in sessions && IsAlive(sessions[sid], now) {
        var user := sessions[sid].value.user;
        if user in index {
          index := index[user := index[user].(value := index[user].value - {sid})];
        }
      }
      sessions := sessions - {sid};
      clock := now;
    }

    /**
     * End every session of a user, except perhaps one. Afterwards none of them can be read, now
     * or later; the one kept and everybody else's are as they were; and the count is of the
     * sessions that were still there.
     */
    method DestroySessionsOf(user: UserId, keep: Option<SessionId>, now: Instant) returns (count: nat)
      requires Valid() && now >= clock
      modifies this
      ensures Valid() && clock == now
      ensures forall sid, later | sid in sessions && sessions[sid].value.user == user && Some(sid) != keep && later >= now ::
                !IsReadable(sid, later)
      ensures forall sid | sid in old(sessions) && (old(sessions)[sid].value.user != user || Some(sid) == keep) ::
                sid in sessions && sessions[sid] == old(sessions)[sid]
      ensures sessions.Keys <= old(sessions.Keys)
      ensures count == |set sid | sid in old(Members(user, now)) && Some(sid) != keep
                                  && sid in old(sessions) && old(IsAlive(sessions[sid], now))|
    {
      var sids := set sid | sid in Members(user, now) && Some(sid) != keep;
      count := |set sid | sid in sids && sid in sessions && IsAlive(sessions[sid], now)|;
      assert (set sid | sid in sids && sid in sessions && IsAlive(sessions[sid], now)) ==
             (set sid | sid in Members(user, now) && Some(sid) != keep && sid in sessions && IsAlive(sessions[sid], now));
      sessions := sessions - sids;
      if user in index {
        index := index[user := index[user].(value := index[user].value - sids)];
      }
      clock := now;
    }
  }
}
