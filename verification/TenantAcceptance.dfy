/** What the tenant guard lets through, and what an accepted call then does, row by row. */
module TenantAcceptance {
  import opened Outcomes
  import opened TenantGuard

  // ── scoped filters ───────────────────────────────────────────────────────────────────────

  /** Where a key's value stands. */
  predicate IsAt(fields: seq<Field>, key: string, i: nat) {
    i < |fields| && fields[i].key == key && forall j | 0 <= j < i :: fields[j].key != key
  }

  predicate Lacks(fields: seq<Field>, key: string) {
    forall i | 0 <= i < |fields| :: fields[i].key != key
  }

  predicate IsOrganization(value: Json, organization: string) {
    value == Text(organization) || value == Record([Field("equals", Text(organization))])
  }

  /** The filter asks for this organization: directly, or by a clause of its AND, at any depth. */
  ghost predicate Scoped(where: Json, organization: string)
    decreases where, 0
  {
    && where.Record?
    && if Lacks(where.fields, ORGANIZATION_ID) then
         exists i: nat :: IsAt(where.fields, "AND", i) && ScopedAnd(where.fields[i].value, organization)
       else
         exists i: nat :: IsAt(where.fields, ORGANIZATION_ID, i) && IsOrganization(where.fields[i].value, organization)
  }

  ghost predicate ScopedAnd(and: Json, organization: string)
    decreases and, 1
  {
    if and.Array? then exists j | 0 <= j < |and.items| :: Scoped(and.items[j], organization)
    else Scoped(and, organization)
  }

  /** The filter names some organization in one of those places. */
  ghost predicate Names(where: Json)
    decreases where, 0
  {
    && where.Record?
    && (!Lacks(where.fields, ORGANIZATION_ID)
        || exists i: nat :: IsAt(where.fields, "AND", i) && NamesAnd(where.fields[i].value))
  }

  ghost predicate NamesAnd(and: Json)
    decreases and, 1
  {
    if and.Array? then exists j | 0 <= j < |and.items| :: Names(and.items[j]) else Names(and)
  }

  /** A unique selector may instead carry the organization in a compound key. */
  ghost predicate ScopedKey(where: Json, organization: string)
    decreases where
  {
    || Scoped(where, organization)
    || (!Names(where) && where.Record?
        && exists i | 0 <= i < |where.fields| ::
             where.fields[i].key in TENANT_COMPOUND_UNIQUE_KEYS && ScopedKey(where.fields[i].value, organization))
  }

  lemma FindIsAt(fields: seq<Field>, key: string)
    ensures match Find(fields, key)
            case Some(i) => IsAt(fields, key, i) && !Lacks(fields, key)
            case None => Lacks(fields, key)
    ensures forall i: nat | IsAt(fields, key, i) :: Find(fields, key) == Some(i)
  {
    FindIsFirst(fields, key);
  }

  lemma {:induction false} FindIsFirst(fields: seq<Field>, key: string)
    ensures Find(fields, key).Some? ==> IsAt(fields, key, Find(fields, key).value)
  {
    if fields != [] {
      FindIsFirst(fields[..|fields| - 1], key);
    }
  }

  /** The classification is exact: a filter matches, or is missing the organization, just as it says. */
  lemma {:induction false} FilterMatchesIffScoped(where: Json, organization: string)
    ensures FilterScopeState(where, organization) == Matching <==> Scoped(where, organization)
    ensures FilterScopeState(where, organization) == Missing <==> !Names(where)
    decreases where, 0
  {
    if where.Record? {
      FindIsAt(where.fields, ORGANIZATION_ID);
      FindIsAt(where.fields, "AND");
      if Lacks(where.fields, ORGANIZATION_ID) && Find(where.fields, "AND").Some? {
        AndMatchesIffScoped(where.fields[Find(where.fields, "AND").value].value, organization);
      }
    }
  }

  lemma {:induction false} AndMatchesIffScoped(and: Json, organization: string)
    ensures
      var state := if and.Array? then CombineScopeStates(ClauseStates(and.items, organization))
                   else FilterScopeState(and, organization);
      && (state == Matching <==> ScopedAnd(and, organization))
      && (state == Missing <==> !NamesAnd(and))
    decreases and, 1
  {
    if and.Array? {
      var states := ClauseStates(and.items, organization);
      forall j | 0 <= j < |and.items|
        ensures states[j] == Matching <==> Scoped(and.items[j], organization)
        ensures states[j] == Missing <==> !Names(and.items[j])
      {
        FilterMatchesIffScoped(and.items[j], organization);
      }
      CombinedStates(states);
    } else {
      FilterMatchesIffScoped(and, organization);
    }
  }

  lemma CombinedStates(states: seq<ScopeState>)
    ensures CombineScopeStates(states) == Matching <==> exists j | 0 <= j < |states| :: states[j] == Matching
    ensures CombineScopeStates(states) == Missing <==> forall j | 0 <= j < |states| :: states[j] == Missing
  {
    assert forall j | 0 <= j < |states| :: states[j] in states;
  }

  lemma {:induction false} CompoundStatesHold(fields: seq<Field>, organization: string, i: nat)
    requires i < |fields| && fields[i].key in TENANT_COMPOUND_UNIQUE_KEYS
    ensures UniqueScopeState(fields[i].value, organization) in CompoundStates(fields, organization)
  {
    if i < |fields| - 1 {
      CompoundStatesHold(fields[..|fields| - 1], organization, i);
    }
  }

  lemma {:induction false} UniqueMatchesIffScoped(where: Json, organization: string)
    ensures UniqueScopeState(where, organization) == Matching <==> ScopedKey(where, organization)
    decreases where
  {
    FilterMatchesIffScoped(where, organization);
    if where.Record? && !Names(where) {
      var states := CompoundStates(where.fields, organization);
      forall i | 0 <= i < |where.fields| && where.fields[i].key in TENANT_COMPOUND_UNIQUE_KEYS
        ensures UniqueScopeState(where.fields[i].value, organization) == Matching <==>
                ScopedKey(where.fields[i].value, organization)
        ensures UniqueScopeState(where.fields[i].value, organization) in states
      {
        UniqueMatchesIffScoped(where.fields[i].value, organization);
        CompoundStatesHold(where.fields, organization, i);
      }
    }
  }

  // ── rows that may be written ─────────────────────────────────────────────────────────────

  /** Nothing is written through a relation but the row's own organization. */
  predicate WritesNoRelation(fields: seq<Field>) {
    forall i, j | 0 <= i < |fields| && fields[i].value.Record? && 0 <= j < |fields[i].value.fields| ::
      fields[i].value.fields[j].key in NESTED_WRITE_OPERATIONS ==>
        fields[i].key == "organization" || fields[i].key in JSON_FIELDS
  }

  ghost predicate MayUpdate(data: Json, organization: string) {
    data.Record? ==>
      && WritesNoRelation(data.fields) && Lacks(data.fields, "organization")
      && forall i: nat | IsAt(data.fields, ORGANIZATION_ID, i) :: data.fields[i].value == Text(organization)
  }

  ghost predicate Connects(relation: Json, organization: string) {
    && relation.Record?
    && exists i: nat, j: nat ::
         && IsAt(relation.fields, "connect", i) && relation.fields[i].value.Record?
         && IsAt(relation.fields[i].value.fields, "id", j)
         && relation.fields[i].value.fields[j].value == Text(organization)
  }

  ghost predicate MayCreate(row: Json, organization: string) {
    row.Record? ==>
      && WritesNoRelation(row.fields)
      && if Lacks(row.fields, ORGANIZATION_ID) then
           forall i: nat | IsAt(row.fields, "organization", i) :: Connects(row.fields[i].value, organization)
         else
           forall i: nat | IsAt(row.fields, ORGANIZATION_ID, i) :: row.fields[i].value == Text(organization)
  }

  /** A row that names no organization gets it, and any other stays as it is. */
  function Completed(row: Json, organization: string): Json {
    if row.Record? && Lacks(row.fields, ORGANIZATION_ID) && Lacks(row.fields, "organization") then
      Record(row.fields + [Field(ORGANIZATION_ID, Text(organization))])
    else row
  }

  lemma UpdatesIff(data: Json, organization: string)
    ensures ValidateUpdatePayload(data, organization).None? <==> MayUpdate(data, organization)
  {
    if data.Record? {
      FindIsAt(data.fields, ORGANIZATION_ID);
      FindIsAt(data.fields, "organization");
      NestedIff(data.fields);
    }
  }

  lemma NestedIff(fields: seq<Field>)
    ensures HasNestedWrite(Record(fields)) <==> !WritesNoRelation(fields)
  {
    if !WritesNoRelation(fields) {
      var i, j :| 0 <= i < |fields| && fields[i].value.Record? && 0 <= j < |fields[i].value.fields|
                  && fields[i].value.fields[j].key in NESTED_WRITE_OPERATIONS
                  && fields[i].key != "organization" && fields[i].key !in JSON_FIELDS;
      assert IsNestedWrite(fields[i]);
    }
  }

  lemma ConnectsIff(relation: Json, organization: string)
    ensures ConnectedId(relation) == Some(Text(organization)) <==> Connects(relation, organization)
  {
    if relation.Record? {
      FindIsAt(relation.fields, "connect");
      match Find(relation.fields, "connect")
      case None =>
      case Some(i) =>
        if relation.fields[i].value.Record? {
          FindIsAt(relation.fields[i].value.fields, "id");
        }
    }
  }

  lemma CreatesIff(row: Json, organization: string)
    ensures TenantCreateRow(row, organization).Accepted? <==> MayCreate(row, organization)
    ensures TenantCreateRow(row, organization).Accepted? ==>
              TenantCreateRow(row, organization).value == Completed(row, organization)
  {
    if row.Record? {
      FindIsAt(row.fields, ORGANIZATION_ID);
      FindIsAt(row.fields, "organization");
      NestedIff(row.fields);
      assert row == Record(row.fields);
      if Find(row.fields, "organization").Some? {
        ConnectsIff(row.fields[Find(row.fields, "organization").value].value, organization);
      }
    }
  }

  lemma {:induction false} AllCreateIff(rows: seq<Json>, organization: string)
    ensures TenantCreateRows(rows, organization).Accepted? <==>
            forall i | 0 <= i < |rows| :: MayCreate(rows[i], organization)
    ensures TenantCreateRows(rows, organization).Accepted? ==>
              && |TenantCreateRows(rows, organization).value| == |rows|
              && forall i | 0 <= i < |rows| ::
                   TenantCreateRows(rows, organization).value[i] == Completed(rows[i], organization)
  {
    if rows != [] {
      AllCreateIff(rows[..|rows| - 1], organization);
      CreatesIff(rows[|rows| - 1], organization);
    }
  }

  lemma PayloadCreatesIff(payload: Json, organization: string)
    ensures
      var checked, rows := TenantCreatePayload(payload, organization), Payloads(payload);
      && (checked.Accepted? <==> forall i | 0 <= i < |rows| :: MayCreate(rows[i], organization))
      && (checked.Accepted? ==>
            && |Payloads(checked.value)| == |rows|
            && forall i | 0 <= i < |rows| :: Payloads(checked.value)[i] == Completed(rows[i], organization))
  {
    if payload.Array? {
      AllCreateIff(payload.items, organization);
    } else {
      CreatesIff(payload, organization);
      assert Payloads(payload)[0] == payload;
    }
  }

  // ── what the guard accepts ───────────────────────────────────────────────────────────────

  ghost predicate WellScoped(unique: bool, where: Json, organization: string) {
    if unique then ScopedKey(where, organization) else Scoped(where, organization)
  }

  ghost predicate MayCreateAll(payload: Json, organization: string) {
    forall i | 0 <= i < |Payloads(payload)| :: MayCreate(Payloads(payload)[i], organization)
  }

  ghost predicate IsProper(q: Query, organization: string) {
    match q
    case Read(unique, where) => WellScoped(unique, where, organization)
    case Delete(unique, where) => WellScoped(unique, where, organization)
    case Update(unique, where, data) => WellScoped(unique, where, organization) && MayUpdate(data, organization)
    case Create(payload) => MayCreateAll(payload, organization)
    case Upsert(where, create, update) =>
      ScopedKey(where, organization) && MayUpdate(update, organization) && MayCreateAll(create, organization)
  }

  /**
   * The guard accepts exactly the queries that ask for the organization by equality, directly or
   * inside AND at any depth, or in a compound key of a unique selector, and that write no other
   * organization and no other table. A read, an update or a deletion goes on as it came.
   */
  lemma GuardAcceptsIff(q: Query, organization: string)
    ensures Guard(q, organization).Accepted? <==> IsProper(q, organization)
    ensures Guard(q, organization).Accepted? && !q.Create? && !q.Upsert? ==> Guard(q, organization) == Accepted(q)
  {
    match q
    case Read(unique, where) => ScopeIff(unique, where, organization);
    case Delete(unique, where) => ScopeIff(unique, where, organization);
    case Update(unique, where, data) =>
      ScopeIff(unique, where, organization);
      UpdatesIff(data, organization);
    case Create(payload) => PayloadCreatesIff(payload, organization);
    case Upsert(where, create, update) =>
      ScopeIff(true, where, organization);
      UpdatesIff(update, organization);
      PayloadCreatesIff(create, organization);
  }

  lemma ScopeIff(unique: bool, where: Json, organization: string)
    ensures ScopeOf(unique, where, organization) == Matching <==> WellScoped(unique, where, organization)
  {
    if unique {
      UniqueMatchesIffScoped(where, organization);
    } else {
      FilterMatchesIffScoped(where, organization);
    }
  }

  /** A refused filter says why: none of the places it may stand in names an organization, or not this one. */
  lemma RefusalSaysWhy(where: Json, organization: string)
    requires !Scoped(where, organization)
    ensures Guard(Read(false, where), organization) ==
            Refused(if Names(where) then TenantMismatch else UnscopedTenantQuery)
  {
    FilterMatchesIffScoped(where, organization);
  }

  /**
   * The everyday filter: the organization, as text or as `equals`, among any other fields. It is
   * accepted wherever a filter may stand, and means the rest, of own rows.
   */
  lemma PlainFilterIsAccepted(
    m: Meaning, row: Row, before: seq<Field>, id: Json, after: seq<Field>, organization: string)
    requires Lacks(before, ORGANIZATION_ID) && IsOrganization(id, organization)
    ensures
      var where := Record(before + [Field(ORGANIZATION_ID, id)] + after);
      && Scoped(where, organization)
      && Guard(Read(false, where), organization) == Accepted(Read(false, where))
      && Guard(Read(true, where), organization) == Accepted(Read(true, where))
      && (Satisfies(m, row, where) <==>
            row.organization == organization && FieldsHold(m, row, before) && FieldsHold(m, row, after))
  {
    var own := Field(ORGANIZATION_ID, id);
    var fields := before + [own] + after;
    var where := Record(fields);
    assert fields[|before|] == own && IsAt(fields, ORGANIZATION_ID, |before|);
    GuardAcceptsIff(Read(false, where), organization);
    GuardAcceptsIff(Read(true, where), organization);
    FieldsHoldBoth(m, row, before + [own], after);
    FieldsHoldBoth(m, row, before, [own]);
    assert [own][..0] == [];
  }

  /** A scoped clause inside AND scopes the whole filter, and so on upwards; a compound key scopes a selector. */
  lemma ScopeReachesUp(
    before: seq<Field>, after: seq<Field>, clauses: seq<Json>, j: nat, key: string, organization: string)
    requires j < |clauses| && Lacks(before + after, ORGANIZATION_ID) && Lacks(before, "AND")
    ensures Scoped(clauses[j], organization) ==>
              Scoped(Record(before + [Field("AND", Array(clauses))] + after), organization)
    ensures key in TENANT_COMPOUND_UNIQUE_KEYS && Lacks(after, "AND") && ScopedKey(clauses[j], organization) ==>
              ScopedKey(Record(before + [Field(key, clauses[j])] + after), organization)
  {
    var and := before + [Field("AND", Array(clauses))] + after;
    assert IsAt(and, "AND", |before|);
    assert forall i | 0 <= i < |before + after| :: (before + after)[i].key != ORGANIZATION_ID;
    LacksBoth(before, after);
    if key in TENANT_COMPOUND_UNIQUE_KEYS && Lacks(after, "AND") {
      var fields := before + [Field(key, clauses[j])] + after;
      assert fields[|before|] == Field(key, clauses[j]);
      assert Lacks(fields, ORGANIZATION_ID) && Lacks(fields, "AND");
    }
  }

  lemma LacksBoth(before: seq<Field>, after: seq<Field>)
    requires Lacks(before + after, ORGANIZATION_ID)
    ensures Lacks(before, ORGANIZATION_ID) && Lacks(after, ORGANIZATION_ID)
  {
    assert forall i | 0 <= i < |before| :: (before + after)[i] == before[i];
    assert forall i | 0 <= i < |after| :: (before + after)[|before| + i] == after[i];
  }

  lemma {:induction false} FieldsHoldBoth(m: Meaning, row: Row, a: seq<Field>, b: seq<Field>)
    ensures FieldsHold(m, row, a + b) <==> FieldsHold(m, row, a) && FieldsHold(m, row, b)
  {
    if b == [] {
      assert a + b == a;
    } else {
      assert (a + b)[..|a + b| - 1] == a + b[..|b| - 1];
      FieldsHoldBoth(m, row, a, b[..|b| - 1]);
    }
  }

  // ── what an accepted call does ───────────────────────────────────────────────────────────

  /** The rows at these places, in the order of the table. */
  ghost predicate IsSelection(rows: seq<Row>, table: seq<Row>, at: seq<nat>) {
    && |rows| == |at|
    && (forall k | 0 <= k < |at| :: at[k] < |table| && rows[k] == table[at[k]])
    && (forall k, l | 0 <= k < l < |at| :: at[k] < at[l])
  }

  /** One of the organization's own rows that the query came to. */
  predicate IsMeant(m: Meaning, table: seq<Row>, where: Json, organization: string, picks: set<nat>, i: nat) {
    i < |table| && i in picks && table[i].organization == organization && Satisfies(m, table[i], where)
  }

  lemma {:induction false} FoundAreMeant(
    m: Meaning, table: seq<Row>, where: Json, organization: string, picks: set<nat>) returns (at: seq<nat>)
    requires TouchesOwn(m, where, organization)
    ensures IsSelection(Found(m, table, where, picks), table, at)
    ensures forall i: nat :: i in at <==> IsMeant(m, table, where, organization, picks, i)
  {
    at := [];
    if table != [] {
      var last := |table| - 1;
      at := FoundAreMeant(m, table[..last], where, organization, picks);
      if Picked(m, table, where, picks, last) {
        at := at + [last];
      }
    }
  }

  lemma {:induction false} KeptAreNotMeant(
    m: Meaning, table: seq<Row>, where: Json, organization: string, picks: set<nat>) returns (at: seq<nat>)
    requires TouchesOwn(m, where, organization)
    ensures IsSelection(Without(m, table, where, picks), table, at)
    ensures forall i: nat :: i in at <==> i < |table| && !IsMeant(m, table, where, organization, picks, i)
  {
    at := [];
    if table != [] {
      var last := |table| - 1;
      at := KeptAreNotMeant(m, table[..last], where, organization, picks);
      if !Picked(m, table, where, picks, last) {
        at := at + [last];
      }
    }
  }

  /** Exactly the rows that were meant were written, and they stayed the organization's own. */
  ghost predicate IsWritten(
    m: Meaning, table: seq<Row>, next: seq<Row>, where: Json, data: Json, organization: string, picks: set<nat>)
  {
    && |next| == |table|
    && forall i | 0 <= i < |table| ::
         next[i] == if IsMeant(m, table, where, organization, picks, i)
                    then Row(organization, m.written(data, table[i].rest)) else table[i]
  }

  /** One own row was added for each payload that is a row, in their order. */
  ghost predicate IsCreated(m: Meaning, table: seq<Row>, next: seq<Row>, payloads: seq<Json>, organization: string) {
    if payloads == [] then next == table
    else
      var init, last := payloads[..|payloads| - 1], payloads[|payloads| - 1];
      if last.Record? then
        && |next| > 0 && IsCreated(m, table, next[..|next| - 1], init, organization)
        && next[|next| - 1] == Row(organization, m.written(Completed(last, organization), 0))
      else IsCreated(m, table, next, init, organization)
  }

  lemma {:induction false} RowsAreCreated(
    m: Meaning, table: seq<Row>, payloads: seq<Json>, scoped: seq<Json>, organization: string)
    requires |scoped| == |payloads|
    requires forall i | 0 <= i < |payloads| ::
               MayCreate(payloads[i], organization) && scoped[i] == Completed(payloads[i], organization)
    ensures IsCreated(m, table, table + CreatedRows(m, scoped), payloads, organization)
  {
    if payloads == [] {
      assert table + CreatedRows(m, scoped) == table;
    } else {
      var last := |payloads| - 1;
      RowsAreCreated(m, table, payloads[..last], scoped[..last], organization);
      CreatesIff(payloads[last], organization);
      AcceptedCreateIsOwn(m, payloads[last], organization);
      if payloads[last].Record? {
        var next := table + CreatedRows(m, scoped);
        assert next[..|next| - 1] == table + CreatedRows(m, scoped[..last]);
        CreatedIsOwn(m, payloads[last], organization);
      }
    }
  }

  lemma CreatedIsOwn(m: Meaning, row: Json, organization: string)
    requires row.Record? && MayCreate(row, organization)
    ensures WrittenRow(m, Completed(row, organization), Row("", 0)) ==
            Row(organization, m.written(Completed(row, organization), 0))
  {
    CreatesIff(row, organization);
    AcceptedCreateIsOwn(m, row, organization);
  }

  lemma RowsAreWritten(m: Meaning, table: seq<Row>, where: Json, data: Json, organization: string, picks: set<nat>)
    requires TouchesOwn(m, where, organization) && ValidateUpdatePayload(data, organization).None?
    ensures IsWritten(m, table, Updated(m, table, where, data, picks), where, data, organization, picks)
  {
    AcceptedUpdateStays(m, data, organization);
  }

  /** What a proper query comes to. */
  ghost predicate Does(m: Meaning, table: seq<Row>, q: Query, organization: string, picks: set<nat>, outcome: Outcome) {
    match q
    case Read(_, where) =>
      && outcome.table == table
      && exists at :: IsSelection(outcome.result, table, at)
                      && forall i: nat :: i in at <==> IsMeant(m, table, where, organization, picks, i)
    case Update(_, where, data) =>
      outcome.result == [] && IsWritten(m, table, outcome.table, where, data, organization, picks)
    case Delete(_, where) =>
      && outcome.result == []
      && exists at :: IsSelection(outcome.table, table, at)
                      && forall i: nat :: i in at <==> i < |table| && !IsMeant(m, table, where, organization, picks, i)
    case Create(payload) => outcome.result == [] && IsCreated(m, table, outcome.table, Payloads(payload), organization)
    case Upsert(where, create, update) =>
      && outcome.result == []
      && if exists i: nat :: IsMeant(m, table, where, organization, picks, i)
         then IsWritten(m, table, outcome.table, where, update, organization, picks)
         else IsCreated(m, table, outcome.table, Payloads(create), organization)
  }

  /**
   * A proper query does what it asks for: it returns, changes or deletes exactly the organization's
   * own rows that satisfy its filter, among those the database picks, and creates its rows with the
   * organization filled in; an upsert creates exactly when it finds none. Any other query is refused
   * and changes nothing.
   */
  lemma ProperCallDoes(m: Meaning, table: seq<Row>, q: Query, organization: string, picks: set<nat>)
    ensures
      var outcome := Call(m, table, q, organization, picks);
      if IsProper(q, organization) then Does(m, table, q, organization, picks, outcome)
      else outcome == Outcome([], table)
  {
    GuardAcceptsIff(q, organization);
    if IsProper(q, organization) {
      match q
      case Read(unique, where) =>
        ScopeIsOwn(m, unique, where, organization);
        var at := FoundAreMeant(m, table, where, organization, picks);
      case Delete(unique, where) =>
        ScopeIsOwn(m, unique, where, organization);
        var at := KeptAreNotMeant(m, table, where, organization, picks);
      case Update(unique, where, data) =>
        ScopeIsOwn(m, unique, where, organization);
        RowsAreWritten(m, table, where, data, organization, picks);
      case Create(payload) => CreateDoes(m, table, payload, organization);
      case Upsert(where, create, update) =>
        ScopeIsOwn(m, true, where, organization);
        var at := FoundAreMeant(m, table, where, organization, picks);
        if at != [] {
          assert IsMeant(m, table, where, organization, picks, at[0]);
          RowsAreWritten(m, table, where, update, organization, picks);
        } else {
          CreateDoes(m, table, create, organization);
        }
    }
  }

  lemma CreateDoes(m: Meaning, table: seq<Row>, payload: Json, organization: string)
    requires MayCreateAll(payload, organization)
    ensures TenantCreatePayload(payload, organization).Accepted?
    ensures IsCreated(m, table, table + CreatedRows(m, Payloads(TenantCreatePayload(payload, organization).value)),
                      Payloads(payload), organization)
  {
    PayloadCreatesIff(payload, organization);
    RowsAreCreated(m, table, Payloads(payload), Payloads(TenantCreatePayload(payload, organization).value), organization);
  }
}
