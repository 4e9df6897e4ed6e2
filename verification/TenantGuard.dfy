/** The guard in front of every query on a tenant's tables: it classifies, checks, completes and refuses. */
module TenantGuard {
  import opened Outcomes

  /** The arguments a query is called with. `Undefined` is a key that is present without a value. */
  datatype Json =
    | Undefined
    | Text(text: string)
    | Scalar(tag: nat)
    | Array(items: seq<Json>)
    | Record(fields: seq<Field>)

  datatype Field = Field(key: string, value: Json)

  datatype ScopeState = Missing | Matching | Mismatching

  datatype Refusal = UnscopedTenantQuery | TenantMismatch

  const ORGANIZATION_ID: string := "organizationId"

  /** The generated keys that wrap a compound unique input with the organization in it. */
  const TENANT_COMPOUND_UNIQUE_KEYS: set<string> := {
    "organizationId_date", "organizationId_email", "organizationId_emailNormalized", "organizationId_id",
    "organizationId_name", "organizationId_reference", "organizationId_rescheduledFromBookingId",
    "organizationId_resultingBookingId"}

  const NESTED_WRITE_OPERATIONS: set<string> := {
    "create", "createMany", "update", "updateMany", "upsert", "connectOrCreate", "connect", "disconnect",
    "set", "delete", "deleteMany"}

  /** Columns that hold JSON of their own, whatever its keys are called. */
  const JSON_FIELDS: set<string> := {"metadata", "payload", "responseSnapshot", "before", "after"}

  function Find(fields: seq<Field>, key: string): (found: Option<nat>)
    ensures found.Some? ==> found.value < |fields| && fields[found.value].key == key
    ensures found.None? ==> forall i | 0 <= i < |fields| :: fields[i].key != key
  {
    if fields == [] then None
    else
      var last := |fields| - 1;
      match Find(fields[..last], key)
      case Some(i) => Some(i)
      case None => if fields[last].key == key then Some(last) else None
  }

  // ── classifying filters ──────────────────────────────────────────────────────────────────

  /** Equality with the organization, written out or as `equals` and nothing else. */
  function OrganizationIdState(value: Json, organization: string): ScopeState {
    match value
    case Text(text) => if text == organization then Matching else Mismatching
    case Record(fields) => if fields == [Field("equals", Text(organization))] then Matching else Mismatching
    case _ => Mismatching
  }

  function CombineScopeStates(states: seq<ScopeState>): ScopeState {
    if Matching in states then Matching
    else if Mismatching in states then Mismatching
    else Missing
  }

  /** Only a direct equality counts, or one inside AND: anything else could be optional. */
  function FilterScopeState(where: Json, organization: string): ScopeState
    decreases where
  {
    if !where.Record? then Missing
    else
      match Find(where.fields, ORGANIZATION_ID)
      case Some(i) => OrganizationIdState(where.fields[i].value, organization)
      case None =>
        match Find(where.fields, "AND")
        case None => Missing
        case Some(i) =>
          var and := where.fields[i].value;
          if and.Array? then CombineScopeStates(ClauseStates(and.items, organization))
          else FilterScopeState(and, organization)
  }

  function ClauseStates(clauses: seq<Json>, organization: string): (states: seq<ScopeState>)
    ensures |states| == |clauses|
    ensures forall i | 0 <= i < |clauses| :: states[i] == FilterScopeState(clauses[i], organization)
    decreases clauses
  {
    if clauses == [] then []
    else
      var last := |clauses| - 1;
      assert clauses[last] in clauses;
      ClauseStates(clauses[..last], organization) + [FilterScopeState(clauses[last], organization)]
  }

  /** A unique selector may also carry the organization inside a compound key. */
  function UniqueScopeState(where: Json, organization: string): ScopeState
    decreases where
  {
    var direct := FilterScopeState(where, organization);
    if direct != Missing || !where.Record? then direct
    else CombineScopeStates(CompoundStates(where.fields, organization))
  }

  function CompoundStates(fields: seq<Field>, organization: string): (states: seq<ScopeState>)
    ensures forall s | s in states :: exists i | 0 <= i < |fields| ::
              fields[i].key in TENANT_COMPOUND_UNIQUE_KEYS && s == UniqueScopeState(fields[i].value, organization)
    decreases fields
  {
    if fields == [] then []
    else
      var last := |fields| - 1;
      var before := CompoundStates(fields[..last], organization);
      if fields[last].key in TENANT_COMPOUND_UNIQUE_KEYS
      then before + [UniqueScopeState(fields[last].value, organization)]
      else before
  }

  // ── what a filter means ──────────────────────────────────────────────────────────────────

  /** A row, as far as the guard is concerned: whose it is, and the rest. */
  datatype Row = Row(organization: string, rest: nat)

  /** The database's reading of everything the guard does not look at. */
  datatype Meaning = Meaning(
    holds: (Field, Row) -> bool,
    organizationWritten: Json -> string,
    written: (Json, nat) -> nat)

  /** A filter holds of a row when every one of its keys does; a key without a value is ignored. */
  predicate Satisfies(m: Meaning, row: Row, where: Json)
    decreases where
  {
    where.Record? ==> FieldsHold(m, row, where.fields)
  }

  predicate FieldsHold(m: Meaning, row: Row, fields: seq<Field>)
    decreases fields
  {
    fields == [] || (FieldsHold(m, row, fields[..|fields| - 1]) && FieldHolds(m, row, fields[|fields| - 1]))
  }

  predicate FieldHolds(m: Meaning, row: Row, field: Field)
    decreases field
  {
    if field.value.Undefined? then true
    else if field.key == ORGANIZATION_ID && field.value.Text? then row.organization == field.value.text
    else if field.key == ORGANIZATION_ID && IsEquals(field.value) then
      row.organization == field.value.fields[0].value.text
    else if field.key == "AND" && field.value.Array? then AllSatisfied(m, row, field.value.items)
    else if field.key == "AND" || field.key in TENANT_COMPOUND_UNIQUE_KEYS then Satisfies(m, row, field.value)
    else m.holds(field, row)
  }

  predicate IsEquals(value: Json) {
    value.Record? && |value.fields| == 1 && value.fields[0].key == "equals" && value.fields[0].value.Text?
  }

  predicate AllSatisfied(m: Meaning, row: Row, clauses: seq<Json>)
    decreases clauses
  {
    clauses == []
    || (AllSatisfied(m, row, clauses[..|clauses| - 1]) && Satisfies(m, row, clauses[|clauses| - 1]))
  }

  lemma {:induction false} FieldsHoldEach(m: Meaning, row: Row, fields: seq<Field>, i: nat)
    requires FieldsHold(m, row, fields) && i < |fields|
    ensures FieldHolds(m, row, fields[i])
  {
    if i < |fields| - 1 {
      FieldsHoldEach(m, row, fields[..|fields| - 1], i);
    }
  }

  lemma {:induction false} AllSatisfiedEach(m: Meaning, row: Row, clauses: seq<Json>, i: nat)
    requires AllSatisfied(m, row, clauses) && i < |clauses|
    ensures Satisfies(m, row, clauses[i])
  {
    if i < |clauses| - 1 {
      AllSatisfiedEach(m, row, clauses[..|clauses| - 1], i);
    }
  }

  /**
   * A filter classified as matching is one: whatever else it says, at whatever depth, every row
   * that satisfies it is the organization's own.
   */
  lemma {:induction false} MatchingFilterIsOwn(m: Meaning, row: Row, where: Json, organization: string)
    requires FilterScopeState(where, organization) == Matching && Satisfies(m, row, where)
    ensures row.organization == organization
    decreases where
  {
    var direct := Find(where.fields, ORGANIZATION_ID);
    if direct.Some? {
      FieldsHoldEach(m, row, where.fields, direct.value);
    } else {
      var i := Find(where.fields, "AND").value;
      FieldsHoldEach(m, row, where.fields, i);
      var and := where.fields[i].value;
      if and.Array? {
        var states := ClauseStates(and.items, organization);
        var j :| 0 <= j < |states| && states[j] == Matching;
        AllSatisfiedEach(m, row, and.items, j);
        MatchingFilterIsOwn(m, row, and.items[j], organization);
      } else {
        MatchingFilterIsOwn(m, row, and, organization);
      }
    }
  }

  lemma {:induction false} MatchingUniqueIsOwn(m: Meaning, row: Row, where: Json, organization: string)
    requires UniqueScopeState(where, organization) == Matching && Satisfies(m, row, where)
    ensures row.organization == organization
    decreases where
  {
    if FilterScopeState(where, organization) == Matching {
      MatchingFilterIsOwn(m, row, where, organization);
    } else {
      var states := CompoundStates(where.fields, organization);
      assert Matching in states;
      var i :| 0 <= i < |where.fields| && where.fields[i].key in TENANT_COMPOUND_UNIQUE_KEYS
               && UniqueScopeState(where.fields[i].value, organization) == Matching;
      FieldsHoldEach(m, row, where.fields, i);
      MatchingUniqueIsOwn(m, row, where.fields[i].value, organization);
    }
  }

  // ── checking what is written ─────────────────────────────────────────────────────────────

  /** Writing through a relation would reach another table behind the guard's back. */
  predicate HasNestedWrite(row: Json) {
    row.Record? && exists i | 0 <= i < |row.fields| :: IsNestedWrite(row.fields[i])
  }

  predicate IsNestedWrite(field: Field) {
    && field.key != "organization" && field.key !in JSON_FIELDS && field.value.Record?
    && exists i | 0 <= i < |field.value.fields| :: field.value.fields[i].key in NESTED_WRITE_OPERATIONS
  }

  function Get(row: Json, key: string): Option<Json> {
    if !row.Record? then None
    else
      match Find(row.fields, key)
      case Some(i) => Some(row.fields[i].value)
      case None => None
  }

  /** The id a row's organization relation connects to. */
  function ConnectedId(relation: Json): Option<Json> {
    match Get(relation, "connect")
    case Some(connect) => Get(connect, "id")
    case None => None
  }

  datatype Checked<T> = Accepted(value: T) | Refused(refusal: Refusal)

  /** A created row names the organization, or gets it filled in. */
  function TenantCreateRow(row: Json, organization: string): Checked<Json> {
    if !row.Record? then Accepted(row)
    else if HasNestedWrite(row) then Refused(UnscopedTenantQuery)
    else
      match Get(row, ORGANIZATION_ID)
      case Some(id) => if id == Text(organization) then Accepted(row) else Refused(TenantMismatch)
      case None =>
        match Get(row, "organization")
        case Some(relation) =>
          if ConnectedId(relation) == Some(Text(organization)) then Accepted(row) else Refused(TenantMismatch)
        case None => Accepted(Record(row.fields + [Field(ORGANIZATION_ID, Text(organization))]))
  }

  function TenantCreateRows(rows: seq<Json>, organization: string): (checked: Checked<seq<Json>>)
    ensures checked.Accepted? ==>
              && |checked.value| == |rows|
              && forall i | 0 <= i < |rows| :: TenantCreateRow(rows[i], organization) == Accepted(checked.value[i])
  {
    if rows == [] then Accepted([])
    else
      match TenantCreateRows(rows[..|rows| - 1], organization)
      case Refused(r) => Refused(r)
      case Accepted(before) =>
        match TenantCreateRow(rows[|rows| - 1], organization)
        case Refused(r) => Refused(r)
        case Accepted(row) => Accepted(before + [row])
  }

  function TenantCreatePayload(payload: Json, organization: string): Checked<Json> {
    if payload.Array? then
      match TenantCreateRows(payload.items, organization)
      case Refused(r) => Refused(r)
      case Accepted(rows) => Accepted(Array(rows))
    else TenantCreateRow(payload, organization)
  }

  /** An update may name its own organization and no other, and never through the relation. */
  function ValidateUpdatePayload(data: Json, organization: string): Option<Refusal> {
    if !data.Record? then None
    else if HasNestedWrite(data) then Some(UnscopedTenantQuery)
    else if Get(data, "organization").Some? then Some(TenantMismatch)
    else
      match Get(data, ORGANIZATION_ID)
      case Some(id) => if id == Text(organization) then None else Some(TenantMismatch)
      case None => None
  }

  // ── the guard ────────────────────────────────────────────────────────────────────────────

  datatype Query =
    | Read(unique: bool, where: Json)
    | Update(unique: bool, where: Json, data: Json)
    | Delete(unique: bool, where: Json)
    | Create(payload: Json)
    | Upsert(where: Json, create: Json, update: Json)

  function ScopeOf(unique: bool, where: Json, organization: string): ScopeState {
    if unique then UniqueScopeState(where, organization) else FilterScopeState(where, organization)
  }

  function RequireScope(state: ScopeState): Option<Refusal> {
    match state
    case Matching => None
    case Missing => Some(UnscopedTenantQuery)
    case Mismatching => Some(TenantMismatch)
  }

  /** The query that goes on to the database, or why none does. */
  function Guard(q: Query, organization: string): Checked<Query> {
    match q
    case Read(unique, where) =>
      (match RequireScope(ScopeOf(unique, where, organization))
       case Some(r) => Refused(r)
       case None => Accepted(q))
    case Delete(unique, where) =>
      (match RequireScope(ScopeOf(unique, where, organization))
       case Some(r) => Refused(r)
       case None => Accepted(q))
    case Update(unique, where, data) =>
      (match RequireScope(ScopeOf(unique, where, organization))
       case Some(r) => Refused(r)
       case None =>
         match ValidateUpdatePayload(data, organization)
         case Some(r) => Refused(r)
         case None => Accepted(q))
    case Create(payload) =>
      (match TenantCreatePayload(payload, organization)
       case Refused(r) => Refused(r)
       case Accepted(scoped) => Accepted(Create(scoped)))
    case Upsert(where, create, update) =>
      (match RequireScope(UniqueScopeState(where, organization))
       case Some(r) => Refused(r)
       case None =>
         match ValidateUpdatePayload(update, organization)
         case Some(r) => Refused(r)
         case None =>
           match TenantCreatePayload(create, organization)
           case Refused(r) => Refused(r)
           case Accepted(scoped) => Accepted(Upsert(where, scoped, update)))
  }

  // ── what a query does to a table ─────────────────────────────────────────────────────────

  /** Whose a row is after this was written to it. */
  function OrganizationAfter(m: Meaning, data: Json, before: string): string {
    match Get(data, ORGANIZATION_ID)
    case Some(Text(text)) => text
    case Some(other) => m.organizationWritten(other)
    case None =>
      match Get(data, "organization")
      case None => before
      case Some(relation) =>
        match ConnectedId(relation)
        case Some(Text(text)) => text
        case _ => m.organizationWritten(relation)
  }

  function WrittenRow(m: Meaning, data: Json, row: Row): Row {
    Row(OrganizationAfter(m, data, row.organization), m.written(data, row.rest))
  }

  /** The rows of a table a query with this filter comes to: some of those that satisfy it. */
  predicate Picked(m: Meaning, table: seq<Row>, where: Json, picks: set<nat>, i: nat)
    requires i < |table|
  {
    i in picks && Satisfies(m, table[i], where)
  }

  function Found(m: Meaning, table: seq<Row>, where: Json, picks: set<nat>): (found: seq<Row>)
    ensures forall r | r in found :: r in table && Satisfies(m, r, where)
  {
    if table == [] then []
    else
      var last := |table| - 1;
      var before := Found(m, table[..last], where, picks);
      if Picked(m, table, where, picks, last) then before + [table[last]] else before
  }

  function Updated(m: Meaning, table: seq<Row>, where: Json, data: Json, picks: set<nat>): (next: seq<Row>)
    ensures |next| == |table|
  {
    seq(|table|, i requires 0 <= i < |table| =>
      if Picked(m, table, where, picks, i) then WrittenRow(m, data, table[i]) else table[i])
  }

  function Without(m: Meaning, table: seq<Row>, where: Json, picks: set<nat>): seq<Row> {
    if table == [] then []
    else
      var last := |table| - 1;
      var before := Without(m, table[..last], where, picks);
      if Picked(m, table, where, picks, last) then before else before + [table[last]]
  }

  /** New rows; a payload that is no row creates none. */
  function CreatedRows(m: Meaning, payloads: seq<Json>): seq<Row> {
    if payloads == [] then []
    else
      var last := payloads[|payloads| - 1];
      var before := CreatedRows(m, payloads[..|payloads| - 1]);
      if last.Record? then before + [WrittenRow(m, last, Row("", 0))] else before
  }

  function Payloads(payload: Json): seq<Json> {
    if payload.Array? then payload.items else [payload]
  }

  datatype Outcome = Outcome(result: seq<Row>, table: seq<Row>)

  function Execute(m: Meaning, table: seq<Row>, q: Query, picks: set<nat>): Outcome {
    match q
    case Read(_, where) => Outcome(Found(m, table, where, picks), table)
    case Update(_, where, data) => Outcome([], Updated(m, table, where, data, picks))
    case Delete(_, where) => Outcome([], Without(m, table, where, picks))
    case Create(payload) => Outcome([], table + CreatedRows(m, Payloads(payload)))
    case Upsert(where, create, update) =>
      if Found(m, table, where, picks) != [] then Outcome([], Updated(m, table, where, update, picks))
      else Outcome([], table + CreatedRows(m, Payloads(create)))
  }

  /** A call through the tenant client: refused, or executed as the guard lets it. */
  function Call(m: Meaning, table: seq<Row>, q: Query, organization: string, picks: set<nat>): Outcome {
    match Guard(q, organization)
    case Refused(_) => Outcome([], table)
    case Accepted(scoped) => Execute(m, table, scoped, picks)
  }

  /** Any number of calls, with everything they read. */
  function Calls(m: Meaning, table: seq<Row>, calls: seq<(Query, set<nat>)>, organization: string): Outcome {
    if calls == [] then Outcome([], table)
    else
      var before := Calls(m, table, calls[..|calls| - 1], organization);
      var (q, picks) := calls[|calls| - 1];
      var last := Call(m, before.table, q, organization, picks);
      Outcome(before.result + last.result, last.table)
  }

  // ── nothing of anybody else's ────────────────────────────────────────────────────────────

  /** The rows of every other organization, in the order of the table. */
  function Others(table: seq<Row>, organization: string): seq<Row> {
    if table == [] then []
    else
      var last := |table| - 1;
      var before := Others(table[..last], organization);
      if table[last].organization != organization then before + [table[last]] else before
  }

  lemma {:induction false} OthersOfOwn(table: seq<Row>, more: seq<Row>, organization: string)
    requires forall r | r in more :: r.organization == organization
    ensures Others(table + more, organization) == Others(table, organization)
  {
    if more == [] {
      assert table + more == table;
    } else {
      var init := more[..|more| - 1];
      assert (table + more)[..|table| + |init|] == table + init;
      assert more[|more| - 1] in more;
      OthersOfOwn(table, init, organization);
    }
  }

  /** Only the organization's own rows are picked, and they stay its own. */
  ghost predicate TouchesOwn(m: Meaning, where: Json, organization: string) {
    forall row | Satisfies(m, row, where) :: row.organization == organization
  }

  lemma ScopeIsOwn(m: Meaning, unique: bool, where: Json, organization: string)
    requires ScopeOf(unique, where, organization) == Matching
    ensures TouchesOwn(m, where, organization)
  {
    forall row | Satisfies(m, row, where) ensures row.organization == organization {
      if unique {
        MatchingUniqueIsOwn(m, row, where, organization);
      } else {
        MatchingFilterIsOwn(m, row, where, organization);
      }
    }
  }

  lemma {:induction false} UpdateLeavesOthers(
    m: Meaning, table: seq<Row>, where: Json, data: Json, picks: set<nat>, organization: string)
    requires TouchesOwn(m, where, organization)
    requires OrganizationAfter(m, data, organization) == organization
    ensures Others(Updated(m, table, where, data, picks), organization) == Others(table, organization)
  {
    if table != [] {
      var last := |table| - 1;
      var next := Updated(m, table, where, data, picks);
      UpdateLeavesOthers(m, table[..last], where, data, picks, organization);
      assert next[..last] == Updated(m, table[..last], where, data, picks);
    }
  }

  lemma {:induction false} DeleteLeavesOthers(
    m: Meaning, table: seq<Row>, where: Json, picks: set<nat>, organization: string)
    requires TouchesOwn(m, where, organization)
    ensures Others(Without(m, table, where, picks), organization) == Others(table, organization)
  {
    if table != [] {
      var last := |table| - 1;
      DeleteLeavesOthers(m, table[..last], where, picks, organization);
      var before := Without(m, table[..last], where, picks);
      assert (before + [table[last]])[..|before|] == before;
    }
  }

  /** What the guard accepted for an update keeps a row where it is. */
  lemma AcceptedUpdateStays(m: Meaning, data: Json, organization: string)
    requires ValidateUpdatePayload(data, organization).None?
    ensures OrganizationAfter(m, data, organization) == organization
    ensures !HasNestedWrite(data)
  {
  }

  /**
   * And what it accepted, or completed, for a create is the organization's own: by its id, or else
   * by a relation that connects to it. No other relation is written through.
   */
  lemma AcceptedCreateIsOwn(m: Meaning, row: Json, organization: string)
    requires TenantCreateRow(row, organization).Accepted?
    ensures
      var created := TenantCreateRow(row, organization).value;
      && (created.Record? <==> row.Record?)
      && (created.Record? ==>
            && OrganizationAfter(m, created, "") == organization && !HasNestedWrite(created)
            && (Get(created, ORGANIZATION_ID) == Some(Text(organization))
                || (Get(created, "organization").Some?
                    && ConnectedId(Get(created, "organization").value) == Some(Text(organization)))))
  {
    if row.Record? && Get(row, ORGANIZATION_ID).None? && Get(row, "organization").None? {
      var created := TenantCreateRow(row, organization).value;
      assert created.fields[..|row.fields|] == row.fields;
      assert created.fields[|row.fields|] == Field(ORGANIZATION_ID, Text(organization));
      assert Get(created, ORGANIZATION_ID) == Some(Text(organization));
    }
  }

  lemma {:induction false} CreatedRowsAreOwn(m: Meaning, rows: seq<Json>, organization: string)
    requires TenantCreateRows(rows, organization).Accepted?
    ensures forall r | r in CreatedRows(m, TenantCreateRows(rows, organization).value) :: r.organization == organization
  {
    if rows != [] {
      var last := |rows| - 1;
      CreatedRowsAreOwn(m, rows[..last], organization);
      AcceptedCreateIsOwn(m, rows[last], organization);
      var scoped := TenantCreateRows(rows, organization).value;
      assert scoped[..last] == TenantCreateRows(rows[..last], organization).value;
    }
  }

  lemma CreatedPayloadIsOwn(m: Meaning, payload: Json, organization: string)
    requires TenantCreatePayload(payload, organization).Accepted?
    ensures forall r | r in CreatedRows(m, Payloads(TenantCreatePayload(payload, organization).value)) ::
              r.organization == organization
  {
    if payload.Array? {
      CreatedRowsAreOwn(m, payload.items, organization);
    } else {
      AcceptedCreateIsOwn(m, payload, organization);
      var scoped := TenantCreatePayload(payload, organization).value;
      assert [scoped][..0] == [];
      assert CreatedRows(m, []) == [];
    }
  }

  /**
   * One call, whatever it asks for: what it returns is the organization's own, and every other
   * organization's rows are left exactly as they were.
   */
  lemma CallStaysInside(m: Meaning, table: seq<Row>, q: Query, organization: string, picks: set<nat>)
    ensures
      var outcome := Call(m, table, q, organization, picks);
      && (forall r | r in outcome.result :: r.organization == organization)
      && Others(outcome.table, organization) == Others(table, organization)
  {
    if Guard(q, organization).Accepted? {
      match q
      case Read(unique, where) => ScopeIsOwn(m, unique, where, organization);
      case Delete(unique, where) =>
        ScopeIsOwn(m, unique, where, organization);
        DeleteLeavesOthers(m, table, where, picks, organization);
      case Update(unique, where, data) =>
        ScopeIsOwn(m, unique, where, organization);
        AcceptedUpdateStays(m, data, organization);
        UpdateLeavesOthers(m, table, where, data, picks, organization);
      case Create(payload) =>
        CreatedPayloadIsOwn(m, payload, organization);
        OthersOfOwn(table, CreatedRows(m, Payloads(TenantCreatePayload(payload, organization).value)), organization);
      case Upsert(where, create, update) =>
        ScopeIsOwn(m, true, where, organization);
        AcceptedUpdateStays(m, update, organization);
        UpdateLeavesOthers(m, table, where, update, picks, organization);
        CreatedPayloadIsOwn(m, create, organization);
        OthersOfOwn(table, CreatedRows(m, Payloads(TenantCreatePayload(create, organization).value)), organization);
    }
  }

  /** And so for any number of calls, in any order. */
  lemma {:induction false} CallsStayInside(
    m: Meaning, table: seq<Row>, calls: seq<(Query, set<nat>)>, organization: string)
    ensures
      var outcome := Calls(m, table, calls, organization);
      && (forall r | r in outcome.result :: r.organization == organization)
      && Others(outcome.table, organization) == Others(table, organization)
  {
    if calls != [] {
      var before := Calls(m, table, calls[..|calls| - 1], organization);
      var (q, picks) := calls[|calls| - 1];
      CallsStayInside(m, table, calls[..|calls| - 1], organization);
      CallStaysInside(m, before.table, q, organization, picks);
    }
  }

  /** A filter outside AND is not enough: OR leaves the organization optional, and is refused. */
  lemma OptionalScopeIsRefused(organization: string, others: seq<Json>)
    ensures Guard(Read(false, Record([Field("OR", Array([Record([Field(ORGANIZATION_ID, Text(organization))])] + others))])),
                  organization) == Refused(UnscopedTenantQuery)
  {
    var or := Field("OR", Array([Record([Field(ORGANIZATION_ID, Text(organization))])] + others));
    assert [or][..0] == [];
    assert Find([or], ORGANIZATION_ID) == None && Find([or], "AND") == None;
  }
}
