/**
 * The payments export: the cards charged, cash noted and refunds settled or asked for in a range,
 * from three tables into one file.
 */
module LedgerExport {
  import opened Outcomes
  import opened Keyset
  import opened Csv
  import opened LedgerMerge

  // ── the three tables ─────────────────────────────────────────────────────────────────────

  /** What an exported row says about its booking. */
  datatype BookingRef = BookingRef(reference: string, service: string)

  datatype CardRow = CardRow(
    id: int, name: string, cents: int, currency: string, status: string, paidWith: Option<string>,
    paidAt: Option<Instant>, booking: BookingRef)

  datatype ManualRow = ManualRow(
    id: int, name: string, cents: int, currency: string, paidWith: string, paidAt: Instant,
    note: Option<string>, booking: BookingRef)

  datatype RefundState = Pending | Settled | Other(name: string)

  datatype RefundRow = RefundRow(
    id: int, name: string, cents: int, currency: string, state: RefundState, reason: Option<string>,
    requestedAt: Instant, settledAt: Option<Instant>, booking: BookingRef)

  datatype Books = Books(cards: seq<CardRow>, manual: seq<ManualRow>, refunds: seq<RefundRow>)

  /** The range asked for, and how an instant is printed for a reader. */
  datatype Query = Query(from: Instant, to: Instant, printed: Instant -> string)

  predicate InRange(q: Query, at: Instant) {
    q.from <= at < q.to
  }

  function Optional(text: Option<string>): Cell {
    match text
    case None => Absent
    case Some(t) => Text(t)
  }

  function CardEntry(row: CardRow, q: Query): Option<Entry> {
    if row.paidAt.None? || !InRange(q, row.paidAt.value) then None
    else
      Some(Entry(row.paidAt.value, row.id, Stripe,
        [Text("STRIPE"), Text(row.name), Text(row.booking.reference), Text(row.booking.service),
         Text(q.printed(row.paidAt.value)), Text(CsvAmount(row.cents)), Text(row.currency), Text(row.status),
         Optional(row.paidWith), Text("")]))
  }

  function ManualEntry(row: ManualRow, q: Query): Option<Entry> {
    if !InRange(q, row.paidAt) then None
    else
      Some(Entry(row.paidAt, row.id, Manual,
        [Text("MANUAL"), Text(row.name), Text(row.booking.reference), Text(row.booking.service),
         Text(q.printed(row.paidAt)), Text(CsvAmount(row.cents)), Text(row.currency), Text("RECORDED"),
         Text(row.paidWith), Optional(row.note)]))
  }

  /** A settled refund counts on the day it settled, a pending one on the day it was asked for. */
  function RefundEntry(row: RefundRow, q: Query, settled: bool): Option<Entry> {
    if settled && (row.state != Settled || row.settledAt.None? || !InRange(q, row.settledAt.value)) then None
    else if !settled && (row.state != Pending || !InRange(q, row.requestedAt)) then None
    else
      var at := if settled then row.settledAt.value else row.requestedAt;
      Some(Entry(at, row.id, Refund,
        [Text("REFUND"), Text(row.name), Text(row.booking.reference), Text(row.booking.service),
         Text(q.printed(at)), Text(CsvAmount(-row.cents)), Text(row.currency),
         Text(if settled then "SUCCEEDED" else "PENDING"), Optional(row.reason), Text("")]))
  }

  /** The rows a source is about, in no particular order. */
  function Kept(found: seq<Option<Entry>>): seq<Entry> {
    if found == [] then []
    else
      var kept, last := Kept(found[..|found| - 1]), found[|found| - 1];
      if last.Some? then kept + [last.value] else kept
  }

  function FoundCards(rows: seq<CardRow>, q: Query): (found: seq<Option<Entry>>)
    ensures |found| == |rows|
  {
    seq(|rows|, i requires 0 <= i < |rows| => CardEntry(rows[i], q))
  }

  function FoundCash(rows: seq<ManualRow>, q: Query): (found: seq<Option<Entry>>)
    ensures |found| == |rows|
  {
    seq(|rows|, i requires 0 <= i < |rows| => ManualEntry(rows[i], q))
  }

  function FoundRefunds(rows: seq<RefundRow>, q: Query, settled: bool): (found: seq<Option<Entry>>)
    ensures |found| == |rows|
  {
    seq(|rows|, i requires 0 <= i < |rows| => RefundEntry(rows[i], q, settled))
  }

  function Cards(books: Books, q: Query): seq<Entry> {
    Kept(FoundCards(books.cards, q))
  }

  function Cash(books: Books, q: Query): seq<Entry> {
    Kept(FoundCash(books.manual, q))
  }

  function Refunds(books: Books, q: Query, settled: bool): seq<Entry> {
    Kept(FoundRefunds(books.refunds, q, settled))
  }

  /** What the four sources hold together, a row counted as often as it stands in one. */
  function InRangeMovements(books: Books, q: Query): multiset<Entry> {
    multiset(Cards(books, q)) + multiset(Cash(books, q))
    + multiset(Refunds(books, q, true)) + multiset(Refunds(books, q, false))
  }

  predicate IdsAreUnique(books: Books) {
    && (forall i, j | 0 <= i < j < |books.cards| :: books.cards[i].id != books.cards[j].id)
    && (forall i, j | 0 <= i < j < |books.manual| :: books.manual[i].id != books.manual[j].id)
    && (forall i, j | 0 <= i < j < |books.refunds| :: books.refunds[i].id != books.refunds[j].id)
  }

  // ── the order a query asks for ───────────────────────────────────────────────────────────

  predicate DistinctIds(entries: seq<Entry>) {
    forall i, j | 0 <= i < j < |entries| :: entries[i].id != entries[j].id
  }

  function InsertByKey(e: Entry, entries: seq<Entry>): seq<Entry> {
    if entries == [] || KeysetWhere(Asc, KeyOf(e), KeyOf(entries[0])) then [e] + entries
    else [entries[0]] + InsertByKey(e, entries[1..])
  }

  /** What `ORDER BY` does to the rows of a source. */
  function OrderBy(entries: seq<Entry>): seq<Entry> {
    if entries == [] then [] else InsertByKey(entries[|entries| - 1], OrderBy(entries[..|entries| - 1]))
  }

  lemma {:induction false} InsertKeepsAll(e: Entry, entries: seq<Entry>)
    ensures multiset(InsertByKey(e, entries)) == multiset(entries) + multiset{e}
  {
    if entries != [] && !KeysetWhere(Asc, KeyOf(e), KeyOf(entries[0])) {
      InsertKeepsAll(e, entries[1..]);
      assert entries == [entries[0]] + entries[1..];
    }
  }

  lemma {:induction false} InsertKeepsOrder(e: Entry, entries: seq<Entry>)
    requires Ordered(entries) && forall i | 0 <= i < |entries| :: entries[i].id != e.id
    ensures Ordered(InsertByKey(e, entries))
  {
    if entries != [] && !KeysetWhere(Asc, KeyOf(e), KeyOf(entries[0])) {
      var rest := InsertByKey(e, entries[1..]);
      InsertKeepsOrder(e, entries[1..]);
      InsertKeepsAll(e, entries[1..]);
      forall j | 0 <= j < |rest| ensures KeysetWhere(Asc, KeyOf(entries[0]), KeyOf(rest[j])) {
        assert rest[j] in multiset(rest);
        assert rest[j] == e || rest[j] in entries[1..];
      }
    }
  }

  lemma {:induction false} OrderByOrders(entries: seq<Entry>)
    ensures multiset(OrderBy(entries)) == multiset(entries)
    ensures DistinctIds(entries) ==> Ordered(OrderBy(entries))
  {
    if entries != [] {
      var init, last := entries[..|entries| - 1], entries[|entries| - 1];
      OrderByOrders(init);
      InsertKeepsAll(last, OrderBy(init));
      assert entries == init + [last];
      if DistinctIds(entries) {
        forall i | 0 <= i < |OrderBy(init)| ensures OrderBy(init)[i].id != last.id {
          assert OrderBy(init)[i] in multiset(OrderBy(init));
          assert OrderBy(init)[i] in init;
        }
        InsertKeepsOrder(last, OrderBy(init));
      }
    }
  }

  lemma {:induction false} KeptIdsAreDistinct(found: seq<Option<Entry>>)
    requires forall i, j | 0 <= i < j < |found| && found[i].Some? && found[j].Some? :: found[i].value.id != found[j].value.id
    ensures DistinctIds(Kept(found))
    ensures forall e | e in Kept(found) :: Some(e) in found
  {
    if found != [] {
      var init, last := found[..|found| - 1], found[|found| - 1];
      KeptIdsAreDistinct(init);
      assert found == init + [last];
      forall i | 0 <= i < |Kept(init)| && last.Some? ensures Kept(init)[i].id != last.value.id {
        assert Kept(init)[i] in Kept(init) && Some(Kept(init)[i]) in init;
      }
    }
  }

  lemma RefundsAreDistinct(books: Books, q: Query, settled: bool)
    requires IdsAreUnique(books)
    ensures DistinctIds(Refunds(books, q, settled))
  {
    forall i | 0 <= i < |books.refunds| && RefundEntry(books.refunds[i], q, settled).Some?
      ensures RefundEntry(books.refunds[i], q, settled).value.id == books.refunds[i].id
    {
    }
    KeptIdsAreDistinct(FoundRefunds(books.refunds, q, settled));
  }

  lemma SourcesAreDistinct(books: Books, q: Query)
    requires IdsAreUnique(books)
    ensures DistinctIds(Cards(books, q)) && DistinctIds(Cash(books, q))
    ensures DistinctIds(Refunds(books, q, true)) && DistinctIds(Refunds(books, q, false))
  {
    KeptIdsAreDistinct(FoundCards(books.cards, q));
    KeptIdsAreDistinct(FoundCash(books.manual, q));
    RefundsAreDistinct(books, q, true);
    RefundsAreDistinct(books, q, false);
  }

  // ── every movement has a place of its own ────────────────────────────────────────────────

  /** The row an entry is written for. */
  ghost predicate ComesFrom(books: Books, q: Query, e: Entry) {
    match e.kind
    case Stripe => exists i :: 0 <= i < |books.cards| && CardEntry(books.cards[i], q) == Some(e)
    case Manual => exists i :: 0 <= i < |books.manual| && ManualEntry(books.manual[i], q) == Some(e)
    case Refund =>
      exists i, settled :: 0 <= i < |books.refunds| && RefundEntry(books.refunds[i], q, settled) == Some(e)
  }

  lemma {:induction false} KeptWasFound(found: seq<Option<Entry>>, e: Entry)
    requires e in Kept(found)
    ensures Some(e) in found
  {
    if e in Kept(found[..|found| - 1]) {
      KeptWasFound(found[..|found| - 1], e);
    }
  }

  lemma RefundComesFrom(books: Books, q: Query, settled: bool, e: Entry)
    requires e in Refunds(books, q, settled)
    ensures ComesFrom(books, q, e)
  {
    var found := FoundRefunds(books.refunds, q, settled);
    KeptWasFound(found, e);
    var i :| 0 <= i < |found| && found[i] == Some(e);
    assert RefundEntry(books.refunds[i], q, settled) == Some(e);
  }

  lemma PaymentComesFrom(books: Books, q: Query, e: Entry)
    requires e in Cards(books, q) || e in Cash(books, q)
    ensures ComesFrom(books, q, e)
  {
    if e in Cards(books, q) {
      var found := FoundCards(books.cards, q);
      KeptWasFound(found, e);
      var i :| 0 <= i < |found| && found[i] == Some(e);
      assert CardEntry(books.cards[i], q) == Some(e);
    } else {
      var found := FoundCash(books.manual, q);
      KeptWasFound(found, e);
      var i :| 0 <= i < |found| && found[i] == Some(e);
      assert ManualEntry(books.manual[i], q) == Some(e);
    }
  }

  lemma MovementComesFrom(books: Books, q: Query, e: Entry)
    requires e in InRangeMovements(books, q)
    ensures ComesFrom(books, q, e)
  {
    if e in Refunds(books, q, true) {
      RefundComesFrom(books, q, true, e);
    } else if e in Refunds(books, q, false) {
      RefundComesFrom(books, q, false, e);
    } else {
      assert e in multiset(Cards(books, q)) || e in multiset(Cash(books, q));
      PaymentComesFrom(books, q, e);
    }
  }

  lemma CardEntryHasId(row: CardRow, q: Query)
    ensures CardEntry(row, q).Some? ==> CardEntry(row, q).value.id == row.id
  {
  }

  lemma ManualEntryHasId(row: ManualRow, q: Query)
    ensures ManualEntry(row, q).Some? ==> ManualEntry(row, q).value.id == row.id
  {
  }

  lemma OneRefundForAnId(books: Books, q: Query, a: Entry, b: Entry)
    requires IdsAreUnique(books) && ComesFrom(books, q, a) && ComesFrom(books, q, b)
    requires a.id == b.id && a.kind == b.kind == Refund
    ensures a == b
  {
    var i, x :| 0 <= i < |books.refunds| && RefundEntry(books.refunds[i], q, x) == Some(a);
    var j, y :| 0 <= j < |books.refunds| && RefundEntry(books.refunds[j], q, y) == Some(b);
    assert a.id == books.refunds[i].id && b.id == books.refunds[j].id;
    assert x <==> books.refunds[i].state == Settled;
  }

  lemma OneCardForAnId(books: Books, q: Query, a: Entry, b: Entry)
    requires IdsAreUnique(books) && ComesFrom(books, q, a) && ComesFrom(books, q, b)
    requires a.id == b.id && a.kind == b.kind == Stripe
    ensures a == b
  {
    var i :| 0 <= i < |books.cards| && CardEntry(books.cards[i], q) == Some(a);
    var j :| 0 <= j < |books.cards| && CardEntry(books.cards[j], q) == Some(b);
    CardEntryHasId(books.cards[i], q);
    CardEntryHasId(books.cards[j], q);
    assert i == j;
  }

  lemma OneManualForAnId(books: Books, q: Query, a: Entry, b: Entry)
    requires IdsAreUnique(books) && ComesFrom(books, q, a) && ComesFrom(books, q, b)
    requires a.id == b.id && a.kind == b.kind == Manual
    ensures a == b
  {
    var i :| 0 <= i < |books.manual| && ManualEntry(books.manual[i], q) == Some(a);
    var j :| 0 <= j < |books.manual| && ManualEntry(books.manual[j], q) == Some(b);
    ManualEntryHasId(books.manual[i], q);
    ManualEntryHasId(books.manual[j], q);
    assert i == j;
  }

  /** Within a kind the id names the row, and a refund is not both settled and on its way. */
  lemma OneRowForAPlace(books: Books, q: Query, a: Entry, b: Entry)
    requires IdsAreUnique(books) && ComesFrom(books, q, a) && ComesFrom(books, q, b)
    requires a.id == b.id && a.kind == b.kind
    ensures a == b
  {
    match a.kind
    case Stripe => OneCardForAnId(books, q, a, b);
    case Manual => OneManualForAnId(books, q, a, b);
    case Refund => OneRefundForAnId(books, q, a, b);
  }

  /** An entry's place in the file says which entry it is. */
  ghost predicate PlacesDiffer(entries: multiset<Entry>) {
    forall a, b | a in entries && b in entries && NotLater(a, b) && NotLater(b, a) :: a == b
  }

  lemma MovementsHavePlaces(books: Books, q: Query)
    requires IdsAreUnique(books)
    ensures PlacesDiffer(InRangeMovements(books, q))
  {
    var all := InRangeMovements(books, q);
    forall a, b | a in all && b in all && NotLater(a, b) && NotLater(b, a) ensures a == b {
      MovementComesFrom(books, q, a);
      MovementComesFrom(books, q, b);
      OneRowForAPlace(books, q, a, b);
    }
  }

  // ── the export ───────────────────────────────────────────────────────────────────────────

  /**
   * The export, for any page size: exactly the movements of the range, each once, by time, then
   * id, then kind.
   */
  method Payments(books: Books, q: Query, pageSize: nat) returns (entries: seq<Entry>)
    requires IdsAreUnique(books) && pageSize > 0
    ensures IsLedger(entries, books, q)
  {
    var sources := OpenSources(books, q);
    var pagers := OpenPagers(sources, pageSize);
    entries := Merge(pagers, sources);
    MergedIsInOrder(sources);
    MergedIsEverything(sources);
  }

  /** What the four queries return, each in its own order. */
  method OpenSources(books: Books, q: Query) returns (sources: seq<seq<Entry>>)
    requires IdsAreUnique(books)
    ensures forall i | 0 <= i < |sources| :: Ordered(sources[i])
    ensures AllInOrder(sources)
    ensures Bag(sources) == InRangeMovements(books, q)
  {
    SourcesAreDistinct(books, q);
    var cards := RunQuery(Cards(books, q));
    var cash := RunQuery(Cash(books, q));
    var settled := RunQuery(Refunds(books, q, true));
    var pending := RunQuery(Refunds(books, q, false));
    sources := FourSources(cards, cash, settled, pending);
  }

  method RunQuery(entries: seq<Entry>) returns (source: seq<Entry>)
    requires DistinctIds(entries)
    ensures Ordered(source) && multiset(source) == multiset(entries)
  {
    OrderByOrders(entries);
    source := OrderBy(entries);
  }

  method FourSources(a: seq<Entry>, b: seq<Entry>, c: seq<Entry>, d: seq<Entry>)
    returns (sources: seq<seq<Entry>>)
    requires Ordered(a) && Ordered(b) && Ordered(c) && Ordered(d)
    ensures forall i | 0 <= i < |sources| :: Ordered(sources[i])
    ensures AllInOrder(sources)
    ensures Bag(sources) == multiset(a) + multiset(b) + multiset(c) + multiset(d)
  {
    sources := [a, b, c, d];
    assert sources[..3] == [a, b, c] && [a, b, c][..2] == [a, b] && [a, b][..1] == [a] && [a][..0] == [];
    assert Bag([a]) == multiset(a);
    assert Bag([a, b, c]) == multiset(a) + multiset(b) + multiset(c);
    OrderedIsMerged(a);
    OrderedIsMerged(b);
    OrderedIsMerged(c);
    OrderedIsMerged(d);
  }

  const HEADER: seq<Cell> := [
    Text("kind"), Text("id"), Text("bookingReference"), Text("service"), Text("occurredAt"),
    Text("amountEur"), Text("currency"), Text("status"), Text("method"), Text("note")]

  function CellsOf(entries: seq<Entry>): (rows: seq<seq<Cell>>)
    ensures |rows| == |entries|
  {
    seq(|entries|, i requires 0 <= i < |entries| => entries[i].cells)
  }

  /** There is only one way to write entries in order when each has a place of its own. */
  lemma {:induction false} OnlyOneOrder(a: seq<Entry>, b: seq<Entry>)
    requires IsMerged(a) && IsMerged(b) && multiset(a) == multiset(b) && PlacesDiffer(multiset(a))
    ensures a == b
  {
    SameLength(a, b);
    if |a| > 0 {
      SameFirst(a, b);
      SameRest(a, b);
      RestIsMerged(a);
      RestIsMerged(b);
      RestDiffers(a);
      OnlyOneOrder(a[1..], b[1..]);
      assert a == [a[0]] + a[1..] && b == [b[0]] + b[1..];
    }
  }

  lemma RestIsMerged(a: seq<Entry>)
    requires IsMerged(a) && |a| > 0
    ensures IsMerged(a[1..])
  {
  }

  lemma RestDiffers(a: seq<Entry>)
    requires |a| > 0 && PlacesDiffer(multiset(a))
    ensures PlacesDiffer(multiset(a[1..]))
  {
    assert a == [a[0]] + a[1..];
    forall x | x in multiset(a[1..]) ensures x in multiset(a) {
      assert x in a[1..];
    }
  }

  lemma SameLength(a: seq<Entry>, b: seq<Entry>)
    requires multiset(a) == multiset(b)
    ensures |a| == |b|
  {
    assert |multiset(a)| == |a| && |multiset(b)| == |b|;
  }

  lemma SameFirst(a: seq<Entry>, b: seq<Entry>)
    requires |a| > 0 && |b| > 0
    requires IsMerged(a) && IsMerged(b) && multiset(a) == multiset(b) && PlacesDiffer(multiset(a))
    ensures a[0] == b[0]
  {
    assert a[0] in multiset(a) && b[0] in multiset(b);
    assert a[0] in b && b[0] in a;
    var i :| 0 <= i < |b| && b[i] == a[0];
    var j :| 0 <= j < |a| && a[j] == b[0];
    assert i > 0 ==> NotLater(b[0], b[i]);
    assert j > 0 ==> NotLater(a[0], a[j]);
  }

  lemma SameRest(a: seq<Entry>, b: seq<Entry>)
    requires |a| > 0 && |b| > 0 && a[0] == b[0] && multiset(a) == multiset(b)
    ensures multiset(a[1..]) == multiset(b[1..]) <= multiset(a)
  {
    assert a == [a[0]] + a[1..] && b == [b[0]] + b[1..];
    assert multiset(a) == multiset{a[0]} + multiset(a[1..]);
    assert multiset(b) == multiset{a[0]} + multiset(b[1..]);
    assert multiset(a[1..]) == multiset(a) - multiset{a[0]} == multiset(b[1..]);
  }

  /** What the file is to list: exactly the movements of the range, each once, in order. */
  ghost predicate IsLedger(entries: seq<Entry>, books: Books, q: Query) {
    IsMerged(entries) && multiset(entries) == InRangeMovements(books, q)
  }

  /** A range has one ledger, whatever the page size it was read with. */
  lemma OnlyOneLedger(books: Books, q: Query, a: seq<Entry>, b: seq<Entry>)
    requires IdsAreUnique(books) && IsLedger(a, books, q) && IsLedger(b, books, q)
    ensures a == b
  {
    MovementsHavePlaces(books, q);
    OnlyOneOrder(a, b);
  }

  lemma LedgerHasTenColumns(books: Books, q: Query, entries: seq<Entry>)
    requires multiset(entries) == InRangeMovements(books, q)
    ensures forall i | 0 <= i < |entries| :: |entries[i].cells| == 10
  {
    forall i | 0 <= i < |entries| ensures |entries[i].cells| == 10 {
      assert entries[i] in multiset(entries);
      MovementComesFrom(books, q, entries[i]);
    }
  }

  lemma TextUnderHeader(header: seq<Cell>, rows: seq<seq<Cell>>)
    ensures FileText([header] + rows) == [RowText(header)] + FileText(rows)
    ensures header != [] && (forall i | 0 <= i < |rows| :: rows[i] != []) ==>
              forall i | 0 <= i < |[header] + rows| :: ([header] + rows)[i] != []
  {
  }

  /** It reads back as the header and one record of ten cells per movement, neutralised. */
  lemma LedgerReadsBack(books: Books, q: Query, entries: seq<Entry>)
    requires IsLedger(entries, books, q)
    ensures ReadFile(CsvFile([HEADER] + CellsOf(entries))) == Some([RowText(HEADER)] + FileText(CellsOf(entries)))
    ensures forall i | 0 <= i < |entries| :: |FileText(CellsOf(entries))[i]| == 10
  {
    LedgerHasTenColumns(books, q, entries);
    TextUnderHeader(HEADER, CellsOf(entries));
    FileReadsBack([HEADER] + CellsOf(entries));
  }

  lemma OneMoreLine(file: string, rows: seq<seq<Cell>>, row: seq<Cell>)
    requires file == [CSV_BOM] + CsvFile(rows)
    ensures file + CsvLine(row) == [CSV_BOM] + CsvFile(rows + [row])
  {
    FileGrows(rows, row);
    Associates([CSV_BOM], CsvFile(rows), CsvLine(row));
  }

  lemma OneMoreEntry(entries: seq<Entry>, i: nat)
    requires i < |entries|
    ensures CellsOf(entries[..i + 1]) == CellsOf(entries[..i]) + [entries[i].cells]
  {
  }

  /** One line after the other, as they are streamed. */
  method WriteLines(header: seq<Cell>, entries: seq<Entry>) returns (file: string)
    ensures file == [CSV_BOM] + CsvFile([header] + CellsOf(entries))
  {
    ghost var rows := [header];
    file := [CSV_BOM] + CsvLine(header);
    OneMoreLine([CSV_BOM] + "", [], header);
    assert [] + [header] == rows && [CSV_BOM] + "" == [CSV_BOM];
    for i := 0 to |entries|
      invariant file == [CSV_BOM] + CsvFile(rows)
      invariant rows == [header] + CellsOf(entries[..i])
    {
      file := file + CsvLine(entries[i].cells);
      OneMoreLine([CSV_BOM] + CsvFile(rows), rows, entries[i].cells);
      OneMoreEntry(entries, i);
      rows := rows + [entries[i].cells];
    }
    assert entries[..|entries|] == entries;
  }

  /**
   * The file that is streamed: a byte-order mark, the header, a line per movement. It is the same
   * for every page size, and what follows the mark reads back as the ledger of the range.
   */
  method PaymentsFile(books: Books, q: Query, pageSize: nat) returns (file: string)
    requires IdsAreUnique(books) && pageSize > 0
    ensures forall ledger | IsLedger(ledger, books, q) :: file == [CSV_BOM] + CsvFile([HEADER] + CellsOf(ledger))
    ensures |file| > 0 && file[0] == CSV_BOM
    ensures exists ledger ::
              && IsLedger(ledger, books, q)
              && ReadFile(file[1..]) == Some([RowText(HEADER)] + FileText(CellsOf(ledger)))
  {
    var entries := Payments(books, q, pageSize);
    file := WriteLines(HEADER, entries);
    LedgerReadsBack(books, q, entries);
    assert file[1..] == CsvFile([HEADER] + CellsOf(entries));
    forall ledger | IsLedger(ledger, books, q) ensures ledger == entries {
      OnlyOneLedger(books, q, ledger, entries);
    }
  }

  lemma AmountCellReadsBack(cents: int)
    ensures ReadAmount(CellText(Text(CsvAmount(cents)))) == Some(cents)
  {
    AmountReadsBack(cents);
  }

  /** A refund is written as money going out, and its amount reads back as just that. */
  lemma {:induction false} AmountsKeepTheirSign(row: RefundRow, q: Query, settled: bool)
    requires RefundEntry(row, q, settled).Some?
    ensures
      var cells := RowText(RefundEntry(row, q, settled).value.cells);
      |cells| == 10 && ReadAmount(cells[5]) == Some(-row.cents)
  {
    AmountCellReadsBack(-row.cents);
    var cells := RefundEntry(row, q, settled).value.cells;
    assert |cells| == 10 && cells[5] == Text(CsvAmount(-row.cents));
    assert RowText(cells)[5] == CellText(cells[5]);
  }
}
