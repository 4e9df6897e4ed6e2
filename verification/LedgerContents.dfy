/** What the payments export says of the three tables: each row of the range once, under its columns, and the total. */
module LedgerContents {
  import opened Outcomes
  import opened Csv
  import opened LedgerMerge
  import opened LedgerExport

  // ── one row ──────────────────────────────────────────────────────────────────────────────

  /** The instant a card row counts at, a refund's being when it settled or else was asked for. */
  predicate CardAt(row: CardRow, q: Query, at: Instant) {
    row.paidAt == Some(at) && q.from <= at < q.to
  }

  predicate CashAt(row: ManualRow, q: Query, at: Instant) {
    row.paidAt == at && q.from <= at < q.to
  }

  predicate RefundAt(row: RefundRow, q: Query, at: Instant) {
    && q.from <= at < q.to
    && match row.state
       case Settled => row.settledAt == Some(at)
       case Pending => row.requestedAt == at
       case Other(_) => false
  }

  predicate Under(e: Entry, column: nat, title: string, cell: Cell) {
    column < |e.cells| && column < |HEADER| && HEADER[column] == Text(title) && e.cells[column] == cell
  }

  /** What an entry reads as, cents and all. */
  function Amount(e: Entry): Option<int> {
    if |e.cells| == 10 then ReadAmount(RowText(e.cells)[5]) else None
  }

  /** All ten columns of an entry. */
  predicate Tells(
    e: Entry, q: Query, kind: string, name: string, booking: BookingRef, cents: int, currency: string, status: string,
    paidWith: Cell, note: Cell)
  {
    && |e.cells| == |HEADER| == 10
    && Under(e, 0, "kind", Text(kind)) && Under(e, 1, "id", Text(name))
    && Under(e, 2, "bookingReference", Text(booking.reference)) && Under(e, 3, "service", Text(booking.service))
    && Under(e, 4, "occurredAt", Text(q.printed(e.at)))
    && HEADER[5] == Text("amountEur") && Amount(e) == Some(cents)
    && Under(e, 6, "currency", Text(currency)) && Under(e, 7, "status", Text(status))
    && Under(e, 8, "method", paidWith) && Under(e, 9, "note", note)
  }

  predicate TellsCard(e: Entry, q: Query, row: CardRow) {
    && e.kind == Stripe && e.id == row.id && CardAt(row, q, e.at)
    && Tells(e, q, "STRIPE", row.name, row.booking, row.cents, row.currency, row.status,
             if row.paidWith.Some? then Text(row.paidWith.value) else Absent, Text(""))
  }

  predicate TellsCash(e: Entry, q: Query, row: ManualRow) {
    && e.kind == Manual && e.id == row.id && CashAt(row, q, e.at)
    && Tells(e, q, "MANUAL", row.name, row.booking, row.cents, row.currency, "RECORDED",
             Text(row.paidWith), if row.note.Some? then Text(row.note.value) else Absent)
  }

  /** A refund is money going out; its reason stands in the column of the method. */
  predicate TellsRefund(e: Entry, q: Query, row: RefundRow) {
    && e.kind == Refund && e.id == row.id && RefundAt(row, q, e.at)
    && Tells(e, q, "REFUND", row.name, row.booking, -row.cents, row.currency,
             if row.state == Settled then "SUCCEEDED" else "PENDING",
             if row.reason.Some? then Text(row.reason.value) else Absent, Text(""))
  }

  function NameOf(kind: Kind): string {
    match kind
    case Stripe => "STRIPE"
    case Manual => "MANUAL"
    case Refund => "REFUND"
  }

  /** Of two entries of one moment and id, the one whose kind sorts first by name comes first. */
  lemma KindsSortByName(a: Entry, b: Entry)
    requires a.at == b.at && a.id == b.id
    ensures NotLater(a, b) <==> NameOf(a.kind)[0] <= NameOf(b.kind)[0]
  {
  }

  lemma HeaderTitles()
    ensures |HEADER| == 10
    ensures HEADER[0] == Text("kind") && HEADER[1] == Text("id") && HEADER[2] == Text("bookingReference")
    ensures HEADER[3] == Text("service") && HEADER[4] == Text("occurredAt") && HEADER[5] == Text("amountEur")
    ensures HEADER[6] == Text("currency") && HEADER[7] == Text("status") && HEADER[8] == Text("method")
    ensures HEADER[9] == Text("note")
  {
  }

  lemma AmountIs(e: Entry, cents: int)
    requires |e.cells| == 10 && e.cells[5] == Text(CsvAmount(cents))
    ensures Amount(e) == Some(cents)
  {
    AmountReadsBack(cents);
    assert RowText(e.cells)[5] == CellText(e.cells[5]);
  }

  lemma TenCellsTell(
    e: Entry, q: Query, kind: string, name: string, booking: BookingRef, cents: int, currency: string, status: string,
    paidWith: Cell, note: Cell)
    requires e.cells == [Text(kind), Text(name), Text(booking.reference), Text(booking.service), Text(q.printed(e.at)),
                         Text(CsvAmount(cents)), Text(currency), Text(status), paidWith, note]
    ensures Tells(e, q, kind, name, booking, cents, currency, status, paidWith, note)
  {
    HeaderTitles();
    AmountIs(e, cents);
  }

  lemma CardIsTold(row: CardRow, q: Query)
    ensures CardEntry(row, q).Some? <==> row.paidAt.Some? && CardAt(row, q, row.paidAt.value)
    ensures CardEntry(row, q).Some? ==> TellsCard(CardEntry(row, q).value, q, row)
  {
    if CardEntry(row, q).Some? {
      TenCellsTell(CardEntry(row, q).value, q, "STRIPE", row.name, row.booking, row.cents, row.currency, row.status,
                   if row.paidWith.Some? then Text(row.paidWith.value) else Absent, Text(""));
    }
  }

  lemma CashIsTold(row: ManualRow, q: Query)
    ensures ManualEntry(row, q).Some? <==> CashAt(row, q, row.paidAt)
    ensures ManualEntry(row, q).Some? ==> TellsCash(ManualEntry(row, q).value, q, row)
  {
    if ManualEntry(row, q).Some? {
      TenCellsTell(ManualEntry(row, q).value, q, "MANUAL", row.name, row.booking, row.cents, row.currency, "RECORDED",
                   Text(row.paidWith), if row.note.Some? then Text(row.note.value) else Absent);
    }
  }

  predicate Counts(row: RefundRow, q: Query, settled: bool) {
    if settled then row.state == Settled && row.settledAt.Some? && RefundAt(row, q, row.settledAt.value)
    else row.state == Pending && RefundAt(row, q, row.requestedAt)
  }

  lemma RefundCountsIff(row: RefundRow, q: Query, settled: bool)
    ensures RefundEntry(row, q, settled).Some? <==> Counts(row, q, settled)
  {
  }

  lemma RefundIsTold(row: RefundRow, q: Query, settled: bool)
    ensures RefundEntry(row, q, settled).Some? <==> Counts(row, q, settled)
    ensures RefundEntry(row, q, settled).Some? ==> TellsRefund(RefundEntry(row, q, settled).value, q, row)
  {
    RefundCountsIff(row, q, settled);
    if RefundEntry(row, q, settled).Some? {
      var e := RefundEntry(row, q, settled).value;
      var reason := if row.reason.Some? then Text(row.reason.value) else Absent;
      var status := if row.state == Settled then "SUCCEEDED" else "PENDING";
      assert settled <==> row.state == Settled;
      TenCellsTell(e, q, "REFUND", row.name, row.booking, -row.cents, row.currency, status, reason, Text(""));
    }
  }

  // ── every row once ───────────────────────────────────────────────────────────────────────

  lemma {:induction false} FoundIsKept(found: seq<Option<Entry>>, e: Entry)
    requires Some(e) in found
    ensures e in Kept(found)
  {
    var init, last := found[..|found| - 1], found[|found| - 1];
    assert found == init + [last];
    if last != Some(e) {
      FoundIsKept(init, e);
    }
  }

  lemma {:induction false} DistinctOnce(entries: seq<Entry>, e: Entry)
    requires DistinctIds(entries)
    ensures multiset(entries)[e] <= 1
  {
    if entries != [] {
      var init, last := entries[..|entries| - 1], entries[|entries| - 1];
      assert entries == init + [last];
      DistinctOnce(init, e);
      if last == e {
        assert e !in init;
      }
    }
  }

  lemma CardsAreStripe(books: Books, q: Query, e: Entry)
    requires e in Cards(books, q)
    ensures e.kind == Stripe
  {
    KeptWasFound(FoundCards(books.cards, q), e);
  }

  lemma CashIsManual(books: Books, q: Query, e: Entry)
    requires e in Cash(books, q)
    ensures e.kind == Manual
  {
    KeptWasFound(FoundCash(books.manual, q), e);
  }

  lemma RefundsAreCounted(books: Books, q: Query, settled: bool, e: Entry) returns (i: nat)
    requires e in Refunds(books, q, settled)
    ensures i < |books.refunds| && RefundEntry(books.refunds[i], q, settled) == Some(e) && e.kind == Refund
  {
    var found := FoundRefunds(books.refunds, q, settled);
    KeptWasFound(found, e);
    i :| 0 <= i < |found| && found[i] == Some(e);
  }

  lemma EachMovementOnce(books: Books, q: Query, e: Entry)
    requires IdsAreUnique(books)
    ensures InRangeMovements(books, q)[e] <= 1
  {
    SourcesAreDistinct(books, q);
    DistinctOnce(Cards(books, q), e);
    DistinctOnce(Cash(books, q), e);
    DistinctOnce(Refunds(books, q, true), e);
    DistinctOnce(Refunds(books, q, false), e);
    if e in Cards(books, q) { CardsAreStripe(books, q, e); }
    if e in Cash(books, q) { CashIsManual(books, q, e); }
    if e in Refunds(books, q, true) { var _ := RefundsAreCounted(books, q, true, e); }
    if e in Refunds(books, q, false) { var _ := RefundsAreCounted(books, q, false, e); }
  }

  lemma TwoPlacesCountTwice(entries: seq<Entry>, k: nat, l: nat)
    requires k < l < |entries| && entries[k] == entries[l]
    ensures multiset(entries)[entries[k]] >= 2
  {
    assert entries == entries[..l] + [entries[l]] + entries[l + 1..];
    assert entries[..l][k] == entries[k];
    assert entries[k] in multiset(entries[..l]);
  }

  ghost predicate ToldOnce(entries: seq<Entry>) {
    forall k, l | 0 <= k < l < |entries| :: entries[k].kind != entries[l].kind || entries[k].id != entries[l].id
  }

  lemma NoRowTwice(books: Books, q: Query, entries: seq<Entry>)
    requires IdsAreUnique(books) && IsLedger(entries, books, q)
    ensures ToldOnce(entries)
  {
    forall k, l | 0 <= k < l < |entries| ensures entries[k].kind != entries[l].kind || entries[k].id != entries[l].id {
      if entries[k].kind == entries[l].kind && entries[k].id == entries[l].id {
        assert entries[k] in multiset(entries) && entries[l] in multiset(entries);
        MovementComesFrom(books, q, entries[k]);
        MovementComesFrom(books, q, entries[l]);
        OneRowForAPlace(books, q, entries[k], entries[l]);
        TwoPlacesCountTwice(entries, k, l);
        EachMovementOnce(books, q, entries[k]);
      }
    }
  }

  lemma CardIsListed(books: Books, q: Query, entries: seq<Entry>, i: nat)
    requires IsLedger(entries, books, q) && i < |books.cards|
    requires books.cards[i].paidAt.Some? && CardAt(books.cards[i], q, books.cards[i].paidAt.value)
    ensures exists e :: e in entries && TellsCard(e, q, books.cards[i])
  {
    CardIsTold(books.cards[i], q);
    var e := CardEntry(books.cards[i], q).value;
    var found := FoundCards(books.cards, q);
    assert found[i] == Some(e);
    FoundIsKept(found, e);
    assert e in multiset(Cards(books, q));
    assert e in multiset(entries);
  }

  lemma CashIsListed(books: Books, q: Query, entries: seq<Entry>, i: nat)
    requires IsLedger(entries, books, q) && i < |books.manual| && CashAt(books.manual[i], q, books.manual[i].paidAt)
    ensures exists e :: e in entries && TellsCash(e, q, books.manual[i])
  {
    CashIsTold(books.manual[i], q);
    var e := ManualEntry(books.manual[i], q).value;
    var found := FoundCash(books.manual, q);
    assert found[i] == Some(e);
    FoundIsKept(found, e);
    assert e in multiset(Cash(books, q));
    assert e in multiset(entries);
  }

  lemma RefundIsListed(books: Books, q: Query, entries: seq<Entry>, i: nat, at: Instant)
    requires IsLedger(entries, books, q) && i < |books.refunds| && RefundAt(books.refunds[i], q, at)
    ensures exists e :: e in entries && TellsRefund(e, q, books.refunds[i])
  {
    var settled := books.refunds[i].state == Settled;
    RefundIsTold(books.refunds[i], q, settled);
    var e := RefundEntry(books.refunds[i], q, settled).value;
    var found := FoundRefunds(books.refunds, q, settled);
    assert found[i] == Some(e);
    FoundIsKept(found, e);
    assert e in multiset(Refunds(books, q, settled));
    assert e in multiset(entries);
  }

  /** The row an entry tells of. */
  ghost predicate TellsOfARow(books: Books, q: Query, e: Entry) {
    match e.kind
    case Stripe => exists i :: 0 <= i < |books.cards| && TellsCard(e, q, books.cards[i])
    case Manual => exists i :: 0 <= i < |books.manual| && TellsCash(e, q, books.manual[i])
    case Refund => exists i :: 0 <= i < |books.refunds| && TellsRefund(e, q, books.refunds[i])
  }

  lemma EntryTellsOfARow(books: Books, q: Query, e: Entry)
    requires ComesFrom(books, q, e)
    ensures TellsOfARow(books, q, e)
  {
    match e.kind
    case Stripe =>
      var i :| 0 <= i < |books.cards| && CardEntry(books.cards[i], q) == Some(e);
      CardIsTold(books.cards[i], q);
    case Manual =>
      var i :| 0 <= i < |books.manual| && ManualEntry(books.manual[i], q) == Some(e);
      CashIsTold(books.manual[i], q);
    case Refund =>
      var i, settled :| 0 <= i < |books.refunds| && RefundEntry(books.refunds[i], q, settled) == Some(e);
      RefundIsTold(books.refunds[i], q, settled);
  }

  /**
   * The export lists every card row paid in the range, every cash row noted in it, and every refund
   * that settled, or is pending and was asked for, in it. Each has one entry, which tells all its
   * columns, and there is no other entry.
   */
  lemma ExportListsEachRowOnce(books: Books, q: Query, entries: seq<Entry>)
    requires IdsAreUnique(books) && IsLedger(entries, books, q)
    ensures forall i, at | 0 <= i < |books.cards| && CardAt(books.cards[i], q, at) ::
              exists e :: e in entries && TellsCard(e, q, books.cards[i])
    ensures forall i, at | 0 <= i < |books.manual| && CashAt(books.manual[i], q, at) ::
              exists e :: e in entries && TellsCash(e, q, books.manual[i])
    ensures forall i, at | 0 <= i < |books.refunds| && RefundAt(books.refunds[i], q, at) ::
              exists e :: e in entries && TellsRefund(e, q, books.refunds[i])
    ensures forall k | 0 <= k < |entries| :: TellsOfARow(books, q, entries[k])
    ensures ToldOnce(entries)
  {
    forall i, at | 0 <= i < |books.cards| && CardAt(books.cards[i], q, at)
      ensures exists e :: e in entries && TellsCard(e, q, books.cards[i])
    {
      CardIsListed(books, q, entries, i);
    }
    forall i, at | 0 <= i < |books.manual| && CashAt(books.manual[i], q, at)
      ensures exists e :: e in entries && TellsCash(e, q, books.manual[i])
    {
      CashIsListed(books, q, entries, i);
    }
    forall i, at | 0 <= i < |books.refunds| && RefundAt(books.refunds[i], q, at)
      ensures exists e :: e in entries && TellsRefund(e, q, books.refunds[i])
    {
      RefundIsListed(books, q, entries, i, at);
    }
    forall k | 0 <= k < |entries| ensures TellsOfARow(books, q, entries[k]) {
      assert entries[k] in multiset(entries);
      MovementComesFrom(books, q, entries[k]);
      EntryTellsOfARow(books, q, entries[k]);
    }
    NoRowTwice(books, q, entries);
  }

  // ── the total ────────────────────────────────────────────────────────────────────────────

  function CardsTotal(rows: seq<CardRow>, q: Query): int {
    if rows == [] then 0
    else
      var last := rows[|rows| - 1];
      CardsTotal(rows[..|rows| - 1], q) + (if last.paidAt.Some? && CardAt(last, q, last.paidAt.value) then last.cents else 0)
  }

  function CashTotal(rows: seq<ManualRow>, q: Query): int {
    if rows == [] then 0
    else
      var last := rows[|rows| - 1];
      CashTotal(rows[..|rows| - 1], q) + (if CashAt(last, q, last.paidAt) then last.cents else 0)
  }

  /** Refunds of the range in either state that counts. */
  function RefundsTotal(rows: seq<RefundRow>, q: Query, settled: bool): int {
    if rows == [] then 0
    else
      var last := rows[|rows| - 1];
      RefundsTotal(rows[..|rows| - 1], q, settled) + (if Counts(last, q, settled) then last.cents else 0)
  }

  function Cents(e: Entry): int {
    match Amount(e)
    case Some(cents) => cents
    case None => 0
  }

  function Total(entries: seq<Entry>, cents: Entry -> int): int {
    if entries == [] then 0 else Total(entries[..|entries| - 1], cents) + cents(entries[|entries| - 1])
  }

  lemma {:induction false} TotalOfBoth(a: seq<Entry>, b: seq<Entry>, cents: Entry -> int)
    ensures Total(a + b, cents) == Total(a, cents) + Total(b, cents)
  {
    if b == [] {
      assert a + b == a;
    } else {
      assert (a + b)[..|a + b| - 1] == a + b[..|b| - 1];
      TotalOfBoth(a, b[..|b| - 1], cents);
    }
  }

  lemma OneLess(a: seq<Entry>, b: seq<Entry>, j: nat)
    requires multiset(a) == multiset(b) && a != [] && j < |b| && b[j] == a[|a| - 1]
    ensures multiset(a[..|a| - 1]) == multiset(b[..j] + b[j + 1..])
  {
    assert a == a[..|a| - 1] + [b[j]];
    assert b == b[..j] + [b[j]] + b[j + 1..];
    assert multiset(a[..|a| - 1]) == multiset(a) - multiset{b[j]};
    assert multiset(b[..j] + b[j + 1..]) == multiset(b) - multiset{b[j]};
  }

  lemma {:induction false} TotalIgnoresOrder(a: seq<Entry>, b: seq<Entry>, cents: Entry -> int)
    requires multiset(a) == multiset(b)
    ensures Total(a, cents) == Total(b, cents)
  {
    SameLength(a, b);
    if a != [] {
      var init, last := a[..|a| - 1], a[|a| - 1];
      assert last in multiset(a) && last in b;
      var j :| 0 <= j < |b| && b[j] == last;
      var before, after := b[..j], b[j + 1..];
      OneLess(a, b, j);
      TotalIgnoresOrder(init, before + after, cents);
      TotalOfBoth(before, after, cents);
      TotalOfBoth(before + [last], after, cents);
      assert (before + [last])[..j] == before;
      assert b == before + [last] + after;
    }
  }

  lemma TotalOfFour(a: seq<Entry>, b: seq<Entry>, c: seq<Entry>, d: seq<Entry>, cents: Entry -> int)
    ensures Total(a + b + c + d, cents) == Total(a, cents) + Total(b, cents) + Total(c, cents) + Total(d, cents)
  {
    TotalOfBoth(a + b + c, d, cents);
    TotalOfBoth(a + b, c, cents);
    TotalOfBoth(a, b, cents);
  }

  lemma KeptOneMore(found: seq<Option<Entry>>, one: Option<Entry>, cents: Entry -> int)
    ensures Total(Kept(found + [one]), cents) == Total(Kept(found), cents) + (if one.Some? then cents(one.value) else 0)
  {
    assert (found + [one])[..|found|] == found;
    if one.Some? {
      assert (Kept(found) + [one.value])[..|Kept(found)|] == Kept(found);
    }
  }

  lemma {:induction false} CardsAddUp(rows: seq<CardRow>, q: Query, cents: Entry -> int)
    requires forall row | CardEntry(row, q).Some? :: cents(CardEntry(row, q).value) == row.cents
    ensures Total(Kept(FoundCards(rows, q)), cents) == CardsTotal(rows, q)
  {
    if rows != [] {
      var init, last := rows[..|rows| - 1], rows[|rows| - 1];
      CardsAddUp(init, q, cents);
      CardIsTold(last, q);
      var found := FoundCards(init, q);
      KeptOneMore(found, CardEntry(last, q), cents);
      assert found + [CardEntry(last, q)] == FoundCards(rows, q);
    }
  }

  lemma {:induction false} CashAddsUp(rows: seq<ManualRow>, q: Query, cents: Entry -> int)
    requires forall row | ManualEntry(row, q).Some? :: cents(ManualEntry(row, q).value) == row.cents
    ensures Total(Kept(FoundCash(rows, q)), cents) == CashTotal(rows, q)
  {
    if rows != [] {
      var init, last := rows[..|rows| - 1], rows[|rows| - 1];
      CashAddsUp(init, q, cents);
      CashIsTold(last, q);
      var found := FoundCash(init, q);
      KeptOneMore(found, ManualEntry(last, q), cents);
      assert found + [ManualEntry(last, q)] == FoundCash(rows, q);
    }
  }

  predicate RefundCents(row: RefundRow, q: Query, settled: bool, cents: Entry -> int) {
    RefundEntry(row, q, settled).Some? ==> cents(RefundEntry(row, q, settled).value) == -row.cents
  }

  lemma {:induction false} RefundsAddUp(rows: seq<RefundRow>, q: Query, settled: bool, cents: Entry -> int)
    requires forall row :: RefundCents(row, q, settled, cents)
    ensures Total(Kept(FoundRefunds(rows, q, settled)), cents) ==
            -RefundsTotal(rows, q, settled)
  {
    if rows != [] {
      var init, last := rows[..|rows| - 1], rows[|rows| - 1];
      RefundsAddUp(init, q, settled, cents);
      RefundCountsIff(last, q, settled);
      assert RefundCents(last, q, settled, cents);
      KeptOneMore(FoundRefunds(init, q, settled), RefundEntry(last, q, settled), cents);
      assert FoundRefunds(init, q, settled) + [RefundEntry(last, q, settled)] == FoundRefunds(rows, q, settled);
    }
  }

  /** What the amounts of a ledger come to, however they are read. */
  lemma LedgerAddsUp(books: Books, q: Query, entries: seq<Entry>, cents: Entry -> int)
    requires multiset(entries) == InRangeMovements(books, q)
    requires forall row | CardEntry(row, q).Some? :: cents(CardEntry(row, q).value) == row.cents
    requires forall row | ManualEntry(row, q).Some? :: cents(ManualEntry(row, q).value) == row.cents
    requires forall row, settled :: RefundCents(row, q, settled, cents)
    ensures Total(entries, cents) == CardsTotal(books.cards, q) + CashTotal(books.manual, q)
                                     - RefundsTotal(books.refunds, q, true) - RefundsTotal(books.refunds, q, false)
  {
    var cards, cash := Cards(books, q), Cash(books, q);
    var settled, pending := Refunds(books, q, true), Refunds(books, q, false);
    TotalIgnoresOrder(entries, cards + cash + settled + pending, cents);
    TotalOfFour(cards, cash, settled, pending, cents);
    CardsAddUp(books.cards, q, cents);
    CashAddsUp(books.manual, q, cents);
    RefundsAddUp(books.refunds, q, true, cents);
    RefundsAddUp(books.refunds, q, false, cents);
  }

  /** The amounts of the file, read back, come to cards plus cash minus the refunds sent and on their way. */
  lemma ExportAddsUp(books: Books, q: Query, entries: seq<Entry>)
    requires IsLedger(entries, books, q)
    ensures Total(entries, Cents) == CardsTotal(books.cards, q) + CashTotal(books.manual, q)
                                     - RefundsTotal(books.refunds, q, true) - RefundsTotal(books.refunds, q, false)
  {
    forall row | CardEntry(row, q).Some? ensures Cents(CardEntry(row, q).value) == row.cents {
      CardIsTold(row, q);
    }
    forall row | ManualEntry(row, q).Some? ensures Cents(ManualEntry(row, q).value) == row.cents {
      CashIsTold(row, q);
    }
    forall row, settled ensures RefundCents(row, q, settled, Cents) {
      RefundIsTold(row, q, settled);
    }
    LedgerAddsUp(books, q, entries, Cents);
  }
}
