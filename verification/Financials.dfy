/**
 * The money of a booking. What a reschedule chain was paid stays on its first booking,
 * the financial root, and every reader goes through it.
 */
module Financials {
  import opened Outcomes
  import opened BookingStatuses
  import opened Records
  import opened Refunds

  datatype BookingFinancials = BookingFinancials(
    root: RowId,
    payments: seq<Payment>,
    manualPayments: seq<ManualPayment>,
    refunds: seq<Refund>)

  // ── reading ──────────────────────────────────────────────────────────────────────────────

  function PaymentsOn(rows: seq<Payment>, root: RowId): seq<Payment> {
    if rows == [] then []
    else
      var before, last := PaymentsOn(rows[..|rows| - 1], root), rows[|rows| - 1];
      if last.booking == root then before + [last] else before
  }

  function CashOn(rows: seq<ManualPayment>, root: RowId): seq<ManualPayment> {
    if rows == [] then []
    else
      var before, last := CashOn(rows[..|rows| - 1], root), rows[|rows| - 1];
      if last.booking == root then before + [last] else before
  }

  /** The booking a refund's payment sits on, whichever booking the refund was issued from. */
  function PaidOn(payments: seq<Payment>, refund: Refund): Option<RowId> {
    if refund.payment < |payments| then Some(payments[refund.payment].booking) else None
  }

  function RefundsOn(rows: seq<Refund>, payments: seq<Payment>, root: RowId): seq<Refund> {
    if rows == [] then []
    else
      var before, last := RefundsOn(rows[..|rows| - 1], payments, root), rows[|rows| - 1];
      if PaidOn(payments, last) == Some(root) then before + [last] else before
  }

  function FinancialsOf(db: Db, root: RowId): BookingFinancials {
    BookingFinancials(root, PaymentsOn(db.payments, root), CashOn(db.manualPayments, root),
                      RefundsOn(db.refunds, db.payments, root))
  }

  /** The single-booking read. */
  method LoadWithClient(tx: Database, booking: RowId) returns (result: Result<BookingFinancials>)
    ensures result == if booking < |tx.bookings| then Ok(FinancialsOf(tx.View(), RootOf(tx.View(), booking)))
                      else Err(NotFound)
  {
    if booking >= |tx.bookings| { return Err(NotFound); }
    var root := RootOf(tx.View(), booking);
    var byRoot := ReadRoots(tx, [root]);
    assert root in [root];
    return Ok(byRoot[root]);
  }

  /** What the rows of the three tables come to for each of these roots. */
  method ReadRoots(tx: Database, roots: seq<RowId>) returns (byRoot: map<RowId, BookingFinancials>)
    ensures forall r :: r in byRoot <==> r in roots
    ensures forall r | r in roots :: byRoot[r] == FinancialsOf(tx.View(), r)
  {
    byRoot := map r | r in roots :: BookingFinancials(r, [], [], []);

    for i := 0 to |tx.payments|
      invariant forall r :: r in byRoot <==> r in roots
      invariant forall r | r in roots ::
                  byRoot[r] == BookingFinancials(r, PaymentsOn(tx.payments[..i], r), [], [])
    {
      var payment := tx.payments[i];
      assert tx.payments[..i + 1][..i] == tx.payments[..i];
      if payment.booking in byRoot {
        var group := byRoot[payment.booking];
        byRoot := byRoot[payment.booking := group.(payments := group.payments + [payment])];
      }
    }
    assert tx.payments[..|tx.payments|] == tx.payments;

    for i := 0 to |tx.manualPayments|
      invariant forall r :: r in byRoot <==> r in roots
      invariant forall r | r in roots ::
                  byRoot[r] == BookingFinancials(r, PaymentsOn(tx.payments, r), CashOn(tx.manualPayments[..i], r), [])
    {
      var payment := tx.manualPayments[i];
      assert tx.manualPayments[..i + 1][..i] == tx.manualPayments[..i];
      if payment.booking in byRoot {
        var group := byRoot[payment.booking];
        byRoot := byRoot[payment.booking := group.(manualPayments := group.manualPayments + [payment])];
      }
    }
    assert tx.manualPayments[..|tx.manualPayments|] == tx.manualPayments;

    for i := 0 to |tx.refunds|
      invariant forall r :: r in byRoot <==> r in roots
      invariant forall r | r in roots ::
                  byRoot[r] == BookingFinancials(r, PaymentsOn(tx.payments, r), CashOn(tx.manualPayments, r),
                                                 RefundsOn(tx.refunds[..i], tx.payments, r))
    {
      var refund := tx.refunds[i];
      assert tx.refunds[..i + 1][..i] == tx.refunds[..i];
      var paidOn := PaidOn(tx.payments, refund);
      if paidOn.Some? && paidOn.value in byRoot {
        var group := byRoot[paidOn.value];
        byRoot := byRoot[paidOn.value := group.(refunds := group.refunds + [refund])];
      }
    }
    assert tx.refunds[..|tx.refunds|] == tx.refunds;
  }

  /**
   * The read for a page of bookings answers for each of them what the single read answers, and
   * one booking that is not there fails the whole page.
   */
  method LoadMany(tx: Database, bookings: seq<RowId>) returns (result: Result<map<RowId, BookingFinancials>>)
    ensures result.Ok? <==> forall b | b in bookings :: b < |tx.bookings|
    ensures result.Err? ==> result.error == NotFound
    ensures result.Ok? ==>
              && (forall b :: b in result.value <==> b in bookings)
              && forall b | b in bookings ::
                   result.value[b] == FinancialsOf(tx.View(), RootOf(tx.View(), b))
  {
    var rootByBooking: map<RowId, RowId> := map[];
    var roots: seq<RowId> := [];
    for i := 0 to |bookings|
      invariant forall b | b in bookings[..i] :: b < |tx.bookings|
      invariant forall b :: b in rootByBooking <==> b in bookings[..i]
      invariant forall b | b in rootByBooking ::
                  b < |tx.bookings| && rootByBooking[b] == RootOf(tx.View(), b) && rootByBooking[b] in roots
    {
      var b := bookings[i];
      assert bookings[..i + 1] == bookings[..i] + [b] && b in bookings;
      if b >= |tx.bookings| { return Err(NotFound); }
      var root := RootOf(tx.View(), b);
      rootByBooking := rootByBooking[b := root];
      if root !in roots {
        roots := roots + [root];
      }
    }
    assert bookings[..|bookings|] == bookings;
    var byRoot := ReadRoots(tx, roots);
    var loaded := map b | b in rootByBooking :: byRoot[rootByBooking[b]];
    return Ok(loaded);
  }

  // ── summing ──────────────────────────────────────────────────────────────────────────────

  /** Whether a card row stands for money that came in; what was refunded since came in too. */
  function CardsReceived(payments: seq<Payment>): Cents {
    if payments == [] then 0
    else
      var last := payments[|payments| - 1];
      CardsReceived(payments[..|payments| - 1]) + (if Settled(last.status) then last.amount else 0)
  }

  function CashReceived(rows: seq<ManualPayment>): Cents {
    if rows == [] then 0
    else CashReceived(rows[..|rows| - 1]) + rows[|rows| - 1].amount
  }

  /** Card and cash together. */
  function ReceivedFrom(financials: BookingFinancials): Cents {
    CardsReceived(financials.payments) + CashReceived(financials.manualPayments)
  }

  /** What went back: a refund counts from when it settled. */
  function RefundedFrom(refunds: seq<Refund>): Cents {
    if refunds == [] then 0
    else
      var last := refunds[|refunds| - 1];
      RefundedFrom(refunds[..|refunds| - 1]) +
      (if last.status == RefundStatus.Succeeded then last.amount else 0)
  }

  function ReceivedBy(db: Db, root: RowId): Cents {
    ReceivedFrom(FinancialsOf(db, root))
  }

  /** What one root kept: received, minus what went back. */
  function NetOf(db: Db, root: RowId): Cents {
    ReceivedBy(db, root) - RefundedFrom(FinancialsOf(db, root).refunds)
  }

  /** The distinct financial roots of a list of bookings, in the order they first appear. */
  function DistinctRoots(db: Db, bookings: seq<RowId>): (roots: seq<RowId>)
    requires forall b | b in bookings :: b < |db.bookings|
    ensures forall r :: r in roots <==> exists b | b in bookings :: RootOf(db, b) == r
    ensures forall i, j | 0 <= i < j < |roots| :: roots[i] != roots[j]
  {
    if bookings == [] then []
    else
      var init, last := bookings[..|bookings| - 1], bookings[|bookings| - 1];
      assert bookings == init + [last] && last in bookings;
      assert forall b | b in init :: b in bookings;
      var before := DistinctRoots(db, init);
      if RootOf(db, last) in before then before else before + [RootOf(db, last)]
  }

  function SumNet(db: Db, roots: seq<RowId>): Cents {
    if roots == [] then 0 else SumNet(db, roots[..|roots| - 1]) + NetOf(db, roots[|roots| - 1])
  }

  /** What a list of bookings is worth: once per financial root, not once per booking. */
  function LifetimeValue(db: Db, bookings: seq<RowId>): Cents
    requires forall b | b in bookings :: b < |db.bookings|
  {
    SumNet(db, DistinctRoots(db, bookings))
  }

  // ── conservation ─────────────────────────────────────────────────────────────────────────

  /** One movement of money and the booking its row sits on. */
  datatype Movement = Movement(on: Option<RowId>, cents: Cents)

  function CardMovements(rows: seq<Payment>): (moves: seq<Movement>)
    ensures |moves| == |rows|
  {
    seq(|rows|, i requires 0 <= i < |rows| =>
      Movement(Some(rows[i].booking), if Settled(rows[i].status) then rows[i].amount else 0))
  }

  function CashMovements(rows: seq<ManualPayment>): (moves: seq<Movement>)
    ensures |moves| == |rows|
  {
    seq(|rows|, i requires 0 <= i < |rows| => Movement(Some(rows[i].booking), rows[i].amount))
  }

  function RefundMovements(rows: seq<Refund>, payments: seq<Payment>): (moves: seq<Movement>)
    ensures |moves| == |rows|
  {
    seq(|rows|, i requires 0 <= i < |rows| =>
      Movement(PaidOn(payments, rows[i]), if rows[i].status == RefundStatus.Succeeded then -rows[i].amount else 0))
  }

  /** Every movement the books hold, one per row of the three financial tables. */
  function Movements(db: Db): seq<Movement> {
    CardMovements(db.payments) + CashMovements(db.manualPayments) + RefundMovements(db.refunds, db.payments)
  }

  function SumOn(moves: seq<Movement>, on: set<RowId>): Cents {
    if moves == [] then 0
    else
      var last := moves[|moves| - 1];
      SumOn(moves[..|moves| - 1], on) + (if last.on.Some? && last.on.value in on then last.cents else 0)
  }

  function SumAll(moves: seq<Movement>): Cents {
    if moves == [] then 0 else SumAll(moves[..|moves| - 1]) + moves[|moves| - 1].cents
  }

  lemma {:induction false} SumOnConcat(left: seq<Movement>, right: seq<Movement>, on: set<RowId>)
    ensures SumOn(left + right, on) == SumOn(left, on) + SumOn(right, on)
  {
    if right == [] {
      assert left + right == left;
    } else {
      var init := right[..|right| - 1];
      assert (left + right)[..|left + right| - 1] == left + init;
      SumOnConcat(left, init, on);
    }
  }

  lemma {:induction false} SumOnSplit(moves: seq<Movement>, on: set<RowId>, extra: RowId)
    requires extra !in on
    ensures SumOn(moves, on + {extra}) == SumOn(moves, on) + SumOn(moves, {extra})
  {
    if moves != [] {
      SumOnSplit(moves[..|moves| - 1], on, extra);
    }
  }

  lemma {:induction false} SumOnNothing(moves: seq<Movement>)
    ensures SumOn(moves, {}) == 0
  {
    if moves != [] {
      SumOnNothing(moves[..|moves| - 1]);
    }
  }

  lemma {:induction false} SumOnEverything(moves: seq<Movement>, on: set<RowId>)
    requires forall i | 0 <= i < |moves| :: moves[i].on.Some? && moves[i].on.value in on
    ensures SumOn(moves, on) == SumAll(moves)
  {
    if moves != [] {
      SumOnEverything(moves[..|moves| - 1], on);
    }
  }

  lemma OneMoreMovement(moves: seq<Movement>, move: Movement, on: set<RowId>)
    ensures SumOn(moves + [move], on) ==
            SumOn(moves, on) + (if move.on.Some? && move.on.value in on then move.cents else 0)
    ensures SumAll(moves + [move]) == SumAll(moves) + move.cents
  {
    assert (moves + [move])[..|moves|] == moves;
  }

  lemma CardsAppend(rows: seq<Payment>, row: Payment)
    ensures CardsReceived(rows + [row]) == CardsReceived(rows) + (if Settled(row.status) then row.amount else 0)
    ensures CardMovements(rows + [row]) ==
            CardMovements(rows) + [Movement(Some(row.booking), if Settled(row.status) then row.amount else 0)]
  {
    assert (rows + [row])[..|rows|] == rows;
  }

  lemma CashAppend(rows: seq<ManualPayment>, row: ManualPayment)
    ensures CashReceived(rows + [row]) == CashReceived(rows) + row.amount
    ensures CashMovements(rows + [row]) == CashMovements(rows) + [Movement(Some(row.booking), row.amount)]
  {
    assert (rows + [row])[..|rows|] == rows;
  }

  lemma RefundAppend(rows: seq<Refund>, row: Refund, payments: seq<Payment>)
    ensures RefundedFrom(rows + [row]) ==
            RefundedFrom(rows) + (if row.status == RefundStatus.Succeeded then row.amount else 0)
    ensures RefundMovements(rows + [row], payments) ==
            RefundMovements(rows, payments) +
            [Movement(PaidOn(payments, row), if row.status == RefundStatus.Succeeded then -row.amount else 0)]
  {
    assert (rows + [row])[..|rows|] == rows;
  }

  lemma {:induction false} CardsAreMovements(rows: seq<Payment>, root: RowId)
    ensures CardsReceived(PaymentsOn(rows, root)) == SumOn(CardMovements(rows), {root})
  {
    if rows != [] {
      var init, last := rows[..|rows| - 1], rows[|rows| - 1];
      assert rows == init + [last];
      CardsAreMovements(init, root);
      CardsAppend(init, last);
      CardsAppend(PaymentsOn(init, root), last);
      OneMoreMovement(CardMovements(init), CardMovements(rows)[|init|], {root});
    }
  }

  lemma {:induction false} CashIsMovements(rows: seq<ManualPayment>, root: RowId)
    ensures CashReceived(CashOn(rows, root)) == SumOn(CashMovements(rows), {root})
  {
    if rows != [] {
      var init, last := rows[..|rows| - 1], rows[|rows| - 1];
      assert rows == init + [last];
      CashIsMovements(init, root);
      CashAppend(init, last);
      CashAppend(CashOn(init, root), last);
      OneMoreMovement(CashMovements(init), CashMovements(rows)[|init|], {root});
    }
  }

  lemma {:induction false} RefundsAreMovements(rows: seq<Refund>, payments: seq<Payment>, root: RowId)
    ensures -RefundedFrom(RefundsOn(rows, payments, root)) == SumOn(RefundMovements(rows, payments), {root})
  {
    if rows != [] {
      var init, last := rows[..|rows| - 1], rows[|rows| - 1];
      assert rows == init + [last];
      RefundsAreMovements(init, payments, root);
      RefundAppend(init, last, payments);
      RefundAppend(RefundsOn(init, payments, root), last, payments);
      OneMoreMovement(RefundMovements(init, payments), RefundMovements(rows, payments)[|init|], {root});
    }
  }

  lemma NetIsMovements(db: Db, root: RowId)
    ensures NetOf(db, root) == SumOn(Movements(db), {root})
  {
    CardsAreMovements(db.payments, root);
    CashIsMovements(db.manualPayments, root);
    RefundsAreMovements(db.refunds, db.payments, root);
    SumOnConcat(CardMovements(db.payments), CashMovements(db.manualPayments), {root});
    SumOnConcat(CardMovements(db.payments) + CashMovements(db.manualPayments),
                RefundMovements(db.refunds, db.payments), {root});
  }

  function SetOf(roots: seq<RowId>): set<RowId> {
    set r | r in roots
  }

  /** The roots a list of bookings leads to. */
  function RootSet(db: Db, bookings: seq<RowId>): set<RowId>
    requires forall b | b in bookings :: b < |db.bookings|
  {
    set b | b in bookings :: RootOf(db, b)
  }

  lemma {:induction false} SumNetIsMovements(db: Db, roots: seq<RowId>)
    requires forall i, j | 0 <= i < j < |roots| :: roots[i] != roots[j]
    ensures SumNet(db, roots) == SumOn(Movements(db), SetOf(roots))
  {
    if roots == [] {
      assert SetOf(roots) == {};
      SumOnNothing(Movements(db));
    } else {
      var init, last := roots[..|roots| - 1], roots[|roots| - 1];
      SumNetIsMovements(db, init);
      NetIsMovements(db, last);
      assert roots == init + [last];
      assert SetOf(roots) == SetOf(init) + {last};
      SumOnSplit(Movements(db), SetOf(init), last);
    }
  }

  /**
   * Money is counted once: a list of bookings is worth exactly the movements whose rows sit on
   * one of their roots, however many bookings of a chain the list names.
   */
  lemma LifetimeCountsEachMovementOnce(db: Db, bookings: seq<RowId>)
    requires forall b | b in bookings :: b < |db.bookings|
    ensures LifetimeValue(db, bookings) ==
            SumOn(Movements(db), RootSet(db, bookings))
  {
    var roots := DistinctRoots(db, bookings);
    SumNetIsMovements(db, roots);
    assert SetOf(roots) == RootSet(db, bookings);
  }

  /** Naming a booking twice, or another booking of its chain, adds nothing. */
  lemma ChainAddsNothing(db: Db, bookings: seq<RowId>, again: RowId)
    requires forall b | b in bookings :: b < |db.bookings|
    requires again < |db.bookings| && exists b | b in bookings :: RootOf(db, b) == RootOf(db, again)
    ensures LifetimeValue(db, bookings + [again]) == LifetimeValue(db, bookings)
  {
    assert (bookings + [again])[..|bookings|] == bookings;
  }

  // ── chains ───────────────────────────────────────────────────────────────────────────────

  /**
   * Reschedule chains: roots are flat, a replacement shares the root of what it replaced, what was
   * replaced is cancelled and replaced once, one booking of a chain at most occupies an employee,
   * and every financial row sits on a root.
   */
  ghost predicate ChainInv(db: Db) {
    && (forall b | 0 <= b < |db.bookings| :: ChainLinkOk(db, b))
    && (forall b, c | 0 <= b < c < |db.bookings| ::
          db.bookings[b].rescheduledFrom.Some? ==> db.bookings[b].rescheduledFrom != db.bookings[c].rescheduledFrom)
    && (forall b, c | 0 <= b < c < |db.bookings| && RootOf(db, b) == RootOf(db, c) ::
          !(IsBlocking(db.bookings[b].status) && IsBlocking(db.bookings[c].status)))
    && (forall p | 0 <= p < |db.payments| :: IsRoot(db, db.payments[p].booking))
    && (forall m | 0 <= m < |db.manualPayments| :: IsRoot(db, db.manualPayments[m].booking))
  }

  ghost predicate IsRoot(db: Db, b: RowId) {
    b < |db.bookings| && db.bookings[b].financialRoot == None
  }

  ghost predicate ChainLinkOk(db: Db, b: RowId)
    requires b < |db.bookings|
  {
    var row := db.bookings[b];
    && (row.rescheduledFrom.Some? <==> row.financialRoot.Some?)
    && (IsOpen(row.status) ==> row.financialRoot == None)
    && (row.financialRoot.Some? ==> row.financialRoot.value < b && IsRoot(db, row.financialRoot.value))
    && (row.rescheduledFrom.Some? ==>
          && row.rescheduledFrom.value < b
          && db.bookings[row.rescheduledFrom.value].status == CanceledByBusiness
          && row.financialRoot == Some(RootOf(db, row.rescheduledFrom.value)))
  }

  /** Every booking of a chain reports the same money. */
  lemma ChainReportsOneAccount(db: Db, b: RowId, c: RowId)
    requires ChainInv(db) && b < |db.bookings| && c < |db.bookings|
    requires db.bookings[c].rescheduledFrom == Some(b)
    ensures RootOf(db, c) == RootOf(db, b)
    ensures FinancialsOf(db, RootOf(db, c)) == FinancialsOf(db, RootOf(db, b))
    ensures IsRoot(db, RootOf(db, c))
  {
    assert ChainLinkOk(db, c);
  }

  /**
   * Nothing is lost and nothing counted twice: summed once per root over all bookings, the books
   * come to all received card rows plus all cash rows minus all settled refunds.
   */
  lemma MoneyIsConserved(db: Db)
    requires ChainInv(db) && RefundRowsOk(db.refunds, |db.payments|)
    ensures LifetimeValue(db, seq(|db.bookings|, i => i)) ==
            CardsReceived(db.payments) + CashReceived(db.manualPayments) - RefundedFrom(db.refunds)
  {
    var all: seq<RowId> := seq(|db.bookings|, i => i);
    LifetimeCountsEachMovementOnce(db, all);
    var roots := RootSet(db, all);
    forall b: nat | IsRoot(db, b) ensures b in roots {
      assert all[b] == b && RootOf(db, b) == b;
    }
    forall i | 0 <= i < |Movements(db)|
      ensures Movements(db)[i].on.Some? && Movements(db)[i].on.value in roots
    {
      MovementsSitOnRoots(db, i);
    }
    SumOnEverything(Movements(db), roots);
    SumAllMovements(db);
  }

  lemma MovementsSitOnRoots(db: Db, i: nat)
    requires ChainInv(db) && RefundRowsOk(db.refunds, |db.payments|) && i < |Movements(db)|
    ensures Movements(db)[i].on.Some? && IsRoot(db, Movements(db)[i].on.value)
  {
    var cards, cash := |db.payments|, |db.payments| + |db.manualPayments|;
    if i < cards {
      assert IsRoot(db, db.payments[i].booking);
    } else if i < cash {
      assert IsRoot(db, db.manualPayments[i - cards].booking);
    } else {
      assert IsRoot(db, db.payments[db.refunds[i - cash].payment].booking);
    }
  }

  lemma {:induction false} SumAllConcat(left: seq<Movement>, right: seq<Movement>)
    ensures SumAll(left + right) == SumAll(left) + SumAll(right)
  {
    if right == [] {
      assert left + right == left;
    } else {
      var init := right[..|right| - 1];
      assert (left + right)[..|left + right| - 1] == left + init;
      SumAllConcat(left, init);
    }
  }

  lemma SumAllMovements(db: Db)
    ensures SumAll(Movements(db)) ==
            CardsReceived(db.payments) + CashReceived(db.manualPayments) - RefundedFrom(db.refunds)
  {
    SumAllConcat(CardMovements(db.payments), CashMovements(db.manualPayments));
    SumAllConcat(CardMovements(db.payments) + CashMovements(db.manualPayments),
                 RefundMovements(db.refunds, db.payments));
    SumAllCards(db.payments);
    SumAllCash(db.manualPayments);
    SumAllRefunds(db.refunds, db.payments);
  }

  lemma {:induction false} SumAllCards(rows: seq<Payment>)
    ensures SumAll(CardMovements(rows)) == CardsReceived(rows)
  {
    if rows != [] {
      var init, last := rows[..|rows| - 1], rows[|rows| - 1];
      assert rows == init + [last];
      SumAllCards(init);
      CardsAppend(init, last);
      OneMoreMovement(CardMovements(init), CardMovements(rows)[|init|], {});
    }
  }

  lemma {:induction false} SumAllCash(rows: seq<ManualPayment>)
    ensures SumAll(CashMovements(rows)) == CashReceived(rows)
  {
    if rows != [] {
      var init, last := rows[..|rows| - 1], rows[|rows| - 1];
      assert rows == init + [last];
      SumAllCash(init);
      CashAppend(init, last);
      OneMoreMovement(CashMovements(init), CashMovements(rows)[|init|], {});
    }
  }

  lemma {:induction false} SumAllRefunds(rows: seq<Refund>, payments: seq<Payment>)
    ensures SumAll(RefundMovements(rows, payments)) == -RefundedFrom(rows)
  {
    if rows != [] {
      var init, last := rows[..|rows| - 1], rows[|rows| - 1];
      assert rows == init + [last];
      SumAllRefunds(init, payments);
      RefundAppend(init, last, payments);
      OneMoreMovement(RefundMovements(init, payments), RefundMovements(rows, payments)[|init|], {});
    }
  }
}
