/** Settlements of one payment that overlap, each overwriting the total it had added up. */
module SettlementRaces {
  import opened Outcomes
  import opened BookingStatuses
  import opened Records
  import opened Refunds

  /** An open settlement: the outcome, and the refund rows it added up, its own among them. */
  datatype Settlement = Settlement(status: RefundStatus, added: seq<Refund>)

  /** For each payment `written` has the refund rows its total was last added up from. */
  datatype World = World(db: Db, open: map<RowId, Settlement>, written: seq<seq<Refund>>)

  datatype Step =
      /** A settlement locks its refund, and adds up what is committed and its own outcome. */
    | AddUp(refund: RowId, status: RefundStatus)
      /** It commits: its refund's outcome, and the total it had added up. */
    | Overwrite(refund: RowId)
      /** A refund is reserved meanwhile. */
    | SetAside(booking: RowId, amount: RefundAmount, lenient: bool, key: IdempotencyKey)

  function WithStatus(refunds: seq<Refund>, r: RowId, status: RefundStatus): seq<Refund>
    requires r < |refunds|
  {
    refunds[r := refunds[r].(status := status)]
  }

  function AddUpStep(w: World, r: RowId, status: RefundStatus): World {
    if r >= |w.db.refunds| || w.db.refunds[r].status != RefundStatus.Pending || r in w.open then w
    else w.(open := w.open[r := Settlement(status, WithStatus(w.db.refunds, r, status))])
  }

  function OverwriteStep(w: World, r: RowId): World {
    if r !in w.open || r >= |w.db.refunds| then w
    else
      var p := w.db.refunds[r].payment;
      var total := SumRefunds(w.open[r].added, p, RefundStatus.Succeeded);
      if p >= |w.db.payments| || p >= |w.written| then w
      else
        World(
          w.db.(refunds := WithStatus(w.db.refunds, r, w.open[r].status),
                payments := w.db.payments[p := Recomputed(w.db.payments[p], total)]),
          w.open - {r},
          w.written[p := w.open[r].added])
  }

  function Take(w: World, step: Step): World {
    match step
    case AddUp(r, status) => AddUpStep(w, r, status)
    case Overwrite(r) => OverwriteStep(w, r)
    case SetAside(b, amount, lenient, key) => w.(db := After(w.db, Reserve(w.db, b, amount, lenient, key)))
  }

  /** Nothing is being settled, and every total was added up from what is there. */
  function Begin(db: Db): World {
    World(db, map[], seq(|db.payments|, p => db.refunds))
  }

  function Run(db: Db, steps: seq<Step>): World {
    if steps == [] then Begin(db) else Take(Run(db, steps[..|steps| - 1]), steps[|steps| - 1])
  }

  // ── what a total was added up from ───────────────────────────────────────────────────────

  /** An earlier state of the same rows: nothing succeeded then that did not stay so. */
  predicate Precedes(was: seq<Refund>, now: seq<Refund>) {
    && |was| <= |now|
    && forall q | 0 <= q < |was| ::
         && was[q].payment == now[q].payment && was[q].amount == now[q].amount
         && (was[q].status == RefundStatus.Succeeded ==> now[q].status == RefundStatus.Succeeded)
  }

  ghost predicate Positive(refunds: seq<Refund>, payments: nat) {
    forall q | 0 <= q < |refunds| :: refunds[q].amount > 0 && refunds[q].payment < payments
  }

  ghost predicate OpenOk(w: World, r: RowId)
    requires r in w.open
  {
    && r < |w.db.refunds| && w.db.refunds[r].status == RefundStatus.Pending
    && Precedes(w.open[r].added, WithStatus(w.db.refunds, r, w.open[r].status))
    && r < |w.open[r].added| && w.open[r].added[r].status == w.open[r].status
  }

  ghost predicate TotalOk(w: World, p: RowId)
    requires p < |w.db.payments| == |w.written|
  {
    && Precedes(w.written[p], w.db.refunds)
    && w.db.payments[p].refunded == SumRefunds(w.written[p], p, RefundStatus.Succeeded)
  }

  ghost predicate WorldOk(w: World) {
    && |w.written| == |w.db.payments| && Positive(w.db.refunds, |w.db.payments|)
    && (forall r | r in w.open :: OpenOk(w, r))
    && (forall p | 0 <= p < |w.db.payments| :: TotalOk(w, p))
  }

  lemma AddUpKeeps(w: World, r: RowId, status: RefundStatus)
    requires WorldOk(w)
    ensures WorldOk(Take(w, AddUp(r, status)))
  {
    var next := Take(w, AddUp(r, status));
    if next != w {
      forall q | q in next.open ensures OpenOk(next, q) {
        assert q != r ==> OpenOk(w, q);
      }
      forall p | 0 <= p < |next.db.payments| ensures TotalOk(next, p) {
        assert TotalOk(w, p);
      }
    }
  }

  lemma OverwriteKeeps(w: World, r: RowId)
    requires WorldOk(w)
    ensures WorldOk(Take(w, Overwrite(r)))
  {
    var next := Take(w, Overwrite(r));
    if next != w {
      assert OpenOk(w, r);
      forall q | q in next.open ensures OpenOk(next, q) {
        assert OpenOk(w, q) && q != r;
      }
      forall p | 0 <= p < |next.db.payments| ensures TotalOk(next, p) {
        assert TotalOk(w, p);
      }
    }
  }

  /** A reservation adds a pending row at the end, or nothing. */
  lemma ReserveAppends(db: Db, b: RowId, amount: RefundAmount, lenient: bool, key: IdempotencyKey)
    ensures
      var next := After(db, Reserve(db, b, amount, lenient, key));
      && next.payments == db.payments
      && (next.refunds != db.refunds ==>
            && |next.refunds| == |db.refunds| + 1 && next.refunds[..|db.refunds|] == db.refunds
            && next.refunds[|db.refunds|].amount > 0 && next.refunds[|db.refunds|].payment < |db.payments|)
  {
  }

  lemma SetAsideKeeps(w: World, step: Step)
    requires WorldOk(w) && step.SetAside?
    ensures WorldOk(Take(w, step))
  {
    var next := Take(w, step);
    ReserveAppends(w.db, step.booking, step.amount, step.lenient, step.key);
    assert forall q | 0 <= q < |w.db.refunds| :: next.db.refunds[q] == w.db.refunds[q];
    forall r | r in next.open ensures OpenOk(next, r) {
      assert OpenOk(w, r);
    }
    forall p | 0 <= p < |next.db.payments| ensures TotalOk(next, p) {
      assert TotalOk(w, p);
    }
  }

  lemma BeginsOk(db: Db)
    requires LedgerInv(db)
    ensures WorldOk(Begin(db))
  {
    forall p | 0 <= p < |db.payments| ensures TotalOk(Begin(db), p) {
      assert BooksBalance(db, p);
    }
  }

  lemma {:induction false} RunsStayOk(db: Db, steps: seq<Step>)
    requires LedgerInv(db)
    ensures WorldOk(Run(db, steps))
  {
    if steps == [] {
      BeginsOk(db);
    } else {
      var w, last := Run(db, steps[..|steps| - 1]), steps[|steps| - 1];
      RunsStayOk(db, steps[..|steps| - 1]);
      match last
      case AddUp(r, status) => AddUpKeeps(w, r, status);
      case Overwrite(r) => OverwriteKeeps(w, r);
      case SetAside(_, _, _, _) => SetAsideKeeps(w, last);
    }
  }

  // ── when the books balance ───────────────────────────────────────────────────────────────

  /** Every refund of the payment that succeeded is among those the rows count. */
  predicate CountsAll(added: seq<Refund>, refunds: seq<Refund>, p: RowId) {
    forall q | 0 <= q < |refunds| && refunds[q].payment == p && refunds[q].status == RefundStatus.Succeeded ::
      q < |added| && added[q].status == RefundStatus.Succeeded
  }

  lemma CountsAllButLast(added: seq<Refund>, before: seq<Refund>, refunds: seq<Refund>, p: RowId)
    requires |added| <= |refunds| && refunds != []
    requires before == if |added| == |refunds| then added[..|added| - 1] else added
    ensures
      var last := |refunds| - 1;
      CountsAll(added, refunds, p) <==>
      && CountsAll(before, refunds[..last], p)
      && (refunds[last].payment == p && refunds[last].status == RefundStatus.Succeeded ==>
            last < |added| && added[last].status == RefundStatus.Succeeded)
  {
    var last := |refunds| - 1;
    if CountsAll(added, refunds, p) {
      assert forall q | 0 <= q < last :: refunds[..last][q] == refunds[q];
    } else {
      var q :| 0 <= q < |refunds| && refunds[q].payment == p && refunds[q].status == RefundStatus.Succeeded
               && !(q < |added| && added[q].status == RefundStatus.Succeeded);
      assert q < last ==> refunds[..last][q] == refunds[q];
    }
  }

  lemma {:induction false} SumsAgreeIff(added: seq<Refund>, refunds: seq<Refund>, p: RowId)
    requires Precedes(added, refunds) && forall q | 0 <= q < |refunds| :: refunds[q].amount > 0
    ensures SumRefunds(added, p, RefundStatus.Succeeded) <= SumRefunds(refunds, p, RefundStatus.Succeeded)
    ensures SumRefunds(added, p, RefundStatus.Succeeded) == SumRefunds(refunds, p, RefundStatus.Succeeded)
            <==> CountsAll(added, refunds, p)
  {
    if refunds != [] {
      var last := |refunds| - 1;
      var before := if |added| == |refunds| then added[..last] else added;
      SumsAgreeIff(before, refunds[..last], p);
      CountsAllButLast(added, before, refunds, p);
    }
  }

  /**
   * After any number of settlements that overlap in any way, a payment's refunded total is what
   * went back if and only if the total written last counted every refund that has succeeded.
   * It is never too high.
   */
  lemma TotalIsRightIff(db: Db, steps: seq<Step>, p: RowId)
    requires LedgerInv(db) && p < |Run(db, steps).db.payments|
    ensures p < |Run(db, steps).written|
    ensures
      var w := Run(db, steps);
      var wentBack := SumRefunds(w.db.refunds, p, RefundStatus.Succeeded);
      && w.db.payments[p].refunded <= wentBack
      && (w.db.payments[p].refunded == wentBack <==> CountsAll(w.written[p], w.db.refunds, p))
  {
    var w := Run(db, steps);
    RunsStayOk(db, steps);
    assert TotalOk(w, p);
    SumsAgreeIff(w.written[p], w.db.refunds, p);
  }

  ghost predicate CountedAll(w: World) {
    forall p | 0 <= p < |w.db.payments| :: p < |w.written| && CountsAll(w.written[p], w.db.refunds, p)
  }

  /** At every point of the run, the total written last counted every success. */
  ghost predicate AlwaysCounted(db: Db, steps: seq<Step>) {
    CountedAll(Run(db, steps)) && (steps != [] ==> AlwaysCounted(db, steps[..|steps| - 1]))
  }

  ghost predicate AlwaysBalanced(db: Db, steps: seq<Step>) {
    LedgerInv(Run(db, steps).db) && (steps != [] ==> AlwaysBalanced(db, steps[..|steps| - 1]))
  }

  /** A settlement whose total counts everything leaves what one on its own would. */
  lemma OverwriteBalances(w: World, r: RowId)
    requires WorldOk(w) && LedgerInv(w.db) && CountedAll(Take(w, Overwrite(r)))
    ensures LedgerInv(Take(w, Overwrite(r)).db)
  {
    var next := Take(w, Overwrite(r));
    if next != w {
      assert OpenOk(w, r);
      var p, status := w.db.refunds[r].payment, w.open[r].status;
      OverwriteKeeps(w, r);
      assert TotalOk(next, p);
      SumsAgreeIff(next.written[p], next.db.refunds, p);
      SettleKeepsLedger(w.db, r, status, None);
      var settled := After(w.db, Settle(w.db, r, status, None));
      assert settled.refunds == next.db.refunds && settled.payments == next.db.payments;
      forall q | 0 <= q < |next.db.payments| ensures BooksBalance(next.db, q) {
        assert BooksBalance(settled, q);
      }
    }
  }

  lemma BalancedIsCounted(w: World)
    requires WorldOk(w) && LedgerInv(w.db)
    ensures CountedAll(w)
  {
    forall p | 0 <= p < |w.db.payments| ensures CountsAll(w.written[p], w.db.refunds, p) {
      assert TotalOk(w, p) && BooksBalance(w.db, p);
      SumsAgreeIff(w.written[p], w.db.refunds, p);
    }
  }

  /**
   * And over a whole run, reservations between them included: the ledger balances at every step if
   * and only if at every step the total written last counted every refund that had succeeded.
   */
  lemma {:induction false} RacesKeepLedgerIff(db: Db, steps: seq<Step>)
    requires LedgerInv(db)
    ensures AlwaysBalanced(db, steps) <==> AlwaysCounted(db, steps)
  {
    RunsStayOk(db, steps);
    if steps != [] {
      var init, last := steps[..|steps| - 1], steps[|steps| - 1];
      RacesKeepLedgerIff(db, init);
      if AlwaysCounted(db, steps) {
        var w := Run(db, init);
        RunsStayOk(db, init);
        match last
        case AddUp(r, status) =>
        case Overwrite(r) => OverwriteBalances(w, r);
        case SetAside(b, amount, lenient, key) => ReserveKeepsLedger(w.db, b, amount, lenient, key);
      }
    }
    if LedgerInv(Run(db, steps).db) {
      BalancedIsCounted(Run(db, steps));
    }
  }

  // ── the charge that drifts ───────────────────────────────────────────────────────────────

  /** A charge of one hundred with two refunds on their way. */
  const CHARGED: Db := EMPTY.(
    bookings := [Booking(Confirmed, None, 0, 1, 100, Some(0), None, None)],
    payments := [Payment(0, 0, 100, 0, PaymentStatus.Succeeded, Some(0))],
    refunds := [Refund(0, 0, 60, RefundStatus.Pending, 1, None), Refund(0, 0, 40, RefundStatus.Pending, 2, None)])

  /** Both are added up before either commits, and then a third is asked for. */
  const OVERLAP: seq<Step> :=
    [] + [AddUp(0, RefundStatus.Succeeded)] + [AddUp(1, RefundStatus.Succeeded)] + [Overwrite(0)] + [Overwrite(1)]

  lemma Then(db: Db, steps: seq<Step>, step: Step)
    ensures Run(db, steps + [step]) == Take(Run(db, steps), step)
  {
    assert (steps + [step])[..|steps|] == steps;
  }

  lemma SumOfTwo(a: Refund, b: Refund, status: RefundStatus)
    ensures SumRefunds([a, b], 0, status) == Contribution(a, 0, status) + Contribution(b, 0, status)
  {
    assert [a, b] == ([] + [a]) + [b];
    SumAppend([], a, 0, status);
    SumAppend([] + [a], b, 0, status);
  }

  lemma ChargedBalances()
    ensures LedgerInv(CHARGED)
  {
    SumOfTwo(CHARGED.refunds[0], CHARGED.refunds[1], RefundStatus.Succeeded);
    SumOfTwo(CHARGED.refunds[0], CHARGED.refunds[1], RefundStatus.Pending);
    assert BooksBalance(CHARGED, 0);
  }

  /**
   * Two refunds of one charge succeed, the total written last forgets the other one, and the
   * balance it leaves lets a third refund exceed the charge.
   */
  lemma OverlappingSettlementsDrift()
    ensures LedgerInv(CHARGED)
    ensures
      var w := Run(CHARGED, OVERLAP);
      && |w.db.payments| == 1 && w.db.payments[0].amount == 100 && w.db.payments[0].refunded == 40
      && SumRefunds(w.db.refunds, 0, RefundStatus.Succeeded) == 100
      && Reserve(w.db, 0, Additional(60), false, 3).Commit?
    ensures
      var later := Run(CHARGED, OVERLAP + [SetAside(0, Additional(60), false, 3)]).db.refunds;
      SumRefunds(later, 0, RefundStatus.Succeeded) == 100 && SumRefunds(later, 0, RefundStatus.Pending) == 60
  {
    var a, b := CHARGED.refunds[0], CHARGED.refunds[1];
    var paid := a.(status := RefundStatus.Succeeded);
    var sent := b.(status := RefundStatus.Succeeded);
    ChargedBalances();
    var one: seq<Step> := [] + [AddUp(0, RefundStatus.Succeeded)];
    Then(CHARGED, [], AddUp(0, RefundStatus.Succeeded));
    Then(CHARGED, one, AddUp(1, RefundStatus.Succeeded));
    var two := one + [AddUp(1, RefundStatus.Succeeded)];
    assert Run(CHARGED, two).open[0].added == [paid, b] && Run(CHARGED, two).open[1].added == [a, sent];
    Then(CHARGED, two, Overwrite(0));
    SumOfTwo(paid, b, RefundStatus.Succeeded);
    assert Run(CHARGED, two + [Overwrite(0)]).db.refunds == [paid, b];
    Then(CHARGED, two + [Overwrite(0)], Overwrite(1));
    SumOfTwo(a, sent, RefundStatus.Succeeded);
    var w := Run(CHARGED, OVERLAP);
    assert w.db.refunds == [paid, sent];
    SumOfTwo(paid, sent, RefundStatus.Succeeded);
    SumOfTwo(paid, sent, RefundStatus.Pending);
    assert w.db.payments[..0] == [];
    assert FindRefundable(w.db.payments, 0) == Some(0);
    Then(CHARGED, OVERLAP, SetAside(0, Additional(60), false, 3));
    var third := Refund(0, 0, 60, RefundStatus.Pending, 3, None);
    assert Reserve(w.db, 0, Additional(60), false, 3).state.refunds == w.db.refunds + [third];
    SumAppend(w.db.refunds, third, 0, RefundStatus.Succeeded);
    SumAppend(w.db.refunds, third, 0, RefundStatus.Pending);
  }
}
