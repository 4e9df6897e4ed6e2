/** The booking state machine: its table, and what every run through it keeps. */
module BookingStatuses {
  import opened Outcomes

  datatype BookingStatus =
    | PendingPayment
    | Expiring
    | Confirmed
    | Expired
    | PaymentFailed
    | CanceledByCustomer
    | CanceledByBusiness
    | Completed
    | NoShow

  const BLOCKING: set<BookingStatus> := {PendingPayment, Expiring, Confirmed}

  const TERMINAL: set<BookingStatus> :=
    {Expired, PaymentFailed, CanceledByCustomer, CanceledByBusiness, Completed, NoShow}

  /** The statuses a history may start from. */
  const CREATABLE: set<BookingStatus> := {PendingPayment, Confirmed}

  /** The permitted transitions. */
  function Transitions(from: BookingStatus): set<BookingStatus> {
    match from
    case PendingPayment => {Expiring, Confirmed, PaymentFailed}
    case Expiring => {Expired, Confirmed}
    case Confirmed => {CanceledByCustomer, CanceledByBusiness, Completed, NoShow}
    case _ => {}
  }

  predicate IsBlocking(status: BookingStatus) {
    status in BLOCKING
  }

  predicate IsTerminal(status: BookingStatus) {
    status in TERMINAL
  }

  /** Waiting for money: the statuses a confirmation may leave. */
  predicate IsOpen(status: BookingStatus) {
    status == PendingPayment || status == Expiring
  }

  predicate CanTransition(from: Option<BookingStatus>, to: BookingStatus) {
    match from
    case None => to in CREATABLE
    case Some(status) => to in Transitions(status)
  }

  /** One row of the status history. */
  datatype StatusChange = StatusChange(booking: nat, from: Option<BookingStatus>, to: BookingStatus)

  /**
   * A history is a run of the machine: it starts by creating the booking, every row starts
   * where the previous one ended, and every edge is in the table.
   */
  predicate ValidHistory(rows: seq<StatusChange>) {
    && |rows| > 0
    && rows[0].from == None
    && (forall i | 0 < i < |rows| :: rows[i].from == Some(rows[i - 1].to))
    && (forall i | 0 <= i < |rows| :: CanTransition(rows[i].from, rows[i].to))
  }

  /** How many more moves a status allows at most. */
  function Rank(status: BookingStatus): nat {
    match status
    case PendingPayment => 3
    case Expiring => 2
    case Confirmed => 1
    case _ => 0
  }

  /** Every edge drops the rank, and the terminal statuses are exactly those without an exit. */
  lemma TransitionsDescend(from: BookingStatus, to: BookingStatus)
    ensures CanTransition(Some(from), to) ==> Rank(to) < Rank(from)
    ensures IsTerminal(from) <==> Transitions(from) == {}
    ensures IsTerminal(from) <==> !IsBlocking(from)
  {
    assert from == PendingPayment ==> Expiring in Transitions(from);
    assert from == Expiring ==> Expired in Transitions(from);
    assert from == Confirmed ==> Completed in Transitions(from);
  }

  /** A booking moves at most three times after it was created. */
  lemma {:induction false} HistoryIsShort(rows: seq<StatusChange>)
    requires ValidHistory(rows)
    ensures |rows| + Rank(rows[|rows| - 1].to) <= 4
  {
    if |rows| == 1 {
      assert CanTransition(rows[0].from, rows[0].to);
    } else {
      var init := rows[..|rows| - 1];
      assert ValidHistory(init) by {
        forall i | 0 < i < |init| ensures init[i].from == Some(init[i - 1].to) {
          assert rows[i].from == Some(rows[i - 1].to);
        }
      }
      HistoryIsShort(init);
      var last := rows[|rows| - 1];
      assert CanTransition(last.from, last.to);
      TransitionsDescend(init[|init| - 1].to, last.to);
    }
  }

  /** Along a history the rank strictly drops. */
  lemma {:induction false} HistoryDescends(rows: seq<StatusChange>, i: nat, j: nat)
    requires ValidHistory(rows) && i < j < |rows|
    ensures Rank(rows[j].to) < Rank(rows[i].to)
  {
    assert CanTransition(rows[j].from, rows[j].to) && rows[j].from == Some(rows[j - 1].to);
    TransitionsDescend(rows[j - 1].to, rows[j].to);
    if i < j - 1 {
      HistoryDescends(rows, i, j - 1);
    }
  }

  /**
   * No run returns to an earlier status, and none comes back to occupying the employee once it
   * stopped: this is what lets status writers go without the calendar lock.
   */
  lemma HistoryNeverReturns(rows: seq<StatusChange>, i: nat, j: nat)
    requires ValidHistory(rows) && i < j < |rows|
    ensures rows[i].to != rows[j].to
    ensures IsBlocking(rows[i].to) && !IsTerminal(rows[i].to)
  {
    HistoryDescends(rows, i, j);
    TransitionsDescend(rows[i].to, rows[j].to);
  }
}
