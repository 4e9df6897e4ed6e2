/**
 * Ledger sources read a page at a time, and merged lazily while holding one row of each.
 */
module LedgerMerge {
  import opened Outcomes
  import opened Keyset
  import opened Csv

  type Instant = int

  /** In the order the names sort in. */
  datatype Kind = Manual | Refund | Stripe

  /** Ids are named by their place in the order they sort in. */
  datatype Entry = Entry(at: Instant, id: int, kind: Kind, cells: seq<Cell>)

  function KindOrder(kind: Kind): int {
    match kind
    case Manual => 0
    case Refund => 1
    case Stripe => 2
  }

  /** Time, then id, then kind. */
  predicate NotLater(a: Entry, b: Entry) {
    a.at < b.at || (a.at == b.at && (a.id < b.id || (a.id == b.id && KindOrder(a.kind) <= KindOrder(b.kind))))
  }

  function KeyOf(e: Entry): Row {
    Row(e.at, e.id)
  }

  /** A source in the order its query asks for. */
  predicate Ordered(entries: seq<Entry>) {
    forall i, j | 0 <= i < j < |entries| :: KeysetWhere(Asc, KeyOf(entries[i]), KeyOf(entries[j]))
  }

  predicate IsMerged(entries: seq<Entry>) {
    forall i, j | 0 <= i < j < |entries| :: NotLater(entries[i], entries[j])
  }

  // ── one pager ────────────────────────────────────────────────────────────────────────────

  /** The rows strictly after a cursor. */
  function From(table: seq<Entry>, cursor: Option<Row>): (found: seq<Entry>)
    ensures cursor.None? ==> found == table
  {
    if table == [] then []
    else
      var init, last := table[..|table| - 1], table[|table| - 1];
      assert table == init + [last];
      if IsAfter(Asc, cursor, KeyOf(last)) then From(init, cursor) + [last] else From(init, cursor)
  }

  /** In order, what comes after a row is the rest of the table. */
  lemma {:induction false} FromIsSuffix(table: seq<Entry>, i: nat)
    requires Ordered(table) && i < |table|
    ensures From(table, Some(KeyOf(table[i]))) == table[i + 1..]
  {
    var cursor := Some(KeyOf(table[i]));
    var last := |table| - 1;
    var init := table[..last];
    if i < last {
      FromIsSuffix(init, i);
      assert KeysetWhere(Asc, KeyOf(table[i]), KeyOf(table[last]));
      assert table[i + 1..] == init[i + 1..] + [table[last]];
    } else {
      NothingAfterLast(init, table[last]);
    }
  }

  lemma {:induction false} NothingAfterLast(entries: seq<Entry>, last: Entry)
    requires forall i | 0 <= i < |entries| :: KeysetWhere(Asc, KeyOf(entries[i]), KeyOf(last))
    ensures From(entries, Some(KeyOf(last))) == []
  {
    if entries != [] {
      NothingAfterLast(entries[..|entries| - 1], last);
    }
  }

  /** The cursor after this many rows of a table. */
  function CursorAt(table: seq<Entry>, position: nat): Option<Row>
    requires position <= |table|
  {
    if position == 0 then None else Some(KeyOf(table[position - 1]))
  }

  lemma FromCursor(table: seq<Entry>, position: nat)
    requires Ordered(table) && position <= |table|
    ensures From(table, CursorAt(table, position)) == table[position..]
  {
    if position > 0 {
      FromIsSuffix(table, position - 1);
    }
  }

  /** A generator over one source: it asks for the next page when the last one is used up. */
  class Pager {
    const table: seq<Entry>
    const pageSize: nat
    var page: seq<Entry>
    var cursor: Option<Row>
    var ended: bool

    /** How many rows of the table were read. */
    ghost var position: nat

    constructor (table: seq<Entry>, pageSize: nat)
      requires Ordered(table) && pageSize > 0
      ensures Valid() && Remaining() == table
    {
      this.table, this.pageSize := table, pageSize;
      page, cursor, ended, position := [], None, false, 0;
    }

    ghost predicate Valid()
      reads this
    {
      && Ordered(table) && pageSize > 0 && position <= |table|
      && (if ended then position == |table| else cursor == CursorAt(table, position))
    }

    /** What has not been yielded yet. */
    ghost function Remaining(): seq<Entry>
      requires Valid()
      reads this
    {
      page + table[position..]
    }

    /** Fetch pages until there is a row to yield or a page came back short. */
    method Next() returns (entry: Option<Entry>)
      requires Valid()
      modifies this
      ensures Valid()
      ensures entry == HeadOf(old(Remaining()))
      ensures Remaining() == TailOf(old(Remaining()))
    {
      if page == [] && !ended {
        Fetch();
      }
      if page == [] { return None; }
      entry := Some(page[0]);
      page := page[1..];
    }

    /** One query: a short page is the last one, a full one moves the cursor to its last row. */
    method Fetch()
      requires Valid() && page == [] && !ended
      modifies this
      ensures Valid() && Remaining() == old(Remaining())
      ensures page == [] ==> ended
    {
      FromCursor(table, position);
      page := Limited(From(table, cursor), pageSize);
      position := position + |page|;
      if |page| < pageSize {
        ended := true;
      } else {
        cursor := Some(KeyOf(page[|page| - 1]));
      }
    }
  }

  function Limited(rows: seq<Entry>, n: nat): seq<Entry> {
    if |rows| <= n then rows else rows[..n]
  }

  function HeadOf(stream: seq<Entry>): Option<Entry> {
    if stream == [] then None else Some(stream[0])
  }

  function TailOf(stream: seq<Entry>): seq<Entry> {
    if stream == [] then [] else stream[1..]
  }

  // ── merging ──────────────────────────────────────────────────────────────────────────────

  /** Which source has the earliest head; the first of them wins a tie. */
  function EarliestOf(heads: seq<Option<Entry>>): (earliest: Option<nat>)
    ensures earliest.None? ==> forall h | 0 <= h < |heads| :: heads[h] == None
    ensures earliest.Some? ==>
              && earliest.value < |heads| && heads[earliest.value].Some?
              && forall h | 0 <= h < |heads| && heads[h].Some? ::
                   NotLater(heads[earliest.value].value, heads[h].value)
  {
    if heads == [] then None
    else
      var last := |heads| - 1;
      Sooner(heads, EarliestOf(heads[..last]), last)
  }

  /** The earliest so far, or this source if its head is earlier still. */
  function Sooner(heads: seq<Option<Entry>>, earliest: Option<nat>, h: nat): Option<nat>
    requires h < |heads|
    requires earliest.Some? ==> earliest.value < |heads| && heads[earliest.value].Some?
  {
    if heads[h].Some? && (earliest.None? || !NotLater(heads[earliest.value].value, heads[h].value))
    then Some(h)
    else earliest
  }

  method Earliest(heads: array<Option<Entry>>) returns (earliest: Option<nat>)
    ensures earliest == EarliestOf(heads[..])
  {
    earliest := None;
    for h := 0 to heads.Length
      invariant earliest == EarliestOf(heads[..h])
    {
      assert heads[..h + 1][..h] == heads[..h];
      earliest := Sooner(heads[..h + 1], earliest, h);
    }
    assert heads[..heads.Length] == heads[..];
  }

  function Heads(streams: seq<seq<Entry>>): (heads: seq<Option<Entry>>)
    ensures |heads| == |streams|
    ensures forall i | 0 <= i < |streams| :: heads[i] == HeadOf(streams[i])
  {
    seq(|streams|, i requires 0 <= i < |streams| => HeadOf(streams[i]))
  }

  function Tails(streams: seq<seq<Entry>>): (tails: seq<seq<Entry>>)
    ensures |tails| == |streams|
    ensures forall i | 0 <= i < |streams| :: tails[i] == TailOf(streams[i])
  {
    seq(|streams|, i requires 0 <= i < |streams| => TailOf(streams[i]))
  }

  function Bag(streams: seq<seq<Entry>>): multiset<Entry> {
    if streams == [] then multiset{} else Bag(streams[..|streams| - 1]) + multiset(streams[|streams| - 1])
  }

  lemma {:induction false} BagPops(streams: seq<seq<Entry>>, i: nat)
    requires i < |streams| && streams[i] != []
    ensures Bag(streams) == Bag(streams[i := streams[i][1..]]) + multiset{streams[i][0]}
  {
    var last := |streams| - 1;
    assert streams[i] == [streams[i][0]] + streams[i][1..];
    if i == last {
      assert streams[i := streams[i][1..]][..last] == streams[..last];
    } else {
      assert streams[i := streams[i][1..]][..last] == streams[..last][i := streams[i][1..]];
      BagPops(streams[..last], i);
    }
  }

  lemma {:induction false} BagOfNothing(streams: seq<seq<Entry>>)
    requires forall i | 0 <= i < |streams| :: streams[i] == []
    ensures Bag(streams) == multiset{}
  {
    if streams != [] {
      BagOfNothing(streams[..|streams| - 1]);
    }
  }

  /** Streams merged: the earliest head first, then the rest. */
  function Merged(streams: seq<seq<Entry>>): seq<Entry>
    decreases |Bag(streams)|
  {
    match EarliestOf(Heads(streams))
    case None => []
    case Some(i) =>
      BagPops(streams, i);
      [streams[i][0]] + Merged(streams[i := streams[i][1..]])
  }

  /** Merging loses and adds nothing. */
  lemma {:induction false} MergedIsEverything(streams: seq<seq<Entry>>)
    ensures multiset(Merged(streams)) == Bag(streams)
    decreases |Bag(streams)|
  {
    match EarliestOf(Heads(streams))
    case None =>
      forall h | 0 <= h < |streams| ensures streams[h] == [] {
        assert Heads(streams)[h] == None;
      }
      BagOfNothing(streams);
    case Some(i) =>
      BagPops(streams, i);
      MergedIsEverything(streams[i := streams[i][1..]]);
  }

  /** Nothing in these streams comes before this entry. */
  predicate AllAfter(first: Entry, streams: seq<seq<Entry>>) {
    forall i, j | 0 <= i < |streams| && 0 <= j < |streams[i]| :: NotLater(first, streams[i][j])
  }

  predicate AllInOrder(streams: seq<seq<Entry>>) {
    forall i | 0 <= i < |streams| :: IsMerged(streams[i])
  }

  /** The earliest head comes before everything that is left, and taking it leaves order. */
  lemma EarliestComesFirst(streams: seq<seq<Entry>>, i: nat)
    requires AllInOrder(streams) && EarliestOf(Heads(streams)) == Some(i)
    ensures AllAfter(streams[i][0], streams) && AllInOrder(streams[i := streams[i][1..]])
  {
    forall h, j | 0 <= h < |streams| && 0 <= j < |streams[h]| ensures NotLater(streams[i][0], streams[h][j]) {
      assert Heads(streams)[h] == Some(streams[h][0]);
      assert IsMerged(streams[h]) && (j > 0 ==> NotLater(streams[h][0], streams[h][j]));
    }
    var left := streams[i := streams[i][1..]];
    forall h | 0 <= h < |left| ensures IsMerged(left[h]) {
      assert IsMerged(streams[h]);
    }
  }

  lemma {:induction false} MergedStaysAfter(first: Entry, streams: seq<seq<Entry>>)
    requires AllAfter(first, streams)
    ensures forall k | 0 <= k < |Merged(streams)| :: NotLater(first, Merged(streams)[k])
    decreases |Bag(streams)|
  {
    match EarliestOf(Heads(streams))
    case None =>
    case Some(i) =>
      BagPops(streams, i);
      MergedStaysAfter(first, streams[i := streams[i][1..]]);
  }

  /** Merging sorted streams gives one sorted stream. */
  lemma {:induction false} MergedIsInOrder(streams: seq<seq<Entry>>)
    requires AllInOrder(streams)
    ensures IsMerged(Merged(streams))
    decreases |Bag(streams)|
  {
    match EarliestOf(Heads(streams))
    case None =>
    case Some(i) =>
      var left := streams[i := streams[i][1..]];
      BagPops(streams, i);
      EarliestComesFirst(streams, i);
      MergedIsInOrder(left);
      MergedStaysAfter(streams[i][0], left);
  }

  lemma OrderedIsMerged(entries: seq<Entry>)
    requires Ordered(entries)
    ensures IsMerged(entries)
  {
    forall i, j | 0 <= i < j < |entries| ensures NotLater(entries[i], entries[j]) {
      assert KeysetWhere(Asc, KeyOf(entries[i]), KeyOf(entries[j]));
    }
  }

  // ── merging pagers ───────────────────────────────────────────────────────────────────────

  predicate Distinct(pagers: seq<Pager>) {
    forall i, j | 0 <= i < j < |pagers| :: pagers[i] != pagers[j]
  }

  /** Every pager still has exactly these rows to yield. */
  ghost predicate Ahead(pagers: seq<Pager>, rest: seq<seq<Entry>>)
    reads pagers
  {
    && |pagers| == |rest|
    && forall i | 0 <= i < |pagers| :: pagers[i].Valid() && pagers[i].Remaining() == rest[i]
  }

  /** Replace one head by its source's next row; the other sources do not notice. */
  method Advance(pagers: seq<Pager>, heads: array<Option<Entry>>, i: nat, ghost rest: seq<seq<Entry>>)
    requires Distinct(pagers) && Ahead(pagers, rest) && i < |pagers| == heads.Length
    modifies pagers[i], heads
    ensures Ahead(pagers, rest[i := TailOf(rest[i])])
    ensures heads[..] == old(heads[..])[i := HeadOf(rest[i])]
  {
    var head := pagers[i].Next();
    forall j | 0 <= j < |pagers| && j != i
      ensures pagers[j].Valid() && pagers[j].Remaining() == rest[j]
    {
      assert pagers[j] != pagers[i] by {
        assert j < i || i < j;
      }
    }
    heads[i] := head;
  }

  /** The heads once this many sources were asked. */
  function HeadsUpTo(streams: seq<seq<Entry>>, n: nat): (heads: seq<Option<Entry>>)
    ensures |heads| == |streams|
    ensures forall i | 0 <= i < |streams| :: heads[i] == if i < n then HeadOf(streams[i]) else None
  {
    seq(|streams|, i requires 0 <= i < |streams| => if i < n then HeadOf(streams[i]) else None)
  }

  function TailsUpTo(streams: seq<seq<Entry>>, n: nat): (rest: seq<seq<Entry>>)
    ensures |rest| == |streams|
    ensures forall i | 0 <= i < |streams| :: rest[i] == if i < n then TailOf(streams[i]) else streams[i]
  {
    seq(|streams|, i requires 0 <= i < |streams| => if i < n then TailOf(streams[i]) else streams[i])
  }

  lemma OneMoreHead(streams: seq<seq<Entry>>, i: nat)
    requires i < |streams|
    ensures TailsUpTo(streams, i)[i] == streams[i]
    ensures TailsUpTo(streams, i)[i := TailOf(streams[i])] == TailsUpTo(streams, i + 1)
    ensures HeadsUpTo(streams, i)[i := HeadOf(streams[i])] == HeadsUpTo(streams, i + 1)
  {
  }

  /** Ask every source for its first row. */
  method FirstHeads(pagers: seq<Pager>, ghost streams: seq<seq<Entry>>) returns (heads: array<Option<Entry>>)
    requires Distinct(pagers) && Ahead(pagers, streams)
    modifies pagers
    ensures fresh(heads) && heads.Length == |pagers|
    ensures Ahead(pagers, Tails(streams)) && heads[..] == Heads(streams)
  {
    heads := new Option<Entry>[|pagers|](_ => None);
    assert heads[..] == HeadsUpTo(streams, 0) && streams == TailsUpTo(streams, 0);
    for i := 0 to |pagers|
      invariant Ahead(pagers, TailsUpTo(streams, i))
      invariant heads[..] == HeadsUpTo(streams, i)
    {
      OneMoreHead(streams, i);
      Advance(pagers, heads, i, TailsUpTo(streams, i));
    }
    assert TailsUpTo(streams, |streams|) == Tails(streams) && HeadsUpTo(streams, |streams|) == Heads(streams);
  }

  /** Taking one row: its source moves on, and the head and the tail after it with it. */
  lemma PopMoves(streams: seq<seq<Entry>>, i: nat)
    requires i < |streams| && streams[i] != []
    ensures
      var left := streams[i := streams[i][1..]];
      && Heads(left) == Heads(streams)[i := HeadOf(Tails(streams)[i])]
      && Tails(left) == Tails(streams)[i := TailOf(Tails(streams)[i])]
  {
  }

  lemma WritesEarliest(merged: seq<Entry>, streams: seq<seq<Entry>>, i: nat)
    requires EarliestOf(Heads(streams)) == Some(i)
    ensures
      var left := streams[i := streams[i][1..]];
      && (merged + [streams[i][0]]) + Merged(left) == merged + Merged(streams)
      && |Bag(left)| < |Bag(streams)|
  {
    BagPops(streams, i);
  }

  /**
   * The merge: yield the earliest head, and ask its source for the next one, until no source has
   * any.
   */
  method Merge(pagers: seq<Pager>, ghost streams: seq<seq<Entry>>) returns (merged: seq<Entry>)
    requires Distinct(pagers) && Ahead(pagers, streams)
    modifies pagers
    ensures merged == Merged(streams)
  {
    merged := [];
    var heads := FirstHeads(pagers, streams);
    ghost var left := streams;
    while true
      invariant Ahead(pagers, Tails(left)) && heads.Length == |pagers| && heads[..] == Heads(left)
      invariant merged + Merged(left) == Merged(streams)
      decreases |Bag(left)|
    {
      var earliest := Earliest(heads);
      if earliest.None? { return; }
      var i := earliest.value;
      PopMoves(left, i);
      WritesEarliest(merged, left, i);
      merged := merged + [heads[i].value];
      Advance(pagers, heads, i, Tails(left));
      left := left[i := left[i][1..]];
    }
  }

  /** A pager per table, all at the start. */
  method OpenPagers(tables: seq<seq<Entry>>, pageSize: nat) returns (pagers: seq<Pager>)
    requires pageSize > 0 && forall i | 0 <= i < |tables| :: Ordered(tables[i])
    ensures Distinct(pagers) && Ahead(pagers, tables) && fresh(pagers)
  {
    if tables == [] { return []; }
    var last := |tables| - 1;
    var before := OpenPagers(tables[..last], pageSize);
    pagers := OpenOneMore(before, tables[..last], tables[last], pageSize);
    assert tables == tables[..last] + [tables[last]];
  }

  method OpenOneMore(pagers: seq<Pager>, ghost open: seq<seq<Entry>>, table: seq<Entry>, pageSize: nat)
    returns (more: seq<Pager>)
    requires Distinct(pagers) && Ahead(pagers, open) && Ordered(table) && pageSize > 0
    ensures Distinct(more) && Ahead(more, open + [table])
    ensures |more| == |pagers| + 1 && more[..|pagers|] == pagers && fresh(more[|pagers|])
  {
    var pager := new Pager(table, pageSize);
    more := pagers + [pager];
  }
}
