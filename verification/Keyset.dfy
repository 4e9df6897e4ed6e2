/** Keyset paging: a page is what comes strictly after a cursor, however the table changed meanwhile. */
module Keyset {
  import opened Outcomes

  datatype Direction = Asc | Desc

  /** The sort column and the id of a row, each named by its place in its own order. */
  datatype Row = Row(value: int, id: int)

  datatype Column = Value | Id

  function Get(row: Row, column: Column): int {
    if column == Value then row.value else row.id
  }

  /** The id breaks every tie, in the same direction. */
  function KeysetOrderBy(direction: Direction): seq<(Column, Direction)> {
    [(Value, direction), (Id, direction)]
  }

  predicate Past(direction: Direction, a: int, b: int) {
    if direction == Asc then a > b else a < b
  }

  /** What a database means by an order of several columns: the first that differs decides. */
  predicate Precedes(order: seq<(Column, Direction)>, a: Row, b: Row) {
    && |order| > 0
    && var (column, direction) := order[0];
       if Get(a, column) == Get(b, column) then Precedes(order[1..], a, b)
       else Past(direction, Get(b, column), Get(a, column))
  }

  /** The two branches of the filter: past the cursor's value, or tied with it and past its id. */
  predicate KeysetWhere(direction: Direction, cursor: Row, row: Row) {
    || Past(direction, row.value, cursor.value)
    || (row.value == cursor.value && Past(direction, row.id, cursor.id))
  }

  /** The filter is "strictly after the cursor" in the order the page is sorted by. */
  lemma FilterIsStrictlyAfter(direction: Direction, cursor: Row, row: Row)
    ensures KeysetWhere(direction, cursor, row) <==> Precedes(KeysetOrderBy(direction), cursor, row)
  {
    var tie := KeysetOrderBy(direction)[1..];
    assert tie == [(Id, direction)] && tie[1..] == [];
    assert !Precedes(tie[1..], cursor, row);
    assert Precedes(tie, cursor, row) <==> Past(direction, row.id, cursor.id);
  }

  /** A table as the query sees it: every row once, in order. */
  predicate Sorted(direction: Direction, rows: seq<Row>) {
    forall i, j | 0 <= i < j < |rows| :: KeysetWhere(direction, rows[i], rows[j])
  }

  predicate IsAfter(direction: Direction, cursor: Option<Row>, row: Row) {
    cursor.Some? ==> KeysetWhere(direction, cursor.value, row)
  }

  /** The rows the filter lets through, in the order of the table. */
  function Matching(direction: Direction, rows: seq<Row>, cursor: Option<Row>): (found: seq<Row>)
    ensures forall r :: r in found <==> r in rows && IsAfter(direction, cursor, r)
    ensures Sorted(direction, rows) ==> Sorted(direction, found)
  {
    if rows == [] then []
    else
      var init, last := rows[..|rows| - 1], rows[|rows| - 1];
      assert rows == init + [last];
      var found := Matching(direction, init, cursor);
      assert Sorted(direction, rows) ==>
          forall i | 0 <= i < |found| :: found[i] in init && KeysetWhere(direction, found[i], last);
      if IsAfter(direction, cursor, last) then found + [last] else found
  }

  function Take(rows: seq<Row>, n: nat): seq<Row> {
    if |rows| > n then rows[..n] else rows
  }

  datatype Page = Page(items: seq<Row>, nextCursor: Option<Row>)

  /** One row more than asked for tells whether there is another page. */
  function ToPage(rows: seq<Row>, limit: nat): Page {
    var hasMore := |rows| > limit;
    var items := if hasMore then rows[..limit] else rows;
    Page(items, if hasMore && |items| > 0 then Some(items[|items| - 1]) else None)
  }

  function ReadPage(direction: Direction, table: seq<Row>, cursor: Option<Row>, limit: nat): Page {
    ToPage(Take(Matching(direction, table, cursor), limit + 1), limit)
  }

  /** Everything a caller gets, and whether it got to the end. */
  datatype Walk = Walk(rows: seq<Row>, finished: bool)

  /** Following `nextCursor`. Each page is read from the table as it is by then. */
  function WalkFrom(direction: Direction, tables: seq<seq<Row>>, cursor: Option<Row>, limit: nat): Walk {
    if tables == [] then Walk([], false)
    else
      var page := ReadPage(direction, tables[0], cursor, limit);
      if page.nextCursor.None? then Walk(page.items, true)
      else
        var more := WalkFrom(direction, tables[1..], page.nextCursor, limit);
        Walk(page.items + more.rows, more.finished)
  }

  // ── what a walk returns ──────────────────────────────────────────────────────────────────

  lemma TakenPage(found: seq<Row>, limit: nat)
    requires limit > 0
    ensures
      var page := ToPage(Take(found, limit + 1), limit);
      && page.items == Take(found, limit)
      && (page.nextCursor.Some? <==> |found| > limit)
      && (page.nextCursor.Some? ==> page.nextCursor.value == found[limit - 1])
  {
    if |found| > limit {
      assert found[..limit + 1][..limit] == found[..limit];
    }
  }

  lemma PageIsPrefix(direction: Direction, table: seq<Row>, cursor: Option<Row>, limit: nat)
    requires limit > 0
    ensures
      var found := Matching(direction, table, cursor);
      var page := ReadPage(direction, table, cursor, limit);
      && page.items == Take(found, limit)
      && (page.nextCursor.Some? <==> |found| > limit)
      && (page.nextCursor.Some? ==> page.nextCursor.value == found[limit - 1])
  {
    TakenPage(Matching(direction, table, cursor), limit);
  }

  /**
   * Whatever is inserted or deleted between pages, a walk returns rows in strictly ascending
   * order, so none twice, and only rows it found in a table.
   */
  lemma {:induction false} WalkIsSorted(direction: Direction, tables: seq<seq<Row>>, cursor: Option<Row>, limit: nat)
    requires limit > 0 && forall i | 0 <= i < |tables| :: Sorted(direction, tables[i])
    ensures Sorted(direction, WalkFrom(direction, tables, cursor, limit).rows)
    ensures forall r | r in WalkFrom(direction, tables, cursor, limit).rows ::
              IsAfter(direction, cursor, r) && InSome(tables, r)
  {
    if tables != [] {
      PageIsSorted(direction, tables[0], cursor, limit);
      var page := ReadPage(direction, tables[0], cursor, limit);
      if page.nextCursor.Some? {
        var rest := WalkFrom(direction, tables[1..], page.nextCursor, limit);
        WalkIsSorted(direction, tables[1..], page.nextCursor, limit);
        JoinsSorted(direction, page.items, rest.rows);
        forall r | r in rest.rows ensures IsAfter(direction, cursor, r) && InSome(tables, r) {
          InSomeOfMore(tables, r);
          assert page.nextCursor.value in page.items;
        }
      }
    }
  }

  ghost predicate InSome(tables: seq<seq<Row>>, row: Row) {
    exists i | 0 <= i < |tables| :: row in tables[i]
  }

  lemma InSomeOfMore(tables: seq<seq<Row>>, row: Row)
    requires tables != [] && InSome(tables[1..], row)
    ensures InSome(tables, row)
  {
    var i :| 0 <= i < |tables[1..]| && row in tables[1..][i];
    assert row in tables[i + 1];
  }

  /** A page is in order, after the cursor, and ends with the row it names as the next cursor. */
  lemma PageIsSorted(direction: Direction, table: seq<Row>, cursor: Option<Row>, limit: nat)
    requires limit > 0 && Sorted(direction, table)
    ensures
      var page := ReadPage(direction, table, cursor, limit);
      && Sorted(direction, page.items)
      && (forall r | r in page.items :: r in table && IsAfter(direction, cursor, r))
      && (page.nextCursor.Some? ==> |page.items| > 0 && page.nextCursor.value == page.items[|page.items| - 1])
  {
    PageIsPrefix(direction, table, cursor, limit);
    var page := ReadPage(direction, table, cursor, limit);
    assert forall r | r in page.items :: r in Matching(direction, table, cursor);
  }

  lemma JoinsSorted(direction: Direction, first: seq<Row>, second: seq<Row>)
    requires Sorted(direction, first) && Sorted(direction, second) && |first| > 0
    requires forall r | r in second :: KeysetWhere(direction, first[|first| - 1], r)
    ensures Sorted(direction, first + second)
  {
    forall i, j | 0 <= i < |first| && 0 <= j < |second| ensures KeysetWhere(direction, first[i], second[j]) {
      assert second[j] in second;
      assert i < |first| - 1 ==> KeysetWhere(direction, first[i], first[|first| - 1]);
    }
  }

  /** A row of the table that is not on the page comes after the cursor the page ends with. */
  lemma PageOrLater(direction: Direction, table: seq<Row>, cursor: Option<Row>, limit: nat, row: Row)
    requires limit > 0 && Sorted(direction, table) && row in table && IsAfter(direction, cursor, row)
    ensures
      var page := ReadPage(direction, table, cursor, limit);
      row in page.items || (page.nextCursor.Some? && IsAfter(direction, page.nextCursor, row))
  {
    PageIsPrefix(direction, table, cursor, limit);
    var found := Matching(direction, table, cursor);
    assert row in found;
    var at :| 0 <= at < |found| && found[at] == row;
    if |found| > limit {
      assert at < limit ==> Take(found, limit)[at] == row;
      assert at >= limit ==> KeysetWhere(direction, found[limit - 1], found[at]);
    }
  }

  lemma {:induction false} FinishedWalkHolds(
    direction: Direction, tables: seq<seq<Row>>, cursor: Option<Row>, limit: nat, row: Row)
    requires limit > 0 && forall i | 0 <= i < |tables| :: Sorted(direction, tables[i]) && row in tables[i]
    requires IsAfter(direction, cursor, row) && WalkFrom(direction, tables, cursor, limit).finished
    ensures row in WalkFrom(direction, tables, cursor, limit).rows
  {
    PageOrLater(direction, tables[0], cursor, limit, row);
    var page := ReadPage(direction, tables[0], cursor, limit);
    if row !in page.items {
      FinishedWalkHolds(direction, tables[1..], page.nextCursor, limit, row);
    }
  }

  /**
   * A walk that got to the end returned every row that was there for every page, exactly once,
   * whatever else came and went in between.
   */
  lemma WalkMissesNothing(
    direction: Direction, tables: seq<seq<Row>>, cursor: Option<Row>, limit: nat, row: Row)
    requires limit > 0 && forall i | 0 <= i < |tables| :: Sorted(direction, tables[i]) && row in tables[i]
    requires IsAfter(direction, cursor, row) && WalkFrom(direction, tables, cursor, limit).finished
    ensures row in WalkFrom(direction, tables, cursor, limit).rows
    ensures multiset(WalkFrom(direction, tables, cursor, limit).rows)[row] == 1
  {
    FinishedWalkHolds(direction, tables, cursor, limit, row);
    WalkIsSorted(direction, tables, cursor, limit);
    SortedOnce(direction, WalkFrom(direction, tables, cursor, limit).rows, row);
  }

  lemma {:induction false} SortedOnce(direction: Direction, rows: seq<Row>, row: Row)
    requires Sorted(direction, rows) && row in rows
    ensures multiset(rows)[row] == 1
  {
    var last := |rows| - 1;
    assert rows == rows[..last] + [rows[last]];
    if rows[last] == row {
      assert row !in rows[..last];
      assert row !in multiset(rows[..last]);
    } else {
      SortedOnce(direction, rows[..last], row);
    }
  }

  /** On a table that does not change, a walk long enough is exactly what comes after the cursor. */
  lemma {:induction false} WalkOfOneTable(
    direction: Direction, table: seq<Row>, tables: seq<seq<Row>>, cursor: Option<Row>, limit: nat)
    requires limit > 0 && Sorted(direction, table)
    requires forall i | 0 <= i < |tables| :: tables[i] == table
    requires |tables| > |Matching(direction, table, cursor)|
    ensures WalkFrom(direction, tables, cursor, limit) == Walk(Matching(direction, table, cursor), true)
  {
    var found := Matching(direction, table, cursor);
    PageIsPrefix(direction, table, cursor, limit);
    if |found| > limit {
      MatchingContinues(direction, table, cursor, limit);
      WalkOfOneTable(direction, table, tables[1..], Some(found[limit - 1]), limit);
      assert found[..limit] + found[limit..] == found;
    }
  }

  lemma RestComesAfter(direction: Direction, found: seq<Row>, limit: nat, r: Row)
    requires Sorted(direction, found) && 0 < limit <= |found|
    ensures r in found[limit..] <==> r in found && KeysetWhere(direction, found[limit - 1], r)
  {
    if r in found {
      var i :| 0 <= i < |found| && found[i] == r;
      assert i >= limit ==> found[limit..][i - limit] == r;
      assert i < limit - 1 ==> KeysetWhere(direction, found[i], found[limit - 1]);
    }
    assert forall i | limit <= i < |found| :: KeysetWhere(direction, found[limit - 1], found[i]);
  }

  /** Starting over from a row that was returned goes on where it left off. */
  lemma MatchingContinues(direction: Direction, table: seq<Row>, cursor: Option<Row>, limit: nat)
    requires Sorted(direction, table)
    requires 0 < limit <= |Matching(direction, table, cursor)|
    ensures
      var found := Matching(direction, table, cursor);
      Matching(direction, table, Some(found[limit - 1])) == found[limit..]
  {
    var found := Matching(direction, table, cursor);
    var next := Matching(direction, table, Some(found[limit - 1]));
    assert found[limit - 1] in found;
    forall r ensures r in next <==> r in found[limit..] {
      RestComesAfter(direction, found, limit, r);
    }
    SortedIsUnique(direction, next, found[limit..]);
  }

  lemma {:induction false} SortedIsUnique(direction: Direction, a: seq<Row>, b: seq<Row>)
    requires Sorted(direction, a) && Sorted(direction, b)
    requires forall r :: r in a <==> r in b
    ensures a == b
  {
    assert |a| > 0 ==> a[0] in a;
    assert |b| > 0 ==> b[0] in b;
    if |a| > 0 {
      FirstIsSame(direction, a, b);
      forall r ensures r in a[1..] <==> r in b[1..] {
        RestOf(direction, a, r);
        RestOf(direction, b, r);
      }
      SortedIsUnique(direction, a[1..], b[1..]);
      assert a == [a[0]] + a[1..] && b == [b[0]] + b[1..];
    }
  }

  lemma FirstIsSame(direction: Direction, a: seq<Row>, b: seq<Row>)
    requires Sorted(direction, a) && Sorted(direction, b) && |a| > 0 && |b| > 0
    requires forall r :: r in a <==> r in b
    ensures a[0] == b[0]
  {
    assert a[0] in b && b[0] in a;
    var i :| 0 <= i < |b| && b[i] == a[0];
    var j :| 0 <= j < |a| && a[j] == b[0];
    assert i > 0 ==> KeysetWhere(direction, b[0], b[i]);
    assert j > 0 ==> KeysetWhere(direction, a[0], a[j]);
  }

  lemma RestOf(direction: Direction, rows: seq<Row>, r: Row)
    requires Sorted(direction, rows) && |rows| > 0
    ensures r in rows[1..] <==> r in rows && r != rows[0]
  {
    assert rows == [rows[0]] + rows[1..];
    if r in rows[1..] {
      var i :| 0 <= i < |rows[1..]| && rows[1..][i] == r;
      assert KeysetWhere(direction, rows[0], rows[i + 1]);
    }
  }
}
