/** Writing CSV for a German spreadsheet, and reading it back as section 2 of RFC 4180 says. */
module Csv {
  import opened Outcomes

  const DELIMITER: char := ';'
  const QUOTE: char := '"'
  const NEWLINE: string := "\r\n"
  const CSV_BOM: char := '\U{FEFF}'

  /** What a column may hold. */
  datatype Cell = Absent | Text(text: string) | Number(number: int)

  // ── numbers ──────────────────────────────────────────────────────────────────────────────

  predicate IsDigit(c: char) {
    '0' <= c <= '9'
  }

  /** One digit or more. */
  predicate IsDigits(s: string) {
    |s| > 0 && forall i | 0 <= i < |s| :: IsDigit(s[i])
  }

  function Digit(n: nat): (c: char)
    requires n < 10
    ensures IsDigit(c) && DigitValue(c) == n
  {
    '0' + n as char
  }

  function DigitValue(c: char): nat
    requires IsDigit(c)
  {
    (c - '0') as nat
  }

  function Decimal(n: nat): (s: string)
    ensures IsDigits(s)
  {
    if n < 10 then [Digit(n)] else Decimal(n / 10) + [Digit(n % 10)]
  }

  function Value(s: string): nat
    requires forall i | 0 <= i < |s| :: IsDigit(s[i])
  {
    if s == [] then 0 else Value(s[..|s| - 1]) * 10 + DigitValue(s[|s| - 1])
  }

  lemma {:induction false} ValueOfDecimal(n: nat)
    ensures Value(Decimal(n)) == n
  {
    if n < 10 {
      assert [Digit(n)][..0] == [];
    } else {
      ValueOfDecimal(n / 10);
      assert Decimal(n)[..|Decimal(n)| - 1] == Decimal(n / 10);
    }
  }

  /** An integer as it is printed. */
  function Printed(n: int): string {
    if n < 0 then "-" + Decimal(-n) else Decimal(n)
  }

  // ── neutralising ─────────────────────────────────────────────────────────────────────────

  function Unsigned(s: string): string {
    if |s| > 0 && s[0] == '-' then s[1..] else s
  }

  /** Digits, perhaps with a sign in front and with a decimal part. */
  predicate IsPlainNumber(s: string) {
    var t := Unsigned(s);
    || IsDigits(t)
    || exists i | 0 <= i < |t| ::
         (t[i] == '.' || t[i] == ',') && IsDigits(t[..i]) && IsDigits(t[i + 1..])
  }

  /** The leading characters that make spreadsheets evaluate a cell. */
  predicate LeadsFormula(s: string) {
    |s| > 0 && s[0] in {'=', '+', '-', '@', '\t', '\r'}
  }

  function Neutralise(s: string): string {
    if IsPlainNumber(s) then s else if LeadsFormula(s) then "'" + s else s
  }

  /** Digits from end to end, but for at most one separator between them. */
  predicate IsNumeral(s: string) {
    && |s| > 0 && IsDigit(s[0]) && IsDigit(s[|s| - 1])
    && (forall i | 0 <= i < |s| :: IsDigit(s[i]) || s[i] == '.' || s[i] == ',')
    && (forall i, j | 0 <= i < j < |s| :: IsDigit(s[i]) || IsDigit(s[j]))
  }

  /** What a spreadsheet will not evaluate: it starts with none of these, or is just a negative number. */
  predicate IsInert(s: string) {
    s != [] ==>
      || (s[0] != '=' && s[0] != '+' && s[0] != '-' && s[0] != '@' && s[0] != '\t' && s[0] != '\r')
      || (s[0] == '-' && IsNumeral(s[1..]))
  }

  lemma PlainIsNumeral(s: string)
    ensures IsPlainNumber(s) <==> IsNumeral(Unsigned(s))
  {
    var t := Unsigned(s);
    if IsNumeral(t) && !IsDigits(t) {
      var i :| 0 <= i < |t| && !IsDigit(t[i]);
      assert IsDigits(t[..i]) && IsDigits(t[i + 1..]);
    }
    if i :| 0 <= i < |t| && (t[i] == '.' || t[i] == ',') && IsDigits(t[..i]) && IsDigits(t[i + 1..]) {
      assert t == t[..i] + [t[i]] + t[i + 1..];
    }
  }

  lemma InertIff(s: string)
    ensures IsInert(s) <==> IsPlainNumber(s) || !LeadsFormula(s)
  {
    PlainIsNumeral(s);
  }

  lemma ApostropheIsNoNumber(s: string)
    ensures !IsPlainNumber("'" + s) && !LeadsFormula("'" + s)
  {
    var t := "'" + s;
    assert t[0] == '\'' && Unsigned(t) == t;
    forall i | 0 < i < |t| ensures !IsDigits(t[..i]) {
      assert t[..i][0] == '\'';
    }
  }

  /** Every cell comes out inert, an inert one comes out as it went in, and once is enough. */
  lemma NeutralisedIsInert(s: string)
    ensures IsInert(Neutralise(s))
    ensures Neutralise(s) == s <==> IsInert(s)
    ensures Neutralise(Neutralise(s)) == Neutralise(s)
  {
    ApostropheIsNoNumber(s);
    InertIff(s);
    InertIff(Neutralise(s));
  }

  /** The only text that neutralising confuses is a formula with the same formula already quoted. */
  lemma NeutraliseConfusesOnly(a: string, b: string)
    ensures Neutralise(a) == Neutralise(b) <==>
            a == b || (a == "'" + b && !IsInert(b)) || (b == "'" + a && !IsInert(a))
  {
    ApostropheIsNoNumber(a);
    ApostropheIsNoNumber(b);
    InertIff(a);
    InertIff(b);
    if Neutralise(a) == Neutralise(b) && Neutralise(a) != a && Neutralise(b) != b {
      assert a == ("'" + a)[1..] && b == ("'" + b)[1..];
    }
  }

  // ── writing ──────────────────────────────────────────────────────────────────────────────

  /** The text a cell carries. */
  function CellText(cell: Cell): string {
    match cell
    case Absent => ""
    case Text(text) => Neutralise(text)
    case Number(n) => Neutralise(Printed(n))
  }

  predicate NeedsQuoting(s: string) {
    exists i | 0 <= i < |s| :: IsSpecial(s[i])
  }

  predicate IsSpecial(c: char) {
    c == DELIMITER || c == QUOTE || c == '\r' || c == '\n'
  }

  function Doubled(s: string): string {
    if s == [] then []
    else (if s[0] == QUOTE then [QUOTE, QUOTE] else [s[0]]) + Doubled(s[1..])
  }

  function Escaped(value: string): string {
    if NeedsQuoting(value) then [QUOTE] + Doubled(value) + [QUOTE] else value
  }

  function ToCsvCell(cell: Cell): string {
    Escaped(CellText(cell))
  }

  function ToCsvRow(cells: seq<Cell>): string {
    if cells == [] then ""
    else if |cells| == 1 then ToCsvCell(cells[0])
    else ToCsvCell(cells[0]) + [DELIMITER] + ToCsvRow(cells[1..])
  }

  function CsvLine(cells: seq<Cell>): string {
    ToCsvRow(cells) + NEWLINE
  }

  /** A file is the lines a stream pushed, one after the other. */
  function CsvFile(rows: seq<seq<Cell>>): string {
    if rows == [] then "" else CsvLine(rows[0]) + CsvFile(rows[1..])
  }

  // ── reading ──────────────────────────────────────────────────────────────────────────────

  /** A field that is not quoted runs to the first character that would have to be. */
  function PlainLength(s: string): (n: nat)
    ensures n <= |s|
    ensures forall i | 0 <= i < n :: !IsSpecial(s[i])
    ensures n < |s| ==> IsSpecial(s[n])
  {
    if s == [] || IsSpecial(s[0]) then 0 else 1 + PlainLength(s[1..])
  }

  /** The rest of a quoted field: two quotes stand for one, a single one ends it. */
  function ReadQuoted(s: string): (read: Option<(string, string)>)
    ensures read.Some? ==> |read.value.1| < |s|
  {
    if s == [] then None
    else if s[0] != QUOTE then
      match ReadQuoted(s[1..])
      case None => None
      case Some((value, rest)) => Some(([s[0]] + value, rest))
    else if |s| > 1 && s[1] == QUOTE then
      match ReadQuoted(s[2..])
      case None => None
      case Some((value, rest)) => Some(([QUOTE] + value, rest))
    else Some(([], s[1..]))
  }

  function ReadField(s: string): (read: Option<(string, string)>)
    ensures read.Some? ==> |read.value.1| <= |s|
  {
    if |s| > 0 && s[0] == QUOTE then ReadQuoted(s[1..])
    else Some((s[..PlainLength(s)], s[PlainLength(s)..]))
  }

  /** A record is fields with a delimiter between two; a line break or the end of the file ends it. */
  function ReadRecord(s: string): (read: Option<(seq<string>, string)>)
    ensures read.Some? && s != [] ==> |read.value.1| < |s|
    decreases |s|
  {
    match ReadField(s)
    case None => None
    case Some((field, rest)) =>
      if rest == [] then Some(([field], rest))
      else if rest[0] == DELIMITER then
        (match ReadRecord(rest[1..])
         case None => None
         case Some((fields, after)) => Some(([field] + fields, after)))
      else if |rest| >= 2 && rest[..2] == NEWLINE then Some(([field], rest[2..]))
      else None
  }

  function ReadFile(s: string): Option<seq<seq<string>>>
    decreases |s|
  {
    if s == [] then Some([])
    else
      match ReadRecord(s)
      case None => None
      case Some((record, rest)) =>
        match ReadFile(rest)
        case None => None
        case Some(records) => Some([record] + records)
  }

  // ── what was written is what is read ─────────────────────────────────────────────────────

  /** What follows a field: a delimiter, or the end of the line. */
  predicate EndsField(rest: string) {
    |rest| > 0 && (rest[0] == DELIMITER || (|rest| >= 2 && rest[..2] == NEWLINE))
  }

  /** A character put in front of what a quoted field reads as. */
  function Prepend(c: char, read: Option<(string, string)>): Option<(string, string)> {
    match read
    case None => None
    case Some((value, rest)) => Some(([c] + value, rest))
  }

  lemma ReadQuotedSteps(c: char, tail: string)
    ensures c != QUOTE ==> ReadQuoted([c] + tail) == Prepend(c, ReadQuoted(tail))
    ensures ReadQuoted([QUOTE, QUOTE] + tail) == Prepend(QUOTE, ReadQuoted(tail))
    ensures |tail| > 0 && tail[0] != QUOTE ==> ReadQuoted([QUOTE] + tail) == Some(("", tail))
  {
    assert ([c] + tail)[1..] == tail && ([QUOTE, QUOTE] + tail)[2..] == tail && ([QUOTE] + tail)[1..] == tail;
  }

  lemma DoubledStarts(value: string, end: string)
    requires value != []
    ensures Doubled(value) + end ==
            (if value[0] == QUOTE then [QUOTE, QUOTE] else [value[0]]) + (Doubled(value[1..]) + end)
  {
  }

  lemma {:induction false} QuotedReadsBack(value: string, rest: string)
    requires |rest| > 0 && rest[0] != QUOTE
    ensures ReadQuoted(Doubled(value) + ([QUOTE] + rest)) == Some((value, rest))
  {
    if value == [] {
      ReadQuotedSteps(QUOTE, rest);
      assert Doubled(value) + ([QUOTE] + rest) == [QUOTE] + rest;
    } else {
      QuotedReadsBack(value[1..], rest);
      ReadQuotedSteps(value[0], Doubled(value[1..]) + ([QUOTE] + rest));
      DoubledStarts(value, [QUOTE] + rest);
      assert [value[0]] + value[1..] == value;
    }
  }

  lemma {:induction false} PlainStopsAt(value: string, rest: string)
    requires !NeedsQuoting(value) && |rest| > 0 && IsSpecial(rest[0])
    ensures PlainLength(value + rest) == |value|
  {
    if value != [] {
      assert (value + rest)[1..] == value[1..] + rest;
      assert !IsSpecial(value[0]);
      PlainStopsAt(value[1..], rest);
    } else {
      assert value + rest == rest;
    }
  }

  lemma CellReadsBack(cell: Cell, rest: string)
    requires EndsField(rest)
    ensures ReadField(ToCsvCell(cell) + rest) == Some((CellText(cell), rest))
  {
    EscapedReadsBack(CellText(cell), rest);
  }

  lemma EscapedReadsBack(value: string, rest: string)
    requires EndsField(rest)
    ensures ReadField(Escaped(value) + rest) == Some((value, rest))
  {
    EndIsSpecial(rest);
    if NeedsQuoting(value) {
      var inner := Doubled(value) + ([QUOTE] + rest);
      QuotedReadsBack(value, rest);
      OpensQuoted(inner);
      QuotesAssociate(Doubled(value), rest);
    } else {
      PlainReadsBack(value, rest);
    }
  }

  lemma OpensQuoted(inner: string)
    ensures ReadField([QUOTE] + inner) == ReadQuoted(inner)
  {
    assert ([QUOTE] + inner)[1..] == inner;
  }

  lemma QuotesAssociate(doubled: string, rest: string)
    ensures ([QUOTE] + doubled + [QUOTE]) + rest == [QUOTE] + (doubled + ([QUOTE] + rest))
  {
  }

  lemma EndIsSpecial(rest: string)
    requires EndsField(rest)
    ensures IsSpecial(rest[0]) && rest[0] != QUOTE
  {
    assert rest[0] == DELIMITER || rest[0] == rest[..2][0] == '\r';
  }

  lemma PlainReadsBack(value: string, rest: string)
    requires !NeedsQuoting(value) && |rest| > 0 && IsSpecial(rest[0]) && rest[0] != QUOTE
    ensures ReadField(value + rest) == Some((value, rest))
  {
    PlainStopsAt(value, rest);
    assert (value + rest)[..|value|] == value && (value + rest)[|value|..] == rest;
    assert value != [] ==> (value + rest)[0] == value[0] && !IsSpecial(value[0]);
  }

  function RowText(cells: seq<Cell>): (texts: seq<string>)
    ensures |texts| == |cells|
  {
    seq(|cells|, i requires 0 <= i < |cells| => CellText(cells[i]))
  }

  lemma RecordEnds(s: string, field: string, rest: string)
    requires ReadField(s) == Some((field, NEWLINE + rest))
    ensures ReadRecord(s) == Some(([field], rest))
  {
    assert (NEWLINE + rest)[..2] == NEWLINE && (NEWLINE + rest)[2..] == rest;
    assert (NEWLINE + rest)[0] == '\r';
  }

  lemma RecordGoesOn(s: string, field: string, tail: string, fields: seq<string>, rest: string)
    requires ReadField(s) == Some((field, [DELIMITER] + tail))
    requires ReadRecord(tail) == Some((fields, rest))
    ensures ReadRecord(s) == Some(([field] + fields, rest))
  {
    assert ([DELIMITER] + tail)[1..] == tail;
  }

  lemma OneCellReadsBack(cell: Cell, rest: string)
    ensures ReadRecord(ToCsvCell(cell) + (NEWLINE + rest)) == Some(([CellText(cell)], rest))
  {
    assert (NEWLINE + rest)[..2] == NEWLINE;
    CellReadsBack(cell, NEWLINE + rest);
    RecordEnds(ToCsvCell(cell) + (NEWLINE + rest), CellText(cell), rest);
  }

  lemma OneMoreCellReadsBack(cell: Cell, tail: string, fields: seq<string>, rest: string)
    requires ReadRecord(tail) == Some((fields, rest))
    ensures ReadRecord(ToCsvCell(cell) + ([DELIMITER] + tail)) == Some(([CellText(cell)] + fields, rest))
  {
    assert ([DELIMITER] + tail)[0] == DELIMITER;
    CellReadsBack(cell, [DELIMITER] + tail);
    RecordGoesOn(ToCsvCell(cell) + ([DELIMITER] + tail), CellText(cell), tail, fields, rest);
  }

  lemma {:induction false} RowReadsBack(cells: seq<Cell>, rest: string)
    requires |cells| > 0
    ensures ReadRecord(ToCsvRow(cells) + (NEWLINE + rest)) == Some((RowText(cells), rest))
  {
    if |cells| == 1 {
      OneCellReadsBack(cells[0], rest);
      assert RowText(cells) == [CellText(cells[0])];
    } else {
      var more, end := ToCsvRow(cells[1..]), NEWLINE + rest;
      RowReadsBack(cells[1..], rest);
      OneMoreCellReadsBack(cells[0], more + end, RowText(cells[1..]), rest);
      RowGoesOn(cells);
      Regroup(ToCsvCell(cells[0]), [DELIMITER], more, end);
    }
  }

  lemma Regroup(a: string, b: string, c: string, d: string)
    ensures (a + (b + c)) + d == a + (b + (c + d))
  {
  }

  lemma TextGoesOn(cells: seq<Cell>)
    requires |cells| > 1
    ensures RowText(cells) == [CellText(cells[0])] + RowText(cells[1..])
  {
  }

  lemma RowGoesOn(cells: seq<Cell>)
    requires |cells| > 1
    ensures ToCsvRow(cells) == ToCsvCell(cells[0]) + ([DELIMITER] + ToCsvRow(cells[1..]))
    ensures RowText(cells) == [CellText(cells[0])] + RowText(cells[1..])
  {
    var first, rest := ToCsvCell(cells[0]), ToCsvRow(cells[1..]);
    assert ToCsvRow(cells) == first + [DELIMITER] + rest;
    Associates(first, [DELIMITER], rest);
    TextGoesOn(cells);
  }

  function FileText(rows: seq<seq<Cell>>): (texts: seq<seq<string>>)
    ensures |texts| == |rows|
  {
    seq(|rows|, i requires 0 <= i < |rows| => RowText(rows[i]))
  }

  /** A row of no cells is printed as an empty line, and a reader takes that for one empty cell. */
  function RowShown(cells: seq<Cell>): seq<string> {
    if cells == [] then [""] else RowText(cells)
  }

  function FileShown(rows: seq<seq<Cell>>): (texts: seq<seq<string>>)
    ensures |texts| == |rows|
  {
    seq(|rows|, i requires 0 <= i < |rows| => RowShown(rows[i]))
  }

  lemma OneMoreRecord(s: string, record: seq<string>, rest: string, records: seq<seq<string>>)
    requires s != [] && ReadRecord(s) == Some((record, rest)) && ReadFile(rest) == Some(records)
    ensures ReadFile(s) == Some([record] + records)
  {
  }

  lemma FileStartsWithRow(rows: seq<seq<Cell>>)
    requires rows != []
    ensures CsvFile(rows) == ToCsvRow(rows[0]) + (NEWLINE + CsvFile(rows[1..]))
    ensures CsvFile(rows) != []
  {
    Associates(ToCsvRow(rows[0]), NEWLINE, CsvFile(rows[1..]));
  }

  lemma Associates(a: string, b: string, c: string)
    ensures (a + b) + c == a + (b + c)
    ensures b != [] ==> a + (b + c) != []
  {
    assert |a + (b + c)| == |a| + |b| + |c|;
  }

  lemma FileShownStartsWithRow(rows: seq<seq<Cell>>)
    requires rows != []
    ensures FileShown(rows) == [RowShown(rows[0])] + FileShown(rows[1..])
  {
  }

  lemma EmptyLineReadsBack(rest: string)
    ensures ReadRecord(NEWLINE + rest) == Some(([""], rest))
  {
    var line := NEWLINE + rest;
    assert line[0] == '\r' && PlainLength(line) == 0 && line[..0] == "" && line[0..] == line;
    RecordEnds(line, "", rest);
  }

  lemma {:induction false} FileIsShown(rows: seq<seq<Cell>>)
    ensures ReadFile(CsvFile(rows)) == Some(FileShown(rows))
  {
    if rows != [] {
      FileStartsWithRow(rows);
      FileShownStartsWithRow(rows);
      if rows[0] == [] {
        EmptyLineReadsBack(CsvFile(rows[1..]));
        assert "" + (NEWLINE + CsvFile(rows[1..])) == NEWLINE + CsvFile(rows[1..]);
      } else {
        RowReadsBack(rows[0], CsvFile(rows[1..]));
      }
      FileIsShown(rows[1..]);
      OneMoreRecord(CsvFile(rows), RowShown(rows[0]), CsvFile(rows[1..]), FileShown(rows[1..]));
    }
  }

  /**
   * Whatever the cells hold, delimiters, quotes and line breaks included, reading the file back
   * gives the neutralised cells, row by row, if and only if every row has a cell. A row that has
   * none is read as one empty cell.
   */
  lemma FileReadsBack(rows: seq<seq<Cell>>)
    ensures ReadFile(CsvFile(rows)) == Some(FileShown(rows))
    ensures ReadFile(CsvFile(rows)) == Some(FileText(rows)) <==> forall i | 0 <= i < |rows| :: rows[i] != []
  {
    FileIsShown(rows);
    forall i | 0 <= i < |rows| ensures RowShown(rows[i]) == RowText(rows[i]) <==> rows[i] != [] {
      assert |RowText(rows[i])| == |rows[i]|;
    }
    if FileShown(rows) == FileText(rows) {
      forall i | 0 <= i < |rows| ensures rows[i] != [] {
        assert FileShown(rows)[i] == FileText(rows)[i];
      }
    }
  }

  /** A file grows by a line at a time. */
  lemma {:induction false} FileGrows(rows: seq<seq<Cell>>, row: seq<Cell>)
    ensures CsvFile(rows + [row]) == CsvFile(rows) + CsvLine(row)
  {
    if rows == [] {
      assert [row][1..] == [] && rows + [row] == [row];
    } else {
      FileGrows(rows[1..], row);
      assert (rows + [row])[1..] == rows[1..] + [row];
    }
  }

  /** And no cell that is read back is one a spreadsheet would evaluate. */
  lemma FileIsInert(rows: seq<seq<Cell>>)
    ensures ReadFile(CsvFile(rows)).Some?
    ensures
      var records := ReadFile(CsvFile(rows)).value;
      forall i, j | 0 <= i < |records| && 0 <= j < |records[i]| :: IsInert(records[i][j])
  {
    FileReadsBack(rows);
    forall i, j | 0 <= i < |rows| && 0 <= j < |FileShown(rows)[i]| ensures IsInert(FileShown(rows)[i][j]) {
      if rows[i] != [] {
        CellIsInert(rows[i][j]);
      }
    }
  }

  lemma CellIsInert(cell: Cell)
    ensures IsInert(CellText(cell))
  {
    match cell
    case Absent =>
    case Text(text) => NeutralisedIsInert(text);
    case Number(n) => NeutralisedIsInert(Printed(n));
  }

  // ── amounts ──────────────────────────────────────────────────────────────────────────────

  function Padded(n: nat): string
    requires n < 100
  {
    [Digit(n / 10), Digit(n % 10)]
  }

  /** Cents as euros with a decimal comma. */
  function CsvAmount(cents: int): string {
    var absolute: nat := if cents < 0 then -cents else cents;
    (if cents < 0 then "-" else "") + Decimal(absolute / 100) + "," + Padded(absolute % 100)
  }

  /** Reading euros with two decimals. */
  function ReadAmount(s: string): Option<int> {
    var t := Unsigned(s);
    if |t| < 4 || t[|t| - 3] != ',' || !IsDigits(t[..|t| - 3]) || !IsDigits(t[|t| - 2..]) then None
    else
      var cents := Value(t[..|t| - 3]) * 100 + Value(t[|t| - 2..]);
      Some(if t == s then cents else -cents)
  }

  lemma AmountParts(cents: int)
    ensures
      var absolute: nat := if cents < 0 then -cents else cents;
      var t := Unsigned(CsvAmount(cents));
      && |t| >= 4 && t[|t| - 3] == ','
      && t[..|t| - 3] == Decimal(absolute / 100) && t[|t| - 2..] == Padded(absolute % 100)
      && (t == CsvAmount(cents) <==> cents >= 0)
  {
    var absolute: nat := if cents < 0 then -cents else cents;
    var euros := Decimal(absolute / 100);
    var t := euros + "," + Padded(absolute % 100);
    assert IsDigit(euros[0]) && t[0] == euros[0];
    if cents < 0 {
      assert CsvAmount(cents) == "-" + t;
      assert ("-" + t)[1..] == t;
    } else {
      assert CsvAmount(cents) == t;
    }
    assert t[|t| - 3] == t[|euros|] == ',';
    assert t[..|t| - 3] == euros;
    assert t[|t| - 2..] == Padded(absolute % 100);
  }

  /**
   * A printed amount reads back as the same cents, whatever the sign and size, and it goes
   * through neutralising untouched: a negative one stays a number.
   */
  lemma AmountReadsBack(cents: int)
    ensures ReadAmount(CsvAmount(cents)) == Some(cents)
    ensures CellText(Text(CsvAmount(cents))) == CsvAmount(cents)
  {
    var absolute: nat := if cents < 0 then -cents else cents;
    AmountParts(cents);
    ValueOfDecimal(absolute / 100);
    ValueOfPadded(absolute % 100);
    var t := Unsigned(CsvAmount(cents));
    assert IsDigits(Padded(absolute % 100));
    assert IsDigits(t[..|t| - 3]) && IsDigits(t[|t| - 3 + 1..]);
  }

  lemma ValueOfPadded(n: nat)
    requires n < 100
    ensures Value(Padded(n)) == n
  {
    var tens := [Digit(n / 10)];
    assert Padded(n)[..1] == tens && tens[..0] == [];
    assert Value(tens) == n / 10;
  }
}
