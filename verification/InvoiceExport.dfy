/**
  The invoice CSV export: a keyset cursor walks a sorted table page by page, and every row is printed
  as quoted cells.  Reading the text back by section 2 of RFC 4180 gives exactly the cell texts.
*/
module InvoiceExport {
  import opened Fifo
  import opened InvoiceNumbering

  // ------------------------------------------------------------------ cells and rows

  datatype Cell = Text(text: string) | Number(number: int) | Null

  predicate IsSpace(c: char)
  {
    || c == ' ' || '\t' <= c <= '\r' || c == '\U{A0}' || c == '\U{1680}' || '\U{2000}' <= c <= '\U{200A}'
    || c == '\U{2028}' || c == '\U{2029}' || c == '\U{202F}' || c == '\U{205F}' || c == '\U{3000}' || c == '\U{FEFF}'
  }

  predicate StartsFormula(c: char) { c in {'=', '+', '-', '@', '\t', '\r'} }

  /** A spreadsheet may take the text for a formula: white space, then one of the starting characters. */
  predicate Dangerous(s: string)
  {
    s != "" && (StartsFormula(s[0]) || (IsSpace(s[0]) && Dangerous(s[1..])))
  }

  function Guarded(s: string): string { if Dangerous(s) then "'" + s else s }

  function NumberText(n: int): string { if n < 0 then "-" + Digits(-n) else Digits(n) }

  /** The text a reader of the file gets for a cell. */
  function TextOf(c: Cell): string
  {
    match c
    case Text(s) => Guarded(s)
    case Number(n) => NumberText(n)
    case Null => ""
  }

  function Escaped(s: string): string
  {
    if s == "" then "" else (if s[0] == '"' then "\"\"" else [s[0]]) + Escaped(s[1..])
  }

  function CsvCell(c: Cell): string { "\"" + Escaped(TextOf(c)) + "\"" }

  function Joined(cells: seq<Cell>): string
  {
    if cells == [] then ""
    else if |cells| == 1 then CsvCell(cells[0])
    else CsvCell(cells[0]) + "," + Joined(cells[1..])
  }

  const CRLF: string := "\r\n"

  function CsvLine(cells: seq<Cell>): string { Joined(cells) + CRLF }

  function Lines(rows: seq<seq<Cell>>): string
  {
    if rows == [] then "" else Lines(rows[..|rows| - 1]) + CsvLine(rows[|rows| - 1])
  }

  function Texts(cells: seq<Cell>): (r: seq<string>)
    ensures |r| == |cells|
  {
    seq(|cells|, i requires 0 <= i < |cells| => TextOf(cells[i]))
  }

  function AllTexts(rows: seq<seq<Cell>>): (r: seq<seq<string>>)
    ensures |r| == |rows|
  {
    seq(|rows|, i requires 0 <= i < |rows| => Texts(rows[i]))
  }

  // ------------------------------------------------------------------ reading by RFC 4180, section 2

  datatype Parsed<T> = Parsed(value: T, rest: string) | Malformed

  /** The rest of a quoted field, after its opening quote. */
  function ParseQuoted(s: string): (p: Parsed<string>)
    ensures p.Parsed? ==> |p.rest| < |s|
  {
    if s == "" then Malformed
    else if s[0] == '"' && !(|s| > 1 && s[1] == '"') then Parsed("", s[1..])
    else
      match ParseQuoted(if s[0] == '"' then s[2..] else s[1..])
      case Malformed => Malformed
      case Parsed(t, rest) => Parsed([s[0]] + t, rest)
  }

  predicate Plain(c: char) { c != '"' && c != ',' && c != '\r' && c != '\n' }

  function ParsePlain(s: string): (p: Parsed<string>)
    ensures p.Parsed? && |p.rest| <= |s|
  {
    if s == "" || !Plain(s[0]) then Parsed("", s)
    else
      var p := ParsePlain(s[1..]);
      Parsed([s[0]] + p.value, p.rest)
  }

  function ParseField(s: string): (p: Parsed<string>)
    ensures p.Parsed? ==> |p.rest| <= |s|
  {
    if s != "" && s[0] == '"' then ParseQuoted(s[1..]) else ParsePlain(s)
  }

  function ParseRecord(s: string): (p: Parsed<seq<string>>)
    ensures p.Parsed? ==> |p.rest| <= |s|
    decreases |s|
  {
    match ParseField(s)
    case Malformed => Malformed
    case Parsed(field, rest) =>
      if rest != "" && rest[0] == ',' then
        match ParseRecord(rest[1..])
        case Malformed => Malformed
        case Parsed(fields, after) => Parsed([field] + fields, after)
      else Parsed([field], rest)
  }

  /** Records separated by line breaks; the last one may have a line break of its own. */
  function ParseFile(s: string): Option<seq<seq<string>>>
    decreases |s|
  {
    match ParseRecord(s)
    case Malformed => None
    case Parsed(record, rest) =>
      if rest == "" || rest == CRLF then Some([record])
      else if |rest| > 2 && rest[..2] == CRLF then
        match ParseFile(rest[2..])
        case None => None
        case Some(records) => Some([record] + records)
      else None
  }

  // ------------------------------------------------------------------ round trip

  predicate NoQuoteFirst(s: string) { s == "" || s[0] != '"' }

  lemma {:induction false} QuotedRoundTrip(t: string, rest: string)
    requires NoQuoteFirst(rest)
    ensures ParseQuoted(Escaped(t) + "\"" + rest) == Parsed(t, rest)
  {
    var s := Escaped(t) + "\"" + rest;
    if t == "" {
      assert s == "\"" + rest;
      assert s[1..] == rest;
    } else {
      var tail := Escaped(t[1..]) + "\"" + rest;
      QuotedRoundTrip(t[1..], rest);
      if t[0] == '"' {
        assert s == "\"\"" + tail;
        assert s[2..] == tail;
      } else {
        assert s == [t[0]] + tail;
        assert s[1..] == tail;
      }
      assert t == [t[0]] + t[1..];
    }
  }

  lemma FieldRoundTrip(c: Cell, rest: string)
    requires NoQuoteFirst(rest)
    ensures ParseField(CsvCell(c) + rest) == Parsed(TextOf(c), rest)
  {
    var s := CsvCell(c) + rest;
    assert s[1..] == Escaped(TextOf(c)) + "\"" + rest;
    QuotedRoundTrip(TextOf(c), rest);
  }

  predicate EndsRecord(rest: string) { rest == "" || rest[0] == '\r' }

  lemma RecordMore(c: Cell, tail: string, fields: seq<string>, rest: string)
    requires ParseRecord(tail) == Parsed(fields, rest)
    ensures ParseRecord(CsvCell(c) + ("," + tail)) == Parsed([TextOf(c)] + fields, rest)
  {
    FieldRoundTrip(c, "," + tail);
    assert ("," + tail)[1..] == tail;
  }

  lemma Associative(a: string, b: string, c: string)
    ensures (a + b) + c == a + (b + c)
  {
  }

  lemma JoinedMore(cells: seq<Cell>, rest: string)
    requires |cells| > 1
    ensures Joined(cells) + rest == CsvCell(cells[0]) + ("," + (Joined(cells[1..]) + rest))
  {
    var first, more := CsvCell(cells[0]), Joined(cells[1..]);
    Associative(first + ",", more, rest);
    Associative(first, ",", more + rest);
  }

  lemma {:induction false} RecordRoundTrip(cells: seq<Cell>, rest: string)
    requires cells != [] && EndsRecord(rest)
    ensures ParseRecord(Joined(cells) + rest) == Parsed(Texts(cells), rest)
  {
    if |cells| == 1 {
      FieldRoundTrip(cells[0], rest);
      assert Texts(cells) == [TextOf(cells[0])];
    } else {
      calc {
        ParseRecord(Joined(cells) + rest);
      ==  { JoinedMore(cells, rest); }
        ParseRecord(CsvCell(cells[0]) + ("," + (Joined(cells[1..]) + rest)));
      ==  { RecordRoundTrip(cells[1..], rest); RecordMore(cells[0], Joined(cells[1..]) + rest, Texts(cells[1..]), rest); }
        Parsed([TextOf(cells[0])] + Texts(cells[1..]), rest);
      ==  { TextsFront(cells); }
        Parsed(Texts(cells), rest);
      }
    }
  }

  lemma TextsFront(cells: seq<Cell>)
    requires cells != []
    ensures Texts(cells) == [TextOf(cells[0])] + Texts(cells[1..])
  {
  }

  lemma {:induction false} LinesConcat(xs: seq<seq<Cell>>, ys: seq<seq<Cell>>)
    ensures Lines(xs + ys) == Lines(xs) + Lines(ys)
  {
    if ys == [] {
      assert xs + ys == xs && Lines(xs) + "" == Lines(xs);
    } else {
      var n := |ys| - 1;
      assert (xs + ys)[..|xs + ys| - 1] == xs + ys[..n];
      LinesConcat(xs, ys[..n]);
      Associative(Lines(xs), Lines(ys[..n]), CsvLine(ys[n]));
    }
  }

  lemma LinesFront(rows: seq<seq<Cell>>)
    requires rows != []
    ensures Lines(rows) == CsvLine(rows[0]) + Lines(rows[1..])
  {
    LinesConcat([rows[0]], rows[1..]);
    assert rows == [rows[0]] + rows[1..];
    assert [rows[0]][..0] == [] && "" + CsvLine(rows[0]) == CsvLine(rows[0]);
  }

  lemma FileMore(record: seq<string>, text: string, tail: string, records: seq<seq<string>>)
    requires ParseRecord(text) == Parsed(record, CRLF + tail) && tail != "" && ParseFile(tail) == Some(records)
    ensures ParseFile(text) == Some([record] + records)
  {
    var rest := CRLF + tail;
    assert rest[..2] == CRLF && rest[2..] == tail && |rest| > 2;
  }

  lemma FirstRecord(rows: seq<seq<Cell>>)
    requires rows != [] && rows[0] != []
    ensures ParseRecord(Lines(rows)) == Parsed(Texts(rows[0]), CRLF + Lines(rows[1..]))
  {
    LinesFront(rows);
    Associative(Joined(rows[0]), CRLF, Lines(rows[1..]));
    RecordRoundTrip(rows[0], CRLF + Lines(rows[1..]));
  }

  lemma AllTextsFront(rows: seq<seq<Cell>>)
    requires rows != []
    ensures AllTexts(rows) == [Texts(rows[0])] + AllTexts(rows[1..])
  {
  }

  lemma LinesNotEmpty(rows: seq<seq<Cell>>)
    ensures rows != [] ==> Lines(rows) != ""
  {
    if rows != [] {
      var last := CsvLine(rows[|rows| - 1]);
      assert last[|last| - 1] == '\n';
      assert |Lines(rows)| == |Lines(rows[..|rows| - 1])| + |last|;
    }
  }

  /** Reading the printed rows back returns exactly their cell texts. */
  lemma {:induction false} FileRoundTrip(rows: seq<seq<Cell>>)
    requires rows != [] && forall i :: 0 <= i < |rows| ==> rows[i] != []
    ensures ParseFile(Lines(rows)) == Some(AllTexts(rows))
  {
    FirstRecord(rows);
    AllTextsFront(rows);
    if |rows| > 1 {
      LinesNotEmpty(rows[1..]);
      FileRoundTrip(rows[1..]);
      FileMore(Texts(rows[0]), Lines(rows), Lines(rows[1..]), AllTexts(rows[1..]));
    } else {
      assert Lines(rows[1..]) == "" && CRLF + "" == CRLF;
      assert AllTexts(rows) == [Texts(rows[0])];
    }
  }

  // ------------------------------------------------------------------ the formula guard

  /** A printed text cell never reads as a formula, and is changed only if it would have. */
  lemma GuardedIsHarmless(s: string)
    ensures !Dangerous(TextOf(Text(s)))
    ensures TextOf(Text(s)) == s || (Dangerous(s) && TextOf(Text(s))[1..] == s)
  {
  }

  const FORMULA_STARTS: string := "=+-@\t\r"

  /** The white space of a regular expression, character by character. */
  const WHITE_SPACE: string :=
    "\t\n\U{0B}\U{0C}\r \U{A0}\U{1680}\U{2000}\U{2001}\U{2002}\U{2003}\U{2004}\U{2005}\U{2006}\U{2007}\U{2008}\U{2009}\U{200A}\U{2028}\U{2029}\U{202F}\U{205F}\U{3000}\U{FEFF}"

  lemma SpaceIff(c: char)
    ensures IsSpace(c) <==> c in WHITE_SPACE
  {
    var w := WHITE_SPACE;
    assert w[0] == '\t' && w[1] == '\n' && w[2] == '\U{0B}' && w[3] == '\U{0C}' && w[4] == '\r' && w[5] == ' ' && w[6] == '\U{A0}';
    assert w[7] == '\U{1680}' && w[8] == '\U{2000}' && w[9] == '\U{2001}' && w[10] == '\U{2002}' && w[11] == '\U{2003}';
    assert w[12] == '\U{2004}' && w[13] == '\U{2005}' && w[14] == '\U{2006}' && w[15] == '\U{2007}' && w[16] == '\U{2008}';
    assert w[17] == '\U{2009}' && w[18] == '\U{200A}' && w[19] == '\U{2028}' && w[20] == '\U{2029}' && w[21] == '\U{202F}';
    assert w[22] == '\U{205F}' && w[23] == '\U{3000}' && w[24] == '\U{FEFF}';
  }

  /** A formula character stands behind nothing but white space. */
  predicate FormulaAt(s: string, i: nat)
  {
    i < |s| && s[i] in FORMULA_STARTS && forall k :: 0 <= k < i ==> s[k] in WHITE_SPACE
  }

  /** A text is guarded exactly when one of the formula characters is the first behind any white space. */
  lemma {:induction false} DangerousIff(s: string)
    ensures Dangerous(s) <==> exists i :: 0 <= i < |s| && FormulaAt(s, i)
  {
    if s != "" {
      DangerousIff(s[1..]);
      SpaceIff(s[0]);
      FormulaShift(s);
    }
  }

  lemma FormulaShift(s: string)
    requires s != ""
    ensures (exists i :: 0 <= i < |s| && FormulaAt(s, i)) <==>
            s[0] in FORMULA_STARTS || (s[0] in WHITE_SPACE && exists i :: 0 <= i < |s[1..]| && FormulaAt(s[1..], i))
  {
    var t := s[1..];
    if i: nat :| i < |s| && FormulaAt(s, i) && i > 0 {
      assert t[i - 1] == s[i];
      forall k | 0 <= k < i - 1 ensures t[k] in WHITE_SPACE { assert t[k] == s[k + 1]; }
      assert FormulaAt(t, i - 1) && s[0] in WHITE_SPACE;
    }
    if s[0] in FORMULA_STARTS { assert FormulaAt(s, 0); }
    if s[0] in WHITE_SPACE {
      if i: nat :| i < |t| && FormulaAt(t, i) {
        forall k | 0 <= k < i + 1 ensures s[k] in WHITE_SPACE { if k > 0 { assert s[k] == t[k - 1]; } }
        assert FormulaAt(s, i + 1);
      }
    }
  }

  /** Numbers are not guarded: the printed amount reads as a formula exactly when it is negative. */
  lemma NumberIsDangerousIffNegative(n: int)
    ensures Dangerous(TextOf(Number(n))) <==> n < 0
  {
    if n >= 0 {
      DigitsMean(n);
      DigitsNotEmpty(n);
      var d := Digits(n);
      assert '0' <= d[0] <= '9';
    }
  }

  lemma DigitsNotEmpty(n: nat)
    ensures Digits(n) != ""
  {
  }

  // ------------------------------------------------------------------ the table and its pages

  datatype Row = Row(
    id: nat, number: string, tenant: Option<string>, status: string, amount: int, currency: string,
    dueAt: Option<nat>, paidAt: Option<nat>, createdAt: nat)

  datatype Cursor = Cursor(createdAt: nat, id: nat)

  predicate Follows(r: Row, c: Cursor) { r.createdAt > c.createdAt || (r.createdAt == c.createdAt && r.id > c.id) }

  function CursorOf(r: Row): Cursor { Cursor(r.createdAt, r.id) }

  /** Ordered by creation time and id, no id twice. */
  predicate Ordered(table: seq<Row>)
  {
    forall i, j :: 0 <= i < j < |table| ==> Follows(table[j], CursorOf(table[i]))
  }

  /** The rows of a table that pass a filter, in table order. */
  function Matching(table: seq<Row>, keep: Row -> bool): (r: seq<Row>)
    ensures forall i :: 0 <= i < |r| ==> keep(r[i]) && r[i] in table
  {
    if table == [] then []
    else Matching(table[..|table| - 1], keep) + (if keep(table[|table| - 1]) then [table[|table| - 1]] else [])
  }

  function PageFilter(keep: Row -> bool, cursor: Option<Cursor>): Row -> bool
  {
    (r: Row) => keep(r) && (cursor.None? || Follows(r, cursor.value))
  }

  function FirstRows(rows: seq<Row>, take: nat): seq<Row> { if |rows| <= take then rows else rows[..take] }

  /** findInvoiceExportPage: the first rows after the cursor that pass the filter. */
  function Page(table: seq<Row>, keep: Row -> bool, cursor: Option<Cursor>, take: nat): seq<Row>
  {
    FirstRows(Matching(table, PageFilter(keep, cursor)), take)
  }

  lemma {:induction false} MatchingOrdered(table: seq<Row>, keep: Row -> bool)
    requires Ordered(table)
    ensures Ordered(Matching(table, keep))
  {
    if table != [] {
      var n := |table| - 1;
      MatchingOrdered(table[..n], keep);
      var r := Matching(table[..n], keep);
      forall i | 0 <= i < |r| ensures keep(table[n]) ==> Follows(table[n], CursorOf(r[i])) {
        assert r[i] in table[..n];
      }
    }
  }

  lemma {:induction false} MatchingAll(rows: seq<Row>, keep: Row -> bool)
    requires forall i :: 0 <= i < |rows| ==> keep(rows[i])
    ensures Matching(rows, keep) == rows
  {
    if rows != [] {
      var n := |rows| - 1;
      MatchingAll(rows[..n], keep);
      assert keep(rows[n]);
      assert rows == rows[..n] + [rows[n]];
    }
  }

  lemma {:induction false} MatchingTwice(table: seq<Row>, keep: Row -> bool, cursor: Option<Cursor>)
    ensures Matching(table, PageFilter(keep, cursor)) ==
            Matching(Matching(table, keep), PageFilter((r: Row) => true, cursor))
  {
    if table != [] {
      var n := |table| - 1;
      MatchingTwice(table[..n], keep, cursor);
      var r := Matching(table[..n], keep);
      if keep(table[n]) {
        assert (r + [table[n]])[..|r|] == r;
      } else {
        assert r + [] == r;
      }
    }
  }

  /** Behind the cursor of row k - 1 come exactly the rows from k on. */
  lemma {:induction false} AfterCursor(rows: seq<Row>, k: nat)
    requires Ordered(rows) && 0 < k <= |rows|
    ensures Matching(rows, PageFilter((r: Row) => true, Some(CursorOf(rows[k - 1])))) == rows[k..]
  {
    var keep := PageFilter((r: Row) => true, Some(CursorOf(rows[k - 1])));
    MatchingConcat(rows[..k], rows[k..], keep);
    assert rows == rows[..k] + rows[k..];
    forall i | 0 <= i < |rows| ensures keep(rows[i]) <==> k <= i {
      assert keep(rows[i]) == Follows(rows[i], CursorOf(rows[k - 1]));
      if i < k - 1 { assert Follows(rows[k - 1], CursorOf(rows[i])); }
      if k <= i { assert Follows(rows[i], CursorOf(rows[k - 1])); }
    }
    MatchingNone(rows[..k], keep);
    MatchingAll(rows[k..], keep);
  }

  lemma {:induction false} MatchingConcat(xs: seq<Row>, ys: seq<Row>, keep: Row -> bool)
    ensures Matching(xs + ys, keep) == Matching(xs, keep) + Matching(ys, keep)
  {
    if ys == [] {
      assert xs + ys == xs;
    } else {
      var n := |ys| - 1;
      assert (xs + ys)[..|xs + ys| - 1] == xs + ys[..n];
      MatchingConcat(xs, ys[..n], keep);
    }
  }

  lemma {:induction false} MatchingNone(rows: seq<Row>, keep: Row -> bool)
    requires forall i :: 0 <= i < |rows| ==> !keep(rows[i])
    ensures Matching(rows, keep) == []
  {
    if rows != [] {
      MatchingNone(rows[..|rows| - 1], keep);
    }
  }

  /** The page behind the first k exported rows is the next stretch of the export. */
  lemma PageIsNext(table: seq<Row>, keep: Row -> bool, k: nat, take: nat)
    requires Ordered(table) && k <= |Matching(table, keep)|
    ensures var rows := Matching(table, keep);
            Page(table, keep, if k == 0 then None else Some(CursorOf(rows[k - 1])), take) == FirstRows(rows[k..], take)
  {
    var rows := Matching(table, keep);
    MatchingOrdered(table, keep);
    if k == 0 {
      MatchingTwice(table, keep, None);
      MatchingAll(rows, PageFilter((r: Row) => true, None));
      assert rows[0..] == rows;
    } else {
      MatchingTwice(table, keep, Some(CursorOf(rows[k - 1])));
      AfterCursor(rows, k);
    }
  }

  // ------------------------------------------------------------------ the stream

  function When(t: Option<nat>, iso: nat -> string): Cell
  {
    if t.Some? then Text(iso(t.value)) else Null
  }

  function InvoiceCells(r: Row, includeTenant: bool, iso: nat -> string): seq<Cell>
  {
    [Text(r.number)] +
    (if includeTenant then [Text(if r.tenant.Some? then r.tenant.value else "")] else []) +
    [Text(r.status), Number(r.amount), Text(r.currency), When(r.dueAt, iso), When(r.paidAt, iso), Text(iso(r.createdAt))]
  }

  function Headers(includeTenant: bool): seq<Cell>
  {
    [Text("Invoice number")] + (if includeTenant then [Text("Tenant")] else []) +
    [Text("Status"), Text("Amount (minor units)"), Text("Currency"), Text("Due at"), Text("Paid at"), Text("Created at")]
  }

  function AllCells(rows: seq<Row>, includeTenant: bool, iso: nat -> string): (r: seq<seq<Cell>>)
    ensures |r| == |rows|
  {
    seq(|rows|, i requires 0 <= i < |rows| => InvoiceCells(rows[i], includeTenant, iso))
  }

  function FileCells(rows: seq<Row>, includeTenant: bool, iso: nat -> string): seq<seq<Cell>>
  {
    [Headers(includeTenant)] + AllCells(rows, includeTenant, iso)
  }

  const PAGE_SIZE: nat := 500

  method FetchPage(table: seq<Row>, keep: Row -> bool, cursor: Option<Cursor>, take: nat) returns (page: seq<Row>)
    ensures page == Page(table, keep, cursor, take)
  {
    page := [];
    for i := 0 to |table|
      invariant page == FirstRows(Matching(table[..i], PageFilter(keep, cursor)), take)
    {
      assert table[..i + 1][..i] == table[..i];
      if |page| < take && keep(table[i]) && (cursor.None? || Follows(table[i], cursor.value)) {
        page := page + [table[i]];
      }
    }
    assert table[..|table|] == table;
  }

  /** Rows printed one after the other by some line printer. */
  function Printed(rows: seq<Row>, line: Row -> string): string
  {
    if rows == [] then "" else Printed(rows[..|rows| - 1], line) + line(rows[|rows| - 1])
  }

  lemma {:induction false} PrintedConcat(xs: seq<Row>, ys: seq<Row>, line: Row -> string)
    ensures Printed(xs + ys, line) == Printed(xs, line) + Printed(ys, line)
  {
    if ys == [] {
      assert xs + ys == xs && Printed(xs, line) + "" == Printed(xs, line);
    } else {
      var n := |ys| - 1;
      assert (xs + ys)[..|xs + ys| - 1] == xs + ys[..n];
      PrintedConcat(xs, ys[..n], line);
      Associative(Printed(xs, line), Printed(ys[..n], line), line(ys[n]));
    }
  }

  /** Appends the lines of a page. */
  method AppendPage(text: string, header: string, ghost rows: seq<Row>, page: seq<Row>, line: Row -> string) returns (longer: string)
    requires text == header + Printed(rows, line)
    ensures longer == header + Printed(rows + page, line)
  {
    longer := text;
    for i := 0 to |page|
      invariant longer == text + Printed(page[..i], line)
    {
      assert page[..i + 1][..i] == page[..i];
      Associative(text, Printed(page[..i], line), line(page[i]));
      longer := longer + line(page[i]);
    }
    assert page[..|page|] == page;
    PrintedConcat(rows, page, line);
    Associative(header, Printed(rows, line), Printed(page, line));
  }

  /** The cursor stands behind the first k rows. */
  predicate Behind(cursor: Option<Cursor>, rows: seq<Row>, k: nat)
  {
    k <= |rows| && cursor == if k == 0 then None else Some(CursorOf(rows[k - 1]))
  }

  /** A fetched page is the next stretch of the export, the last one if it is short. */
  method FetchNext(table: seq<Row>, keep: Row -> bool, cursor: Option<Cursor>, ghost rows: seq<Row>, ghost k: nat)
    returns (page: seq<Row>, next: Option<Cursor>)
    requires Ordered(table) && rows == Matching(table, keep) && Behind(cursor, rows, k)
    ensures |page| <= PAGE_SIZE && k + |page| <= |rows| && rows[..k] + page == rows[..k + |page|]
    ensures |page| < PAGE_SIZE ==> rows[..k + |page|] == rows
    ensures |page| == PAGE_SIZE ==> Behind(next, rows, k + |page|)
  {
    page := FetchPage(table, keep, cursor, PAGE_SIZE);
    PageIsNext(table, keep, k, PAGE_SIZE);
    assert page == rows[k..k + |page|];
    next := if page == [] then cursor else Some(CursorOf(page[|page| - 1]));
  }

  /** One fetch per full page, and one for the short page that ends the export. */
  function Fetches(rows: nat): nat { rows / 500 + 1 }

  lemma LastFetch(rows: nat, fetches: nat, short: nat)
    requires rows == 500 * (fetches - 1) + short && short < 500
    ensures fetches == Fetches(rows)
  {
  }

  /** Page after page behind the last printed row, until a page is short. */
  method PrintPages(table: seq<Row>, keep: Row -> bool, ghost rows: seq<Row>, header: string, line: Row -> string)
    returns (text: string, fetches: nat)
    requires Ordered(table) && rows == Matching(table, keep)
    ensures text == header + Printed(rows, line)
    ensures fetches == Fetches(|rows|)
  {
    ghost var done := 0;
    text, fetches := header, 0;
    var cursor: Option<Cursor> := None;
    while true
      invariant done == 500 * fetches && Behind(cursor, rows, done)
      invariant text == header + Printed(rows[..done], line)
      decreases |rows| - done
    {
      var page, next := FetchNext(table, keep, cursor, rows, done);
      fetches := fetches + 1;
      text := AppendPage(text, header, rows[..done], page, line);
      done := done + |page|;
      if |page| < PAGE_SIZE {
        LastFetch(|rows|, fetches, |page|);
        return;
      }
      cursor := next;
    }
  }

  function LineOf(includeTenant: bool, iso: nat -> string): Row -> string
  {
    (r: Row) => CsvLine(InvoiceCells(r, includeTenant, iso))
  }

  lemma {:induction false} PrintedLines(rows: seq<Row>, includeTenant: bool, iso: nat -> string)
    ensures Printed(rows, LineOf(includeTenant, iso)) == Lines(AllCells(rows, includeTenant, iso))
  {
    if rows != [] {
      var front := rows[..|rows| - 1];
      PrintedLines(front, includeTenant, iso);
      var cells := AllCells(rows, includeTenant, iso);
      assert cells[..|cells| - 1] == AllCells(front, includeTenant, iso);
    }
  }

  lemma HeaderAndLines(rows: seq<Row>, includeTenant: bool, iso: nat -> string)
    ensures Lines(FileCells(rows, includeTenant, iso)) == CsvLine(Headers(includeTenant)) + Lines(AllCells(rows, includeTenant, iso))
  {
    var all := FileCells(rows, includeTenant, iso);
    LinesFront(all);
    assert all[1..] == AllCells(rows, includeTenant, iso);
  }

  /** createInvoiceCsvStream: the header, then every matching row once, in order. */
  method ExportInvoices(table: seq<Row>, keep: Row -> bool, includeTenant: bool, iso: nat -> string)
    returns (text: string, fetches: nat)
    requires Ordered(table)
    ensures text == Lines(FileCells(Matching(table, keep), includeTenant, iso))
    ensures fetches == Fetches(|Matching(table, keep)|)
  {
    var line := LineOf(includeTenant, iso);
    text, fetches := PrintPages(table, keep, Matching(table, keep), CsvLine(Headers(includeTenant)), line);
    PrintedLines(Matching(table, keep), includeTenant, iso);
    HeaderAndLines(Matching(table, keep), includeTenant, iso);
  }

  /** The exported text reads back as the header and one record per matching row, in order, all of one width. */
  lemma ExportRoundTrip(table: seq<Row>, keep: Row -> bool, includeTenant: bool, iso: nat -> string)
    ensures var cells := FileCells(Matching(table, keep), includeTenant, iso);
            && ParseFile(Lines(cells)) == Some(AllTexts(cells))
            && |cells| == 1 + |Matching(table, keep)|
            && forall i :: 0 <= i < |cells| ==> |AllTexts(cells)[i]| == |Headers(includeTenant)|
  {
    FileRoundTrip(FileCells(Matching(table, keep), includeTenant, iso));
  }

  // ------------------------------------------------------------------ column by column

  const HEADINGS: seq<string> :=
    ["Invoice number", "Tenant", "Status", "Amount (minor units)", "Currency", "Due at", "Paid at", "Created at"]

  function DateText(t: Option<nat>, iso: nat -> string): string
  {
    match t case None => "" case Some(v) => Guarded(iso(v))
  }

  /** What a reader expects under a heading. */
  function FieldUnder(heading: string, r: Row, iso: nat -> string): string
  {
    if heading == "Invoice number" then Guarded(r.number)
    else if heading == "Tenant" then (match r.tenant case None => "" case Some(name) => Guarded(name))
    else if heading == "Status" then Guarded(r.status)
    else if heading == "Amount (minor units)" then NumberText(r.amount)
    else if heading == "Currency" then Guarded(r.currency)
    else if heading == "Due at" then DateText(r.dueAt, iso)
    else if heading == "Paid at" then DateText(r.paidAt, iso)
    else if heading == "Created at" then Guarded(iso(r.createdAt))
    else ""
  }

  /** The headings of an export: all of them, or all but the tenant. */
  function HeadingsOf(includeTenant: bool): seq<string> { if includeTenant then HEADINGS else HEADINGS[..1] + HEADINGS[2..] }

  lemma PlainWord(s: string)
    requires s != "" && !StartsFormula(s[0]) && !IsSpace(s[0])
    ensures Guarded(s) == s
  {
  }

  lemma {:induction false} HeadingIsPlain(i: nat)
    requires i < |HEADINGS|
    ensures Guarded(HEADINGS[i]) == HEADINGS[i]
  {
    PlainWord(HEADINGS[i]);
  }

  lemma HeadingTexts(includeTenant: bool)
    ensures Texts(Headers(includeTenant)) == HeadingsOf(includeTenant)
  {
    var cells, headings := Headers(includeTenant), HeadingsOf(includeTenant);
    forall j | 0 <= j < |headings| ensures TextOf(cells[j]) == headings[j] {
      HeadingIsPlain(if includeTenant || j == 0 then j else j + 1);
    }
  }

  lemma CellsUnderHeadings(r: Row, includeTenant: bool, iso: nat -> string, j: nat)
    requires j < |HeadingsOf(includeTenant)|
    ensures |InvoiceCells(r, includeTenant, iso)| == |HeadingsOf(includeTenant)|
    ensures TextOf(InvoiceCells(r, includeTenant, iso)[j]) == FieldUnder(HeadingsOf(includeTenant)[j], r, iso)
  {
    var k := if includeTenant || j == 0 then j else j + 1;
    assert HeadingsOf(includeTenant)[j] == HEADINGS[k];
  }

  /** A record holds, under every heading, that field of the row. */
  predicate RecordOf(record: seq<string>, headings: seq<string>, r: Row, iso: nat -> string)
  {
    |record| == |headings| && forall j :: 0 <= j < |headings| ==> record[j] == FieldUnder(headings[j], r, iso)
  }

  /**
    Reading the exported text back gives the headings, with the tenant only when it was asked for, and then
    one record for each matching row in order, which holds that row's field under every heading.
  */
  lemma RecordsHoldTheirRows(table: seq<Row>, keep: Row -> bool, includeTenant: bool, iso: nat -> string)
    ensures ReadsAs(ParseFile(Lines(FileCells(Matching(table, keep), includeTenant, iso))), Matching(table, keep), includeTenant, iso)
  {
    FileRoundTrip(FileCells(Matching(table, keep), includeTenant, iso));
    RowsReadAs(Matching(table, keep), includeTenant, iso);
  }

  predicate ReadsAs(read: Option<seq<seq<string>>>, rows: seq<Row>, includeTenant: bool, iso: nat -> string)
  {
    && read.Some? && |read.value| == 1 + |rows| && read.value[0] == HeadingsOf(includeTenant)
    && forall i :: 0 <= i < |rows| ==> RecordOf(read.value[i + 1], HeadingsOf(includeTenant), rows[i], iso)
  }

  lemma RowsReadAs(rows: seq<Row>, includeTenant: bool, iso: nat -> string)
    ensures ReadsAs(Some(AllTexts(FileCells(rows, includeTenant, iso))), rows, includeTenant, iso)
  {
    var cells := FileCells(rows, includeTenant, iso);
    HeadingTexts(includeTenant);
    forall i | 0 <= i < |rows| ensures RecordOf(AllTexts(cells)[i + 1], HeadingsOf(includeTenant), rows[i], iso) {
      assert cells[i + 1] == InvoiceCells(rows[i], includeTenant, iso);
      RecordUnderHeadings(rows[i], includeTenant, iso);
    }
  }

  lemma RecordUnderHeadings(r: Row, includeTenant: bool, iso: nat -> string)
    ensures RecordOf(Texts(InvoiceCells(r, includeTenant, iso)), HeadingsOf(includeTenant), r, iso)
  {
    var headings := HeadingsOf(includeTenant);
    CellsUnderHeadings(r, includeTenant, iso, 0);
    forall j | 0 <= j < |headings| ensures Texts(InvoiceCells(r, includeTenant, iso))[j] == FieldUnder(headings[j], r, iso) {
      CellsUnderHeadings(r, includeTenant, iso, j);
    }
  }

  /** The export runs from the oldest invoice to the newest, and by id among those created at once. */
  lemma ExportedByAge(table: seq<Row>, keep: Row -> bool, i: nat, j: nat)
    requires Ordered(table) && i < j < |Matching(table, keep)|
    ensures var rows := Matching(table, keep);
            rows[i].createdAt < rows[j].createdAt || (rows[i].createdAt == rows[j].createdAt && rows[i].id < rows[j].id)
  {
    MatchingOrdered(table, keep);
  }
}
