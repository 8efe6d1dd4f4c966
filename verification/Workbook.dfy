/** From workbook rows to invoices: column mapping, padding filters, the row cap, and the join of lines to headers. */
module Workbook {
  import opened Text
  import opened Calc

  // --- Sheets and columns ---------------------------------------------------

  /** A row of a sheet, its cells already read as text. */
  datatype SheetRow = SheetRow(number: nat, cells: seq<string>)

  datatype Column = Column(header: string, field: string, derived: bool)

  const HEADER_COLUMNS: seq<Column> := [
    Column("Invoice Number", "invoiceNumber", false), Column("Invoice Type", "invoiceType", false),
    Column("Issue Date", "issueDate", false), Column("Issue Time", "issueTime", false),
    Column("Document Currency", "currency", false), Column("FX Rate to AED", "fxRate", false),
    Column("Supplier TRN", "supplierTrn", false), Column("Supplier Name", "supplierName", false),
    Column("Buyer TRN", "buyerTrn", false), Column("Buyer Name", "buyerName", false),
    Column("Buyer Emirate", "buyerEmirate", false), Column("PO Reference", "poReference", false),
    Column("Preceding Invoice ID", "precedingInvoiceId", false), Column("Payment Means", "paymentMeans", false)
  ]

  const LINE_COLUMNS: seq<Column> := [
    Column("Invoice Number", "invoiceNumber", false), Column("Line Number", "lineNumber", false),
    Column("Item Description", "description", false), Column("HS Code", "hsCode", false),
    Column("Quantity", "quantity", false), Column("UOM", "uom", false), Column("Unit Price (Net)", "unitPrice", false),
    Column("Line Discount", "lineDiscount", false), Column("VAT Category", "vatCategory", false),
    Column("VAT Rate (%)", "vatRate", false), Column("Line Net Amount", "netAmount", true),
    Column("Line VAT Amount", "vatAmount", true), Column("Line Grand Total", "lineTotal", true)
  ]

  predicate HeaderChar(c: char) {
    'a' <= c <= 'z' || IsDigit(c)
  }

  function NormaliseHeader(value: string): string {
    Filter(ToLower(Trim(value)), HeaderChar)
  }

  /** The field a header text stands for: the last column specified under it. */
  function FieldFor(expected: seq<Column>, normalised: string): Option<string> {
    if expected == [] then None
    else if NormaliseHeader(expected[|expected| - 1].header) == normalised then Some(expected[|expected| - 1].field)
    else FieldFor(expected[..|expected| - 1], normalised)
  }

  /** Each field under the first column that stands for it. */
  function ColumnsOf(expected: seq<Column>, cells: seq<string>): map<string, nat> {
    if cells == [] then map[]
    else
      var n := |cells| - 1;
      var front, field := ColumnsOf(expected, cells[..n]), FieldFor(expected, NormaliseHeader(cells[n]));
      if field.Some? && field.value !in front then front[field.value := n] else front
  }

  /** Columns are found by their header text wherever they stand; when a text is repeated, the first wins. */
  lemma {:induction false} ColumnsAreFirst(expected: seq<Column>, cells: seq<string>, field: string)
    ensures var c := ColumnsOf(expected, cells);
      && (field in c ==> c[field] < |cells| && FieldFor(expected, NormaliseHeader(cells[c[field]])) == Some(field))
      && (forall j :: 0 <= j < |cells| && FieldFor(expected, NormaliseHeader(cells[j])) == Some(field) ==> field in c && c[field] <= j)
  {
    hide FieldFor, NormaliseHeader;
    if cells != [] {
      ColumnsAreFirst(expected, cells[..|cells| - 1], field);
    }
  }

  /** Headers of the required columns the sheet does not have. */
  function Missing(expected: seq<Column>, columns: map<string, nat>): seq<string> {
    if expected == [] then []
    else
      var last := expected[|expected| - 1];
      Missing(expected[..|expected| - 1], columns) + if !last.derived && last.field !in columns then [last.header] else []
  }

  /** Each column under its field, wherever it stands; the first one wins. */
  method BuildColumnMap(cells: seq<string>, expected: seq<Column>) returns (columns: map<string, nat>, missing: seq<string>)
    ensures columns == ColumnsOf(expected, cells)
    ensures missing == Missing(expected, columns)
  {
    hide NormaliseHeader, FieldFor;
    columns := map[];
    for n := 0 to |cells|
      invariant columns == ColumnsOf(expected, cells[..n])
    {
      assert cells[..n + 1][..n] == cells[..n];
      var field := FieldFor(expected, NormaliseHeader(cells[n]));
      if field.Some? && field.value !in columns {
        columns := columns[field.value := n];
      }
    }
    assert cells[..|cells|] == cells;
    missing := [];
    for n := 0 to |expected|
      invariant missing == Missing(expected[..n], columns)
    {
      assert expected[..n + 1][..n] == expected[..n];
      if !expected[n].derived && expected[n].field !in columns {
        missing := missing + [expected[n].header];
      }
    }
    assert expected[..|expected|] == expected;
  }

  // --- Rows -----------------------------------------------------------------

  function Read(row: SheetRow, columns: map<string, nat>, field: string): string {
    if field in columns && columns[field] < |row.cells| then Trim(row.cells[columns[field]]) else ""
  }

  /** Something a user typed: fields the template pre-fills do not count. */
  predicate MeaningfulHeader(row: SheetRow, columns: map<string, nat>) {
    || Read(row, columns, "invoiceNumber") != "" || Read(row, columns, "invoiceType") != ""
    || Read(row, columns, "issueDate") != "" || Read(row, columns, "issueTime") != ""
    || Read(row, columns, "buyerTrn") != "" || Read(row, columns, "buyerName") != ""
    || Read(row, columns, "buyerEmirate") != "" || Read(row, columns, "poReference") != ""
    || Read(row, columns, "precedingInvoiceId") != "" || Read(row, columns, "paymentMeans") != ""
  }

  predicate MeaningfulLine(row: SheetRow, columns: map<string, nat>) {
    || Read(row, columns, "invoiceNumber") != "" || Read(row, columns, "description") != ""
    || Read(row, columns, "quantity") != "" || Read(row, columns, "unitPrice") != ""
  }

  /** Where identifiers come from: one drawn for every row read. */
  datatype Ids = Ids(invoice: nat -> string, line: nat -> string)

  function HeaderOf(row: SheetRow, c: map<string, nat>, ids: Ids): Invoice {
    Invoice(ids.invoice(row.number), Read(row, c, "invoiceNumber"), Read(row, c, "invoiceType"), Read(row, c, "issueDate"),
            Read(row, c, "issueTime"), Read(row, c, "currency"), Read(row, c, "fxRate"), Read(row, c, "supplierTrn"),
            Read(row, c, "supplierName"), Read(row, c, "buyerTrn"), Read(row, c, "buyerName"), Read(row, c, "buyerEmirate"),
            Read(row, c, "poReference"), Read(row, c, "precedingInvoiceId"), Read(row, c, "paymentMeans"), [],
            "", "", "", "", "", "", Some(row.number))
  }

  datatype Pending = Pending(invoiceNumber: string, line: Line)

  function LineOf(row: SheetRow, c: map<string, nat>, ids: Ids): Pending {
    Pending(Read(row, c, "invoiceNumber"),
      Line(ids.line(row.number), Read(row, c, "lineNumber"), Read(row, c, "description"), Read(row, c, "hsCode"),
           Read(row, c, "quantity"), Read(row, c, "uom"), Read(row, c, "unitPrice"), Read(row, c, "lineDiscount"),
           Read(row, c, "vatCategory"), Read(row, c, "vatRate"), Read(row, c, "netAmount"), Read(row, c, "vatAmount"),
           Read(row, c, "lineTotal"), Some(row.number)))
  }

  /** The invoices of the rows that are not padding, in row order. */
  function Headers(rows: seq<SheetRow>, c: map<string, nat>, ids: Ids): seq<Invoice> {
    if rows == [] then []
    else
      var last := rows[|rows| - 1];
      Headers(rows[..|rows| - 1], c, ids) + if MeaningfulHeader(last, c) then [HeaderOf(last, c, ids)] else []
  }

  function Lines(rows: seq<SheetRow>, c: map<string, nat>, ids: Ids): seq<Pending> {
    if rows == [] then []
    else
      var last := rows[|rows| - 1];
      Lines(rows[..|rows| - 1], c, ids) + if MeaningfulLine(last, c) then [LineOf(last, c, ids)] else []
  }

  // --- The join -------------------------------------------------------------

  /** Each non-blank number with the first header that carries it. */
  function NumberIndex(invoices: seq<Invoice>): (r: map<string, nat>)
    ensures forall n :: n in r ==> r[n] < |invoices|
  {
    if invoices == [] then map[]
    else
      var n := |invoices| - 1;
      var front, number := NumberIndex(invoices[..n]), invoices[n].invoiceNumber;
      if number != "" && number !in front then front[number := n] else front
  }

  lemma {:induction false} IndexIsFirst(invoices: seq<Invoice>, number: string)
    ensures var r := NumberIndex(invoices);
      && (number in r ==> number != "" && invoices[r[number]].invoiceNumber == number)
      && (forall j :: 0 <= j < |invoices| && invoices[j].invoiceNumber == number && number != "" ==> number in r && r[number] <= j)
  {
    if invoices != [] {
      IndexIsFirst(invoices[..|invoices| - 1], number);
    }
  }

  datatype Joined = Joined(invoices: seq<Invoice>, orphans: seq<Pending>)

  function JoinOne(j: Joined, index: map<string, nat>, p: Pending): Joined {
    if p.invoiceNumber in index && index[p.invoiceNumber] < |j.invoices| then
      var k := index[p.invoiceNumber];
      j.(invoices := j.invoices[k := j.invoices[k].(lines := j.invoices[k].lines + [p.line])])
    else
      j.(orphans := j.orphans + [p])
  }

  function Join(headers: seq<Invoice>, index: map<string, nat>, pending: seq<Pending>): (r: Joined)
    ensures |r.invoices| == |headers|
  {
    if pending == [] then Joined(headers, [])
    else JoinOne(Join(headers, index, pending[..|pending| - 1]), index, pending[|pending| - 1])
  }

  // --- Ordering -------------------------------------------------------------

  function RowOf(l: Line): int {
    match l.sourceRow
    case Some(r) => r
    case None => 0
  }

  /** Negative when `a` sorts before `b`: by number when both are numeric and differ, by source row otherwise. */
  function Compare(a: Line, b: Line, num: string -> Option<real>): real {
    var x, y := num(a.lineNumber), num(b.lineNumber);
    if x.Some? && y.Some? && x.value != y.value then x.value - y.value else RowOf(a) as real - RowOf(b) as real
  }

  function Insert(l: Line, sorted: seq<Line>, num: string -> Option<real>): seq<Line> {
    if sorted == [] then [l]
    else if Compare(l, sorted[|sorted| - 1], num) < 0.0 then Insert(l, sorted[..|sorted| - 1], num) + [sorted[|sorted| - 1]]
    else sorted + [l]
  }

  function Ordered(lines: seq<Line>, num: string -> Option<real>): seq<Line> {
    if lines == [] then [] else Insert(lines[|lines| - 1], Ordered(lines[..|lines| - 1], num), num)
  }

  function OrderedAll(invoices: seq<Invoice>, num: string -> Option<real>): (r: seq<Invoice>)
    ensures |r| == |invoices|
    ensures forall i :: 0 <= i < |r| ==> r[i] == invoices[i].(lines := Ordered(invoices[i].lines, num))
  {
    seq(|invoices|, i requires 0 <= i < |invoices| => invoices[i].(lines := Ordered(invoices[i].lines, num)))
  }

  // --- The parser -----------------------------------------------------------

  datatype ParseError =
    | HeaderColumnsMissing(headers: seq<string>)
    | LineColumnsMissing(headers: seq<string>)
    | TooManyRows(max: nat)
    | NoHeaderSheet
    | NoLineSheet

  datatype ParseResult =
    | Parsed(invoices: seq<Invoice>, orphans: seq<Pending>, warnings: seq<string>)
    | Failed(error: ParseError)

  /** Numbers on more than one header row, one warning for each row after the first. */
  function Warnings(invoices: seq<Invoice>): seq<string> {
    if invoices == [] then []
    else
      var front, number := invoices[..|invoices| - 1], invoices[|invoices| - 1].invoiceNumber;
      Warnings(front) + if number != "" && number in NumberIndex(front) then [number] else []
  }

  /** A sheet's header row and its data rows. */
  datatype SheetText = SheetText(header: seq<string>, rows: seq<SheetRow>)

  function HeaderInvoices(sheet: Option<SheetText>, ids: Ids): seq<Invoice> {
    if sheet.None? then [] else Headers(sheet.value.rows, ColumnsOf(HEADER_COLUMNS, sheet.value.header), ids)
  }

  function PendingLines(sheet: Option<SheetText>, ids: Ids): seq<Pending> {
    if sheet.None? then [] else Lines(sheet.value.rows, ColumnsOf(LINE_COLUMNS, sheet.value.header), ids)
  }

  function MissingIn(sheet: Option<SheetText>, expected: seq<Column>): seq<string> {
    if sheet.None? then [] else Missing(expected, ColumnsOf(expected, sheet.value.header))
  }

  /** What a workbook parses to, its checks in the order they are made. */
  function ParseOf(headerSheet: Option<SheetText>, lineSheet: Option<SheetText>, maxRows: nat, ids: Ids, num: string -> Option<real>): ParseResult {
    var headers, pending := HeaderInvoices(headerSheet, ids), PendingLines(lineSheet, ids);
    if MissingIn(headerSheet, HEADER_COLUMNS) != [] then Failed(HeaderColumnsMissing(MissingIn(headerSheet, HEADER_COLUMNS)))
    else if |headers| > maxRows then Failed(TooManyRows(maxRows))
    else if MissingIn(lineSheet, LINE_COLUMNS) != [] then Failed(LineColumnsMissing(MissingIn(lineSheet, LINE_COLUMNS)))
    else if |headers| + |pending| > maxRows then Failed(TooManyRows(maxRows))
    else if headerSheet.None? then Failed(NoHeaderSheet)
    else if lineSheet.None? then Failed(NoLineSheet)
    else
      var joined := Join(headers, NumberIndex(headers), pending);
      Parsed(OrderedAll(joined.invoices, num), joined.orphans, Warnings(headers))
  }

  /** Reads the header rows, stopping as soon as the cap is passed. */
  method ReadHeaders(rows: seq<SheetRow>, c: map<string, nat>, ids: Ids, maxRows: nat)
    returns (invoices: seq<Invoice>, byNumber: map<string, nat>, warnings: seq<string>, over: bool)
    ensures over <==> |Headers(rows, c, ids)| > maxRows
    ensures !over ==> invoices == Headers(rows, c, ids) && warnings == Warnings(invoices) && byNumber == NumberIndex(invoices)
  {
    hide MeaningfulHeader, Read, HeaderOf;
    invoices, byNumber, warnings, over := [], map[], [], false;
    for n := 0 to |rows|
      invariant invoices == Headers(rows[..n], c, ids) && |invoices| <= maxRows && !over
      invariant warnings == Warnings(invoices) && byNumber == NumberIndex(invoices)
    {
      assert rows[..n + 1][..n] == rows[..n];
      if MeaningfulHeader(rows[n], c) {
        if |invoices| + 1 > maxRows {
          over := true;
          MoreHeaders(rows, n + 1, c, ids);
          return;
        }
        var invoice := HeaderOf(rows[n], c, ids);
        var number := invoice.invoiceNumber;
        OneMoreHeader(invoices, invoice);
        if number != "" && number in byNumber {
          warnings := warnings + [number];
        } else if number != "" {
          byNumber := byNumber[number := |invoices|];
        }
        invoices := invoices + [invoice];
      }
      hide NumberIndex, Warnings;
    }
    assert rows[..|rows|] == rows;
  }

  lemma OneMoreHeader(invoices: seq<Invoice>, invoice: Invoice)
    ensures var number, index := invoice.invoiceNumber, NumberIndex(invoices);
      && NumberIndex(invoices + [invoice]) == (if number != "" && number !in index then index[number := |invoices|] else index)
      && Warnings(invoices + [invoice]) == Warnings(invoices) + (if number != "" && number in index then [number] else [])
  {
    assert (invoices + [invoice])[..|invoices|] == invoices;
  }

  lemma {:induction false} MoreHeaders(rows: seq<SheetRow>, n: nat, c: map<string, nat>, ids: Ids)
    requires n <= |rows|
    ensures |Headers(rows, c, ids)| >= |Headers(rows[..n], c, ids)|
    decreases |rows|
  {
    hide MeaningfulHeader, HeaderOf;
    if n < |rows| {
      MoreHeaders(rows[..|rows| - 1], n, c, ids);
      assert rows[..|rows| - 1][..n] == rows[..n];
    } else {
      assert rows[..n] == rows;
    }
  }

  /** Reads the line rows while there is room under the cap. */
  method ReadLines(rows: seq<SheetRow>, c: map<string, nat>, ids: Ids, room: nat) returns (pending: seq<Pending>, over: bool)
    ensures over <==> |Lines(rows, c, ids)| > room
    ensures !over ==> pending == Lines(rows, c, ids)
  {
    hide MeaningfulLine, Read, LineOf;
    pending, over := [], false;
    for n := 0 to |rows|
      invariant pending == Lines(rows[..n], c, ids) && |pending| <= room && !over
    {
      assert rows[..n + 1][..n] == rows[..n];
      if MeaningfulLine(rows[n], c) {
        if |pending| + 1 > room {
          over := true;
          MoreLines(rows, n + 1, c, ids);
          return;
        }
        pending := pending + [LineOf(rows[n], c, ids)];
      }
    }
    assert rows[..|rows|] == rows;
  }

  lemma {:induction false} MoreLines(rows: seq<SheetRow>, n: nat, c: map<string, nat>, ids: Ids)
    requires n <= |rows|
    ensures |Lines(rows, c, ids)| >= |Lines(rows[..n], c, ids)|
    decreases |rows|
  {
    hide MeaningfulLine, LineOf;
    if n < |rows| {
      MoreLines(rows[..|rows| - 1], n, c, ids);
      assert rows[..|rows| - 1][..n] == rows[..n];
    } else {
      assert rows[..n] == rows;
    }
  }

  /** Pushes each line into its invoice, or keeps it aside, then sorts every invoice's lines. */
  method JoinLines(headers: seq<Invoice>, byNumber: map<string, nat>, pending: seq<Pending>, num: string -> Option<real>)
    returns (invoices: seq<Invoice>, orphans: seq<Pending>)
    requires byNumber == NumberIndex(headers)
    ensures invoices == OrderedAll(Join(headers, byNumber, pending).invoices, num) && orphans == Join(headers, byNumber, pending).orphans
  {
    invoices, orphans := headers, [];
    for n := 0 to |pending|
      invariant Joined(invoices, orphans) == Join(headers, byNumber, pending[..n])
    {
      assert pending[..n + 1][..n] == pending[..n];
      var p := pending[n];
      if p.invoiceNumber in byNumber {
        var k := byNumber[p.invoiceNumber];
        invoices := invoices[k := invoices[k].(lines := invoices[k].lines + [p.line])];
      } else {
        orphans := orphans + [p];
      }
    }
    assert pending[..|pending|] == pending;
    ghost var joined := invoices;
    for n := 0 to |invoices|
      invariant |invoices| == |joined|
      invariant forall k :: 0 <= k < n ==> invoices[k] == joined[k].(lines := Ordered(joined[k].lines, num))
      invariant forall k :: n <= k < |joined| ==> invoices[k] == joined[k]
    {
      var sorted := SortLines(invoices[n].lines, num);
      invoices := invoices[n := invoices[n].(lines := sorted)];
    }
  }

  /** A stable sort by the comparison above. */
  method SortLines(lines: seq<Line>, num: string -> Option<real>) returns (sorted: seq<Line>)
    ensures sorted == Ordered(lines, num)
  {
    hide Compare;
    sorted := [];
    for n := 0 to |lines|
      invariant sorted == Ordered(lines[..n], num)
    {
      assert lines[..n + 1][..n] == lines[..n];
      sorted := Insert(lines[n], sorted, num);
    }
    assert lines[..|lines|] == lines;
  }

  /** The whole parse: each sheet is mapped and read if it is there, then the lines are joined to the headers. */
  method ParseWorkbook(headerSheet: Option<SheetText>, lineSheet: Option<SheetText>, maxRows: nat, ids: Ids, num: string -> Option<real>)
    returns (r: ParseResult)
    ensures r == ParseOf(headerSheet, lineSheet, maxRows, ids, num)
  {
    hide ColumnsOf, Missing, Headers, Lines, Warnings, NumberIndex, Join, OrderedAll;
    var headers: seq<Invoice>, byNumber: map<string, nat>, warnings: seq<string> := [], map[], [];
    var pending: seq<Pending> := [];
    if headerSheet.Some? {
      var columns, missing := BuildColumnMap(headerSheet.value.header, HEADER_COLUMNS);
      if missing != [] {
        return Failed(HeaderColumnsMissing(missing));
      }
      var over;
      headers, byNumber, warnings, over := ReadHeaders(headerSheet.value.rows, columns, ids, maxRows);
      if over {
        return Failed(TooManyRows(maxRows));
      }
    }
    if lineSheet.Some? {
      var columns, missing := BuildColumnMap(lineSheet.value.header, LINE_COLUMNS);
      if missing != [] {
        return Failed(LineColumnsMissing(missing));
      }
      var over;
      pending, over := ReadLines(lineSheet.value.rows, columns, ids, maxRows - |headers|);
      if over {
        return Failed(TooManyRows(maxRows));
      }
    }
    if headerSheet.None? {
      return Failed(NoHeaderSheet);
    }
    if lineSheet.None? {
      return Failed(NoLineSheet);
    }
    var invoices, orphans := JoinLines(headers, byNumber, pending, num);
    r := Parsed(invoices, orphans, warnings);
  }
}
