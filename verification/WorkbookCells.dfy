/** Which cell every field of a parsed invoice comes from. */
module WorkbookCells {
  import opened Text
  import opened Money
  import opened Calc
  import opened Workbook
  import opened WorkbookResults

  // --- Finding a cell -------------------------------------------------------

  /** A column heading as it is compared: its letters and digits, in lower case. */
  function Heading(text: string): string {
    if text == "" then ""
    else
      var c := LowerChar(text[0]);
      (if 'a' <= c <= 'z' || '0' <= c <= '9' then [c] else "") + Heading(text[1..])
  }

  /** The first column under this heading, or the number of columns when there is none. */
  function ColumnUnder(headings: seq<string>, title: string): (j: nat)
    ensures j <= |headings| && (j < |headings| ==> Heading(headings[j]) == Heading(title))
    ensures forall k :: 0 <= k < j ==> Heading(headings[k]) != Heading(title)
  {
    if headings == [] || Heading(headings[0]) == Heading(title) then 0 else 1 + ColumnUnder(headings[1..], title)
  }

  /** The trimmed text of a row under a heading; nothing when the column or the cell is missing. */
  function Cell(headings: seq<string>, row: SheetRow, title: string): string {
    var j := ColumnUnder(headings, title);
    if j < |headings| && j < |row.cells| then Trim(row.cells[j]) else ""
  }

  lemma {:induction false} FilteredHeading(text: string)
    ensures Filter(ToLower(text), HeaderChar) == Heading(text)
  {
    if text != "" {
      FilteredHeading(text[1..]);
      assert ToLower(text)[1..] == ToLower(text[1..]);
    }
  }

  lemma NormalisedIs(text: string)
    ensures NormaliseHeader(text) == Heading(text)
  {
    FilteredHeading(Trim(text));
    FilteredHeading(text);
    HeadingIgnoresTrim(text);
    hide Trim, Filter;
  }

  lemma HeadingIgnoresTrim(text: string)
    ensures Heading(Trim(text)) == Heading(text)
  {
    HeadingIgnoresStart(text);
    HeadingIgnoresEnd(TrimStart(text));
  }

  lemma {:induction false} HeadingIgnoresStart(text: string)
    ensures Heading(TrimStart(text)) == Heading(text)
  {
    if text != "" && IsSpace(text[0]) {
      HeadingIgnoresStart(text[1..]);
    }
  }

  lemma {:induction false} HeadingIgnoresEnd(text: string)
    ensures Heading(TrimEnd(text)) == Heading(text)
  {
    if text != "" && IsSpace(text[|text| - 1]) {
      var front, last := text[..|text| - 1], text[|text| - 1..];
      HeadingIgnoresEnd(front);
      HeadingConcat(front, last);
      assert text == front + last;
      assert last[1..] == "" && Heading(last) == "" + Heading("");
    }
  }

  lemma {:induction false} HeadingConcat(a: string, b: string)
    ensures Heading(a + b) == Heading(a) + Heading(b)
  {
    if a == "" {
      assert a + b == b;
    } else {
      assert (a + b)[1..] == a[1..] + b;
      HeadingConcat(a[1..], b);
    }
  }

  // --- The column map reads those cells -------------------------------------

  /** No two columns share a heading or a field. */
  predicate Separate(expected: seq<Column>) {
    && (forall i, j :: 0 <= i < j < |expected| ==> Heading(expected[i].header) != Heading(expected[j].header))
    && (forall i, j :: 0 <= i < j < |expected| ==> expected[i].field != expected[j].field)
  }

  lemma {:induction false} FieldIs(expected: seq<Column>, normalised: string, i: nat)
    requires Separate(expected) && i < |expected|
    ensures FieldFor(expected, normalised) == Some(expected[i].field) <==> normalised == Heading(expected[i].header)
  {
    var n := |expected| - 1;
    hide NormaliseHeader, Heading;
    NormalisedIs(expected[n].header);
    if i < n {
      FieldIs(expected[..n], normalised, i);
      assert Heading(expected[i].header) != Heading(expected[n].header) && expected[i].field != expected[n].field;
    } else if FieldFor(expected[..n], normalised).Some? {
      FieldFound(expected[..n], normalised);
    }
  }

  lemma {:induction false} FieldFound(expected: seq<Column>, normalised: string)
    requires FieldFor(expected, normalised).Some?
    ensures exists i :: 0 <= i < |expected| && expected[i].field == FieldFor(expected, normalised).value
  {
    hide NormaliseHeader;
    var n := |expected| - 1;
    if NormaliseHeader(expected[n].header) != normalised {
      FieldFound(expected[..n], normalised);
      var i :| 0 <= i < n && expected[..n][i].field == FieldFor(expected[..n], normalised).value;
      assert expected[i].field == FieldFor(expected, normalised).value;
    }
  }

  /** The column map sends a field to the first column under its heading. */
  lemma FieldColumn(expected: seq<Column>, headings: seq<string>, i: nat)
    requires Separate(expected) && i < |expected|
    ensures var c, j := ColumnsOf(expected, headings), ColumnUnder(headings, expected[i].header);
      expected[i].field in c <==> j < |headings|
    ensures var c, j := ColumnsOf(expected, headings), ColumnUnder(headings, expected[i].header);
      expected[i].field in c ==> c[expected[i].field] == j
  {
    hide FieldFor, ColumnsOf, NormaliseHeader, Heading, Separate;
    var field, title := expected[i].field, expected[i].header;
    ColumnsAreFirst(expected, headings, field);
    forall j | 0 <= j < |headings|
      ensures FieldFor(expected, NormaliseHeader(headings[j])) == Some(field) <==> Heading(headings[j]) == Heading(title)
    {
      NormalisedIs(headings[j]);
      FieldIs(expected, NormaliseHeader(headings[j]), i);
    }
    hide ColumnUnder;
  }

  lemma ReadsCell(expected: seq<Column>, headings: seq<string>, row: SheetRow, i: nat)
    requires Separate(expected) && i < |expected|
    ensures Read(row, ColumnsOf(expected, headings), expected[i].field) == Cell(headings, row, expected[i].header)
  {
    hide ColumnsOf, ColumnUnder, Heading, Trim, Separate;
    FieldColumn(expected, headings, i);
  }

  predicate Wordy(word: string) {
    forall c :: c in word ==> 'A' <= c <= 'Z' || 'a' <= c <= 'z' || IsDigit(c)
  }

  predicate Gap(text: string) {
    forall c :: c in text ==> c == ' ' || c == '(' || c == ')' || c == '%'
  }

  lemma {:induction false} WordHeading(word: string)
    requires Wordy(word)
    ensures Heading(word) == ToLower(word)
  {
    if word != "" {
      WordHeading(word[1..]);
      assert word[0] in word;
      assert ToLower(word) == [LowerChar(word[0])] + ToLower(word[1..]);
    }
  }

  lemma {:induction false} GapHeading(text: string)
    requires Gap(text)
    ensures Heading(text) == ""
  {
    if text != "" {
      assert text[0] in text && forall c :: c in text[1..] ==> c in text;
      GapHeading(text[1..]);
    }
  }

  /** Two words and what stands between and after them. */
  lemma Spelled(a: string, between: string, b: string, after: string, title: string, heading: string)
    requires Wordy(a) && Wordy(b) && Gap(between) && Gap(after)
    requires title == a + between + b + after && heading == ToLower(a) + ToLower(b)
    ensures Heading(title) == heading
  {
    hide Heading;
    WordHeading(a);
    WordHeading(b);
    GapHeading(between);
    GapHeading(after);
    HeadingConcat(a, between);
    HeadingConcat(a + between, b);
    HeadingConcat(a + between + b, after);
  }

  lemma InvoiceNumberTitle()
    ensures Heading("Invoice Number") == "invoicenumber"
  {
    hide Heading;
    Spelled("Invoice", " ", "Number", "", "Invoice Number", "invoicenumber");
  }

  lemma InvoiceTypeTitle()
    ensures Heading("Invoice Type") == "invoicetype"
  {
    hide Heading;
    Spelled("Invoice", " ", "Type", "", "Invoice Type", "invoicetype");
  }

  lemma IssueDateTitle()
    ensures Heading("Issue Date") == "issuedate"
  {
    hide Heading;
    Spelled("Issue", " ", "Date", "", "Issue Date", "issuedate");
  }

  lemma IssueTimeTitle()
    ensures Heading("Issue Time") == "issuetime"
  {
    hide Heading;
    Spelled("Issue", " ", "Time", "", "Issue Time", "issuetime");
  }

  lemma DocumentCurrencyTitle()
    ensures Heading("Document Currency") == "documentcurrency"
  {
    hide Heading;
    Spelled("Document", " ", "Currency", "", "Document Currency", "documentcurrency");
  }

  lemma FxRateToAedTitle()
    ensures Heading("FX Rate to AED") == "fxratetoaed"
  {
    hide Heading;
    Spelled("FX", " ", "Rate", " ", "FX Rate ", "fxrate");
    Spelled("to", " ", "AED", "", "to AED", "toaed");
    HeadingConcat("FX Rate ", "to AED");
    assert "FX Rate " + "to AED" == "FX Rate to AED" && "fxrate" + "toaed" == "fxratetoaed";
  }

  lemma SupplierTrnTitle()
    ensures Heading("Supplier TRN") == "suppliertrn"
  {
    hide Heading;
    Spelled("Supplier", " ", "TRN", "", "Supplier TRN", "suppliertrn");
  }

  lemma SupplierNameTitle()
    ensures Heading("Supplier Name") == "suppliername"
  {
    hide Heading;
    Spelled("Supplier", " ", "Name", "", "Supplier Name", "suppliername");
  }

  lemma BuyerTrnTitle()
    ensures Heading("Buyer TRN") == "buyertrn"
  {
    hide Heading;
    Spelled("Buyer", " ", "TRN", "", "Buyer TRN", "buyertrn");
  }

  lemma BuyerNameTitle()
    ensures Heading("Buyer Name") == "buyername"
  {
    hide Heading;
    Spelled("Buyer", " ", "Name", "", "Buyer Name", "buyername");
  }

  lemma BuyerEmirateTitle()
    ensures Heading("Buyer Emirate") == "buyeremirate"
  {
    hide Heading;
    Spelled("Buyer", " ", "Emirate", "", "Buyer Emirate", "buyeremirate");
  }

  lemma PoReferenceTitle()
    ensures Heading("PO Reference") == "poreference"
  {
    hide Heading;
    Spelled("PO", " ", "Reference", "", "PO Reference", "poreference");
  }

  lemma PrecedingInvoiceIdTitle()
    ensures Heading("Preceding Invoice ID") == "precedinginvoiceid"
  {
    hide Heading;
    Spelled("Preceding", " ", "Invoice", " ", "Preceding Invoice ", "precedinginvoice");
    Spelled("ID", "", "", "", "ID", "id");
    HeadingConcat("Preceding Invoice ", "ID");
    assert "Preceding Invoice " + "ID" == "Preceding Invoice ID" && "precedinginvoice" + "id" == "precedinginvoiceid";
  }

  lemma PaymentMeansTitle()
    ensures Heading("Payment Means") == "paymentmeans"
  {
    hide Heading;
    Spelled("Payment", " ", "Means", "", "Payment Means", "paymentmeans");
  }

  lemma LineNumberTitle()
    ensures Heading("Line Number") == "linenumber"
  {
    hide Heading;
    Spelled("Line", " ", "Number", "", "Line Number", "linenumber");
  }

  lemma ItemDescriptionTitle()
    ensures Heading("Item Description") == "itemdescription"
  {
    hide Heading;
    Spelled("Item", " ", "Description", "", "Item Description", "itemdescription");
  }

  lemma HsCodeTitle()
    ensures Heading("HS Code") == "hscode"
  {
    hide Heading;
    Spelled("HS", " ", "Code", "", "HS Code", "hscode");
  }

  lemma QuantityTitle()
    ensures Heading("Quantity") == "quantity"
  {
    hide Heading;
    Spelled("Quantity", "", "", "", "Quantity", "quantity");
  }

  lemma UomTitle()
    ensures Heading("UOM") == "uom"
  {
    hide Heading;
    Spelled("UOM", "", "", "", "UOM", "uom");
  }

  lemma UnitPriceNetTitle()
    ensures Heading("Unit Price (Net)") == "unitpricenet"
  {
    hide Heading;
    Spelled("Unit", " ", "Price", " (", "Unit Price (", "unitprice");
    Spelled("Net", ")", "", "", "Net)", "net");
    HeadingConcat("Unit Price (", "Net)");
    assert "Unit Price (" + "Net)" == "Unit Price (Net)" && "unitprice" + "net" == "unitpricenet";
  }

  lemma LineDiscountTitle()
    ensures Heading("Line Discount") == "linediscount"
  {
    hide Heading;
    Spelled("Line", " ", "Discount", "", "Line Discount", "linediscount");
  }

  lemma VatCategoryTitle()
    ensures Heading("VAT Category") == "vatcategory"
  {
    hide Heading;
    Spelled("VAT", " ", "Category", "", "VAT Category", "vatcategory");
  }

  lemma VatRateTitle()
    ensures Heading("VAT Rate (%)") == "vatrate"
  {
    hide Heading;
    Spelled("VAT", " ", "Rate", " (%)", "VAT Rate (%)", "vatrate");
  }

  lemma LineNetAmountTitle()
    ensures Heading("Line Net Amount") == "linenetamount"
  {
    hide Heading;
    Spelled("Line", " ", "Net", " ", "Line Net ", "linenet");
    Spelled("Amount", "", "", "", "Amount", "amount");
    HeadingConcat("Line Net ", "Amount");
    assert "Line Net " + "Amount" == "Line Net Amount" && "linenet" + "amount" == "linenetamount";
  }

  lemma LineVatAmountTitle()
    ensures Heading("Line VAT Amount") == "linevatamount"
  {
    hide Heading;
    Spelled("Line", " ", "VAT", " ", "Line VAT ", "linevat");
    Spelled("Amount", "", "", "", "Amount", "amount");
    HeadingConcat("Line VAT ", "Amount");
    assert "Line VAT " + "Amount" == "Line VAT Amount" && "linevat" + "amount" == "linevatamount";
  }

  lemma LineGrandTotalTitle()
    ensures Heading("Line Grand Total") == "linegrandtotal"
  {
    hide Heading;
    Spelled("Line", " ", "Grand", " ", "Line Grand ", "linegrand");
    Spelled("Total", "", "", "", "Total", "total");
    HeadingConcat("Line Grand ", "Total");
    assert "Line Grand " + "Total" == "Line Grand Total" && "linegrand" + "total" == "linegrandtotal";
  }

  lemma HeaderHeadings()
    ensures Separate(HEADER_COLUMNS)
  {
    hide Heading;
    var headings := HeaderHeadingsSpelled();
    HeaderHeadingsDiffer(headings);
    assert forall i :: 0 <= i < |HEADER_COLUMNS| ==> Heading(HEADER_COLUMNS[i].header) == headings[i];
  }

  lemma HeaderHeadingsSpelled() returns (headings: seq<string>)
    ensures headings == ["invoicenumber", "invoicetype", "issuedate", "issuetime", "documentcurrency", "fxratetoaed", "suppliertrn", "suppliername", "buyertrn", "buyername", "buyeremirate", "poreference", "precedinginvoiceid", "paymentmeans"]
    ensures |HEADER_COLUMNS| == |headings| && forall i :: 0 <= i < |headings| ==> Heading(HEADER_COLUMNS[i].header) == headings[i]
  {
    hide Heading;
    InvoiceNumberTitle();
    InvoiceTypeTitle();
    IssueDateTitle();
    IssueTimeTitle();
    DocumentCurrencyTitle();
    FxRateToAedTitle();
    SupplierTrnTitle();
    SupplierNameTitle();
    BuyerTrnTitle();
    BuyerNameTitle();
    BuyerEmirateTitle();
    PoReferenceTitle();
    PrecedingInvoiceIdTitle();
    PaymentMeansTitle();
    headings := ["invoicenumber", "invoicetype", "issuedate", "issuetime", "documentcurrency", "fxratetoaed", "suppliertrn", "suppliername", "buyertrn", "buyername", "buyeremirate", "poreference", "precedinginvoiceid", "paymentmeans"];
  }

  lemma HeaderHeadingsDiffer(headings: seq<string>)
    requires headings == ["invoicenumber", "invoicetype", "issuedate", "issuetime", "documentcurrency", "fxratetoaed", "suppliertrn", "suppliername", "buyertrn", "buyername", "buyeremirate", "poreference", "precedinginvoiceid", "paymentmeans"]
    ensures forall i, j :: 0 <= i < j < |headings| ==> headings[i] != headings[j]
    ensures forall i, j :: 0 <= i < j < |HEADER_COLUMNS| ==> HEADER_COLUMNS[i].field != HEADER_COLUMNS[j].field
  {
  }

  lemma LineHeadings()
    ensures Separate(LINE_COLUMNS)
  {
    hide Heading;
    var headings := LineHeadingsSpelled();
    LineHeadingsDiffer(headings);
    assert forall i :: 0 <= i < |LINE_COLUMNS| ==> Heading(LINE_COLUMNS[i].header) == headings[i];
  }

  lemma LineHeadingsSpelled() returns (headings: seq<string>)
    ensures headings == ["invoicenumber", "linenumber", "itemdescription", "hscode", "quantity", "uom", "unitpricenet", "linediscount", "vatcategory", "vatrate", "linenetamount", "linevatamount", "linegrandtotal"]
    ensures |LINE_COLUMNS| == |headings| && forall i :: 0 <= i < |headings| ==> Heading(LINE_COLUMNS[i].header) == headings[i]
  {
    hide Heading;
    InvoiceNumberTitle();
    LineNumberTitle();
    ItemDescriptionTitle();
    HsCodeTitle();
    QuantityTitle();
    UomTitle();
    UnitPriceNetTitle();
    LineDiscountTitle();
    VatCategoryTitle();
    VatRateTitle();
    LineNetAmountTitle();
    LineVatAmountTitle();
    LineGrandTotalTitle();
    headings := ["invoicenumber", "linenumber", "itemdescription", "hscode", "quantity", "uom", "unitpricenet", "linediscount", "vatcategory", "vatrate", "linenetamount", "linevatamount", "linegrandtotal"];
  }

  lemma LineHeadingsDiffer(headings: seq<string>)
    requires headings == ["invoicenumber", "linenumber", "itemdescription", "hscode", "quantity", "uom", "unitpricenet", "linediscount", "vatcategory", "vatrate", "linenetamount", "linevatamount", "linegrandtotal"]
    ensures forall i, j :: 0 <= i < j < |headings| ==> headings[i] != headings[j]
    ensures forall i, j :: 0 <= i < j < |LINE_COLUMNS| ==> LINE_COLUMNS[i].field != LINE_COLUMNS[j].field
  {
  }

  // --- Header rows ----------------------------------------------------------

  /** A header row counts when one of these cells was typed into; the template fills in the others. */
  predicate TypedHeader(headings: seq<string>, row: SheetRow) {
    || Cell(headings, row, "Invoice Number") != "" || Cell(headings, row, "Invoice Type") != ""
    || Cell(headings, row, "Issue Date") != "" || Cell(headings, row, "Issue Time") != ""
    || Cell(headings, row, "Buyer TRN") != "" || Cell(headings, row, "Buyer Name") != ""
    || Cell(headings, row, "Buyer Emirate") != "" || Cell(headings, row, "PO Reference") != ""
    || Cell(headings, row, "Preceding Invoice ID") != "" || Cell(headings, row, "Payment Means") != ""
  }

  function TypedHeaders(headings: seq<string>, rows: seq<SheetRow>): seq<SheetRow> {
    if rows == [] then []
    else
      var front, last := TypedHeaders(headings, rows[..|rows| - 1]), rows[|rows| - 1];
      if TypedHeader(headings, last) then front + [last] else front
  }

  /** Every field of the header is its own cell, and no amount is read. */
  predicate HeaderCells(headings: seq<string>, row: SheetRow, ids: Ids, x: Invoice) {
    && x.invoiceNumber == Cell(headings, row, "Invoice Number")
    && x.invoiceType == Cell(headings, row, "Invoice Type")
    && x.issueDate == Cell(headings, row, "Issue Date")
    && x.issueTime == Cell(headings, row, "Issue Time")
    && x.currency == Cell(headings, row, "Document Currency")
    && x.fxRate == Cell(headings, row, "FX Rate to AED")
    && x.supplierTrn == Cell(headings, row, "Supplier TRN")
    && x.supplierName == Cell(headings, row, "Supplier Name")
    && x.buyerTrn == Cell(headings, row, "Buyer TRN")
    && x.buyerName == Cell(headings, row, "Buyer Name")
    && x.buyerEmirate == Cell(headings, row, "Buyer Emirate")
    && x.poReference == Cell(headings, row, "PO Reference")
    && x.precedingInvoiceId == Cell(headings, row, "Preceding Invoice ID")
    && x.paymentMeans == Cell(headings, row, "Payment Means")
    && x.lineExtensionAmount == "" && x.taxExclusiveAmount == "" && x.vatTotalAmount == "" && x.taxInclusiveAmount == ""
    && x.payableAmount == "" && x.payableAmountAed == ""
    && x.id == ids.invoice(row.number) && x.sourceRow == Some(row.number)
  }

  lemma HeaderReads(headings: seq<string>, row: SheetRow, ids: Ids)
    ensures var c := ColumnsOf(HEADER_COLUMNS, headings);
      && HeaderCells(headings, row, ids, HeaderOf(row, c, ids))
      && (MeaningfulHeader(row, c) <==> TypedHeader(headings, row))
  {
    hide Separate, ColumnsOf, Cell, Read;
    HeaderHeadings();
    AllHeaderCells(headings, row);
  }

  /** The fourteen cells. */
  lemma AllHeaderCells(headings: seq<string>, row: SheetRow)
    ensures var c := ColumnsOf(HEADER_COLUMNS, headings);
      && Read(row, c, "invoiceNumber") == Cell(headings, row, "Invoice Number")
      && Read(row, c, "invoiceType") == Cell(headings, row, "Invoice Type")
      && Read(row, c, "issueDate") == Cell(headings, row, "Issue Date")
      && Read(row, c, "issueTime") == Cell(headings, row, "Issue Time")
      && Read(row, c, "currency") == Cell(headings, row, "Document Currency")
      && Read(row, c, "fxRate") == Cell(headings, row, "FX Rate to AED")
      && Read(row, c, "supplierTrn") == Cell(headings, row, "Supplier TRN")
      && Read(row, c, "supplierName") == Cell(headings, row, "Supplier Name")
      && Read(row, c, "buyerTrn") == Cell(headings, row, "Buyer TRN")
      && Read(row, c, "buyerName") == Cell(headings, row, "Buyer Name")
      && Read(row, c, "buyerEmirate") == Cell(headings, row, "Buyer Emirate")
      && Read(row, c, "poReference") == Cell(headings, row, "PO Reference")
      && Read(row, c, "precedingInvoiceId") == Cell(headings, row, "Preceding Invoice ID")
      && Read(row, c, "paymentMeans") == Cell(headings, row, "Payment Means")
  {
    hide Separate, ColumnsOf, Cell, Read;
    HeaderHeadings();
    ReadsCell(HEADER_COLUMNS, headings, row, 0);
    ReadsCell(HEADER_COLUMNS, headings, row, 1);
    ReadsCell(HEADER_COLUMNS, headings, row, 2);
    ReadsCell(HEADER_COLUMNS, headings, row, 3);
    ReadsCell(HEADER_COLUMNS, headings, row, 4);
    ReadsCell(HEADER_COLUMNS, headings, row, 5);
    ReadsCell(HEADER_COLUMNS, headings, row, 6);
    ReadsCell(HEADER_COLUMNS, headings, row, 7);
    ReadsCell(HEADER_COLUMNS, headings, row, 8);
    ReadsCell(HEADER_COLUMNS, headings, row, 9);
    ReadsCell(HEADER_COLUMNS, headings, row, 10);
    ReadsCell(HEADER_COLUMNS, headings, row, 11);
    ReadsCell(HEADER_COLUMNS, headings, row, 12);
    ReadsCell(HEADER_COLUMNS, headings, row, 13);
  }

  lemma {:induction false} HeadersRead(headings: seq<string>, rows: seq<SheetRow>, ids: Ids)
    ensures var xs, typed := Headers(rows, ColumnsOf(HEADER_COLUMNS, headings), ids), TypedHeaders(headings, rows);
      |xs| == |typed| && forall k :: 0 <= k < |typed| ==> HeaderCells(headings, typed[k], ids, xs[k])
  {
    hide HeaderOf, HeaderCells, ColumnsOf, TypedHeader, MeaningfulHeader;
    if rows != [] {
      HeadersRead(headings, rows[..|rows| - 1], ids);
      HeaderReads(headings, rows[|rows| - 1], ids);
    }
  }

  // --- Line rows ------------------------------------------------------------

  predicate TypedLine(headings: seq<string>, row: SheetRow) {
    || Cell(headings, row, "Invoice Number") != "" || Cell(headings, row, "Item Description") != ""
    || Cell(headings, row, "Quantity") != "" || Cell(headings, row, "Unit Price (Net)") != ""
  }

  function TypedLines(headings: seq<string>, rows: seq<SheetRow>): seq<SheetRow> {
    if rows == [] then []
    else
      var front, last := TypedLines(headings, rows[..|rows| - 1]), rows[|rows| - 1];
      if TypedLine(headings, last) then front + [last] else front
  }

  /** The invoice a line names and every field of the line are its own cells. */
  predicate LineCells(headings: seq<string>, row: SheetRow, ids: Ids, p: Pending) {
    && p.invoiceNumber == Cell(headings, row, "Invoice Number")
    && p.line.lineNumber == Cell(headings, row, "Line Number")
    && p.line.description == Cell(headings, row, "Item Description")
    && p.line.hsCode == Cell(headings, row, "HS Code")
    && p.line.quantity == Cell(headings, row, "Quantity")
    && p.line.uom == Cell(headings, row, "UOM")
    && p.line.unitPrice == Cell(headings, row, "Unit Price (Net)")
    && p.line.lineDiscount == Cell(headings, row, "Line Discount")
    && p.line.vatCategory == Cell(headings, row, "VAT Category")
    && p.line.vatRate == Cell(headings, row, "VAT Rate (%)")
    && p.line.netAmount == Cell(headings, row, "Line Net Amount")
    && p.line.vatAmount == Cell(headings, row, "Line VAT Amount")
    && p.line.lineTotal == Cell(headings, row, "Line Grand Total")
    && p.line.id == ids.line(row.number) && p.line.sourceRow == Some(row.number)
  }

  lemma LineReads(headings: seq<string>, row: SheetRow, ids: Ids)
    ensures var c := ColumnsOf(LINE_COLUMNS, headings);
      && LineCells(headings, row, ids, LineOf(row, c, ids))
      && (MeaningfulLine(row, c) <==> TypedLine(headings, row))
  {
    hide Separate, ColumnsOf, Cell, Read;
    LineHeadings();
    AllLineCells(headings, row);
  }

  /** The thirteen cells. */
  lemma AllLineCells(headings: seq<string>, row: SheetRow)
    ensures var c := ColumnsOf(LINE_COLUMNS, headings);
      && Read(row, c, "invoiceNumber") == Cell(headings, row, "Invoice Number")
      && Read(row, c, "lineNumber") == Cell(headings, row, "Line Number")
      && Read(row, c, "description") == Cell(headings, row, "Item Description")
      && Read(row, c, "hsCode") == Cell(headings, row, "HS Code")
      && Read(row, c, "quantity") == Cell(headings, row, "Quantity")
      && Read(row, c, "uom") == Cell(headings, row, "UOM")
      && Read(row, c, "unitPrice") == Cell(headings, row, "Unit Price (Net)")
      && Read(row, c, "lineDiscount") == Cell(headings, row, "Line Discount")
      && Read(row, c, "vatCategory") == Cell(headings, row, "VAT Category")
      && Read(row, c, "vatRate") == Cell(headings, row, "VAT Rate (%)")
      && Read(row, c, "netAmount") == Cell(headings, row, "Line Net Amount")
      && Read(row, c, "vatAmount") == Cell(headings, row, "Line VAT Amount")
      && Read(row, c, "lineTotal") == Cell(headings, row, "Line Grand Total")
  {
    hide Separate, ColumnsOf, Cell, Read;
    LineHeadings();
    ReadsCell(LINE_COLUMNS, headings, row, 0);
    ReadsCell(LINE_COLUMNS, headings, row, 1);
    ReadsCell(LINE_COLUMNS, headings, row, 2);
    ReadsCell(LINE_COLUMNS, headings, row, 3);
    ReadsCell(LINE_COLUMNS, headings, row, 4);
    ReadsCell(LINE_COLUMNS, headings, row, 5);
    ReadsCell(LINE_COLUMNS, headings, row, 6);
    ReadsCell(LINE_COLUMNS, headings, row, 7);
    ReadsCell(LINE_COLUMNS, headings, row, 8);
    ReadsCell(LINE_COLUMNS, headings, row, 9);
    ReadsCell(LINE_COLUMNS, headings, row, 10);
    ReadsCell(LINE_COLUMNS, headings, row, 11);
    ReadsCell(LINE_COLUMNS, headings, row, 12);
  }

  lemma {:induction false} LinesRead(headings: seq<string>, rows: seq<SheetRow>, ids: Ids)
    ensures var ps, typed := Lines(rows, ColumnsOf(LINE_COLUMNS, headings), ids), TypedLines(headings, rows);
      |ps| == |typed| && forall k :: 0 <= k < |typed| ==> LineCells(headings, typed[k], ids, ps[k])
  {
    hide LineOf, LineCells, ColumnsOf, TypedLine, MeaningfulLine;
    if rows != [] {
      LinesRead(headings, rows[..|rows| - 1], ids);
      LineReads(headings, rows[|rows| - 1], ids);
    }
  }

  // --- The whole workbook ---------------------------------------------------

  /** The line, as read from this row, is in the invoice it names or set aside under the number it names. */
  predicate LineWellPlaced(headings: seq<string>, typed: seq<SheetRow>, ids: Ids, number: string, line: Line) {
    exists i :: 0 <= i < |typed| && LineCells(headings, typed[i], ids, Pending(number, line))
  }

  /**
   * Every field of a parsed invoice is the trimmed text of its own cell. The invoices are those of the header
   * rows something was typed into, in order, and every line, joined or orphan, is read from a line row that
   * names the number it stands under.
   */
  lemma EveryFieldFromItsCell(headerSheet: Option<SheetText>, lineSheet: Option<SheetText>, maxRows: nat, ids: Ids,
                              num: string -> Option<real>)
    requires ParseOf(headerSheet, lineSheet, maxRows, ids, num).Parsed?
    ensures var r := ParseOf(headerSheet, lineSheet, maxRows, ids, num);
      var typed := TypedHeaders(headerSheet.value.header, headerSheet.value.rows);
      && |r.invoices| == |typed|
      && (forall k :: 0 <= k < |typed| ==> HeaderCells(headerSheet.value.header, typed[k], ids, r.invoices[k]))
    ensures var r := ParseOf(headerSheet, lineSheet, maxRows, ids, num);
      var headings, typed := lineSheet.value.header, TypedLines(lineSheet.value.header, lineSheet.value.rows);
      && (forall k, l :: 0 <= k < |r.invoices| && l in r.invoices[k].lines ==>
           LineWellPlaced(headings, typed, ids, r.invoices[k].invoiceNumber, l))
      && (forall o :: o in r.orphans ==> LineWellPlaced(headings, typed, ids, o.invoiceNumber, o.line))
  {
    hide ParseOf, HeaderCells, TypedHeaders, TypedLines, Ordered, LinesOwned, Unowned, Headers, Lines, ColumnsOf, LineWellPlaced;
    var r := ParseOf(headerSheet, lineSheet, maxRows, ids, num);
    var headers, pending := HeaderInvoices(headerSheet, ids), PendingLines(lineSheet, ids);
    EveryLineInItsInvoice(headerSheet, lineSheet, maxRows, ids, num);
    BothSheets(headerSheet, lineSheet, maxRows, ids, num);
    FieldsOfHeaders(headerSheet.value, ids, headers, r.invoices);
    forall k, l | 0 <= k < |r.invoices| && l in r.invoices[k].lines
      ensures LineWellPlaced(lineSheet.value.header, TypedLines(lineSheet.value.header, lineSheet.value.rows), ids,
                             r.invoices[k].invoiceNumber, l)
    {
      var owned := LinesOwned(headers, k, pending);
      OrderedKeeps(owned, num);
      assert l in multiset(Ordered(owned, num));
      OwnedNames(headers, k, pending, l);
      PendingIsPlaced(lineSheet.value, ids, Pending(headers[k].invoiceNumber, l));
    }
    forall o | o in r.orphans
      ensures LineWellPlaced(lineSheet.value.header, TypedLines(lineSheet.value.header, lineSheet.value.rows), ids,
                             o.invoiceNumber, o.line)
    {
      UnownedPending(headers, pending, o);
      PendingIsPlaced(lineSheet.value, ids, o);
    }
  }

  lemma BothSheets(headerSheet: Option<SheetText>, lineSheet: Option<SheetText>, maxRows: nat, ids: Ids,
                   num: string -> Option<real>)
    requires ParseOf(headerSheet, lineSheet, maxRows, ids, num).Parsed?
    ensures headerSheet.Some? && lineSheet.Some?
  {
    hide ColumnsOf, Missing, Headers, Lines, Warnings, NumberIndex, Join, OrderedAll;
  }

  lemma FieldsOfHeaders(sheet: SheetText, ids: Ids, headers: seq<Invoice>, invoices: seq<Invoice>)
    requires headers == HeaderInvoices(Some(sheet), ids) && |invoices| == |headers|
    requires forall k :: 0 <= k < |headers| ==> invoices[k] == headers[k].(lines := invoices[k].lines)
    ensures var typed := TypedHeaders(sheet.header, sheet.rows);
      |invoices| == |typed| && forall k :: 0 <= k < |typed| ==> HeaderCells(sheet.header, typed[k], ids, invoices[k])
  {
    hide HeaderCells, TypedHeaders, Headers, ColumnsOf;
    HeadersRead(sheet.header, sheet.rows, ids);
    var typed := TypedHeaders(sheet.header, sheet.rows);
    forall k | 0 <= k < |typed|
      ensures HeaderCells(sheet.header, typed[k], ids, invoices[k])
    {
      CellsIgnoreLines(sheet.header, typed[k], ids, headers[k], invoices[k].lines);
    }
  }

  lemma PendingIsPlaced(sheet: SheetText, ids: Ids, p: Pending)
    requires p in PendingLines(Some(sheet), ids)
    ensures LineWellPlaced(sheet.header, TypedLines(sheet.header, sheet.rows), ids, p.invoiceNumber, p.line)
  {
    hide LineCells, TypedLines, Lines, ColumnsOf;
    LinesRead(sheet.header, sheet.rows, ids);
  }

  lemma CellsIgnoreLines(headings: seq<string>, row: SheetRow, ids: Ids, x: Invoice, lines: seq<Line>)
    requires HeaderCells(headings, row, ids, x)
    ensures HeaderCells(headings, row, ids, x.(lines := lines))
  {
    hide Cell;
  }

  lemma {:induction false} OwnedNames(headers: seq<Invoice>, k: nat, pending: seq<Pending>, l: Line)
    requires k < |headers| && l in LinesOwned(headers, k, pending)
    ensures Pending(headers[k].invoiceNumber, l) in pending
  {
    if pending != [] {
      var p := pending[|pending| - 1];
      if !(Owns(headers, k, p.invoiceNumber) && p.line == l) {
        OwnedNames(headers, k, pending[..|pending| - 1], l);
      }
    }
  }

  lemma {:induction false} UnownedPending(headers: seq<Invoice>, pending: seq<Pending>, o: Pending)
    requires o in Unowned(headers, pending)
    ensures o in pending
  {
    if pending != [] && o != pending[|pending| - 1] {
      UnownedPending(headers, pending[..|pending| - 1], o);
    }
  }

  // --- When a workbook is accepted ------------------------------------------

  /** The sheet has a column under every heading the template requires. */
  predicate Complete(expected: seq<Column>, headings: seq<string>) {
    forall i :: 0 <= i < |expected| && !expected[i].derived ==> ColumnUnder(headings, expected[i].header) < |headings|
  }

  lemma {:induction false} NothingMissing(expected: seq<Column>, columns: map<string, nat>)
    ensures Missing(expected, columns) == [] <==> AllMapped(expected, columns)
  {
    hide AllMapped;
    if expected == [] {
      MappedStep(expected, columns);
    } else {
      NothingMissing(expected[..|expected| - 1], columns);
      MappedStep(expected, columns);
    }
  }

  predicate AllMapped(expected: seq<Column>, columns: map<string, nat>) {
    forall i :: 0 <= i < |expected| && !expected[i].derived ==> expected[i].field in columns
  }

  lemma MappedStep(expected: seq<Column>, columns: map<string, nat>)
    ensures expected == [] ==> AllMapped(expected, columns)
    ensures expected != [] ==>
      var last := expected[|expected| - 1];
      AllMapped(expected, columns) <==> AllMapped(expected[..|expected| - 1], columns) && (!last.derived ==> last.field in columns)
  {
  }

  lemma CompleteMeans(expected: seq<Column>, headings: seq<string>)
    requires Separate(expected)
    ensures Missing(expected, ColumnsOf(expected, headings)) == [] <==> Complete(expected, headings)
  {
    hide ColumnsOf, ColumnUnder, Separate, Missing;
    NothingMissing(expected, ColumnsOf(expected, headings));
    forall i | 0 <= i < |expected|
      ensures expected[i].field in ColumnsOf(expected, headings) <==> ColumnUnder(headings, expected[i].header) < |headings|
    {
      FieldColumn(expected, headings, i);
    }
  }

  /** The columns the header sheet must have: every one of the template. */
  const HEADER_TITLES: seq<string> := [
    "Invoice Number", "Invoice Type", "Issue Date", "Issue Time", "Document Currency", "FX Rate to AED", "Supplier TRN",
    "Supplier Name", "Buyer TRN", "Buyer Name", "Buyer Emirate", "PO Reference", "Preceding Invoice ID", "Payment Means"
  ]

  /** The columns the line sheet must have: every one of the template but the three derived amounts. */
  const LINE_TITLES: seq<string> := [
    "Invoice Number", "Line Number", "Item Description", "HS Code", "Quantity", "UOM", "Unit Price (Net)", "Line Discount",
    "VAT Category", "VAT Rate (%)"
  ]

  predicate HasAll(headings: seq<string>, titles: seq<string>) {
    forall i :: 0 <= i < |titles| ==> ColumnUnder(headings, titles[i]) < |headings|
  }

  /** The titles are those of the columns that are not derived, which come first. */
  predicate Titled(expected: seq<Column>, titles: seq<string>) {
    && |titles| <= |expected|
    && (forall i :: 0 <= i < |titles| ==> expected[i].header == titles[i] && !expected[i].derived)
    && forall i :: |titles| <= i < |expected| ==> expected[i].derived
  }

  lemma TemplateTitles()
    ensures Titled(HEADER_COLUMNS, HEADER_TITLES) && Titled(LINE_COLUMNS, LINE_TITLES)
  {
  }

  lemma CompleteHasAll(expected: seq<Column>, titles: seq<string>, headings: seq<string>)
    requires Titled(expected, titles)
    ensures Complete(expected, headings) <==> HasAll(headings, titles)
  {
    hide ColumnUnder;
  }

  /**
   * Exactly when a workbook is accepted: both sheets are there, each has every heading the template requires,
   * and the rows something was typed into, headers and lines together, are no more than the cap.
   */
  lemma AcceptedExactly(headerSheet: Option<SheetText>, lineSheet: Option<SheetText>, maxRows: nat, ids: Ids,
                        num: string -> Option<real>)
    ensures ParseOf(headerSheet, lineSheet, maxRows, ids, num).Parsed? <==>
      && headerSheet.Some? && lineSheet.Some?
      && HasAll(headerSheet.value.header, HEADER_TITLES) && HasAll(lineSheet.value.header, LINE_TITLES)
      && |TypedHeaders(headerSheet.value.header, headerSheet.value.rows)|
         + |TypedLines(lineSheet.value.header, lineSheet.value.rows)| <= maxRows
  {
    hide ColumnsOf, Missing, Headers, Lines, Warnings, NumberIndex, Join, OrderedAll, Complete, HasAll, Titled,
      Separate, TypedHeaders, TypedLines, HeaderCells, LineCells;
    HeaderHeadings();
    LineHeadings();
    if headerSheet.Some? && lineSheet.Some? {
      CompleteMeans(HEADER_COLUMNS, headerSheet.value.header);
      CompleteMeans(LINE_COLUMNS, lineSheet.value.header);
      TemplateTitles();
      CompleteHasAll(HEADER_COLUMNS, HEADER_TITLES, headerSheet.value.header);
      CompleteHasAll(LINE_COLUMNS, LINE_TITLES, lineSheet.value.header);
      HeadersRead(headerSheet.value.header, headerSheet.value.rows, ids);
      LinesRead(lineSheet.value.header, lineSheet.value.rows, ids);
    }
  }

  // --- Repeated numbers and missing headers ---------------------------------

  function NumbersOn(invoices: seq<Invoice>): (r: seq<string>)
    ensures |r| == |invoices| && forall i :: 0 <= i < |r| ==> r[i] == invoices[i].invoiceNumber
  {
    seq(|invoices|, i requires 0 <= i < |invoices| => invoices[i].invoiceNumber)
  }

  lemma {:induction false} IndexedWhenSeen(invoices: seq<Invoice>, number: string)
    ensures number in NumberIndex(invoices) <==> number != "" && number in NumbersOn(invoices)
  {
    IndexIsFirst(invoices, number);
    hide NumberIndex;
    if number in NumberIndex(invoices) {
      assert NumbersOn(invoices)[NumberIndex(invoices)[number]] == number;
    }
  }

  /** A number is warned about once for every header row that repeats it, and a blank one never. */
  predicate WarnedFor(warnings: seq<string>, numbers: seq<string>, n: string) {
    multiset(warnings)[n] == if n == "" || n !in numbers then 0 else multiset(numbers)[n] - 1
  }

  lemma WarningsNext(headers: seq<Invoice>)
    requires headers != []
    ensures var front, last := headers[..|headers| - 1], headers[|headers| - 1].invoiceNumber;
      Warnings(headers) == Warnings(front) + if last != "" && last in NumbersOn(front) then [last] else []
  {
    IndexedWhenSeen(headers[..|headers| - 1], headers[|headers| - 1].invoiceNumber);
    hide NumberIndex, NumbersOn;
  }

  lemma WarnedNext(warnings: seq<string>, numbers: seq<string>, last: string, n: string)
    requires WarnedFor(warnings, numbers, n)
    ensures WarnedFor(warnings + if last != "" && last in numbers then [last] else [], numbers + [last], n)
  {
  }

  lemma {:induction false} RepeatsWarned(headers: seq<Invoice>, n: string)
    ensures WarnedFor(Warnings(headers), NumbersOn(headers), n)
  {
    if headers != [] {
      hide WarnedFor, NumberIndex, Warnings;
      var k := |headers| - 1;
      RepeatsWarned(headers[..k], n);
      WarningsNext(headers);
      assert NumbersOn(headers) == NumbersOn(headers[..k]) + [headers[k].invoiceNumber];
      WarnedNext(Warnings(headers[..k]), NumbersOn(headers[..k]), headers[k].invoiceNumber, n);
    }
  }

  /** The parser warns of exactly the numbers its invoices repeat, as often as they are repeated. */
  lemma DuplicatesAreWarned(headerSheet: Option<SheetText>, lineSheet: Option<SheetText>, maxRows: nat, ids: Ids,
                            num: string -> Option<real>, n: string)
    requires ParseOf(headerSheet, lineSheet, maxRows, ids, num).Parsed?
    ensures var r := ParseOf(headerSheet, lineSheet, maxRows, ids, num);
      WarnedFor(r.warnings, NumbersOn(r.invoices), n)
  {
    var r, headers := ParseOf(headerSheet, lineSheet, maxRows, ids, num), HeaderInvoices(headerSheet, ids);
    EveryLineInItsInvoice(headerSheet, lineSheet, maxRows, ids, num);
    assert r.warnings == Warnings(headers) by {
      hide ColumnsOf, Missing, Headers, Lines, Warnings, NumberIndex, Join, OrderedAll;
    }
    hide ParseOf, Headers, ColumnsOf, Ordered, LinesOwned, Unowned, Warnings, WarnedFor;
    RepeatsWarned(headers, n);
    assert NumbersOn(r.invoices) == NumbersOn(headers);
  }

  /** The lines of the orphans that name a number, in their order. */
  function LinesNaming(orphans: seq<Pending>, number: string): seq<Line> {
    if orphans == [] then []
    else
      var front, last := LinesNaming(orphans[..|orphans| - 1], number), orphans[|orphans| - 1];
      if last.invoiceNumber == number then front + [last.line] else front
  }

  predicate Naming(orphans: seq<Pending>, number: string) {
    exists i :: 0 <= i < |orphans| && orphans[i].invoiceNumber == number
  }

  /** One group for every number named, holding the lines that name it, in their order. */
  ghost predicate GroupedBy(orphans: seq<Pending>, groups: seq<Group>) {
    && (forall k :: 0 <= k < |groups| ==> groups[k].lines == LinesNaming(orphans, groups[k].number))
    && (forall number :: GroupAt(groups, number) < |groups| <==> Naming(orphans, number))
  }

  lemma NamingStep(orphans: seq<Pending>, number: string)
    requires orphans != []
    ensures Naming(orphans, number) <==>
      Naming(orphans[..|orphans| - 1], number) || orphans[|orphans| - 1].invoiceNumber == number
  {
  }

  lemma {:induction false} NoneNaming(orphans: seq<Pending>, number: string)
    requires !Naming(orphans, number)
    ensures LinesNaming(orphans, number) == []
  {
    if orphans != [] {
      NamingStep(orphans, number);
      NoneNaming(orphans[..|orphans| - 1], number);
    }
  }

  lemma OneMoreOrphan(orphans: seq<Pending>, groups: seq<Group>)
    requires orphans != [] && GroupedBy(orphans[..|orphans| - 1], groups) && NumbersDistinct(groups)
    ensures GroupedBy(orphans, Grouped(groups, orphans[|orphans| - 1]))
  {
    var front, last := orphans[..|orphans| - 1], orphans[|orphans| - 1];
    var after, k := Grouped(groups, last), GroupAt(groups, last.invoiceNumber);
    if k == |groups| {
      NoneNaming(front, last.invoiceNumber);
    }
    hide Naming;
    forall j | 0 <= j < |after|
      ensures after[j].lines == LinesNaming(orphans, after[j].number)
    {
      if j < |groups| && j != k {
        assert groups[j].number != last.invoiceNumber;
      }
    }
    hide LinesNaming, GroupAt;
    forall number: string
      ensures GroupAt(after, number) < |after| <==> Naming(orphans, number)
    {
      NamingStep(orphans, number);
      SameGroups(groups, last, number);
    }
  }

  lemma SameGroups(groups: seq<Group>, last: Pending, number: string)
    ensures var after := Grouped(groups, last);
      GroupAt(after, number) < |after| <==> GroupAt(groups, number) < |groups| || last.invoiceNumber == number
  {
    hide GroupAt;
    var after, k := Grouped(groups, last), GroupAt(groups, last.invoiceNumber);
    var i, j := GroupAt(groups, number), GroupAt(after, number);
    assert i < |groups| ==> after[i].number == number;
    assert last.invoiceNumber == number ==> after[k].number == number;
  }

  /** The orphans are grouped by the number they name, and each group keeps their order. */
  lemma {:induction false} GroupsKeepOrder(orphans: seq<Pending>)
    ensures GroupedBy(orphans, GroupsOf(orphans))
  {
    if orphans != [] {
      GroupsKeepOrder(orphans[..|orphans| - 1]);
      OrphansAllGrouped(orphans[..|orphans| - 1]);
      hide GroupedBy, NumbersDistinct, Grouped, GroupLines;
      OneMoreOrphan(orphans, GroupsOf(orphans[..|orphans| - 1]));
    }
  }

  /**
   * What stands in for a missing header: an AED invoice at a rate of one under the number the lines name, with
   * those lines recalculated and every other field a user would type left blank.
   */
  lemma SyntheticMeans(id: string, g: Group)
    ensures var x := Synthetic(id, g);
      && x.id == id && x.invoiceNumber == g.number && x.currency == "AED" && x.fxRate == "1.000000" && x.sourceRow == None
      && x.invoiceType == x.issueDate == x.issueTime == x.supplierTrn == x.supplierName == x.buyerTrn == x.buyerName == ""
      && x.buyerEmirate == x.poReference == x.precedingInvoiceId == x.paymentMeans == ""
      && |x.lines| == |g.lines| && forall i :: 0 <= i < |x.lines| ==> x.lines[i] == RecalcLine(g.lines[i])
  {
    hide RecalcLine, Print, NetSum, VatSum, RoundTo, FxFactor, Times;
  }
}
