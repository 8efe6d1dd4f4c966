/** Auto-fix: conservative rewriting of common defaults, with a log of every change. */
module AutoFix {
  import opened Text
  import opened Money
  import opened Calc
  import opened Codes

  datatype Field =
    | Currency | FxRate | IssueTime | SupplierTrn | BuyerTrn | BuyerEmirate | InvoiceTypeField
    | Uom | VatCategory | VatRate | LineDiscount | LineNumber

  datatype Change = Change(invoiceId: string, lineId: Option<string>, field: Field, from: string, to: string)

  function When(condition: bool, c: Change): seq<Change> {
    if condition then [c] else []
  }

  // --- Header rules ---------------------------------------------------------

  function FixedCurrency(text: string): string {
    if Trim(text) == "" then BASE_CURRENCY else ToUpper(Trim(text))
  }

  function FixCurrency(next: Invoice): Invoice {
    next.(currency := FixedCurrency(next.currency))
  }

  function CurrencyChanges(next: Invoice): seq<Change> {
    When(FixedCurrency(next.currency) != next.currency, Change(next.id, None, Currency, next.currency, FixedCurrency(next.currency)))
  }

  /** An AED invoice without a usable rate gets a rate of one; other currencies are the user's to fill in. */
  predicate NeedsFx(next: Invoice) {
    next.currency == BASE_CURRENCY && Trim(next.fxRate) in {"", "0"}
  }

  function FixFx(next: Invoice): Invoice {
    if NeedsFx(next) then next.(fxRate := "1.000000") else next
  }

  function FxChanges(next: Invoice): seq<Change> {
    When(NeedsFx(next), Change(next.id, None, FxRate, Trim(next.fxRate), "1.000000"))
  }

  function FixedTime(text: string): string {
    var t := Trim(text);
    if t == "" then "00:00:00" else if ClockShape(t) then t + ":00" else text
  }

  predicate NeedsTime(text: string) {
    Trim(text) == "" || ClockShape(Trim(text))
  }

  function FixTime(next: Invoice): Invoice {
    next.(issueTime := FixedTime(next.issueTime))
  }

  function TimeChanges(next: Invoice): seq<Change> {
    When(NeedsTime(next.issueTime), Change(next.id, None, IssueTime, Trim(next.issueTime), FixedTime(next.issueTime)))
  }

  predicate KeptInTrn(c: char) {
    !IsSpace(c) && c != '-'
  }

  function StrippedTrn(raw: string): string {
    Filter(raw, KeptInTrn)
  }

  function FixSupplierTrn(next: Invoice): Invoice {
    next.(supplierTrn := StrippedTrn(next.supplierTrn))
  }

  function SupplierTrnChanges(next: Invoice): seq<Change> {
    When(StrippedTrn(next.supplierTrn) != next.supplierTrn,
         Change(next.id, None, SupplierTrn, next.supplierTrn, StrippedTrn(next.supplierTrn)))
  }

  function FixBuyerTrn(next: Invoice): Invoice {
    next.(buyerTrn := StrippedTrn(next.buyerTrn))
  }

  function BuyerTrnChanges(next: Invoice): seq<Change> {
    When(StrippedTrn(next.buyerTrn) != next.buyerTrn,
         Change(next.id, None, BuyerTrn, next.buyerTrn, StrippedTrn(next.buyerTrn)))
  }

  /** Every run of white space becomes one blank. */
  function Collapse(s: string): string {
    if s == "" then ""
    else if !IsSpace(s[0]) then [s[0]] + Collapse(s[1..])
    else if |s| > 1 && IsSpace(s[1]) then Collapse(s[1..])
    else " " + Collapse(s[1..])
  }

  function EmirateAlias(normalised: string): Option<string> {
    match normalised
    case "dubai" => Some("Dubai")
    case "dxb" => Some("Dubai")
    case "abu dhabi" => Some("Abu Dhabi")
    case "abudhabi" => Some("Abu Dhabi")
    case "auh" => Some("Abu Dhabi")
    case "sharjah" => Some("Sharjah")
    case "shj" => Some("Sharjah")
    case "ajman" => Some("Ajman")
    case "ras al khaimah" => Some("Ras Al Khaimah")
    case "ras al-khaimah" => Some("Ras Al Khaimah")
    case "rak" => Some("Ras Al Khaimah")
    case "fujairah" => Some("Fujairah")
    case "fuj" => Some("Fujairah")
    case "umm al quwain" => Some("Umm Al Quwain")
    case "umm al-quwain" => Some("Umm Al Quwain")
    case "uaq" => Some("Umm Al Quwain")
    case _ => None
  }

  function TitleCaseEmirate(value: string): Option<string> {
    EmirateAlias(Collapse(ToLower(Trim(value))))
  }

  function FixedEmirate(text: string): string {
    match TitleCaseEmirate(text)
    case Some(canonical) => if Trim(text) == "" then text else canonical
    case None => text
  }

  function FixEmirate(next: Invoice): Invoice {
    next.(buyerEmirate := FixedEmirate(next.buyerEmirate))
  }

  function EmirateChanges(next: Invoice): seq<Change> {
    When(FixedEmirate(next.buyerEmirate) != next.buyerEmirate,
         Change(next.id, None, BuyerEmirate, next.buyerEmirate, FixedEmirate(next.buyerEmirate)))
  }

  function TypeAlias(lowered: string): Option<string> {
    match lowered
    case "tax" => Some("380")
    case "tax invoice" => Some("380")
    case "b2b" => Some("380")
    case "simplified" => Some("388")
    case "simplified tax invoice" => Some("388")
    case "b2c" => Some("388")
    case "credit" => Some("381")
    case "credit note" => Some("381")
    case "debit" => Some("383")
    case "debit note" => Some("383")
    case _ => None
  }

  function AliasOf(text: string): Option<string> {
    TypeAlias(ToLower(Trim(text)))
  }

  function FixType(next: Invoice): Invoice {
    match AliasOf(next.invoiceType)
    case Some(code) => next.(invoiceType := code)
    case None => next
  }

  function TypeChanges(next: Invoice): seq<Change> {
    match AliasOf(next.invoiceType)
    case Some(code) => [Change(next.id, None, InvoiceTypeField, Trim(next.invoiceType), code)]
    case None => []
  }

  // --- Line rules -----------------------------------------------------------

  function FixedUom(text: string): string {
    if Trim(text) == "" then "PCE"
    else if ToUpper(Trim(text)) in UOM_CODES then ToUpper(Trim(text)) else text
  }

  function FixedCategory(text: string): string {
    if Trim(text) == "" then text else ToUpper(Trim(text))
  }

  function RequiredRate(category: string): string {
    if category == "S" then "5.00" else "0.00"
  }

  predicate NeedsRate(category: string, rateText: string) {
    KnownCategory(category) && Trim(rateText) != RequiredRate(category)
  }

  function FixedRate(category: string, rateText: string): string {
    if NeedsRate(category, rateText) then RequiredRate(category) else rateText
  }

  function FixedDiscount(text: string): string {
    if Trim(text) == "" then "0.00" else text
  }

  function FixLine(line: Line): Line {
    line.(
      uom := FixedUom(line.uom),
      vatCategory := FixedCategory(line.vatCategory),
      vatRate := FixedRate(FixedCategory(line.vatCategory), line.vatRate),
      lineDiscount := FixedDiscount(line.lineDiscount)
    )
  }

  function UomChanges(line: Line, invoiceId: string): seq<Change> {
    if Trim(line.uom) == "" then [Change(invoiceId, Some(line.id), Uom, "", "PCE")]
    else When(FixedUom(line.uom) != line.uom, Change(invoiceId, Some(line.id), Uom, line.uom, FixedUom(line.uom)))
  }

  function CategoryChanges(line: Line, invoiceId: string): seq<Change> {
    When(FixedCategory(line.vatCategory) != line.vatCategory,
         Change(invoiceId, Some(line.id), VatCategory, line.vatCategory, FixedCategory(line.vatCategory)))
  }

  function RateChanges(line: Line, invoiceId: string): seq<Change> {
    var category := FixedCategory(line.vatCategory);
    When(NeedsRate(category, line.vatRate),
         Change(invoiceId, Some(line.id), VatRate, Trim(line.vatRate), RequiredRate(category)))
  }

  function DiscountChanges(line: Line, invoiceId: string): seq<Change> {
    When(Trim(line.lineDiscount) == "", Change(invoiceId, Some(line.id), LineDiscount, "", "0.00"))
  }

  function LineChanges(line: Line, invoiceId: string): seq<Change> {
    UomChanges(line, invoiceId) + CategoryChanges(line, invoiceId) + RateChanges(line, invoiceId) + DiscountChanges(line, invoiceId)
  }

  function FixLines(lines: seq<Line>): (r: seq<Line>)
    ensures |r| == |lines| && forall i :: 0 <= i < |lines| ==> r[i] == FixLine(lines[i])
  {
    seq(|lines|, i requires 0 <= i < |lines| => FixLine(lines[i]))
  }

  function LinesChanges(lines: seq<Line>, invoiceId: string): seq<Change> {
    if lines == [] then [] else
      LinesChanges(lines[..|lines| - 1], invoiceId) + LineChanges(lines[|lines| - 1], invoiceId)
  }

  // --- Numbering ------------------------------------------------------------

  /** Some trimmed line number is blank or used twice. */
  predicate NumberingBroken(lines: seq<Line>) {
    || (exists l :: l in lines && Trim(l.lineNumber) == "")
    || (exists i, j :: 0 <= i < j < |lines| && Trim(lines[i].lineNumber) == Trim(lines[j].lineNumber))
  }

  function Renumber(lines: seq<Line>): (r: seq<Line>)
    ensures |r| == |lines| && forall i :: 0 <= i < |lines| ==> r[i] == lines[i].(lineNumber := Digits(i + 1))
  {
    seq(|lines|, i requires 0 <= i < |lines| => lines[i].(lineNumber := Digits(i + 1)))
  }

  function RenumberChanges(lines: seq<Line>, invoiceId: string): seq<Change> {
    if lines == [] then [] else
      var n := |lines|;
      RenumberChanges(lines[..n - 1], invoiceId)
      + When(lines[n - 1].lineNumber != Digits(n),
             Change(invoiceId, Some(lines[n - 1].id), LineNumber, lines[n - 1].lineNumber, Digits(n)))
  }

  function FixNumbering(lines: seq<Line>): seq<Line> {
    if NumberingBroken(lines) then Renumber(lines) else lines
  }

  function NumberingChanges(lines: seq<Line>, invoiceId: string): seq<Change> {
    if NumberingBroken(lines) then RenumberChanges(lines, invoiceId) else []
  }

  // --- The whole invoice ----------------------------------------------------

  function FixTrns(next: Invoice): Invoice {
    FixBuyerTrn(FixSupplierTrn(next))
  }

  function FixHeader(invoice: Invoice): Invoice {
    FixType(FixEmirate(FixTrns(FixTime(FixFx(FixCurrency(invoice))))))
  }

  function HeaderChanges(invoice: Invoice): seq<Change> {
    var a := FixCurrency(invoice);
    var b := FixFx(a);
    var c := FixTime(b);
    var d := FixSupplierTrn(c);
    var e := FixBuyerTrn(d);
    var f := FixEmirate(e);
    CurrencyChanges(invoice) + FxChanges(a) + TimeChanges(b) + SupplierTrnChanges(c) + BuyerTrnChanges(d)
    + EmirateChanges(e) + TypeChanges(f)
  }

  /** The rewritten invoice, before its final recalculation. */
  function FixFields(invoice: Invoice): Invoice {
    var next := FixHeader(invoice);
    next.(lines := FixNumbering(FixLines(next.lines)))
  }

  function Fix(invoice: Invoice): Invoice {
    RecalcInvoice(FixFields(invoice))
  }

  function Changes(invoice: Invoice): seq<Change> {
    HeaderChanges(invoice)
    + LinesChanges(invoice.lines, invoice.id)
    + NumberingChanges(FixLines(invoice.lines), invoice.id)
  }

  // --- Auto-fix as it runs --------------------------------------------------

  /** Rewrites the fields of one line in place, logging each assignment. */
  method FixLineInPlace(original: Line, invoiceId: string) returns (line: Line, changes: seq<Change>)
    ensures line == FixLine(original) && changes == LineChanges(original, invoiceId)
  {
    hide Trim, ToUpper, KnownCategory, RequiredRate;
    line, changes := original, [];
    if Trim(line.uom) != "" {
      var upper := ToUpper(Trim(line.uom));
      if upper != line.uom && upper in UOM_CODES {
        changes := changes + [Change(invoiceId, Some(line.id), Uom, line.uom, upper)];
        line := line.(uom := upper);
      }
    } else {
      changes := changes + [Change(invoiceId, Some(line.id), Uom, "", "PCE")];
      line := line.(uom := "PCE");
    }
    if Trim(line.vatCategory) != "" {
      var upper := ToUpper(Trim(line.vatCategory));
      if upper != line.vatCategory {
        changes := changes + [Change(invoiceId, Some(line.id), VatCategory, line.vatCategory, upper)];
        line := line.(vatCategory := upper);
      }
    }
    if KnownCategory(line.vatCategory) {
      var required := RequiredRate(line.vatCategory);
      var supplied := Trim(line.vatRate);
      if supplied != required {
        changes := changes + [Change(invoiceId, Some(line.id), VatRate, supplied, required)];
        line := line.(vatRate := required);
      }
    }
    if Trim(line.lineDiscount) == "" {
      changes := changes + [Change(invoiceId, Some(line.id), LineDiscount, "", "0.00")];
      line := line.(lineDiscount := "0.00");
    }
  }

  /** Numbers lines from one, logging only the lines whose number changes. */
  method RenumberInPlace(original: seq<Line>, invoiceId: string) returns (lines: seq<Line>, changes: seq<Change>)
    ensures lines == Renumber(original) && changes == RenumberChanges(original, invoiceId)
  {
    hide Digits;
    lines, changes := original, [];
    for i := 0 to |original|
      invariant |lines| == |original|
      invariant forall k :: 0 <= k < i ==> lines[k] == Renumber(original)[k]
      invariant forall k :: i <= k < |original| ==> lines[k] == original[k]
      invariant changes == RenumberChanges(original[..i], invoiceId)
    {
      assert original[..i + 1][..i] == original[..i];
      var to := Digits(i + 1);
      if lines[i].lineNumber != to {
        changes := changes + [Change(invoiceId, Some(lines[i].id), LineNumber, lines[i].lineNumber, to)];
        lines := lines[i := lines[i].(lineNumber := to)];
      }
    }
    assert original[..|original|] == original;
  }

  method FixInvoice(invoice: Invoice) returns (fixed: Invoice, changes: seq<Change>)
    ensures fixed == Fix(invoice) && changes == Changes(invoice)
  {
    hide FixHeader, HeaderChanges, FixLine, LineChanges, RecalcInvoice, NumberingBroken, Renumber, RenumberChanges;
    HeaderKeepsLines(invoice);
    var next := FixHeader(invoice);
    changes := HeaderChanges(invoice);
    ghost var header := changes;
    var lines: seq<Line> := [];
    var logged: seq<Change> := [];
    for n := 0 to |next.lines|
      invariant |lines| == n && forall k :: 0 <= k < n ==> lines[k] == FixLine(next.lines[k])
      invariant logged == LinesChanges(next.lines[..n], invoice.id)
    {
      assert next.lines[..n + 1][..n] == next.lines[..n];
      var line, found := FixLineInPlace(next.lines[n], invoice.id);
      lines := lines + [line];
      logged := logged + found;
    }
    assert next.lines[..|next.lines|] == next.lines;
    assert lines == FixLines(next.lines);
    changes := changes + logged;
    if NumberingBroken(lines) {
      var renumbered, found := RenumberInPlace(lines, invoice.id);
      lines := renumbered;
      changes := changes + found;
    } else {
      assert changes + [] == changes;
    }
    fixed := RecalcInvoice(next.(lines := lines));
  }

  lemma HeaderKeepsLines(invoice: Invoice)
    ensures FixHeader(invoice).lines == invoice.lines && FixHeader(invoice).id == invoice.id
  {
    hide FixedCurrency, FixedTime, StrippedTrn, FixedEmirate, NeedsFx, AliasOf;
  }

  function AllChanges(invoices: seq<Invoice>): seq<Change> {
    if invoices == [] then [] else AllChanges(invoices[..|invoices| - 1]) + Changes(invoices[|invoices| - 1])
  }

  method AutoFixBatch(invoices: seq<Invoice>) returns (fixed: seq<Invoice>, changes: seq<Change>)
    ensures |fixed| == |invoices| && forall i :: 0 <= i < |invoices| ==> fixed[i] == Fix(invoices[i])
    ensures changes == AllChanges(invoices)
  {
    hide Fix, Changes;
    fixed, changes := [], [];
    for n := 0 to |invoices|
      invariant |fixed| == n && forall k :: 0 <= k < n ==> fixed[k] == Fix(invoices[k])
      invariant changes == AllChanges(invoices[..n])
    {
      assert invoices[..n + 1][..n] == invoices[..n];
      var f, c := FixInvoice(invoices[n]);
      fixed := fixed + [f];
      changes := changes + c;
    }
    assert invoices[..|invoices|] == invoices;
  }
}
