/** What auto-fix writes into every field, and what its log says of each change. */
module AutoFixRules {
  import opened Text
  import opened Money
  import opened Calc
  import opened Codes
  import opened AutoFix

  // --- Header fields --------------------------------------------------------

  /** A time of day on a 24-hour clock, hours and minutes only. */
  predicate HoursAndMinutes(t: string) {
    && |t| == 5 && IsDigit(t[0]) && IsDigit(t[1]) && t[2] == ':' && IsDigit(t[3]) && IsDigit(t[4])
    && 10 * DigitValue(t[0]) + DigitValue(t[1]) < 24 && 10 * DigitValue(t[3]) + DigitValue(t[4]) < 60
  }

  function TimeTo(text: string): string {
    if Trim(text) == "" then "00:00:00" else if HoursAndMinutes(Trim(text)) then Trim(text) + ":00" else text
  }

  /** The text without its white space and hyphens. */
  function Bare(text: string): string {
    if text == "" then "" else (if IsSpace(text[0]) || text[0] == '-' then "" else [text[0]]) + Bare(text[1..])
  }

  /** Every run of white space is one blank. */
  function SingleSpaced(s: string): string {
    if s == "" then ""
    else
      var n := |s| - 1;
      if !IsSpace(s[n]) then SingleSpaced(s[..n]) + [s[n]]
      else if n > 0 && IsSpace(s[n - 1]) then SingleSpaced(s[..n])
      else SingleSpaced(s[..n]) + " "
  }

  /** The emirate a spelling stands for, whatever its case and spacing; other texts are left alone. */
  function EmirateTo(text: string): string {
    var name := SingleSpaced(ToLower(Trim(text)));
    if name in {"dubai", "dxb"} then "Dubai"
    else if name in {"abu dhabi", "abudhabi", "auh"} then "Abu Dhabi"
    else if name in {"sharjah", "shj"} then "Sharjah"
    else if name == "ajman" then "Ajman"
    else if name in {"ras al khaimah", "ras al-khaimah", "rak"} then "Ras Al Khaimah"
    else if name in {"fujairah", "fuj"} then "Fujairah"
    else if name in {"umm al quwain", "umm al-quwain", "uaq"} then "Umm Al Quwain"
    else text
  }

  /** The code a description of the invoice type stands for; other texts are left alone. */
  function TypeTo(text: string): string {
    var name := ToLower(Trim(text));
    if name in {"tax", "tax invoice", "b2b"} then "380"
    else if name in {"simplified", "simplified tax invoice", "b2c"} then "388"
    else if name in {"credit", "credit note"} then "381"
    else if name in {"debit", "debit note"} then "383"
    else text
  }

  /** Every header field auto-fix writes, over the field as it was; the others are left alone. */
  predicate HeaderFixed(x: Invoice, y: Invoice) {
    && y.currency == (if Trim(x.currency) == "" then "AED" else ToUpper(Trim(x.currency)))
    && y.fxRate == (if y.currency == "AED" && Trim(x.fxRate) in {"", "0"} then "1.000000" else x.fxRate)
    && y.issueTime == TimeTo(x.issueTime)
    && y.supplierTrn == Bare(x.supplierTrn) && y.buyerTrn == Bare(x.buyerTrn)
    && y.buyerEmirate == EmirateTo(x.buyerEmirate) && y.invoiceType == TypeTo(x.invoiceType)
    && y == x.(currency := y.currency, fxRate := y.fxRate, issueTime := y.issueTime, supplierTrn := y.supplierTrn,
               buyerTrn := y.buyerTrn, buyerEmirate := y.buyerEmirate, invoiceType := y.invoiceType, lines := y.lines)
  }

  lemma ClockMeans(t: string)
    ensures ClockShape(t) <==> HoursAndMinutes(t)
  {
  }

  lemma {:induction false} BareIs(text: string)
    ensures StrippedTrn(text) == Bare(text)
  {
    if text != "" {
      BareIs(text[1..]);
    }
  }

  lemma {:induction false} CollapseLast(s: string, c: char)
    ensures Collapse(s + [c])
      == if !IsSpace(c) then Collapse(s) + [c] else if s != "" && IsSpace(s[|s| - 1]) then Collapse(s) else Collapse(s) + " "
  {
    if s == "" {
      assert s + [c] == [c] && [c][1..] == "";
    } else {
      assert (s + [c])[1..] == s[1..] + [c];
      CollapseLast(s[1..], c);
    }
  }

  lemma {:induction false} CollapseIs(s: string)
    ensures Collapse(s) == SingleSpaced(s)
  {
    if s != "" {
      var n := |s| - 1;
      assert s[..n] + [s[n]] == s;
      CollapseLast(s[..n], s[n]);
      CollapseIs(s[..n]);
    }
  }

  lemma EmirateIs(text: string)
    ensures FixedEmirate(text) == EmirateTo(text)
  {
    CollapseIs(ToLower(Trim(text)));
    hide Trim;
    if Trim(text) == "" {
      assert ToLower("") == "";
      assert SingleSpaced("") == "";
    }
    hide SingleSpaced, Collapse;
  }

  lemma TypeIs(next: Invoice)
    ensures FixType(next) == next.(invoiceType := TypeTo(next.invoiceType))
  {
    hide Trim;
  }

  lemma HeaderMeans(x: Invoice)
    ensures HeaderFixed(x, FixHeader(x)) && FixHeader(x).lines == x.lines
  {
    var a := FixCurrency(x);
    var b := FixFx(a);
    var c := FixTime(b);
    var d := FixTrns(c);
    var e := FixEmirate(d);
    ClockMeans(Trim(x.issueTime));
    BareIs(x.supplierTrn);
    BareIs(x.buyerTrn);
    EmirateIs(x.buyerEmirate);
    TypeIs(e);
    hide Trim, ClockShape, HoursAndMinutes, StrippedTrn, Bare, FixedEmirate, EmirateTo, TypeTo, FixType;
  }

  // --- Lines ----------------------------------------------------------------

  function UomTo(text: string): string {
    if Trim(text) == "" then "PCE"
    else if ToUpper(Trim(text)) in {"PCE", "HUR", "KGM", "DAY", "MON"} then ToUpper(Trim(text))
    else text
  }

  function CategoryTo(text: string): string {
    if Trim(text) == "" then text else ToUpper(Trim(text))
  }

  /** The rate the category asks for, unless the cell says it already; a category that is none keeps its rate. */
  function RateTo(category: string, text: string): string {
    if category == "S" then (if Trim(text) == "5.00" then text else "5.00")
    else if category in {"Z", "E", "O"} then (if Trim(text) == "0.00" then text else "0.00")
    else text
  }

  /** A line number is missing, or two are the same. */
  predicate Misnumbered(lines: seq<Line>) {
    exists i :: 0 <= i < |lines| && (Trim(lines[i].lineNumber) == "" || TakenBefore(lines, i))
  }

  predicate TakenBefore(lines: seq<Line>, i: nat)
    requires i < |lines|
  {
    exists j :: 0 <= j < i && Trim(lines[j].lineNumber) == Trim(lines[i].lineNumber)
  }

  /** Every field of a line auto-fix writes, over the field as it was; the others are left alone. */
  predicate LineFixed(x: Line, y: Line, number: string) {
    && y.uom == UomTo(x.uom) && y.vatCategory == CategoryTo(x.vatCategory)
    && y.vatRate == RateTo(CategoryTo(x.vatCategory), x.vatRate)
    && y.lineDiscount == (if Trim(x.lineDiscount) == "" then "0.00" else x.lineDiscount)
    && y == x.(uom := y.uom, vatCategory := y.vatCategory, vatRate := y.vatRate, lineDiscount := y.lineDiscount, lineNumber := number)
  }

  predicate LinesFixed(x: seq<Line>, y: seq<Line>) {
    && |y| == |x|
    && forall i :: 0 <= i < |x| ==> LineFixed(x[i], y[i], if Misnumbered(x) then Digits(i + 1) else x[i].lineNumber)
  }

  lemma RateIs(category: string, text: string)
    ensures FixedRate(category, text) == RateTo(category, text)
  {
    hide Trim;
  }

  lemma LineMeans(line: Line)
    ensures LineFixed(line, FixLine(line), line.lineNumber)
  {
    RateIs(FixedCategory(line.vatCategory), line.vatRate);
    hide Trim, ToUpper, FixedRate, RateTo;
  }

  lemma NumberingMeans(lines: seq<Line>)
    ensures NumberingBroken(FixLines(lines)) <==> Misnumbered(lines)
  {
    hide FixLine, Trim;
    forall i | 0 <= i < |lines|
      ensures FixLines(lines)[i].lineNumber == lines[i].lineNumber
    {
      NumberKept(lines[i]);
    }
    if NumberingBroken(FixLines(lines)) {
      if l :| l in FixLines(lines) && Trim(l.lineNumber) == "" {
        var i :| 0 <= i < |lines| && FixLines(lines)[i] == l;
        assert Trim(lines[i].lineNumber) == "";
      } else {
        var i, j :| 0 <= i < j < |lines| && Trim(FixLines(lines)[i].lineNumber) == Trim(FixLines(lines)[j].lineNumber);
        assert TakenBefore(lines, j);
      }
    }
    if Misnumbered(lines) {
      var i :| 0 <= i < |lines| && (Trim(lines[i].lineNumber) == "" || TakenBefore(lines, i));
      assert FixLines(lines)[i] in FixLines(lines);
    }
  }

  lemma NumberKept(line: Line)
    ensures FixLine(line).lineNumber == line.lineNumber
  {
  }

  /** What auto-fix makes of an invoice, field by field, before its final recalculation. */
  lemma FieldsMean(x: Invoice)
    ensures Fix(x) == RecalcInvoice(FixFields(x))
    ensures HeaderFixed(x, FixFields(x)) && LinesFixed(x.lines, FixFields(x).lines)
  {
    HeaderMeans(x);
    NumberingMeans(x.lines);
    forall i | 0 <= i < |x.lines|
      ensures LineFixed(x.lines[i], FixLine(x.lines[i]), x.lines[i].lineNumber)
    {
      LineMeans(x.lines[i]);
    }
    hide RecalcInvoice, FixHeader, FixLine, Misnumbered, NumberingBroken, UomTo, CategoryTo, RateTo, Trim, ToUpper,
      TimeTo, Bare, EmirateTo, TypeTo, Digits;
  }

  // --- The log --------------------------------------------------------------

  /** What the log says of one change: the text that stood there, and the text that stands there now. */
  predicate HeaderEntry(x: Invoice, y: Invoice, c: Change) {
    && c.invoiceId == x.id && c.lineId == None
    && match c.field
       case Currency => c.from == x.currency && c.to == y.currency
       case FxRate => c.from == Trim(x.fxRate) && c.to == y.fxRate
       case IssueTime => c.from == Trim(x.issueTime) && c.to == y.issueTime
       case SupplierTrn => c.from == x.supplierTrn && c.to == y.supplierTrn
       case BuyerTrn => c.from == x.buyerTrn && c.to == y.buyerTrn
       case BuyerEmirate => c.from == x.buyerEmirate && c.to == y.buyerEmirate
       case InvoiceTypeField => c.from == Trim(x.invoiceType) && c.to == y.invoiceType
       case _ => false
  }

  predicate LineEntry(id: string, x: Line, y: Line, c: Change) {
    && c.invoiceId == id && c.lineId == Some(x.id)
    && match c.field
       case Uom => c.from == (if Trim(x.uom) == "" then "" else x.uom) && c.to == y.uom
       case VatCategory => c.from == x.vatCategory && c.to == y.vatCategory
       case VatRate => c.from == Trim(x.vatRate) && c.to == y.vatRate
       case LineDiscount => c.from == "" && c.to == y.lineDiscount
       case LineNumber => c.from == x.lineNumber && c.to == y.lineNumber
       case _ => false
  }

  predicate Explained(x: Invoice, y: Invoice, c: Change) {
    || HeaderEntry(x, y, c)
    || exists i :: 0 <= i < |x.lines| && i < |y.lines| && LineEntry(x.id, x.lines[i], y.lines[i], c)
  }

  lemma HeaderLog(x: Invoice, c: Change)
    requires c in HeaderChanges(x)
    ensures HeaderEntry(x, FixHeader(x), c)
  {
    var a := FixCurrency(x);
    var b := FixFx(a);
    var e := FixTrns(FixTime(b));
    var f := FixEmirate(e);
    HeaderStages(x);
    hide Trim, FixedCurrency, FixedTime, NeedsTime, NeedsFx, StrippedTrn, FixedEmirate, AliasOf, FixHeader, FixType, FixFx;
    assert c in CurrencyChanges(x) || c in FxChanges(a) || c in TimeChanges(b) || c in SupplierTrnChanges(FixTime(b))
        || c in BuyerTrnChanges(FixSupplierTrn(FixTime(b))) || c in EmirateChanges(e) || c in TypeChanges(f);
    if c in TypeChanges(f) {
      TypeEntry(f);
    } else if c in FxChanges(a) {
      FxEntry(a);
    }
  }

  lemma TypeEntry(f: Invoice)
    ensures forall c :: c in TypeChanges(f) ==> c.from == Trim(f.invoiceType) && c.to == FixType(f).invoiceType
    ensures forall c :: c in TypeChanges(f) ==> c.field == InvoiceTypeField && c.invoiceId == f.id && c.lineId == None
  {
    hide Trim, TypeAlias;
  }

  lemma FxEntry(a: Invoice)
    ensures forall c :: c in FxChanges(a) ==> c == Change(a.id, None, FxRate, Trim(a.fxRate), FixFx(a).fxRate)
  {
    hide Trim;
  }

  /** Each rule sees the field as it was, and the last word on it is that rule's. */
  lemma HeaderStages(x: Invoice)
    ensures var a := FixCurrency(x);
      var b := FixFx(a);
      var e := FixTrns(FixTime(b));
      var f := FixEmirate(e);
      var y := FixHeader(x);
      && a.fxRate == x.fxRate && b.issueTime == x.issueTime && FixTime(b).supplierTrn == x.supplierTrn
      && FixSupplierTrn(FixTime(b)).buyerTrn == x.buyerTrn && e.buyerEmirate == x.buyerEmirate && f.invoiceType == x.invoiceType
      && a.id == b.id == FixTime(b).id == FixSupplierTrn(FixTime(b)).id == e.id == f.id == x.id
      && y.currency == FixedCurrency(x.currency) && y.fxRate == b.fxRate && y.issueTime == FixedTime(x.issueTime)
      && y.supplierTrn == StrippedTrn(x.supplierTrn) && y.buyerTrn == StrippedTrn(x.buyerTrn)
      && y.buyerEmirate == FixedEmirate(x.buyerEmirate) && y.invoiceType == FixType(f).invoiceType
  {
    hide FixedCurrency, FixedTime, NeedsFx, StrippedTrn, FixedEmirate, AliasOf;
  }

  lemma LineLog(line: Line, id: string, c: Change)
    requires c in LineChanges(line, id)
    ensures LineEntry(id, line, FixLine(line), c) && c.field != LineNumber
  {
    hide Trim, ToUpper, KnownCategory, RequiredRate;
  }

  lemma {:induction false} LinesLog(lines: seq<Line>, id: string, c: Change)
    requires c in LinesChanges(lines, id)
    ensures exists i :: 0 <= i < |lines| && LineEntry(id, lines[i], FixLine(lines[i]), c) && c.field != LineNumber
  {
    hide LineChanges, FixLine, LineEntry;
    var n := |lines| - 1;
    if c in LineChanges(lines[n], id) {
      LineLog(lines[n], id, c);
    } else {
      LinesLog(lines[..n], id, c);
      var i :| 0 <= i < n && LineEntry(id, lines[..n][i], FixLine(lines[..n][i]), c);
      assert lines[..n][i] == lines[i];
    }
  }

  lemma {:induction false} RenumberLog(lines: seq<Line>, id: string, c: Change)
    requires c in RenumberChanges(lines, id)
    ensures exists i :: 0 <= i < |lines| && c == Change(id, Some(lines[i].id), LineNumber, lines[i].lineNumber, Digits(i + 1))
  {
    hide Digits;
    var n := |lines| - 1;
    if c in RenumberChanges(lines[..n], id) {
      RenumberLog(lines[..n], id, c);
      var i :| 0 <= i < n && c == Change(id, Some(lines[..n][i].id), LineNumber, lines[..n][i].lineNumber, Digits(i + 1));
      assert lines[..n][i] == lines[i];
    }
  }

  lemma EntryIgnoresNumber(id: string, x: Line, y: Line, number: string, c: Change)
    requires LineEntry(id, x, y, c) && c.field != LineNumber
    ensures LineEntry(id, x, y.(lineNumber := number), c)
  {
    hide Trim;
  }

  /** Every entry of the log is of a field of this invoice or of one of its lines, with what stood there and what stands there now. */
  lemma LogTellsTheTruth(x: Invoice, c: Change)
    requires c in Changes(x)
    ensures Explained(x, FixFields(x), c)
  {
    var y := FixFields(x);
    hide FixFields, HeaderChanges, LinesChanges, RenumberChanges, FixLine, FixHeader, HeaderFixed, LineFixed, NumberingBroken, Misnumbered, Digits,
      HeaderEntry, LineEntry;
    if c in HeaderChanges(x) {
      HeaderLog(x, c);
      SameHeader(x, c);
    } else if c in LinesChanges(x.lines, x.id) {
      LinesLog(x.lines, x.id, c);
      var i :| 0 <= i < |x.lines| && LineEntry(x.id, x.lines[i], FixLine(x.lines[i]), c) && c.field != LineNumber;
      LineOfFields(x, i);
      EntryIgnoresNumber(x.id, x.lines[i], FixLine(x.lines[i]), y.lines[i].lineNumber, c);
    } else {
      RenumberLog(FixLines(x.lines), x.id, c);
      var i :| 0 <= i < |x.lines|
        && c == Change(x.id, Some(FixLines(x.lines)[i].id), LineNumber, FixLines(x.lines)[i].lineNumber, Digits(i + 1));
      RenumberedLine(x, i, c);
    }
  }

  lemma SameHeader(x: Invoice, c: Change)
    requires HeaderEntry(x, FixHeader(x), c)
    ensures HeaderEntry(x, FixFields(x), c)
  {
    hide FixHeader, Trim, FixNumbering;
  }

  lemma LineOfFields(x: Invoice, i: nat)
    requires i < |x.lines|
    ensures |FixFields(x).lines| == |x.lines| && FixFields(x).lines[i] == FixLine(x.lines[i]).(lineNumber := FixFields(x).lines[i].lineNumber)
  {
    HeaderMeans(x);
    hide FixHeader, FixLine, NumberingBroken, Digits, HeaderFixed;
  }

  lemma RenumberedLine(x: Invoice, i: nat, c: Change)
    requires i < |x.lines| && NumberingChanges(FixLines(x.lines), x.id) != []
    requires c == Change(x.id, Some(FixLines(x.lines)[i].id), LineNumber, FixLines(x.lines)[i].lineNumber, Digits(i + 1))
    ensures i < |FixFields(x).lines| && LineEntry(x.id, x.lines[i], FixFields(x).lines[i], c)
  {
    HeaderMeans(x);
    hide FixHeader, HeaderFixed, NumberingBroken, Digits, RenumberChanges, Trim, FixedUom, FixedCategory, FixedRate, FixedDiscount;
  }
}
