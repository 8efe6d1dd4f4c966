/** The rules as a table: which code is reported where, over the cells of the upload, and which codes hold an invoice back. */
module RuleTable {
  import opened Text
  import opened Money
  import opened Calc
  import opened Codes
  import opened Validate
  import opened RecalcFindings
  import opened CalcResults

  /** A rule code at a place: a cell of the header sheet, or a cell of a line. */
  datatype Mark = Mark(code: string, cell: Option<string>, line: Option<string>)

  function MarkOf(f: Finding): Mark {
    Mark(RuleCode(f.message), f.cell, f.lineId)
  }

  function Marks(findings: seq<Finding>): set<Mark> {
    set f | f in findings :: MarkOf(f)
  }

  function Flag(condition: bool, mark: Mark): set<Mark> {
    if condition then {mark} else {}
  }

  function Place(column: string, row: Option<int>): Option<string> {
    if row.Some? && row.value >= 1 then Some(column + Digits(row.value)) else None
  }

  function OnHeader(code: string, column: string, x: Invoice): Mark {
    Mark(code, Place(column, x.sourceRow), None)
  }

  /** A rule about the invoice as a whole points at no cell. */
  function OnInvoice(code: string): Mark {
    Mark(code, None, None)
  }

  function OnLine(code: string, column: string, line: Line): Mark {
    Mark(code, Place(column, line.sourceRow), Some(line.id))
  }

  // --- The header rules -----------------------------------------------------

  predicate WellFormed(number: string) {
    forall c :: c in number ==> IsDigit(c) || 'A' <= c <= 'Z' || 'a' <= c <= 'z' || c == '-' || c == '/'
  }

  /** Fifteen digits beginning with 1. */
  predicate IsTrn(trn: string) {
    |trn| == 15 && trn[0] == '1' && forall i :: 0 <= i < 15 ==> '0' <= trn[i] <= '9'
  }

  predicate HasDateShape(date: string) {
    |date| == 10 && forall i :: 0 <= i < 10 ==> if i == 4 || i == 7 then date[i] == '-' else IsDigit(date[i])
  }

  /** HH:MM:SS on a 24-hour clock. */
  predicate HasTimeShape(t: string) {
    && |t| == 8 && (forall i :: 0 <= i < 8 ==> if i == 2 || i == 5 then t[i] == ':' else IsDigit(t[i]))
    && (t[0] == '0' || t[0] == '1' || (t[0] == '2' && t[1] <= '3')) && t[3] <= '5' && t[6] <= '5'
  }

  function NumberMarks(x: Invoice, ctx: Context): set<Mark> {
    var n := Trim(x.invoiceNumber);
    Flag(n == "", OnHeader("BR-UAE-01", "A", x))
    + Flag(n != "" && !WellFormed(n), OnHeader("BR-UAE-02", "A", x))
    + Flag(n != "" && (n in ctx.filed || (n in ctx.batch && ctx.batch[n] > 1)), OnHeader("BR-UAE-03", "A", x))
  }

  function DateMarks(x: Invoice, ctx: Context): set<Mark> {
    var date := Trim(x.issueDate);
    var day := if HasDateShape(date) then ctx.dayOf(date) else None;
    Flag(day == None, OnHeader("BR-UAE-16", "C", x))
    + Flag(day.Some? && day.value > ctx.today, OnHeader("BR-UAE-17", "C", x))
    + Flag(day.Some? && ctx.today - day.value > 14, OnHeader("WRN-UAE-05", "C", x))
  }

  function CurrencyMarks(x: Invoice): set<Mark> {
    var currency, fx := ToUpper(Trim(x.currency)), ToDecimal(x.fxRate);
    Flag(currency !in {"AED", "USD", "EUR", "GBP", "SAR"}, OnHeader("BR-UAE-19", "E", x))
    + Flag(currency in {"USD", "EUR", "GBP", "SAR"} && (fx == None || fx.value <= 0.0), OnHeader("BR-UAE-20", "F", x))
  }

  function SupplierMarks(x: Invoice, ctx: Context): set<Mark> {
    var trn := Trim(x.supplierTrn);
    Flag(!IsTrn(trn), OnHeader("BR-UAE-07", "G", x))
    + Flag(IsTrn(trn) && ctx.tenantTrn != "" && trn != ctx.tenantTrn, OnHeader("BR-UAE-10", "G", x))
    + Flag(Trim(x.supplierName) == "", OnHeader("BR-UAE-11", "H", x))
  }

  function BuyerTrnMarks(x: Invoice): set<Mark> {
    var trn, needed := Trim(x.buyerTrn), Trim(x.invoiceType) in {"380", "381", "383"};
    Flag(trn == "" && needed, OnHeader("BR-UAE-09", "I", x))
    + Flag(trn == "" && !needed, OnHeader("WRN-UAE-02", "I", x))
    + Flag(trn != "" && !IsTrn(trn), OnHeader("BR-UAE-08", "I", x))
  }

  function ReferenceMarks(x: Invoice): set<Mark> {
    Flag(Trim(x.paymentMeans) !in {"10", "30", "42", "48"}, OnHeader("BR-UAE-30", "N", x))
    + Flag(Trim(x.invoiceType) in {"381", "383"} && Trim(x.precedingInvoiceId) == "", OnHeader("BR-UAE-29", "M", x))
  }

  function HeaderMarks(x: Invoice, ctx: Context): set<Mark> {
    NumberMarks(x, ctx)
    + Flag(Trim(x.invoiceType) !in {"380", "388", "381", "383"}, OnHeader("BR-UAE-04", "B", x))
    + DateMarks(x, ctx)
    + Flag(!HasTimeShape(Trim(x.issueTime)), OnHeader("BR-UAE-18", "D", x))
    + CurrencyMarks(x) + SupplierMarks(x, ctx) + BuyerTrnMarks(x)
    + Flag(Trim(x.buyerName) == "", OnHeader("BR-UAE-12", "J", x))
    + Flag(Trim(x.buyerEmirate) !in {"Dubai", "Abu Dhabi", "Sharjah", "Ajman", "Ras Al Khaimah", "Fujairah", "Umm Al Quwain"},
           OnHeader("BR-UAE-13", "K", x))
    + ReferenceMarks(x)
    + Flag(x.lines == [], OnInvoice("BR-UAE-21"))
  }

  lemma MarksThen(a: seq<Finding>, b: seq<Finding>)
    ensures Marks(Then(a, b)) == Marks(a) + Marks(b)
  {
    hide MarkOf, NoBlocking, NoneSuspect;
  }

  lemma MarksWhen(condition: bool, f: Finding)
    ensures Marks(When(condition, f)) == Flag(condition, MarkOf(f))
  {
    hide MarkOf, NoBlocking, NoneSuspect;
  }

  lemma MarksOne(f: Finding)
    ensures Marks(One(f)) == {MarkOf(f)}
  {
    hide MarkOf, NoBlocking, NoneSuspect;
  }

  lemma NoMarks()
    ensures Marks([]) == {} && Marks(EmptyFindings()) == {}
  {
  }

  lemma PlaceIs(column: string, row: Option<int>)
    ensures CellAt(column, row) == Place(column, row)
  {
    hide Digits;
  }

  lemma HeaderMark(m: Message, x: Invoice)
    ensures MarkOf(HeaderFinding(m, x))
      == Mark(RuleCode(m), if HeaderColumn(m) == "" then None else Place(HeaderColumn(m), x.sourceRow), None)
  {
    PlaceIs(HeaderColumn(m), x.sourceRow);
    hide CellAt, Place, HeaderColumn, RuleCode;
  }

  lemma LineMark(m: Message, column: string, line: Line)
    ensures MarkOf(LineFinding(m, column, line)) == OnLine(RuleCode(m), column, line)
  {
    PlaceIs(column, line.sourceRow);
    hide CellAt, Place, RuleCode;
  }

  lemma FormatMeans(number: string)
    requires number != ""
    ensures NumberFormat(number) <==> WellFormed(number)
  {
  }

  lemma TrnMeans(trn: string)
    ensures IsValidTrn(trn) <==> IsTrn(Trim(trn))
  {
    hide Trim;
    DigitsEverywhere(Trim(trn));
    hide AllDigits;
  }

  lemma DigitsEverywhere(t: string)
    ensures AllDigits(t) <==> forall i :: 0 <= i < |t| ==> IsDigit(t[i])
  {
    if AllDigits(t) {
      forall i | 0 <= i < |t|
        ensures IsDigit(t[i])
      {
        assert t[i] in t;
      }
    }
  }

  lemma DateMeans(t: string)
    ensures DateShape(t) <==> HasDateShape(t)
  {
    if |t| == 10 {
      DigitsEverywhere(t[..4]);
      DigitsEverywhere(t[5..7]);
      DigitsEverywhere(t[8..]);
      hide AllDigits, IsDigit;
      assert (forall i :: 0 <= i < 4 ==> IsDigit(t[..4][i])) <==> IsDigit(t[0]) && IsDigit(t[1]) && IsDigit(t[2]) && IsDigit(t[3]);
      assert (forall i :: 0 <= i < 2 ==> IsDigit(t[5..7][i])) <==> IsDigit(t[5]) && IsDigit(t[6]);
      assert (forall i :: 0 <= i < 2 ==> IsDigit(t[8..][i])) <==> IsDigit(t[8]) && IsDigit(t[9]);
    }
  }

  lemma TimeMeans(t: string)
    ensures TimeShape(t) <==> HasTimeShape(t)
  {
    if |t| == 8 {
      assert t[..5][0] == t[0] && t[..5][1] == t[1] && t[..5][2] == t[2] && t[..5][3] == t[3] && t[..5][4] == t[4];
    }
  }

  lemma NumberTable(x: Invoice, ctx: Context)
    ensures Marks(NumberFindings(x, ctx)) == NumberMarks(x, ctx)
  {
    var n := Trim(x.invoiceNumber);
    TrimIsTrimmed(x.invoiceNumber);
    HeaderMark(NumberRequired, x);
    hide Trim, NumberFormat, WellFormed, Place, Marks, MarkOf, GivenNumberFindings, NoBlocking, NoneSuspect, HeaderFinding;
    MarksOne(HeaderFinding(NumberRequired, x));
    if n != "" {
      FormatMeans(n);
      GivenNumberTable(n, x, ctx);
    }
  }

  lemma GivenNumberTable(n: string, x: Invoice, ctx: Context)
    requires n != ""
    ensures Marks(GivenNumberFindings(n, x, ctx))
      == Flag(!NumberFormat(n), OnHeader("BR-UAE-02", "A", x))
         + Flag(n in ctx.filed || (n in ctx.batch && ctx.batch[n] > 1), OnHeader("BR-UAE-03", "A", x))
  {
    var a, b, c := HeaderFinding(NumberIllegal(n), x), HeaderFinding(NumberFiled(n), x), HeaderFinding(NumberRepeated(n), x);
    HeaderMark(NumberIllegal(n), x);
    HeaderMark(NumberFiled(n), x);
    HeaderMark(NumberRepeated(n), x);
    hide NumberFormat, Place, Marks, MarkOf, NoBlocking, NoneSuspect, HeaderFinding, When, Then;
    var repeated := n in ctx.batch && ctx.batch[n] > 1;
    MarksThen(When(!NumberFormat(n), a), Then(When(n in ctx.filed, b), When(repeated, c)));
    MarksThen(When(n in ctx.filed, b), When(repeated, c));
    MarksWhen(!NumberFormat(n), a);
    MarksWhen(n in ctx.filed, b);
    MarksWhen(repeated, c);
  }

  lemma TypeIsListed(code: string)
    ensures TypeSpec(code).Some? <==> code in {"380", "388", "381", "383"}
    ensures TypeSpec(code).Some? && TypeSpec(code).value.requiresBuyerTrn <==> code in {"380", "381", "383"}
    ensures TypeSpec(code).Some? && TypeSpec(code).value.requiresPrecedingInvoice <==> code in {"381", "383"}
  {
  }

  lemma DateTable(x: Invoice, ctx: Context)
    ensures Marks(DateFindings(x, ctx)) == DateMarks(x, ctx)
  {
    var date := Trim(x.issueDate);
    DateMeans(date);
    HeaderMark(DateInvalid, x);
    HeaderMark(DateFuture(date), x);
    HeaderMark(DateBackdated(date), x);
    hide Trim, DateShape, HasDateShape, Place, Marks, MarkOf, NoBlocking, NoneSuspect, HeaderFinding, One, When;
    MarksOne(HeaderFinding(DateInvalid, x));
    MarksOne(HeaderFinding(DateFuture(date), x));
    if DateShape(date) && ctx.dayOf(date).Some? {
      MarksWhen(ctx.today - ctx.dayOf(date).value > 14, HeaderFinding(DateBackdated(date), x));
    }
  }

  lemma CurrencyTable(x: Invoice)
    ensures Marks(CurrencyFindings(x)) == CurrencyMarks(x)
  {
    var currency, fx := ToUpper(Trim(x.currency)), ToDecimal(x.fxRate);
    HeaderMark(CurrencyInvalid(x.currency), x);
    HeaderMark(FxRequired(currency), x);
    hide Trim, ToUpper, ToDecimal, Place, Marks, MarkOf, NoBlocking, NoneSuspect, HeaderFinding, One, When;
    MarksOne(HeaderFinding(CurrencyInvalid(x.currency), x));
    MarksWhen(currency != BASE_CURRENCY && (fx.None? || fx.value <= 0.0), HeaderFinding(FxRequired(currency), x));
  }

  lemma SupplierTable(x: Invoice, ctx: Context)
    ensures Marks(SupplierFindings(x, ctx)) == SupplierMarks(x, ctx)
  {
    var trn := Trim(x.supplierTrn);
    var a, b, c := HeaderFinding(SupplierTrnInvalid(trn), x), HeaderFinding(SupplierTrnMismatch(trn, ctx.tenantTrn), x),
      HeaderFinding(SupplierNameRequired, x);
    TrnMeans(trn);
    TrimIsTrimmed(x.supplierTrn);
    HeaderMark(SupplierTrnInvalid(trn), x);
    HeaderMark(SupplierTrnMismatch(trn, ctx.tenantTrn), x);
    HeaderMark(SupplierNameRequired, x);
    hide Trim, IsValidTrn, IsTrn, Place, Marks, MarkOf, NoBlocking, NoneSuspect, HeaderFinding, One, When, Then;
    var first := if !IsValidTrn(trn) then One(a) else When(ctx.tenantTrn != "" && trn != ctx.tenantTrn, b);
    MarksThen(first, When(Blank(x.supplierName), c));
    MarksOne(a);
    MarksWhen(ctx.tenantTrn != "" && trn != ctx.tenantTrn, b);
    MarksWhen(Blank(x.supplierName), c);
  }

  lemma BuyerTrnTable(x: Invoice)
    ensures Marks(BuyerTrnFindings(x)) == BuyerTrnMarks(x)
  {
    var trn, spec := Trim(x.buyerTrn), TypeSpec(Trim(x.invoiceType));
    TrnMeans(trn);
    TrimIsTrimmed(x.buyerTrn);
    TypeIsListed(Trim(x.invoiceType));
    hide Trim, TypeSpec, IsValidTrn, IsTrn, Place, Marks, MarkOf, NoBlocking, NoneSuspect, HeaderFinding, One, When;
    HeaderMark(BuyerTrnInvalid(trn), x);
    HeaderMark(BuyerTrnInvalidOrBlank(trn), x);
    HeaderMark(NoBuyerTrn, x);
    MarksWhen(!IsValidTrn(trn), HeaderFinding(BuyerTrnInvalid(trn), x));
    MarksOne(HeaderFinding(BuyerTrnInvalidOrBlank(trn), x));
    MarksWhen(Blank(trn), HeaderFinding(NoBuyerTrn, x));
    if spec.Some? {
      HeaderMark(BuyerTrnRequired(spec.value.title), x);
      MarksOne(HeaderFinding(BuyerTrnRequired(spec.value.title), x));
    }
  }

  lemma ReferenceTable(x: Invoice)
    ensures Marks(ReferenceFindings(x)) == ReferenceMarks(x)
  {
    var spec := TypeSpec(Trim(x.invoiceType));
    TypeIsListed(Trim(x.invoiceType));
    hide Trim, TypeSpec, Place, MarkOf, NoBlocking, NoneSuspect, HeaderFinding;
    HeaderMark(PaymentMeansInvalid(x.paymentMeans), x);
    if spec.Some? {
      HeaderMark(PrecedingRequired(spec.value.title), x);
    }
  }

  lemma MarksOfEleven(a: seq<Finding>, b: seq<Finding>, c: seq<Finding>, d: seq<Finding>, e: seq<Finding>, f: seq<Finding>,
                      g: seq<Finding>, h: seq<Finding>, i: seq<Finding>, j: seq<Finding>, k: seq<Finding>)
    ensures Marks(Then(a, Then(b, Then(c, Then(d, Then(e, Then(f, Then(g, Then(h, Then(i, Then(j, k)))))))))))
         == Marks(a) + Marks(b) + Marks(c) + Marks(d) + Marks(e) + Marks(f) + Marks(g) + Marks(h) + Marks(i) + Marks(j) + Marks(k)
  {
    hide Marks, NoBlocking, NoneSuspect;
    forall x, y
      ensures Marks(Then(x, y)) == Marks(x) + Marks(y)
    {
      MarksThen(x, y);
    }
    hide Then;
  }

  lemma HeaderTable(x: Invoice, ctx: Context)
    ensures Marks(HeaderFindings(x, ctx)) == HeaderMarks(x, ctx)
  {
    hide Trim, TypeSpec, TimeShape, HasTimeShape, Marks, NoBlocking, NoneSuspect, HeaderFinding, When, Then,
      NumberFindings, DateFindings, CurrencyFindings, SupplierFindings, BuyerTrnFindings, ReferenceFindings, NumberMarks, DateMarks,
      CurrencyMarks, SupplierMarks, BuyerTrnMarks, ReferenceMarks, Flag, OnHeader, OnInvoice;
    NumberTable(x, ctx);
    DateTable(x, ctx);
    CurrencyTable(x);
    SupplierTable(x, ctx);
    BuyerTrnTable(x);
    ReferenceTable(x);
    TypeIsListed(Trim(x.invoiceType));
    TimeMeans(Trim(x.issueTime));
    SingleMarks(x);
    MarksOfEleven(NumberFindings(x, ctx), When(TypeSpec(Trim(x.invoiceType)).None?, HeaderFinding(TypeInvalid(x.invoiceType), x)),
      DateFindings(x, ctx), When(!TimeShape(Trim(x.issueTime)), HeaderFinding(TimeInvalid, x)), CurrencyFindings(x),
      SupplierFindings(x, ctx), BuyerTrnFindings(x), When(Blank(x.buyerName), HeaderFinding(BuyerNameRequired, x)),
      When(Trim(x.buyerEmirate) !in EMIRATES, HeaderFinding(EmirateInvalid(x.buyerEmirate), x)), ReferenceFindings(x),
      When(x.lines == [], HeaderFinding(NoLines, x)));
  }

  lemma SingleMarks(x: Invoice)
    ensures Marks(When(TypeSpec(Trim(x.invoiceType)).None?, HeaderFinding(TypeInvalid(x.invoiceType), x)))
         == Flag(TypeSpec(Trim(x.invoiceType)).None?, OnHeader("BR-UAE-04", "B", x))
    ensures Marks(When(!TimeShape(Trim(x.issueTime)), HeaderFinding(TimeInvalid, x)))
         == Flag(!TimeShape(Trim(x.issueTime)), OnHeader("BR-UAE-18", "D", x))
    ensures Marks(When(Blank(x.buyerName), HeaderFinding(BuyerNameRequired, x))) == Flag(Trim(x.buyerName) == "", OnHeader("BR-UAE-12", "J", x))
    ensures Marks(When(Trim(x.buyerEmirate) !in EMIRATES, HeaderFinding(EmirateInvalid(x.buyerEmirate), x)))
         == Flag(Trim(x.buyerEmirate) !in {"Dubai", "Abu Dhabi", "Sharjah", "Ajman", "Ras Al Khaimah", "Fujairah", "Umm Al Quwain"},
                 OnHeader("BR-UAE-13", "K", x))
    ensures Marks(When(x.lines == [], HeaderFinding(NoLines, x))) == Flag(x.lines == [], OnInvoice("BR-UAE-21"))
  {
    hide Trim, TypeSpec, TimeShape, Place, Marks, MarkOf, NoBlocking, NoneSuspect, HeaderFinding, When;
    HeaderMark(TypeInvalid(x.invoiceType), x);
    HeaderMark(TimeInvalid, x);
    HeaderMark(BuyerNameRequired, x);
    HeaderMark(EmirateInvalid(x.buyerEmirate), x);
    HeaderMark(NoLines, x);
    MarksWhen(TypeSpec(Trim(x.invoiceType)).None?, HeaderFinding(TypeInvalid(x.invoiceType), x));
    MarksWhen(!TimeShape(Trim(x.issueTime)), HeaderFinding(TimeInvalid, x));
    MarksWhen(Blank(x.buyerName), HeaderFinding(BuyerNameRequired, x));
    MarksWhen(Trim(x.buyerEmirate) !in EMIRATES, HeaderFinding(EmirateInvalid(x.buyerEmirate), x));
    MarksWhen(x.lines == [], HeaderFinding(NoLines, x));
  }

  // --- The line rules -------------------------------------------------------

  /** A supplied cell that can be read and differs, in cents, from what its line comes to. */
  predicate Overwritten(given: string, computed: Option<real>) {
    computed.Some? && ToDecimal(given).Some? && RoundTo(ToDecimal(given).value, 2) != computed.value
  }

  function LineTotalOf(l: Line): Option<real> {
    if NetOf(l).Some? && VatOf(l).Some? then Some(NetOf(l).value + VatOf(l).value) else None
  }

  predicate BadDiscount(l: Line) {
    var q, p, d := ToDecimal(l.quantity), ToDecimal(l.unitPrice), ToDecimal(l.lineDiscount);
    q.Some? && p.Some? && d.Some? && (d.value < 0.0 || d.value > q.value * p.value)
  }

  /** The marks of a line `l`, whose derived cells and rate the upload supplies as `g` has them. */
  function LineMarks(l: Line, g: Line, repeated: bool): set<Mark> {
    var quantity, price, rate := ToDecimal(l.quantity), ToDecimal(l.unitPrice), ToDecimal(g.vatRate);
    var category := Trim(l.vatCategory);
    Flag(repeated, OnLine("BR-UAE-26", "B", l))
    + Flag(Trim(l.description) == "" || |l.description| > 500, OnLine("BR-UAE-22", "C", l))
    + Flag(quantity == None || quantity.value <= 0.0, OnLine("BR-UAE-23", "E", l))
    + Flag(price == None || price.value < 0.0, OnLine("BR-UAE-24", "G", l))
    + Flag(Trim(l.uom) !in {"PCE", "HUR", "KGM", "DAY", "MON"}, OnLine("BR-UAE-25", "F", l))
    + Flag(category !in {"S", "Z", "E", "O"}, OnLine("BR-UAE-15", "I", l))
    + Flag(category in {"S", "Z", "E", "O"} && rate.Some? && rate.value != (if category == "S" then 5.0 else 0.0), OnLine("BR-UAE-14", "J", l))
    + Flag(BadDiscount(l), OnLine("BR-UAE-27", "H", l))
    + Flag(Overwritten(g.netAmount, NetOf(l)), OnLine("BR-UAE-06", "K", l))
    + Flag(Overwritten(g.vatAmount, VatOf(l)), OnLine("BR-UAE-06", "L", l))
    + Flag(Overwritten(g.lineTotal, LineTotalOf(l)), OnLine("BR-UAE-06", "M", l))
  }

  predicate SameCells(r: Line, l: Line) {
    && r.id == l.id && r.lineNumber == l.lineNumber && r.description == l.description && r.quantity == l.quantity
    && r.uom == l.uom && r.unitPrice == l.unitPrice && r.lineDiscount == l.lineDiscount && r.vatCategory == l.vatCategory
    && r.sourceRow == l.sourceRow
  }

  lemma DescriptionTable(r: Line)
    ensures Marks(DescriptionFindings(r)) == Flag(Trim(r.description) == "" || |r.description| > 500, OnLine("BR-UAE-22", "C", r))
  {
    hide Trim, Place, Marks, MarkOf, LineFinding, NoBlocking, NoneSuspect, One, When;
    LineMark(DescriptionRequired, "C", r);
    LineMark(DescriptionTooLong(|r.description|), "C", r);
    MarksOne(LineFinding(DescriptionRequired, "C", r));
    MarksWhen(|r.description| > 500, LineFinding(DescriptionTooLong(|r.description|), "C", r));
  }

  lemma QuantityTable(r: Line)
    ensures Marks(QuantityFindings(r))
      == Flag(ToDecimal(r.quantity) == None || ToDecimal(r.quantity).value <= 0.0, OnLine("BR-UAE-23", "E", r))
  {
    hide ToDecimal, Place, Marks, MarkOf, LineFinding, NoBlocking, NoneSuspect, One, When;
    LineMark(QuantityNotNumber(r.quantity), "E", r);
    LineMark(QuantityNotPositive, "E", r);
    MarksOne(LineFinding(QuantityNotNumber(r.quantity), "E", r));
    if ToDecimal(r.quantity).Some? {
      MarksWhen(ToDecimal(r.quantity).value <= 0.0, LineFinding(QuantityNotPositive, "E", r));
    }
  }

  lemma PriceTable(r: Line)
    ensures Marks(PriceFindings(r))
      == Flag(ToDecimal(r.unitPrice) == None || ToDecimal(r.unitPrice).value < 0.0, OnLine("BR-UAE-24", "G", r))
  {
    hide ToDecimal, Place, Marks, MarkOf, LineFinding, NoBlocking, NoneSuspect, One, When;
    LineMark(PriceNotNumber(r.unitPrice), "G", r);
    LineMark(PriceNegative, "G", r);
    MarksOne(LineFinding(PriceNotNumber(r.unitPrice), "G", r));
    if ToDecimal(r.unitPrice).Some? {
      MarksWhen(ToDecimal(r.unitPrice).value < 0.0, LineFinding(PriceNegative, "G", r));
    }
  }

  lemma BasicTable(r: Line, repeated: bool, number: string)
    ensures Marks(BasicFindings(r, repeated, number))
      == Flag(repeated, OnLine("BR-UAE-26", "B", r)) + Marks(DescriptionFindings(r)) + Marks(QuantityFindings(r)) + Marks(PriceFindings(r))
       + Flag(Trim(r.uom) !in {"PCE", "HUR", "KGM", "DAY", "MON"}, OnLine("BR-UAE-25", "F", r))
  {
    hide Trim, Marks, MarkOf, LineFinding, NoBlocking, NoneSuspect, One, When, Then, Flag, OnLine, DescriptionFindings, QuantityFindings,
      PriceFindings;
    var first := When(repeated, LineFinding(LineNumberRepeated(r.lineNumber, number), "B", r));
    var last := When(Trim(r.uom) !in UOM_CODES, LineFinding(UomInvalid(r.uom), "F", r));
    BasicMarks(r, number);
    MarksWhen(repeated, LineFinding(LineNumberRepeated(r.lineNumber, number), "B", r));
    MarksWhen(Trim(r.uom) !in UOM_CODES, LineFinding(UomInvalid(r.uom), "F", r));
    MarksThen(first, Then(DescriptionFindings(r), Then(QuantityFindings(r), Then(PriceFindings(r), last))));
    MarksThen(DescriptionFindings(r), Then(QuantityFindings(r), Then(PriceFindings(r), last)));
    MarksThen(QuantityFindings(r), Then(PriceFindings(r), last));
    MarksThen(PriceFindings(r), last);
  }

  lemma BasicMarks(r: Line, number: string)
    ensures MarkOf(LineFinding(LineNumberRepeated(r.lineNumber, number), "B", r)) == OnLine("BR-UAE-26", "B", r)
    ensures MarkOf(LineFinding(UomInvalid(r.uom), "F", r)) == OnLine("BR-UAE-25", "F", r)
  {
    hide Place, MarkOf, LineFinding;
    LineMark(LineNumberRepeated(r.lineNumber, number), "B", r);
    LineMark(UomInvalid(r.uom), "F", r);
  }

  lemma CategoryTable(r: Line, rateText: string)
    ensures var category, rate := Trim(r.vatCategory), ToDecimal(rateText);
      Marks(CategoryFindings(r, rateText))
      == Flag(category !in {"S", "Z", "E", "O"}, OnLine("BR-UAE-15", "I", r))
       + Flag(category in {"S", "Z", "E", "O"} && rate.Some? && rate.value != (if category == "S" then 5.0 else 0.0), OnLine("BR-UAE-14", "J", r))
  {
    var category, rate := Trim(r.vatCategory), ToDecimal(rateText);
    hide Trim, ToDecimal, ToFixed, Place, Marks, MarkOf, LineFinding, NoBlocking, NoneSuspect, One, When;
    LineMark(CategoryInvalid(r.vatCategory), "I", r);
    MarksOne(LineFinding(CategoryInvalid(r.vatCategory), "I", r));
    NoMarks();
    if KnownCategory(category) && rate.Some? {
      var m := RateMismatch(category, ToFixed(ExpectedRate(category), 2), ToFixed(rate.value, 2));
      LineMark(m, "J", r);
      MarksWhen(rate.value != ExpectedRate(category), LineFinding(m, "J", r));
    }
  }

  lemma GrossIs(r: Line)
    requires Computable(r)
    ensures LineGross(r) == ToDecimal(r.quantity).value * ToDecimal(r.unitPrice).value
  {
    hide ToDecimal;
  }

  lemma AgainstTable(discount: real, gross: real, r: Line)
    ensures Marks(DiscountAgainst(discount, gross, r)) == Flag(discount < 0.0 || discount > gross, OnLine("BR-UAE-27", "H", r))
  {
    hide ToFixed, Place, Marks, MarkOf, LineFinding, NoBlocking, NoneSuspect, One, When, Then;
    var m := DiscountExceeds(ToFixed(discount, 2), ToFixed(gross, 2));
    LineMark(m, "H", r);
    LineMark(DiscountNegative, "H", r);
    MarksThen(When(discount > gross, LineFinding(m, "H", r)), When(discount < 0.0, LineFinding(DiscountNegative, "H", r)));
    MarksWhen(discount > gross, LineFinding(m, "H", r));
    MarksWhen(discount < 0.0, LineFinding(DiscountNegative, "H", r));
  }

  lemma DiscountTable(r: Line)
    ensures Marks(DiscountFindings(r)) == Flag(BadDiscount(r), OnLine("BR-UAE-27", "H", r))
  {
    NoMarks();
    BadMeans(r);
    hide ToDecimal, LineGross, Marks, OnLine, DiscountAgainst, BadDiscount;
    if Computable(r) && ToDecimal(r.lineDiscount).Some? {
      AgainstTable(ToDecimal(r.lineDiscount).value, LineGross(r), r);
    }
  }

  lemma BadMeans(r: Line)
    ensures !(Computable(r) && ToDecimal(r.lineDiscount).Some?) ==> !BadDiscount(r)
    ensures Computable(r) && ToDecimal(r.lineDiscount).Some? ==>
      (BadDiscount(r) <==> ToDecimal(r.lineDiscount).value < 0.0 || ToDecimal(r.lineDiscount).value > LineGross(r))
  {
    hide ToDecimal, LineGross;
    if Computable(r) {
      GrossIs(r);
    }
  }

  lemma CellTable(cell: DerivedCell, column: string, given: string, computed: string, amount: Option<real>, r: Line)
    requires amount.Some? && ToDecimal(computed) == amount && RoundTo(amount.value, 2) == amount.value
    ensures Marks(CellFindings(cell, column, given, computed, r)) == Flag(Overwritten(given, amount), OnLine("BR-UAE-06", column, r))
  {
    hide ToDecimal, ToFixed, RoundTo, Place, Marks, MarkOf, LineFinding, NoBlocking, NoneSuspect, One;
    NoMarks();
    if !CellOk(given, computed) {
      var m := AmountOverwritten(cell, ToFixed(ToDecimal(given).value, 2), computed);
      LineMark(m, column, r);
      MarksOne(LineFinding(m, column, r));
    }
  }

  lemma OverwriteTable(l: Line, g: Line)
    ensures var r := RecalcLine(l);
      Marks(OverwriteFindings(r, g))
      == Flag(Overwritten(g.netAmount, NetOf(l)), OnLine("BR-UAE-06", "K", r))
       + Flag(Overwritten(g.vatAmount, VatOf(l)), OnLine("BR-UAE-06", "L", r))
       + Flag(Overwritten(g.lineTotal, LineTotalOf(l)), OnLine("BR-UAE-06", "M", r))
  {
    var r := RecalcLine(l);
    LineAmounts(l);
    NoMarks();
    if NetOf(l).Some? {
      AmountsInCents(l);
      hide ToDecimal, ToFixed, RoundTo, NetOf, VatOf, RecalcLine, Marks, NoBlocking, CellFindings, Overwritten, OnLine;
      CellTable(NetCell, "K", g.netAmount, r.netAmount, NetOf(l), r);
      CellTable(VatCell, "L", g.vatAmount, r.vatAmount, VatOf(l), r);
      CellTable(TotalCell, "M", g.lineTotal, r.lineTotal, LineTotalOf(l), r);
      var a, b, c := CellFindings(NetCell, "K", g.netAmount, r.netAmount, r), CellFindings(VatCell, "L", g.vatAmount, r.vatAmount, r),
        CellFindings(TotalCell, "M", g.lineTotal, r.lineTotal, r);
      MarksConcat(a, b);
      MarksConcat(a + b, c);
    } else {
      VatNeedsNet(l);
      hide ToDecimal, ToFixed, RoundTo, NetOf, VatOf, RecalcLine, Marks, OnLine;
    }
  }

  lemma VatNeedsNet(l: Line)
    ensures VatOf(l).Some? <==> NetOf(l).Some?
  {
    hide NetOf;
  }

  lemma MarksConcat(a: seq<Finding>, b: seq<Finding>)
    ensures Marks(a + b) == Marks(a) + Marks(b)
  {
    hide MarkOf;
  }

  lemma AmountsInCents(l: Line)
    requires NetOf(l).Some?
    ensures VatOf(l).Some? && RoundTo(NetOf(l).value, 2) == NetOf(l).value && RoundTo(VatOf(l).value, 2) == VatOf(l).value
    ensures RoundTo(LineTotalOf(l).value, 2) == LineTotalOf(l).value
    ensures ToDecimal(RecalcLine(l).netAmount) == NetOf(l) && ToDecimal(RecalcLine(l).vatAmount) == VatOf(l)
    ensures ToDecimal(RecalcLine(l).lineTotal) == LineTotalOf(l) && RecalcLine(l).netAmount != ""
  {
    NetIs(l);
    VatIs(l);
    LineCents(l);
    RecalcLineReads(l);
    hide NetOf, VatOf, LineNet, VatOn, LineRate, RecalcLine, ToDecimal, RoundTo, Computable;
  }

  lemma LineTable(l: Line, g: Line, repeated: bool, number: string)
    ensures Marks(LineFindings(RecalcLine(l), g, repeated, number)) == LineMarks(l, g, repeated)
  {
    var r := RecalcLine(l);
    SameAsLine(l);
    hide Trim, ToDecimal, RecalcLine, Marks, NoBlocking, NoneSuspect, Then, BasicFindings, CategoryFindings, DiscountFindings,
      OverwriteFindings, DescriptionFindings, QuantityFindings, PriceFindings, Place, Overwritten, NetOf, VatOf, LineTotalOf, Flag;
    var b, c, d, o := BasicFindings(r, repeated, number), CategoryFindings(r, g.vatRate), DiscountFindings(r), OverwriteFindings(r, g);
    MarksThen(b, Then(c, Then(d, o)));
    MarksThen(c, Then(d, o));
    MarksThen(d, o);
    BasicTable(r, repeated, number);
    DescriptionTable(r);
    QuantityTable(r);
    PriceTable(r);
    CategoryTable(r, g.vatRate);
    DiscountTable(r);
    OverwriteTable(l, g);
    SameDiscount(r, l);
  }

  lemma SameAsLine(l: Line)
    ensures SameCells(RecalcLine(l), l)
  {
  }

  lemma SameDiscount(r: Line, l: Line)
    requires SameCells(r, l)
    ensures BadDiscount(r) == BadDiscount(l) && forall code, column :: OnLine(code, column, r) == OnLine(code, column, l)
  {
    hide ToDecimal, Place;
  }

  // --- All lines ------------------------------------------------------------

  /** The first line of the upload with this id, which is what the derived cells of such a line are compared with. */
  function FirstWith(lines: seq<Line>, id: string): (j: nat)
    ensures j <= |lines| && (j < |lines| ==> lines[j].id == id) && forall k :: 0 <= k < j ==> lines[k].id != id
  {
    if lines == [] || lines[0].id == id then 0 else 1 + FirstWith(lines[1..], id)
  }

  predicate SharesNumber(lines: seq<Line>, i: nat)
    requires i < |lines|
  {
    exists j :: 0 <= j < |lines| && j != i && lines[j].lineNumber == lines[i].lineNumber
  }

  function MarksAt(x: Invoice, i: nat): set<Mark>
    requires i < |x.lines|
  {
    var l := x.lines[i];
    var j := FirstWith(x.lines, l.id);
    LineMarks(l, if j < |x.lines| then x.lines[j] else l, SharesNumber(x.lines, i))
  }

  function AllLineMarks(x: Invoice, n: nat): set<Mark>
    requires n <= |x.lines|
  {
    if n == 0 then {} else AllLineMarks(x, n - 1) + MarksAt(x, n - 1)
  }

  lemma {:induction false} SuppliedIs(lines: seq<Line>, id: string)
    ensures Supplied(lines, id) == if FirstWith(lines, id) < |lines| then Some(lines[FirstWith(lines, id)]) else None
  {
    if lines != [] && lines[0].id != id {
      SuppliedIs(lines[1..], id);
    }
  }

  lemma {:induction false} CountedTwice(lines: seq<Line>, number: string)
    ensures CountNumber(lines, number) > 0 <==> exists i :: 0 <= i < |lines| && lines[i].lineNumber == number
    ensures CountNumber(lines, number) > 1 <==>
      exists i, j :: 0 <= i < j < |lines| && lines[i].lineNumber == number && lines[j].lineNumber == number
  {
    if lines != [] {
      var n := |lines| - 1;
      CountedTwice(lines[..n], number);
    }
  }

  lemma RepeatedMeans(x: Invoice, i: nat)
    requires i < |x.lines|
    ensures var y := RecalcInvoice(x);
      |y.lines| == |x.lines| && (Repeated(y.lines, x.lines[i].lineNumber) <==> SharesNumber(x.lines, i))
  {
    var y := RecalcInvoice(x);
    LinesOf(x);
    CountedTwice(y.lines, x.lines[i].lineNumber);
    hide RecalcInvoice, RecalcLine, CountNumber;
    assert forall j :: 0 <= j < |x.lines| ==> y.lines[j].lineNumber == x.lines[j].lineNumber;
    if j :| 0 <= j < |x.lines| && j != i && x.lines[j].lineNumber == x.lines[i].lineNumber {
      var a, b := if i < j then i else j, if i < j then j else i;
      assert y.lines[a].lineNumber == x.lines[i].lineNumber && y.lines[b].lineNumber == x.lines[i].lineNumber;
    }
  }

  lemma LinesOf(x: Invoice)
    ensures var y := RecalcInvoice(x);
      && |y.lines| == |x.lines|
      && forall i :: 0 <= i < |x.lines| ==>
        y.lines[i] == RecalcLine(x.lines[i]) && y.lines[i].id == x.lines[i].id && y.lines[i].lineNumber == x.lines[i].lineNumber
  {
    HeaderAmounts(x);
    hide RecalcInvoice, NetTotal, VatTotal, ToFixed, RoundTo, ToDecimal;
    forall i | 0 <= i < |x.lines|
      ensures RecalcLine(x.lines[i]).id == x.lines[i].id && RecalcLine(x.lines[i]).lineNumber == x.lines[i].lineNumber
    {
      SameAsLine(x.lines[i]);
    }
    hide RecalcLine;
  }

  lemma MarksOfLine(x: Invoice, i: nat)
    requires i < |x.lines|
    ensures var y := RecalcInvoice(x);
      i < |y.lines| && Marks(FindingsOfLine(y, i, x)) == MarksAt(x, i)
  {
    var y := RecalcInvoice(x);
    LinesOf(x);
    RepeatedMeans(x, i);
    SuppliedIs(x.lines, x.lines[i].id);
    FirstExists(x.lines, i);
    hide RecalcInvoice, RecalcLine, Marks, LineFindings, LineMarks, Repeated, SharesNumber, Supplied, FirstWith, NoBlocking;
    LineTable(x.lines[i], x.lines[FirstWith(x.lines, x.lines[i].id)], SharesNumber(x.lines, i), x.invoiceNumber);
  }

  lemma FirstExists(lines: seq<Line>, i: nat)
    requires i < |lines|
    ensures FirstWith(lines, lines[i].id) < |lines|
  {
  }

  lemma {:induction false} LinesTable(x: Invoice, n: nat)
    requires n <= |x.lines|
    ensures n <= |RecalcInvoice(x).lines| && Marks(LinesFindings(RecalcInvoice(x), n, x)) == AllLineMarks(x, n)
  {
    hide RecalcInvoice, RecalcLine, Marks, FindingsOfLine, MarksAt, NoBlocking, NoneSuspect, Then, AllAccepted, LineAccepted;
    LinesOf(x);
    if n == 0 {
      NoMarks();
    } else {
      LinesTable(x, n - 1);
      MarksOfLine(x, n - 1);
      MarksThen(LinesFindings(RecalcInvoice(x), n - 1, x), FindingsOfLine(RecalcInvoice(x), n - 1, x));
    }
  }

  // --- The totals -----------------------------------------------------------

  predicate AllComputed(lines: seq<Line>) {
    forall l :: l in lines ==> NetOf(l).Some?
  }

  predicate AllSupplied(lines: seq<Line>) {
    forall l :: l in lines ==> ToDecimal(l.lineTotal).Some?
  }

  function SuppliedTotal(lines: seq<Line>): real {
    if lines == [] then 0.0 else SuppliedTotal(lines[..|lines| - 1]) + ValueOr(ToDecimal(lines[|lines| - 1].lineTotal))
  }

  function TotalMarks(x: Invoice, ctx: Context): set<Mark> {
    var payable := NetTotal(x.lines) + VatTotal(x.lines);
    Flag(!AllComputed(x.lines), OnInvoice("BR-UAE-05"))
    + Flag(x.lines != [] && AllComputed(x.lines) && AllSupplied(x.lines) && RoundTo(SuppliedTotal(x.lines), 2) != payable,
           OnInvoice("BR-UAE-05"))
    + Flag(payable == 0.0 && x.lines != [], OnInvoice("WRN-UAE-04"))
    + Flag(Trim(x.invoiceType) == "388" && payable > ctx.threshold, OnInvoice("WRN-UAE-03"))
  }

  lemma ComputedMeans(x: Invoice)
    ensures Uncomputable(RecalcInvoice(x).lines) == [] <==> AllComputed(x.lines)
  {
    var y := RecalcInvoice(x);
    LinesOf(x);
    hide RecalcInvoice, RecalcLine, NetOf, Uncomputable;
    forall i | 0 <= i < |x.lines|
      ensures y.lines[i].lineTotal != "" <==> NetOf(x.lines[i]).Some?
    {
      TotalGiven(x.lines[i]);
    }
    if AllComputed(x.lines) {
      forall l | l in y.lines
        ensures l.lineTotal != ""
      {
        var i :| 0 <= i < |y.lines| && y.lines[i] == l;
        assert x.lines[i] in x.lines;
      }
    } else {
      var l :| l in x.lines && NetOf(l).None?;
      var i :| 0 <= i < |x.lines| && x.lines[i] == l;
      assert y.lines[i] in y.lines;
    }
  }

  lemma TotalGiven(l: Line)
    ensures RecalcLine(l).lineTotal != "" <==> NetOf(l).Some?
  {
    LineAmounts(l);
    if NetOf(l).Some? {
      ParsePrint(NetOf(l).value + VatOf(l).value, 2);
    }
    hide NetOf, VatOf, RecalcLine, ToDecimal, ToFixed, RoundTo;
  }

  lemma {:induction false} SuppliedSum(lines: seq<Line>)
    ensures TotalSum(lines) == SuppliedTotal(lines)
  {
    hide ToDecimal;
    if lines != [] {
      SuppliedSum(lines[..|lines| - 1]);
    }
  }

  /** What the recalculated payable reads as. */
  lemma PayableIs(x: Invoice)
    ensures var y, payable := RecalcInvoice(x), NetTotal(x.lines) + VatTotal(x.lines);
      && ToDecimal(y.payableAmount) == Some(payable) && RoundTo(payable, 2) == payable
      && y.invoiceType == x.invoiceType && |y.lines| == |x.lines|
  {
    HeaderAmounts(x);
    ParsePrint(NetTotal(x.lines) + VatTotal(x.lines), 2);
    hide RecalcInvoice, NetTotal, VatTotal, ToDecimal, ToFixed, RoundTo, RecalcLine;
  }

  lemma AgreeMeans(x: Invoice)
    ensures !TotalsAgree(RecalcInvoice(x), x) <==>
      (x.lines != [] && AllComputed(x.lines) && AllSupplied(x.lines)
       && RoundTo(SuppliedTotal(x.lines), 2) != NetTotal(x.lines) + VatTotal(x.lines))
  {
    ComputedMeans(x);
    SuppliedSum(x.lines);
    PayableIs(x);
    hide RecalcInvoice, Uncomputable, TotalSum, SuppliedTotal, NetTotal, VatTotal, ToDecimal, RoundTo, AllComputed;
  }

  lemma OnInvoiceMark(m: Message, y: Invoice)
    requires HeaderColumn(m) == ""
    ensures MarkOf(HeaderFinding(m, y)) == OnInvoice(RuleCode(m))
  {
    HeaderMark(m, y);
    hide MarkOf, HeaderFinding, RuleCode, HeaderColumn, Place;
  }

  lemma TotalsPointNowhere(m: Message)
    requires m.TotalIncomplete? || m.TotalOverwritten? || m.ZeroTotal? || m.LargeSimplified?
    ensures HeaderColumn(m) == ""
  {
  }

  lemma IncompleteTable(y: Invoice)
    ensures Marks(IncompleteFindings(y)) == Flag(Uncomputable(y.lines) != [], OnInvoice("BR-UAE-05"))
  {
    var m := TotalIncomplete(Uncomputable(y.lines));
    hide Uncomputable, Marks, MarkOf, HeaderFinding, NoBlocking, NoneSuspect, When, HeaderColumn;
    TotalsPointNowhere(m);
    OnInvoiceMark(m, y);
    MarksWhen(Uncomputable(y.lines) != [], HeaderFinding(m, y));
  }

  lemma DisagreementTable(y: Invoice, x: Invoice)
    ensures Marks(DisagreementFindings(y, x)) == Flag(!TotalsAgree(y, x), OnInvoice("BR-UAE-05"))
  {
    var m := TotalOverwritten(ToFixed(TotalSum(x.lines), 2), y.payableAmount);
    hide TotalsAgree, ToFixed, TotalSum, Marks, MarkOf, HeaderFinding, NoBlocking, NoneSuspect, When;
    TotalsPointNowhere(m);
    hide HeaderColumn;
    OnInvoiceMark(m, y);
    MarksWhen(!TotalsAgree(y, x), HeaderFinding(m, y));
  }

  lemma AdvisoryTable(y: Invoice, ctx: Context, payable: real)
    requires ToDecimal(y.payableAmount) == Some(payable)
    ensures Marks(AdvisoryFindings(y, ctx))
      == Flag(payable == 0.0 && y.lines != [], OnInvoice("WRN-UAE-04"))
       + Flag(Trim(y.invoiceType) == "388" && payable > ctx.threshold, OnInvoice("WRN-UAE-03"))
  {
    var m := LargeSimplified(y.payableAmount, ToUpper(Trim(y.currency)));
    hide ToDecimal, Trim, ToUpper, Marks, MarkOf, HeaderFinding, NoBlocking, NoneSuspect, When, Then, HeaderColumn;
    TotalsPointNowhere(m);
    TotalsPointNowhere(ZeroTotal);
    OnInvoiceMark(m, y);
    OnInvoiceMark(ZeroTotal, y);
    hide OnInvoice;
    MarksWhen(payable == 0.0 && y.lines != [], HeaderFinding(ZeroTotal, y));
    MarksWhen(Trim(y.invoiceType) == "388" && payable > ctx.threshold, HeaderFinding(m, y));
    MarksThen(When(payable == 0.0 && y.lines != [], HeaderFinding(ZeroTotal, y)),
              When(Trim(y.invoiceType) == "388" && payable > ctx.threshold, HeaderFinding(m, y)));
  }

  lemma TotalsTable(x: Invoice, ctx: Context)
    ensures Marks(TotalFindings(RecalcInvoice(x), x, ctx)) == TotalMarks(x, ctx)
  {
    var y, payable := RecalcInvoice(x), NetTotal(x.lines) + VatTotal(x.lines);
    hide RecalcInvoice, Trim, ToDecimal, RoundTo, NetTotal, VatTotal, SuppliedTotal, AllComputed, AllSupplied, Uncomputable,
      TotalsAgree, Marks, NoBlocking, NoneSuspect, Then, IncompleteFindings, DisagreementFindings, AdvisoryFindings;
    ComputedMeans(x);
    AgreeMeans(x);
    PayableIs(x);
    IncompleteTable(y);
    DisagreementTable(y, x);
    AdvisoryTable(y, ctx, payable);
    MarksThen(DisagreementFindings(y, x), AdvisoryFindings(y, ctx));
    MarksThen(IncompleteFindings(y), Then(DisagreementFindings(y, x), AdvisoryFindings(y, ctx)));
    hide Flag;
  }

  // --- The whole table ------------------------------------------------------

  function Table(x: Invoice, ctx: Context): set<Mark> {
    HeaderMarks(x, ctx) + AllLineMarks(x, |x.lines|) + TotalMarks(x, ctx)
  }

  lemma HeaderMarksKept(x: Invoice, ctx: Context)
    ensures HeaderMarks(RecalcInvoice(x), ctx) == HeaderMarks(x, ctx)
  {
    HeaderAmounts(x);
    hide Trim, ToUpper, ToDecimal, WellFormed, IsTrn, HasDateShape, HasTimeShape, Place, RecalcInvoice, NetTotal, VatTotal, ToFixed,
      RoundTo, RecalcLine, Flag;
  }

  /**
   * The findings of an upload, rule code by rule code and cell by cell, are exactly those of the table, which
   * speaks of the uploaded cells alone: what a row is recalculated to decides only what the derived cells and
   * the totals are compared with.
   */
  lemma FindingsAreTheTable(x: Invoice, ctx: Context)
    ensures Marks(Findings(x, ctx)) == Table(x, ctx)
  {
    var y := RecalcInvoice(x);
    LinesOf(x);
    HeaderMarksKept(x, ctx);
    hide RecalcInvoice, HeaderMarks, AllLineMarks, TotalMarks, Marks, HeaderFindings, LinesFindings, TotalFindings, NoBlocking, NoneSuspect, Then;
    HeaderTable(y, ctx);
    LinesTable(x, |x.lines|);
    TotalsTable(x, ctx);
    MarksThen(HeaderFindings(y, ctx), Then(LinesFindings(y, |y.lines|, x), TotalFindings(y, x, ctx)));
    MarksThen(LinesFindings(y, |y.lines|, x), TotalFindings(y, x, ctx));
  }

  /** An upload is held back exactly when the table marks it with a code that is no warning. */
  lemma HeldBackByTheTable(x: Invoice, ctx: Context)
    ensures Submittable(x, ctx) <==>
      forall m :: m in Table(x, ctx) ==> m.code in {"WRN-UAE-02", "WRN-UAE-03", "WRN-UAE-04", "WRN-UAE-05"}
  {
    FindingsAreTheTable(x, ctx);
    var findings := Findings(x, ctx);
    hide Findings, Table;
    forall f | f in findings
      ensures MarkOf(f) in Marks(findings)
      ensures Blocking(f) <==> MarkOf(f).code !in {"WRN-UAE-02", "WRN-UAE-03", "WRN-UAE-04", "WRN-UAE-05"}
    {
      WarningsOnly(f);
    }
    hide MarkOf, Blocking;
  }

  lemma WarningsOnly(f: Finding)
    ensures Blocking(f) <==> RuleCode(f.message) !in {"WRN-UAE-02", "WRN-UAE-03", "WRN-UAE-04", "WRN-UAE-05"}
  {
  }
}
