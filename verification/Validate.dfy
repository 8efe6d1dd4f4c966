/** The rule engine: an uploaded invoice against its recalculated form. */
module Validate {
  import opened Text
  import opened Money
  import opened Calc
  import opened Codes

  // --- Findings -------------------------------------------------------------

  /** What a finding says: one constructor a message template, carrying the values it interpolates. */
  datatype Message =
    | NumberRequired
    | NumberIllegal(number: string)
    | NumberFiled(number: string)
    | NumberRepeated(number: string)
    | TypeInvalid(text: string)
    | DateInvalid
    | DateFuture(date: string)
    | DateBackdated(date: string)
    | TimeInvalid
    | CurrencyInvalid(text: string)
    | FxRequired(currency: string)
    | SupplierTrnInvalid(trn: string)
    | SupplierTrnMismatch(trn: string, registered: string)
    | SupplierNameRequired
    | BuyerTrnRequired(title: string)
    | BuyerTrnInvalid(trn: string)
    | BuyerTrnInvalidOrBlank(trn: string)
    | NoBuyerTrn
    | BuyerNameRequired
    | EmirateInvalid(text: string)
    | PaymentMeansInvalid(text: string)
    | PrecedingRequired(title: string)
    | NoLines
    | LineNumberRepeated(lineNumber: string, invoiceNumber: string)
    | DescriptionRequired
    | DescriptionTooLong(length: nat)
    | QuantityNotNumber(text: string)
    | QuantityNotPositive
    | PriceNotNumber(text: string)
    | PriceNegative
    | UomInvalid(text: string)
    | CategoryInvalid(text: string)
    | RateMismatch(category: string, required: string, supplied: string)
    | DiscountExceeds(discount: string, gross: string)
    | DiscountNegative
    | AmountOverwritten(cell: DerivedCell, given: string, computed: string)
    | TotalIncomplete(lineNumbers: seq<string>)
    | TotalOverwritten(supplied: string, recalculated: string)
    | ZeroTotal
    | LargeSimplified(amount: string, currency: string)

  datatype DerivedCell = NetCell | VatCell | TotalCell

  datatype Sheet = HeaderSheet | LinesSheet

  datatype Finding = Finding(message: Message, sheet: Sheet, cell: Option<string>, lineId: Option<string>)

  function RuleCode(m: Message): string {
    match m
    case NumberRequired => "BR-UAE-01"
    case NumberIllegal(_) => "BR-UAE-02"
    case NumberFiled(_) => "BR-UAE-03"
    case NumberRepeated(_) => "BR-UAE-03"
    case TypeInvalid(_) => "BR-UAE-04"
    case TotalIncomplete(_) => "BR-UAE-05"
    case TotalOverwritten(_, _) => "BR-UAE-05"
    case AmountOverwritten(_, _, _) => "BR-UAE-06"
    case SupplierTrnInvalid(_) => "BR-UAE-07"
    case BuyerTrnInvalid(_) => "BR-UAE-08"
    case BuyerTrnInvalidOrBlank(_) => "BR-UAE-08"
    case BuyerTrnRequired(_) => "BR-UAE-09"
    case SupplierTrnMismatch(_, _) => "BR-UAE-10"
    case SupplierNameRequired => "BR-UAE-11"
    case BuyerNameRequired => "BR-UAE-12"
    case EmirateInvalid(_) => "BR-UAE-13"
    case RateMismatch(_, _, _) => "BR-UAE-14"
    case CategoryInvalid(_) => "BR-UAE-15"
    case DateInvalid => "BR-UAE-16"
    case DateFuture(_) => "BR-UAE-17"
    case TimeInvalid => "BR-UAE-18"
    case CurrencyInvalid(_) => "BR-UAE-19"
    case FxRequired(_) => "BR-UAE-20"
    case NoLines => "BR-UAE-21"
    case DescriptionRequired => "BR-UAE-22"
    case DescriptionTooLong(_) => "BR-UAE-22"
    case QuantityNotNumber(_) => "BR-UAE-23"
    case QuantityNotPositive => "BR-UAE-23"
    case PriceNotNumber(_) => "BR-UAE-24"
    case PriceNegative => "BR-UAE-24"
    case UomInvalid(_) => "BR-UAE-25"
    case LineNumberRepeated(_, _) => "BR-UAE-26"
    case DiscountExceeds(_, _) => "BR-UAE-27"
    case DiscountNegative => "BR-UAE-27"
    case PrecedingRequired(_) => "BR-UAE-29"
    case PaymentMeansInvalid(_) => "BR-UAE-30"
    case NoBuyerTrn => "WRN-UAE-02"
    case LargeSimplified(_, _) => "WRN-UAE-03"
    case ZeroTotal => "WRN-UAE-04"
    case DateBackdated(_) => "WRN-UAE-05"
  }

  /** Every rule is an error but the four advisory ones. */
  predicate Blocking(f: Finding) {
    !(f.message.NoBuyerTrn? || f.message.LargeSimplified? || f.message.ZeroTotal? || f.message.DateBackdated?)
  }

  predicate NoBlocking(findings: seq<Finding>) {
    forall f :: f in findings ==> !Blocking(f)
  }

  /** The findings recalculation can make go away. */
  predicate Suspect(m: Message) {
    m.RateMismatch? || m.AmountOverwritten? || m.TotalOverwritten?
  }

  predicate NoneSuspect(findings: seq<Finding>) {
    forall f :: f in findings ==> !Suspect(f.message)
  }

  // --- Where a finding points -----------------------------------------------

  function CellAt(column: string, row: Option<int>): Option<string> {
    match row
    case None => None
    case Some(r) => if r < 1 then None else Some(column + Digits(r))
  }

  function HeaderFinding(m: Message, invoice: Invoice): Finding {
    Finding(m, HeaderSheet, if HeaderColumn(m) == "" then None else CellAt(HeaderColumn(m), invoice.sourceRow), None)
  }

  /** Column letters of the header sheet; lines and totals have no column there. */
  function HeaderColumn(m: Message): string {
    match RuleCode(m)
    case "BR-UAE-01" => "A"
    case "BR-UAE-02" => "A"
    case "BR-UAE-03" => "A"
    case "BR-UAE-04" => "B"
    case "BR-UAE-16" => "C"
    case "BR-UAE-17" => "C"
    case "WRN-UAE-05" => "C"
    case "BR-UAE-18" => "D"
    case "BR-UAE-19" => "E"
    case "BR-UAE-20" => "F"
    case "BR-UAE-07" => "G"
    case "BR-UAE-10" => "G"
    case "BR-UAE-11" => "H"
    case "BR-UAE-08" => "I"
    case "BR-UAE-09" => "I"
    case "WRN-UAE-02" => "I"
    case "BR-UAE-12" => "J"
    case "BR-UAE-13" => "K"
    case "BR-UAE-29" => "M"
    case "BR-UAE-30" => "N"
    case _ => ""
  }

  function LineFinding(m: Message, column: string, line: Line): Finding {
    Finding(m, LinesSheet, CellAt(column, line.sourceRow), Some(line.id))
  }

  function One(f: Finding): (r: seq<Finding>)
    ensures r == [f] && f in r
    ensures NoBlocking(r) <==> !Blocking(f)
    ensures NoneSuspect(r) <==> !Suspect(f.message)
  {
    [f]
  }

  function Then(a: seq<Finding>, b: seq<Finding>): (r: seq<Finding>)
    ensures r == a + b
    ensures NoBlocking(r) <==> NoBlocking(a) && NoBlocking(b)
    ensures NoneSuspect(r) <==> NoneSuspect(a) && NoneSuspect(b)
  {
    a + b
  }

  function When(condition: bool, f: Finding): (r: seq<Finding>)
    ensures NoBlocking(r) <==> (condition ==> !Blocking(f))
    ensures NoneSuspect(r) <==> (condition ==> !Suspect(f.message))
  {
    if condition then [f] else []
  }

  // --- Context --------------------------------------------------------------

  /**
   * What the rules need besides the invoice. `dayOf` is the calendar: the day number of a date text
   * of the right shape, or nothing when there is no such day.
   */
  datatype Context = Context(
    tenantTrn: string,
    filed: set<string>,
    batch: map<string, nat>,
    today: int,
    dayOf: string -> Option<int>,
    threshold: real
  )

  predicate Blank(s: string) {
    Trim(s) == ""
  }

  // --- Header rules ---------------------------------------------------------

  predicate NumberOk(invoice: Invoice, ctx: Context) {
    var number := Trim(invoice.invoiceNumber);
    && number != "" && NumberFormat(number)
    && number !in ctx.filed
    && !(number in ctx.batch && ctx.batch[number] > 1)
  }

  function NumberFindings(invoice: Invoice, ctx: Context): (r: seq<Finding>)
    ensures NoneSuspect(r)
    ensures NoBlocking(r) <==> NumberOk(invoice, ctx)
  {
    var number := Trim(invoice.invoiceNumber);
    TrimIsTrimmed(invoice.invoiceNumber);
    hide NoBlocking, NoneSuspect, GivenNumberFindings, CellAt, HeaderColumn, Trim, NumberFormat;
    if Blank(number) then One(HeaderFinding(NumberRequired, invoice)) else GivenNumberFindings(number, invoice, ctx)
  }

  function GivenNumberFindings(number: string, invoice: Invoice, ctx: Context): (r: seq<Finding>)
    ensures NoneSuspect(r)
    ensures NoBlocking(r) <==> NumberFormat(number) && number !in ctx.filed && !(number in ctx.batch && ctx.batch[number] > 1)
  {
    hide NoBlocking, NoneSuspect, When, Then, CellAt, HeaderColumn, NumberFormat;
    Then(When(!NumberFormat(number), HeaderFinding(NumberIllegal(number), invoice)),
    Then(When(number in ctx.filed, HeaderFinding(NumberFiled(number), invoice)),
         When(number in ctx.batch && ctx.batch[number] > 1, HeaderFinding(NumberRepeated(number), invoice))))
  }

  predicate DateOk(invoice: Invoice, ctx: Context) {
    var date := Trim(invoice.issueDate);
    DateShape(date) && ctx.dayOf(date).Some? && ctx.dayOf(date).value <= ctx.today
  }

  function DateFindings(invoice: Invoice, ctx: Context): (r: seq<Finding>)
    ensures NoneSuspect(r)
    ensures NoBlocking(r) <==> DateOk(invoice, ctx)
  {
    var date := Trim(invoice.issueDate);
    if !DateShape(date) || ctx.dayOf(date).None? then One(HeaderFinding(DateInvalid, invoice))
    else
      var issued := ctx.dayOf(date).value;
      if issued > ctx.today then One(HeaderFinding(DateFuture(date), invoice))
      else When(ctx.today - issued > 14, HeaderFinding(DateBackdated(date), invoice))
  }

  predicate CurrencyOk(invoice: Invoice) {
    var currency := ToUpper(Trim(invoice.currency));
    && currency in CURRENCY_CODES
    && (currency != BASE_CURRENCY ==> ToDecimal(invoice.fxRate).Some? && ToDecimal(invoice.fxRate).value > 0.0)
  }

  function CurrencyFindings(invoice: Invoice): (r: seq<Finding>)
    ensures NoneSuspect(r)
    ensures NoBlocking(r) <==> CurrencyOk(invoice)
  {
    var currency := ToUpper(Trim(invoice.currency));
    var fx := ToDecimal(invoice.fxRate);
    if currency !in CURRENCY_CODES then One(HeaderFinding(CurrencyInvalid(invoice.currency), invoice))
    else When(currency != BASE_CURRENCY && (fx.None? || fx.value <= 0.0), HeaderFinding(FxRequired(currency), invoice))
  }

  predicate SupplierOk(invoice: Invoice, ctx: Context) {
    var trn := Trim(invoice.supplierTrn);
    IsValidTrn(trn) && (ctx.tenantTrn != "" ==> trn == ctx.tenantTrn) && !Blank(invoice.supplierName)
  }

  function SupplierFindings(invoice: Invoice, ctx: Context): (r: seq<Finding>)
    ensures NoneSuspect(r)
    ensures NoBlocking(r) <==> SupplierOk(invoice, ctx)
  {
    var trn := Trim(invoice.supplierTrn);
    hide IsValidTrn, Blank, Trim, CellAt, HeaderColumn, NoBlocking, NoneSuspect, When, Then;
    Then(if !IsValidTrn(trn) then One(HeaderFinding(SupplierTrnInvalid(trn), invoice))
         else When(ctx.tenantTrn != "" && trn != ctx.tenantTrn, HeaderFinding(SupplierTrnMismatch(trn, ctx.tenantTrn), invoice)),
         When(Blank(invoice.supplierName), HeaderFinding(SupplierNameRequired, invoice)))
  }

  predicate BuyerTrnOk(invoice: Invoice) {
    var trn := Trim(invoice.buyerTrn);
    var spec := TypeSpec(Trim(invoice.invoiceType));
    if spec.Some? && spec.value.requiresBuyerTrn then trn != "" && IsValidTrn(trn) else trn == "" || IsValidTrn(trn)
  }

  function BuyerTrnFindings(invoice: Invoice): (r: seq<Finding>)
    ensures NoneSuspect(r)
    ensures NoBlocking(r) <==> BuyerTrnOk(invoice)
  {
    TrimIsTrimmed(invoice.buyerTrn);
    var trn := Trim(invoice.buyerTrn);
    var spec := TypeSpec(Trim(invoice.invoiceType));
    if spec.Some? && spec.value.requiresBuyerTrn then
      if Blank(trn) then One(HeaderFinding(BuyerTrnRequired(spec.value.title), invoice))
      else When(!IsValidTrn(trn), HeaderFinding(BuyerTrnInvalid(trn), invoice))
    else if !Blank(trn) && !IsValidTrn(trn) then One(HeaderFinding(BuyerTrnInvalidOrBlank(trn), invoice))
    else When(Blank(trn), HeaderFinding(NoBuyerTrn, invoice))
  }

  predicate BuyerOk(invoice: Invoice) {
    && BuyerTrnOk(invoice)
    && !Blank(invoice.buyerName)
    && Trim(invoice.buyerEmirate) in EMIRATES
  }

  predicate ReferencesOk(invoice: Invoice) {
    var spec := TypeSpec(Trim(invoice.invoiceType));
    && Trim(invoice.paymentMeans) in PAYMENT_MEANS
    && (spec.Some? && spec.value.requiresPrecedingInvoice ==> !Blank(invoice.precedingInvoiceId))
  }

  function ReferenceFindings(invoice: Invoice): (r: seq<Finding>)
    ensures NoneSuspect(r)
    ensures NoBlocking(r) <==> ReferencesOk(invoice)
  {
    var spec := TypeSpec(Trim(invoice.invoiceType));
    When(Trim(invoice.paymentMeans) !in PAYMENT_MEANS, HeaderFinding(PaymentMeansInvalid(invoice.paymentMeans), invoice))
    + (if spec.Some? && spec.value.requiresPrecedingInvoice && Blank(invoice.precedingInvoiceId) then
         One(HeaderFinding(PrecedingRequired(spec.value.title), invoice)) else [])
  }

  predicate HeaderOk(invoice: Invoice, ctx: Context) {
    && NumberOk(invoice, ctx)
    && TypeSpec(Trim(invoice.invoiceType)).Some?
    && DateOk(invoice, ctx)
    && TimeShape(Trim(invoice.issueTime))
    && CurrencyOk(invoice)
    && SupplierOk(invoice, ctx)
    && BuyerOk(invoice)
    && ReferencesOk(invoice)
    && invoice.lines != []
  }

  /** Everything checked before the lines, in the order it is reported. */
  function HeaderFindings(invoice: Invoice, ctx: Context): (r: seq<Finding>)
    ensures NoneSuspect(r)
    ensures NoBlocking(r) <==> HeaderOk(invoice, ctx)
  {
    hide NumberFindings, DateFindings, CurrencyFindings, SupplierFindings, BuyerTrnFindings, ReferenceFindings,
      NumberOk, DateOk, CurrencyOk, SupplierOk, BuyerTrnOk, ReferencesOk, TypeSpec, TimeShape, Trim, Blank,
      NoBlocking, NoneSuspect, When, Then, CellAt, HeaderColumn;
    Then(NumberFindings(invoice, ctx),
    Then(When(TypeSpec(Trim(invoice.invoiceType)).None?, HeaderFinding(TypeInvalid(invoice.invoiceType), invoice)),
    Then(DateFindings(invoice, ctx),
    Then(When(!TimeShape(Trim(invoice.issueTime)), HeaderFinding(TimeInvalid, invoice)),
    Then(CurrencyFindings(invoice),
    Then(SupplierFindings(invoice, ctx),
    Then(BuyerTrnFindings(invoice),
    Then(When(Blank(invoice.buyerName), HeaderFinding(BuyerNameRequired, invoice)),
    Then(When(Trim(invoice.buyerEmirate) !in EMIRATES, HeaderFinding(EmirateInvalid(invoice.buyerEmirate), invoice)),
    Then(ReferenceFindings(invoice),
         When(invoice.lines == [], HeaderFinding(NoLines, invoice))))))))))))
  }

  // --- Line rules -----------------------------------------------------------

  predicate DescriptionOk(line: Line) {
    !Blank(line.description) && |line.description| <= 500
  }

  function DescriptionFindings(line: Line): (r: seq<Finding>)
    ensures NoneSuspect(r)
    ensures NoBlocking(r) <==> DescriptionOk(line)
  {
    if Blank(line.description) then One(LineFinding(DescriptionRequired, "C", line))
    else When(|line.description| > 500, LineFinding(DescriptionTooLong(|line.description|), "C", line))
  }

  predicate QuantityOk(line: Line) {
    ToDecimal(line.quantity).Some? && ToDecimal(line.quantity).value > 0.0
  }

  predicate PriceOk(line: Line) {
    ToDecimal(line.unitPrice).Some? && ToDecimal(line.unitPrice).value >= 0.0
  }

  function QuantityFindings(line: Line): (r: seq<Finding>)
    ensures NoneSuspect(r)
    ensures NoBlocking(r) <==> QuantityOk(line)
  {
    match ToDecimal(line.quantity)
    case None => One(LineFinding(QuantityNotNumber(line.quantity), "E", line))
    case Some(qty) => When(qty <= 0.0, LineFinding(QuantityNotPositive, "E", line))
  }

  function PriceFindings(line: Line): (r: seq<Finding>)
    ensures NoneSuspect(r)
    ensures NoBlocking(r) <==> PriceOk(line)
  {
    match ToDecimal(line.unitPrice)
    case None => One(LineFinding(PriceNotNumber(line.unitPrice), "G", line))
    case Some(price) => When(price < 0.0, LineFinding(PriceNegative, "G", line))
  }

  /** Rules that read the line alone; `repeated` says its number is used twice on the invoice. */
  predicate BasicsOk(line: Line, repeated: bool) {
    && !repeated
    && DescriptionOk(line)
    && QuantityOk(line)
    && PriceOk(line)
    && Trim(line.uom) in UOM_CODES
  }

  function BasicFindings(line: Line, repeated: bool, invoiceNumber: string): (r: seq<Finding>)
    ensures NoneSuspect(r)
    ensures NoBlocking(r) <==> BasicsOk(line, repeated)
  {
    hide DescriptionFindings, QuantityFindings, PriceFindings, DescriptionOk, QuantityOk, PriceOk, Trim, CellAt,
      NoBlocking, NoneSuspect, When, Then;
    Then(When(repeated, LineFinding(LineNumberRepeated(line.lineNumber, invoiceNumber), "B", line)),
    Then(DescriptionFindings(line),
    Then(QuantityFindings(line),
    Then(PriceFindings(line),
         When(Trim(line.uom) !in UOM_CODES, LineFinding(UomInvalid(line.uom), "F", line))))))
  }

  predicate RateOk(category: string, rateText: string) {
    ToDecimal(rateText).Some? ==> ToDecimal(rateText).value == ExpectedRate(category)
  }

  predicate CategoryOk(line: Line, rateText: string) {
    KnownCategory(Trim(line.vatCategory)) && RateOk(Trim(line.vatCategory), rateText)
  }

  /** The category here is trimmed, unlike in recalculation; the rate is the one supplied. */
  function CategoryFindings(line: Line, rateText: string): (r: seq<Finding>)
    ensures forall f :: f in r ==> f.message.CategoryInvalid? || (f.message.RateMismatch? && f.lineId == Some(line.id))
    ensures NoBlocking(r) <==> CategoryOk(line, rateText)
    ensures NoBlocking(r) <==> r == []
  {
    var category := Trim(line.vatCategory);
    if !KnownCategory(category) then One(LineFinding(CategoryInvalid(line.vatCategory), "I", line))
    else
      match ToDecimal(rateText)
      case None => []
      case Some(rate) =>
        When(rate != ExpectedRate(category),
             LineFinding(RateMismatch(category, ToFixed(ExpectedRate(category), 2), ToFixed(rate, 2)), "J", line))
  }

  predicate DiscountOk(line: Line) {
    ToDecimal(line.lineDiscount).Some? && Computable(line) ==>
      0.0 <= ToDecimal(line.lineDiscount).value <= LineGross(line)
  }

  function DiscountFindings(line: Line): (r: seq<Finding>)
    ensures NoneSuspect(r)
    ensures NoBlocking(r) <==> DiscountOk(line)
  {
    if ToDecimal(line.lineDiscount).None? || !Computable(line) then []
    else DiscountAgainst(ToDecimal(line.lineDiscount).value, LineGross(line), line)
  }

  function DiscountAgainst(discount: real, gross: real, line: Line): (r: seq<Finding>)
    ensures NoneSuspect(r)
    ensures NoBlocking(r) <==> 0.0 <= discount <= gross
  {
    hide ToFixed, CellAt, NoBlocking, NoneSuspect, When, Then;
    Then(When(discount > gross, LineFinding(DiscountExceeds(ToFixed(discount, 2), ToFixed(gross, 2)), "H", line)),
         When(discount < 0.0, LineFinding(DiscountNegative, "H", line)))
  }

  /** A derived cell that disagrees with the formula; a blank or unreadable one is not held against it. */
  predicate CellOk(given: string, computed: string) {
    ToDecimal(given).Some? ==> AmountsEqual(ToDecimal(given), ToDecimal(computed))
  }

  function CellFindings(cell: DerivedCell, column: string, given: string, computed: string, line: Line): (r: seq<Finding>)
    ensures forall f :: f in r ==> f.message.AmountOverwritten?
    ensures NoBlocking(r) <==> CellOk(given, computed)
    ensures NoBlocking(r) <==> r == []
  {
    if CellOk(given, computed) then []
    else One(LineFinding(AmountOverwritten(cell, ToFixed(ToDecimal(given).value, 2), computed), column, line))
  }

  predicate OverwriteOk(line: Line, supplied: Line) {
    line.netAmount != "" ==>
      && CellOk(supplied.netAmount, line.netAmount)
      && CellOk(supplied.vatAmount, line.vatAmount)
      && CellOk(supplied.lineTotal, line.lineTotal)
  }

  function OverwriteFindings(line: Line, supplied: Line): (r: seq<Finding>)
    ensures forall f :: f in r ==> f.message.AmountOverwritten?
    ensures NoBlocking(r) <==> OverwriteOk(line, supplied)
    ensures NoBlocking(r) <==> r == []
  {
    if line.netAmount == "" then []
    else
      CellFindings(NetCell, "K", supplied.netAmount, line.netAmount, line)
      + CellFindings(VatCell, "L", supplied.vatAmount, line.vatAmount, line)
      + CellFindings(TotalCell, "M", supplied.lineTotal, line.lineTotal, line)
  }

  /** The uploaded line with this id: the first one. */
  function Supplied(lines: seq<Line>, id: string): Option<Line> {
    if lines == [] then None else if lines[0].id == id then Some(lines[0]) else Supplied(lines[1..], id)
  }

  predicate LineOk(line: Line, supplied: Line, repeated: bool) {
    && BasicsOk(line, repeated)
    && CategoryOk(line, supplied.vatRate)
    && DiscountOk(line)
    && OverwriteOk(line, supplied)
  }

  function LineFindings(line: Line, supplied: Line, repeated: bool, invoiceNumber: string): (r: seq<Finding>)
    ensures NoBlocking(r) <==> LineOk(line, supplied, repeated)
  {
    hide BasicFindings, CategoryFindings, DiscountFindings, OverwriteFindings, BasicsOk, CategoryOk, DiscountOk, OverwriteOk,
      NoBlocking, NoneSuspect, Then;
    Then(BasicFindings(line, repeated, invoiceNumber),
    Then(CategoryFindings(line, supplied.vatRate),
    Then(DiscountFindings(line),
         OverwriteFindings(line, supplied))))
  }

  // --- The invoice ----------------------------------------------------------

  function CountNumber(lines: seq<Line>, number: string): nat {
    if lines == [] then 0 else
      CountNumber(lines[..|lines| - 1], number) + if lines[|lines| - 1].lineNumber == number then 1 else 0
  }

  predicate Repeated(lines: seq<Line>, number: string) {
    CountNumber(lines, number) > 1
  }

  /** What the upload says for a line; an id it does not know contributes no amounts. */
  function SuppliedOr(lines: seq<Line>, line: Line): Line {
    match Supplied(lines, line.id)
    case Some(s) => s
    case None => line.(netAmount := "", vatAmount := "", lineTotal := "")
  }

  function FindingsOfLine(invoice: Invoice, i: nat, input: Invoice): (r: seq<Finding>)
    requires i < |invoice.lines|
    ensures NoBlocking(r) <==> LineAccepted(invoice, i, input)
  {
    var line := invoice.lines[i];
    LineFindings(line, SuppliedOr(input.lines, line), Repeated(invoice.lines, line.lineNumber), input.invoiceNumber)
  }

  predicate LineAccepted(invoice: Invoice, i: nat, input: Invoice)
    requires i < |invoice.lines|
  {
    var line := invoice.lines[i];
    LineOk(line, SuppliedOr(input.lines, line), Repeated(invoice.lines, line.lineNumber))
  }

  /** The first `n` lines are accepted. */
  predicate AllAccepted(invoice: Invoice, n: nat, input: Invoice)
    requires n <= |invoice.lines|
  {
    forall i :: 0 <= i < n ==> LineAccepted(invoice, i, input)
  }

  lemma LastAccepted(invoice: Invoice, n: nat, input: Invoice)
    requires n < |invoice.lines|
    ensures AllAccepted(invoice, 0, input)
    ensures AllAccepted(invoice, n + 1, input) <==> AllAccepted(invoice, n, input) && LineAccepted(invoice, n, input)
  {
    hide LineAccepted;
  }

  function LinesFindings(invoice: Invoice, n: nat, input: Invoice): (r: seq<Finding>)
    requires n <= |invoice.lines|
    ensures NoBlocking(r) <==> AllAccepted(invoice, n, input)
  {
    if n == 0 then EmptyFindings()
    else
      hide FindingsOfLine, LineAccepted, NoBlocking, AllAccepted;
      LastAccepted(invoice, n - 1, input);
      Then(LinesFindings(invoice, n - 1, input), FindingsOfLine(invoice, n - 1, input))
  }

  function EmptyFindings(): (r: seq<Finding>)
    ensures r == [] && NoBlocking(r) && NoneSuspect(r)
  {
    []
  }

  /** Numbers of the lines that could not be computed. */
  function Uncomputable(lines: seq<Line>): (r: seq<string>)
    ensures r == [] <==> forall l :: l in lines ==> l.lineTotal != ""
  {
    if lines == [] then [] else
      var front, last := Uncomputable(lines[..|lines| - 1]), lines[|lines| - 1];
      assert forall l :: l in lines <==> l in lines[..|lines| - 1] || l == last;
      if last.lineTotal == "" then front + [if last.lineNumber == "" then "?" else last.lineNumber] else front
  }

  predicate AllTotalsRead(lines: seq<Line>) {
    forall l :: l in lines ==> ToDecimal(l.lineTotal).Some?
  }

  /** The supplied line totals add up to the recalculated payable, or are not complete enough to compare. */
  predicate TotalsAgree(invoice: Invoice, input: Invoice) {
    Uncomputable(invoice.lines) == [] && AllTotalsRead(input.lines) && input.lines != [] ==>
      AmountsEqual(Some(TotalSum(input.lines)), ToDecimal(invoice.payableAmount))
  }

  function TotalFindings(invoice: Invoice, input: Invoice, ctx: Context): (r: seq<Finding>)
    ensures NoBlocking(r) <==> Uncomputable(invoice.lines) == [] && TotalsAgree(invoice, input)
  {
    Then(IncompleteFindings(invoice),
    Then(DisagreementFindings(invoice, input),
         AdvisoryFindings(invoice, ctx)))
  }

  function IncompleteFindings(invoice: Invoice): (r: seq<Finding>)
    ensures NoneSuspect(r)
    ensures NoBlocking(r) <==> Uncomputable(invoice.lines) == []
  {
    When(Uncomputable(invoice.lines) != [], HeaderFinding(TotalIncomplete(Uncomputable(invoice.lines)), invoice))
  }

  function DisagreementFindings(invoice: Invoice, input: Invoice): (r: seq<Finding>)
    ensures forall f :: f in r ==> f.message.TotalOverwritten?
    ensures NoBlocking(r) <==> TotalsAgree(invoice, input)
    ensures NoBlocking(r) <==> r == []
  {
    hide TotalsAgree, ToFixed, CellAt;
    When(!TotalsAgree(invoice, input),
         HeaderFinding(TotalOverwritten(ToFixed(TotalSum(input.lines), 2), invoice.payableAmount), invoice))
  }

  /** Warnings only. */
  function AdvisoryFindings(invoice: Invoice, ctx: Context): (r: seq<Finding>)
    ensures NoneSuspect(r) && NoBlocking(r)
  {
    match ToDecimal(invoice.payableAmount)
    case None => EmptyFindings()
    case Some(payable) =>
      hide CellAt, ToUpper, Trim, NoBlocking, NoneSuspect, When, Then;
      Then(When(payable == 0.0 && invoice.lines != [], HeaderFinding(ZeroTotal, invoice)),
           When(Trim(invoice.invoiceType) == "388" && payable > ctx.threshold,
                HeaderFinding(LargeSimplified(invoice.payableAmount, ToUpper(Trim(invoice.currency))), invoice)))
  }

  /** Every rule passes: what it takes for an invoice to be submittable. */
  predicate InvoiceOk(input: Invoice, ctx: Context) {
    var invoice := RecalcInvoice(input);
    && HeaderOk(invoice, ctx)
    && AllAccepted(invoice, |invoice.lines|, input)
    && Uncomputable(invoice.lines) == []
    && TotalsAgree(invoice, input)
  }

  /** The findings of an invoice, in the order they are reported. */
  function Findings(input: Invoice, ctx: Context): (r: seq<Finding>)
    ensures NoBlocking(r) <==> InvoiceOk(input, ctx)
  {
    hide RecalcInvoice, HeaderFindings, LinesFindings, TotalFindings, HeaderOk, LineAccepted, Uncomputable, TotalsAgree, NoBlocking, Then;
    var invoice := RecalcInvoice(input);
    Then(HeaderFindings(invoice, ctx),
    Then(LinesFindings(invoice, |invoice.lines|, input),
         TotalFindings(invoice, input, ctx)))
  }

  predicate Submittable(input: Invoice, ctx: Context) {
    NoBlocking(Findings(input, ctx))
  }

  // --- The validator --------------------------------------------------------

  /** Counts line numbers in one pass, checks every line against the upload, then the totals. */
  method ValidateInvoice(input: Invoice, ctx: Context) returns (findings: seq<Finding>, submittable: bool)
    ensures findings == Findings(input, ctx)
    ensures submittable <==> Submittable(input, ctx)
  {
    hide RecalcInvoice, HeaderFindings, TotalFindings, LineFindings, LinesFindings, FindingsOfLine, SuppliedOr, NoBlocking, Findings, CountNumber;
    var invoice := RecalcInvoice(input);
    findings := HeaderFindings(invoice, ctx);
    var seen := CountLineNumbers(invoice.lines);
    var found: seq<Finding> := [];
    NoLinesYet(invoice, input);
    for n := 0 to |invoice.lines|
      invariant found == LinesFindings(invoice, n, input)
    {
      var line := invoice.lines[n];
      assert line in invoice.lines;
      OneMoreLine(invoice, n, input);
      found := found + LineFindings(line, SuppliedOr(input.lines, line), seen[line.lineNumber] > 1, input.invoiceNumber);
    }
    findings := findings + found + TotalFindings(invoice, input, ctx);
    FindingsInOrder(input, ctx);
    NoBlockingMeans(findings);
    submittable := !exists f :: f in findings && Blocking(f);
  }

  lemma NoLinesYet(invoice: Invoice, input: Invoice)
    ensures LinesFindings(invoice, 0, input) == []
  {
  }

  lemma OneMoreLine(invoice: Invoice, n: nat, input: Invoice)
    requires n < |invoice.lines|
    ensures var line := invoice.lines[n];
      LinesFindings(invoice, n + 1, input) == LinesFindings(invoice, n, input)
        + LineFindings(line, SuppliedOr(input.lines, line), CountNumber(invoice.lines, line.lineNumber) > 1, input.invoiceNumber)
  {
    hide LineFindings, SuppliedOr, CountNumber, NoBlocking;
  }

  lemma FindingsInOrder(input: Invoice, ctx: Context)
    ensures var invoice := RecalcInvoice(input);
      Findings(input, ctx) == HeaderFindings(invoice, ctx) + LinesFindings(invoice, |invoice.lines|, input) + TotalFindings(invoice, input, ctx)
  {
    hide RecalcInvoice, HeaderFindings, LinesFindings, TotalFindings, NoBlocking;
  }

  lemma NoBlockingMeans(findings: seq<Finding>)
    ensures NoBlocking(findings) <==> !exists f :: f in findings && Blocking(f)
  {
  }

  method CountLineNumbers(lines: seq<Line>) returns (seen: map<string, nat>)
    ensures forall l :: l in lines ==> l.lineNumber in seen
    ensures forall number :: number in seen ==> seen[number] == CountNumber(lines, number)
  {
    seen := map[];
    for n := 0 to |lines|
      invariant forall l :: l in lines[..n] ==> l.lineNumber in seen
      invariant forall number :: (number in seen ==> seen[number] == CountNumber(lines[..n], number))
      invariant forall number :: (number !in seen ==> CountNumber(lines[..n], number) == 0)
    {
      assert lines[..n + 1][..n] == lines[..n];
      var number := lines[n].lineNumber;
      seen := seen[number := (if number in seen then seen[number] else 0) + 1];
    }
    assert lines[..|lines|] == lines;
  }

  // --- A whole batch --------------------------------------------------------

  function CountInvoices(invoices: seq<Invoice>, number: string): nat {
    if invoices == [] then 0 else
      CountInvoices(invoices[..|invoices| - 1], number)
      + if Trim(invoices[|invoices| - 1].invoiceNumber) == number then 1 else 0
  }

  /** `counts` says how often each non-blank number, trimmed, occurs among the invoices. */
  ghost predicate CountsOf(invoices: seq<Invoice>, counts: map<string, nat>) {
    && (forall number :: number in counts ==> number != "" && counts[number] == CountInvoices(invoices, number))
    && (forall number :: number != "" && number !in counts ==> CountInvoices(invoices, number) == 0)
  }

  method CountBatch(invoices: seq<Invoice>) returns (counts: map<string, nat>)
    ensures CountsOf(invoices, counts)
  {
    hide Trim;
    counts := map[];
    for n := 0 to |invoices|
      invariant CountsOf(invoices[..n], counts)
    {
      assert invoices[..n + 1][..n] == invoices[..n];
      var key := Trim(invoices[n].invoiceNumber);
      if key != "" {
        counts := counts[key := (if key in counts then counts[key] else 0) + 1];
      }
    }
    assert invoices[..|invoices|] == invoices;
  }

  method ValidateBatch(invoices: seq<Invoice>, ctx: Context) returns (results: seq<seq<Finding>>, ghost counts: map<string, nat>)
    ensures CountsOf(invoices, counts)
    ensures |results| == |invoices|
    ensures forall i :: 0 <= i < |invoices| ==> results[i] == Findings(invoices[i], ctx.(batch := counts))
  {
    hide Findings, CountsOf;
    var found := CountBatch(invoices);
    counts := found;
    results := [];
    for n := 0 to |invoices|
      invariant |results| == n
      invariant forall i :: 0 <= i < n ==> results[i] == Findings(invoices[i], ctx.(batch := counts))
    {
      var r, _ := ValidateInvoice(invoices[n], ctx.(batch := found));
      results := results + [r];
    }
  }

  lemma {:induction false} CountAtLeast(invoices: seq<Invoice>, i: nat, number: string)
    requires i < |invoices| && Trim(invoices[i].invoiceNumber) == number
    ensures CountInvoices(invoices, number) >= 1
  {
    hide Trim;
    if i < |invoices| - 1 {
      CountAtLeast(invoices[..|invoices| - 1], i, number);
    }
  }

  lemma {:induction false} CountTwo(invoices: seq<Invoice>, i: nat, j: nat, number: string)
    requires i < j < |invoices|
    requires Trim(invoices[i].invoiceNumber) == number == Trim(invoices[j].invoiceNumber)
    ensures CountInvoices(invoices, number) >= 2
  {
    hide Trim;
    var front := invoices[..|invoices| - 1];
    if j < |invoices| - 1 {
      CountTwo(front, i, j, number);
    } else {
      CountAtLeast(front, i, number);
    }
  }

  lemma SubmittableNumber(input: Invoice, ctx: Context)
    requires Submittable(input, ctx)
    ensures NumberOk(input, ctx)
  {
    hide RecalcLines, Print, NumberFormat, LineAccepted, Uncomputable, TotalsAgree, FxFactor, RoundTo, Times, NetSum, VatSum,
      DateOk, CurrencyOk, SupplierOk, BuyerOk, ReferencesOk, TypeSpec, TimeShape;
    assert InvoiceOk(input, ctx);
    assert RecalcInvoice(input).invoiceNumber == input.invoiceNumber;
  }

  /** Two invoices of a batch that share a number, up to surrounding spaces, are both held back. */
  lemma DuplicatesHeldBack(invoices: seq<Invoice>, ctx: Context, i: nat, j: nat)
    requires i < |invoices| && j < |invoices| && i != j
    requires CountsOf(invoices, ctx.batch)
    requires Trim(invoices[i].invoiceNumber) == Trim(invoices[j].invoiceNumber)
    ensures !Submittable(invoices[i], ctx)
  {
    if Submittable(invoices[i], ctx) {
      var number := Trim(invoices[i].invoiceNumber);
      SubmittableNumber(invoices[i], ctx);
      hide Trim, Submittable, CountInvoices;
      if i < j {
        CountTwo(invoices, i, j, number);
      } else {
        CountTwo(invoices, j, i, number);
      }
    }
  }
}
