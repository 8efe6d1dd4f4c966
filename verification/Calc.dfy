/** The staged invoice and its arithmetic: line and header recalculation, VAT subtotals. */
module Calc {
  import opened Text
  import opened Money

  /** Everything is text, as it came out of a spreadsheet cell; the last three amounts are derived. */
  datatype Line = Line(
    id: string,
    lineNumber: string,
    description: string,
    hsCode: string,
    quantity: string,
    uom: string,
    unitPrice: string,
    lineDiscount: string,
    vatCategory: string,
    vatRate: string,
    netAmount: string,
    vatAmount: string,
    lineTotal: string,
    sourceRow: Option<int>
  )

  datatype Invoice = Invoice(
    id: string,
    invoiceNumber: string,
    invoiceType: string,
    issueDate: string,
    issueTime: string,
    currency: string,
    fxRate: string,
    supplierTrn: string,
    supplierName: string,
    buyerTrn: string,
    buyerName: string,
    buyerEmirate: string,
    poReference: string,
    precedingInvoiceId: string,
    paymentMeans: string,
    lines: seq<Line>,
    lineExtensionAmount: string,
    taxExclusiveAmount: string,
    vatTotalAmount: string,
    taxInclusiveAmount: string,
    payableAmount: string,
    payableAmountAed: string,
    sourceRow: Option<int>
  )

  predicate DistinctIds(lines: seq<Line>) {
    forall i, j :: 0 <= i < j < |lines| ==> lines[i].id != lines[j].id
  }

  // --- VAT categories -------------------------------------------------------

  predicate KnownCategory(category: string) {
    category in {"S", "Z", "E", "O"}
  }

  /** The rate a category must carry, in percent. */
  function ExpectedRate(category: string): real {
    if category == "S" then 5.0 else 0.0
  }

  function ExemptionReason(category: string): Option<string> {
    if category == "E" then Some("Exempt supply under UAE VAT law")
    else if category == "O" then Some("Outside the scope of UAE VAT")
    else None
  }

  // --- Lines ----------------------------------------------------------------

  predicate Computable(line: Line) {
    ToDecimal(line.quantity).Some? && ToDecimal(line.unitPrice).Some?
  }

  /** A known category dictates its rate; the category text is not trimmed here. */
  function LineRate(line: Line): real {
    if KnownCategory(line.vatCategory) then ExpectedRate(line.vatCategory)
    else OrElse(ToDecimal(line.vatRate), 0.0)
  }

  function Times(x: real, y: real): real {
    x * y
  }

  function LineGross(line: Line): real
    requires Computable(line)
  {
    Times(ToDecimal(line.quantity).value, ToDecimal(line.unitPrice).value)
  }

  function LineValue(line: Line): real
    requires Computable(line)
  {
    LineGross(line) - OrElse(ToDecimal(line.lineDiscount), 0.0)
  }

  function LineNet(line: Line): real
    requires Computable(line)
  {
    RoundTo(LineValue(line), AMOUNT_DP)
  }

  function VatOn(net: real, rate: real): real {
    RoundTo(Times(net, rate) / 100.0, AMOUNT_DP)
  }

  function Print(x: real): string {
    ToFixed(x, AMOUNT_DP)
  }

  /** A line that cannot be computed gets blank derived amounts, not zeros, and keeps its rate text. */
  function RecalcLine(line: Line): Line {
    if !Computable(line) then
      line.(netAmount := "", vatAmount := "", lineTotal := "")
    else
      var net := LineNet(line);
      var vat := VatOn(net, LineRate(line));
      line.(
        vatRate := ToFixed(LineRate(line), 2),
        netAmount := Print(net),
        vatAmount := Print(vat),
        lineTotal := Print(net + vat)
      )
  }

  // --- Headers --------------------------------------------------------------

  function RecalcLines(lines: seq<Line>): (r: seq<Line>)
    ensures |r| == |lines| && forall i :: 0 <= i < |lines| ==> r[i] == RecalcLine(lines[i])
  {
    seq(|lines|, i requires 0 <= i < |lines| => RecalcLine(lines[i]))
  }

  /** A blank or unreadable amount counts as nothing. */
  function Amount(text: string): real {
    OrElse(ToDecimal(text), 0.0)
  }

  function NetSum(lines: seq<Line>): real {
    if lines == [] then 0.0 else NetSum(lines[..|lines| - 1]) + Amount(lines[|lines| - 1].netAmount)
  }

  function VatSum(lines: seq<Line>): real {
    if lines == [] then 0.0 else VatSum(lines[..|lines| - 1]) + Amount(lines[|lines| - 1].vatAmount)
  }

  function TotalSum(lines: seq<Line>): real {
    if lines == [] then 0.0 else TotalSum(lines[..|lines| - 1]) + Amount(lines[|lines| - 1].lineTotal)
  }

  /** A missing or zero exchange rate converts one to one. */
  function FxFactor(fxRate: string): real {
    var fx := OrElse(ToDecimal(fxRate), 1.0);
    if fx == 0.0 then 1.0 else fx
  }

  function RecalcInvoice(invoice: Invoice): (r: Invoice) {
    var lines := RecalcLines(invoice.lines);
    var net, vat := NetSum(lines), VatSum(lines);
    var payable := net + vat;
    invoice.(
      lines := lines,
      lineExtensionAmount := Print(net),
      taxExclusiveAmount := Print(net),
      vatTotalAmount := Print(vat),
      taxInclusiveAmount := Print(payable),
      payableAmount := Print(payable),
      payableAmountAed := Print(RoundTo(Times(payable, FxFactor(invoice.fxRate)), AMOUNT_DP))
    )
  }

  function EmptyLine(id: string, lineNumber: nat): Line {
    Line(id, Digits(lineNumber), "", "", "", "PCE", "", "0.00", "S", "5.00", "", "", "", None)
  }

  // --- Amounts on the two-decimal grid --------------------------------------

  predicate Cents(x: real) {
    HasDecimals(x, AMOUNT_DP)
  }

  lemma CentsForm(x: real)
    ensures Cents(x) <==> x == Units(x, 2) as real / 100.0
  {
    assert Pow10(2) == 100;
  }

  lemma CentsOf(k: int)
    ensures Cents(k as real / 100.0)
  {
    assert Pow10(2) == 100;
    WholeUnits(k, 2);
  }

  lemma CentsAdd(a: real, b: real)
    requires Cents(a) && Cents(b)
    ensures Cents(a + b)
  {
    hide Units, Cents;
    CentsForm(a);
    CentsForm(b);
    CentsOf(Units(a, 2) + Units(b, 2));
  }

  /** A two-decimal amount survives being printed and read back. */
  lemma PrintReads(x: real)
    requires Cents(x)
    ensures ToDecimal(Print(x)) == Some(x) && Amount(Print(x)) == x && Print(x) != ""
  {
    hide Units, ToDecimal;
    ParsePrint(x, 2);
  }

  lemma NetCents(line: Line)
    requires Computable(line)
    ensures Cents(LineNet(line))
  {
    hide RoundTo, LineValue;
    RoundingSettles(LineValue(line), AMOUNT_DP);
  }

  lemma VatCents(net: real, rate: real)
    ensures Cents(VatOn(net, rate))
  {
    hide RoundTo;
    RoundingSettles(Times(net, rate) / 100.0, AMOUNT_DP);
  }

  lemma LineCents(line: Line)
    requires Computable(line)
    ensures Cents(LineNet(line)) && Cents(VatOn(LineNet(line), LineRate(line)))
    ensures Cents(LineNet(line) + VatOn(LineNet(line), LineRate(line)))
  {
    hide *;
    NetCents(line);
    VatCents(LineNet(line), LineRate(line));
    CentsAdd(LineNet(line), VatOn(LineNet(line), LineRate(line)));
  }

  /** The derived cells of a recalculated line, read back. */
  lemma RecalcLineReads(line: Line)
    ensures var r := RecalcLine(line);
      && (Computable(line) ==>
        && ToDecimal(r.netAmount) == Some(LineNet(line))
        && ToDecimal(r.vatAmount) == Some(VatOn(LineNet(line), LineRate(line)))
        && ToDecimal(r.lineTotal) == Some(LineNet(line) + VatOn(LineNet(line), LineRate(line)))
        && r.netAmount != "" && r.vatAmount != "" && r.lineTotal != "")
      && Cents(Amount(r.netAmount)) && Cents(Amount(r.vatAmount)) && Cents(Amount(r.lineTotal))
      && Amount(r.lineTotal) == Amount(r.netAmount) + Amount(r.vatAmount)
  {
    if Computable(line) {
      LineCents(line);
      hide *;
      PrintReadsAll(line);
    } else {
      CentsOf(0);
      assert ToDecimal("") == None;
    }
  }

  lemma PrintReadsAll(line: Line)
    requires Computable(line)
    requires Cents(LineNet(line)) && Cents(VatOn(LineNet(line), LineRate(line)))
    requires Cents(LineNet(line) + VatOn(LineNet(line), LineRate(line)))
    ensures var r := RecalcLine(line);
      && ToDecimal(r.netAmount) == Some(LineNet(line))
      && ToDecimal(r.vatAmount) == Some(VatOn(LineNet(line), LineRate(line)))
      && ToDecimal(r.lineTotal) == Some(LineNet(line) + VatOn(LineNet(line), LineRate(line)))
      && r.netAmount != "" && r.vatAmount != "" && r.lineTotal != ""
      && Amount(r.netAmount) == LineNet(line) && Amount(r.vatAmount) == VatOn(LineNet(line), LineRate(line))
      && Amount(r.lineTotal) == LineNet(line) + VatOn(LineNet(line), LineRate(line))
  {
    hide Print, LineNet, LineRate, VatOn, ToDecimal, Amount, Cents;
    PrintReads(LineNet(line));
    PrintReads(VatOn(LineNet(line), LineRate(line)));
    PrintReads(LineNet(line) + VatOn(LineNet(line), LineRate(line)));
  }

  // --- Recalculating twice --------------------------------------------------

  predicate RateText(text: string) {
    ToDecimal(text).Some? ==> HasDecimals(ToDecimal(text).value, 2)
  }

  /** The rate survives being printed with two decimals: dictated by the category, or short enough. */
  predicate StableLine(line: Line) {
    Computable(line) ==> KnownCategory(line.vatCategory) || RateText(line.vatRate)
  }

  predicate StableInvoice(invoice: Invoice) {
    forall line :: line in invoice.lines ==> StableLine(line)
  }

  lemma StableRate(line: Line)
    requires Computable(line) && StableLine(line)
    ensures LineRate(RecalcLine(line)) == LineRate(line)
  {
    hide ToFixed, RoundTo, ToDecimal;
    ParsePrint(LineRate(line), 2);
    RateCents(LineRate(line), line);
  }

  lemma RateCents(rate: real, line: Line)
    requires rate == LineRate(line)
    requires KnownCategory(line.vatCategory) || RateText(line.vatRate)
    ensures HasDecimals(rate, 2)
  {
    hide ToDecimal;
    CentsOf(500);
    CentsOf(0);
  }

  /** Recalculation settles: a stable line is recalculated once and for all. */
  lemma RecalcLineSettles(line: Line)
    requires StableLine(line)
    ensures RecalcLine(RecalcLine(line)) == RecalcLine(line)
  {
    SameComputation(RecalcLine(line), line);
    if Computable(line) {
      StableRate(line);
      hide ToFixed, LineNet, VatOn, LineRate, Print, Computable;
    } else {
      hide Computable;
    }
  }

  /** The net amount depends on quantity, price and discount only. */
  lemma SameComputation(a: Line, b: Line)
    requires a.quantity == b.quantity && a.unitPrice == b.unitPrice && a.lineDiscount == b.lineDiscount
    ensures Computable(a) == Computable(b)
    ensures Computable(a) ==> LineNet(a) == LineNet(b)
  {
    hide RoundTo, ToDecimal, Times;
  }

  lemma RecalcInvoiceSettles(invoice: Invoice)
    requires StableInvoice(invoice)
    ensures RecalcInvoice(RecalcInvoice(invoice)) == RecalcInvoice(invoice)
  {
    hide RecalcLine, StableLine, NetSum, VatSum, Print, RoundTo, FxFactor, Times;
    var once := RecalcInvoice(invoice);
    forall i | 0 <= i < |invoice.lines|
      ensures RecalcLine(once.lines[i]) == once.lines[i]
    {
      assert StableLine(invoice.lines[i]);
      RecalcLineSettles(invoice.lines[i]);
    }
    assert RecalcLines(once.lines) == once.lines;
  }
}
