/** The amounts of an invoice, stated over the cells they come from. */
module CalcResults {
  import opened Text
  import opened Money
  import opened Calc
  import opened Subtotals

  // --- One line -------------------------------------------------------------

  /** The rate that counts: five percent for S, nothing for Z, E and O, and otherwise what the cell says. */
  function RateOf(category: string, rate: string): real {
    if category == "S" then 5.0
    else if category == "Z" || category == "E" || category == "O" then 0.0
    else if ToDecimal(rate).Some? then ToDecimal(rate).value
    else 0.0
  }

  /** Quantity times price less discount, rounded; a discount that cannot be read counts as nothing. */
  function NetOf(line: Line): Option<real> {
    match (ToDecimal(line.quantity), ToDecimal(line.unitPrice))
    case (Some(q), Some(p)) =>
      var d := if ToDecimal(line.lineDiscount).Some? then ToDecimal(line.lineDiscount).value else 0.0;
      Some(RoundTo(q * p - d, 2))
    case _ => None
  }

  function TaxOn(net: real, rate: real): real {
    RoundTo(net * rate / 100.0, 2)
  }

  function VatOf(line: Line): Option<real> {
    match NetOf(line)
    case Some(net) => Some(TaxOn(net, RateOf(line.vatCategory, line.vatRate)))
    case None => None
  }

  /** An amount cell: blank when there is no amount, two decimals otherwise. */
  predicate Shows(cell: string, amount: Option<real>) {
    match amount
    case None => cell == ""
    case Some(x) => cell == ToFixed(x, 2) && ToDecimal(cell) == Some(x)
  }

  lemma RateIs(line: Line)
    ensures LineRate(line) == RateOf(line.vatCategory, line.vatRate)
  {
    hide ToDecimal;
  }

  lemma NetIs(line: Line)
    ensures Computable(line) <==> NetOf(line).Some?
    ensures Computable(line) ==> LineNet(line) == NetOf(line).value
  {
    hide ToDecimal, RoundTo;
  }

  lemma VatIsOn(net: real, rate: real)
    ensures VatOn(net, rate) == TaxOn(net, rate)
  {
    var tax := net * rate;
    assert Times(net, rate) == tax;
    assert tax / 100.0 == net * rate / 100.0;
    hide RoundTo;
  }

  lemma VatIs(line: Line)
    requires Computable(line)
    ensures VatOf(line) == Some(VatOn(LineNet(line), LineRate(line)))
  {
    hide ToDecimal, RoundTo, LineNet, LineRate, NetOf, RateOf, VatOn, TaxOn;
    NetIs(line);
    RateIs(line);
    VatIsOn(NetOf(line).value, RateOf(line.vatCategory, line.vatRate));
  }

  /** What recalculation writes into a line, over its own cells; everything else of the line is left alone. */
  lemma LineAmounts(line: Line)
    ensures var r := RecalcLine(line);
      && Shows(r.netAmount, NetOf(line)) && Shows(r.vatAmount, VatOf(line))
      && Shows(r.lineTotal, if NetOf(line).Some? then Some(NetOf(line).value + VatOf(line).value) else None)
      && r == line.(netAmount := r.netAmount, vatAmount := r.vatAmount, lineTotal := r.lineTotal, vatRate := r.vatRate)
      && r.vatRate == if NetOf(line).Some? then ToFixed(RateOf(line.vatCategory, line.vatRate), 2) else line.vatRate
  {
    NetIs(line);
    RateIs(line);
    if Computable(line) {
      VatIs(line);
      RecalcLineReads(line);
    }
    hide NetOf, VatOf, RateOf, LineNet, LineRate, VatOn, ToDecimal, ToFixed, Computable;
  }

  // --- The header -----------------------------------------------------------

  function ValueOr(amount: Option<real>): real {
    match amount
    case Some(x) => x
    case None => 0.0
  }

  function NetTotal(lines: seq<Line>): real {
    if lines == [] then 0.0 else NetTotal(lines[..|lines| - 1]) + ValueOr(NetOf(lines[|lines| - 1]))
  }

  function VatTotal(lines: seq<Line>): real {
    if lines == [] then 0.0 else VatTotal(lines[..|lines| - 1]) + ValueOr(VatOf(lines[|lines| - 1]))
  }

  lemma LineAdds(line: Line)
    ensures Amount(RecalcLine(line).netAmount) == ValueOr(NetOf(line))
    ensures Amount(RecalcLine(line).vatAmount) == ValueOr(VatOf(line))
  {
    LineAmounts(line);
    BlankIsNoNumber();
    hide RecalcLine, NetOf, VatOf, ToDecimal, ToFixed;
  }

  lemma {:induction false} TotalsAre(lines: seq<Line>)
    ensures NetSum(RecalcLines(lines)) == NetTotal(lines) && VatSum(RecalcLines(lines)) == VatTotal(lines)
  {
    hide RecalcLine, Amount, NetOf, VatOf, ValueOr;
    if lines != [] {
      var n := |lines| - 1;
      TotalsAre(lines[..n]);
      LineAdds(lines[n]);
      assert RecalcLines(lines)[..n] == RecalcLines(lines[..n]);
    }
  }

  /** The exchange rate that counts: what the cell says, and one when it is unreadable or zero. */
  function ExchangeOf(fxRate: string): real {
    match ToDecimal(fxRate)
    case Some(fx) => if fx == 0.0 then 1.0 else fx
    case None => 1.0
  }

  lemma ExchangeIs(fxRate: string)
    ensures FxFactor(fxRate) == ExchangeOf(fxRate)
  {
    hide ToDecimal;
  }

  /** What recalculation writes into a header, over the cells of its lines and its exchange rate. */
  lemma HeaderAmounts(invoice: Invoice)
    ensures var y := RecalcInvoice(invoice);
      var net, vat := NetTotal(invoice.lines), VatTotal(invoice.lines);
      && Shows(y.lineExtensionAmount, Some(net)) && Shows(y.taxExclusiveAmount, Some(net)) && Shows(y.vatTotalAmount, Some(vat))
      && Shows(y.taxInclusiveAmount, Some(net + vat)) && Shows(y.payableAmount, Some(net + vat))
      && Shows(y.payableAmountAed, Some(RoundTo((net + vat) * ExchangeOf(invoice.fxRate), 2)))
      && |y.lines| == |invoice.lines| && (forall i :: 0 <= i < |y.lines| ==> y.lines[i] == RecalcLine(invoice.lines[i]))
      && y == invoice.(lines := y.lines, lineExtensionAmount := y.lineExtensionAmount, taxExclusiveAmount := y.taxExclusiveAmount,
                       vatTotalAmount := y.vatTotalAmount, taxInclusiveAmount := y.taxInclusiveAmount,
                       payableAmount := y.payableAmount, payableAmountAed := y.payableAmountAed)
  {
    var lines := RecalcLines(invoice.lines);
    TotalsAre(invoice.lines);
    ExchangeIs(invoice.fxRate);
    RecalcDerives(invoice.lines);
    hide RecalcLine, Derived, NetSum, VatSum, NetTotal, VatTotal, ExchangeOf, FxFactor, ToFixed, ToDecimal, Cents, RoundTo;
    SumsOfDerived(lines);
    CentsAdd(NetSum(lines), VatSum(lines));
    var aed := Times(NetSum(lines) + VatSum(lines), FxFactor(invoice.fxRate));
    assert aed == (NetTotal(invoice.lines) + VatTotal(invoice.lines)) * ExchangeOf(invoice.fxRate);
    RoundedCents(aed);
    PrintReads(NetSum(lines));
    PrintReads(VatSum(lines));
    PrintReads(NetSum(lines) + VatSum(lines));
    PrintReads(RoundTo(aed, AMOUNT_DP));
  }

  lemma RoundedCents(x: real)
    ensures Cents(RoundTo(x, AMOUNT_DP))
  {
    RoundingSettles(x, AMOUNT_DP);
    hide RoundTo;
  }
}
