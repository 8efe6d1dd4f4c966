/**
 * The source's decimals keep 34 significant digits, rounded half-up after every operation. This
 * module recalculates with that arithmetic and shows where it is exact.
 */
module Precision {
  import opened Text
  import opened Money
  import opened Calc
  import opened Columns
  import RateStability
  import Subtotals

  const PRECISION: nat := 34

  // --- 34-digit decimals ----------------------------------------------------

  function Magnitude(c: int): nat {
    if c < 0 then -c else c
  }

  function DigitCount(n: nat): nat {
    if n == 0 then 0 else 1 + DigitCount(n / 10)
  }

  /** Drop `k` low digits, rounding half away from zero. */
  function DropDigits(c: int, k: nat): int {
    var p := Pow10(k);
    if c < 0 then -((2 * -c + p) / (2 * p)) else (2 * c + p) / (2 * p)
  }

  /** The rounding every arithmetic operation ends with. */
  function Finalise(d: Decimal): Decimal {
    var count := DigitCount(Magnitude(d.coefficient));
    if count <= PRECISION then d
    else
      var k := count - PRECISION;
      var c := DropDigits(d.coefficient, k);
      if k <= d.scale then Decimal(c, d.scale - k) else Decimal(c * Pow10(k - d.scale), 0)
  }

  /** Construction drops trailing zeros after the point and is never rounded. */
  function Normalise(d: Decimal): Decimal
    decreases d.scale
  {
    if d.scale > 0 && d.coefficient % 10 == 0 then Normalise(Decimal(d.coefficient / 10, d.scale - 1)) else d
  }

  function Align(d: Decimal, scale: nat): int
    requires d.scale <= scale
  {
    d.coefficient * Pow10(scale - d.scale)
  }

  function Max(a: nat, b: nat): nat {
    if a < b then b else a
  }

  function Plus34(a: Decimal, b: Decimal): Decimal {
    var s := Max(a.scale, b.scale);
    Finalise(Decimal(Align(a, s) + Align(b, s), s))
  }

  function Minus34(a: Decimal, b: Decimal): Decimal {
    Plus34(a, Decimal(-b.coefficient, b.scale))
  }

  function Times34(a: Decimal, b: Decimal): Decimal {
    Finalise(Decimal(a.coefficient * b.coefficient, a.scale + b.scale))
  }

  function DividedBy100(a: Decimal): Decimal {
    Finalise(Decimal(a.coefficient, a.scale + 2))
  }

  /** Rounding to two places works on the exact value, at any size. */
  function ToCents(a: Decimal): Decimal {
    Decimal(Units(a.Value(), 2), 2)
  }

  function Parse34(text: string): Option<Decimal> {
    match ParseDecimal(text)
    case None => None
    case Some(d) => Some(Normalise(d))
  }

  function OrElse34(d: Option<Decimal>, default: Decimal): Decimal {
    match d
    case None => default
    case Some(x) => x
  }

  function Print34(d: Decimal): string {
    ToFixed(d.Value(), 2)
  }

  // --- Recalculation in 34 digits -------------------------------------------

  const ZERO := Decimal(0, 0)
  const ONE := Decimal(1, 0)

  function LineRate34(line: Line): Decimal {
    if KnownCategory(line.vatCategory) then Decimal(if line.vatCategory == "S" then 5 else 0, 0)
    else OrElse34(Parse34(line.vatRate), ZERO)
  }

  function LineNet34(qty: Decimal, price: Decimal, discount: Decimal): Decimal {
    ToCents(Minus34(Times34(qty, price), discount))
  }

  function VatOn34(net: Decimal, rate: Decimal): Decimal {
    ToCents(DividedBy100(Times34(net, rate)))
  }

  function RecalcLine34(line: Line): Line {
    match (Parse34(line.quantity), Parse34(line.unitPrice))
    case (Some(qty), Some(price)) =>
      var net := LineNet34(qty, price, OrElse34(Parse34(line.lineDiscount), ZERO));
      var vat := VatOn34(net, LineRate34(line));
      line.(
        vatRate := ToFixed(LineRate34(line).Value(), 2),
        netAmount := Print34(net),
        vatAmount := Print34(vat),
        lineTotal := Print34(Plus34(net, vat))
      )
    case _ => line.(netAmount := "", vatAmount := "", lineTotal := "")
  }

  function RecalcLines34(lines: seq<Line>): (r: seq<Line>)
    ensures |r| == |lines| && forall i :: 0 <= i < |lines| ==> r[i] == RecalcLine34(lines[i])
  {
    seq(|lines|, i requires 0 <= i < |lines| => RecalcLine34(lines[i]))
  }

  function NetSum34(lines: seq<Line>): Decimal {
    if lines == [] then ZERO else
      Plus34(NetSum34(lines[..|lines| - 1]), OrElse34(Parse34(lines[|lines| - 1].netAmount), ZERO))
  }

  function VatSum34(lines: seq<Line>): Decimal {
    if lines == [] then ZERO else
      Plus34(VatSum34(lines[..|lines| - 1]), OrElse34(Parse34(lines[|lines| - 1].vatAmount), ZERO))
  }

  function FxFactor34(fxRate: string): Decimal {
    var fx := OrElse34(Parse34(fxRate), ONE);
    if fx.coefficient == 0 then ONE else fx
  }

  function RecalcInvoice34(invoice: Invoice): Invoice {
    var lines := RecalcLines34(invoice.lines);
    var net, vat := NetSum34(lines), VatSum34(lines);
    var payable := Plus34(net, vat);
    invoice.(
      lines := lines,
      lineExtensionAmount := Print34(net),
      taxExclusiveAmount := Print34(net),
      vatTotalAmount := Print34(vat),
      taxInclusiveAmount := Print34(payable),
      payableAmount := Print34(payable),
      payableAmountAed := Print34(ToCents(Times34(payable, FxFactor34(invoice.fxRate))))
    )
  }

  // --- Exactness of one operation -------------------------------------------

  lemma {:induction false} CountBound(n: nat, k: nat)
    requires n < Pow10(k)
    ensures DigitCount(n) <= k
  {
    if n > 0 {
      CountBound(n / 10, k - 1);
    }
  }

  lemma FinaliseExact(d: Decimal)
    requires Magnitude(d.coefficient) < Pow10(34)
    ensures Finalise(d) == d
  {
    CountBound(Magnitude(d.coefficient), 34);
  }

  lemma Divide(c: int, p: int, q: int)
    requires p >= 1 && q >= 1
    ensures (c * q) as real / (p * q) as real == c as real / p as real
  {
    assert (c * q) as real == c as real * q as real;
    assert (p * q) as real == p as real * q as real;
  }

  lemma AlignValue(d: Decimal, scale: nat)
    requires d.scale <= scale
    ensures Align(d, scale) as real / Pow10(scale) as real == d.Value()
  {
    Pow10Sum(d.scale, scale - d.scale);
    Divide(d.coefficient, Pow10(d.scale), Pow10(scale - d.scale));
  }

  lemma SumOver(a: int, b: int, p: int)
    requires p >= 1
    ensures (a + b) as real / p as real == a as real / p as real + b as real / p as real
  {
  }

  lemma PlusExact(a: Decimal, b: Decimal)
    requires var s := Max(a.scale, b.scale); Magnitude(Align(a, s) + Align(b, s)) < Pow10(34)
    ensures Plus34(a, b).Value() == a.Value() + b.Value()
    ensures Plus34(a, b).scale == Max(a.scale, b.scale)
  {
    hide Pow10, Finalise, Align;
    var s := Max(a.scale, b.scale);
    AlignValue(a, s);
    AlignValue(b, s);
    SumOver(Align(a, s), Align(b, s), Pow10(s));
    FinaliseExact(Decimal(Align(a, s) + Align(b, s), s));
  }

  lemma ProductOver(a: int, b: int, p: int, q: int)
    requires p >= 1 && q >= 1
    ensures (a * b) as real / (p * q) as real == (a as real / p as real) * (b as real / q as real)
  {
    var x, y := a as real / p as real, b as real / q as real;
    assert a as real == x * p as real && b as real == y * q as real;
    assert (a * b) as real == (x * y) * (p * q) as real by {
      assert (a * b) as real == a as real * b as real;
      assert (p * q) as real == p as real * q as real;
    }
  }

  lemma TimesExact(a: Decimal, b: Decimal)
    requires Magnitude(a.coefficient * b.coefficient) < Pow10(34)
    ensures Times34(a, b) == Decimal(a.coefficient * b.coefficient, a.scale + b.scale)
    ensures Times34(a, b).Value() == Times(a.Value(), b.Value())
  {
    hide Pow10, Finalise;
    FinaliseExact(Decimal(a.coefficient * b.coefficient, a.scale + b.scale));
    Pow10Sum(a.scale, b.scale);
    ProductOver(a.coefficient, b.coefficient, Pow10(a.scale), Pow10(b.scale));
  }

  lemma DivideExact(a: Decimal)
    requires Magnitude(a.coefficient) < Pow10(34)
    ensures DividedBy100(a).Value() == a.Value() / 100.0
  {
    hide Pow10, Finalise;
    FinaliseExact(Decimal(a.coefficient, a.scale + 2));
    Pow10Sum(a.scale, 2);
    assert Pow10(2) == 100 by { PowTwo(); }
    ProductOver(a.coefficient, 1, Pow10(a.scale), 100);
  }

  lemma PowTwo()
    ensures Pow10(2) == 100
  {
  }

  // --- What a column holds --------------------------------------------------

  /** A number a NUMERIC(whole + decimals, decimals) column holds without loss. */
  predicate Fits(x: real, whole: nat, decimals: nat) {
    Abs(x) < Pow10(whole) as real && HasDecimals(x, decimals)
  }

  predicate TextFits(text: string, whole: nat, decimals: nat) {
    ToDecimal(text).Some? ==> Fits(ToDecimal(text).value, whole, decimals)
  }

  /** Few decimals in value means few decimals in a normalised representation. */
  lemma {:induction false} NormaliseShort(d: Decimal, decimals: nat)
    requires HasDecimals(d.Value(), decimals)
    ensures Normalise(d).Value() == d.Value() && Normalise(d).scale <= decimals
    decreases d.scale
  {
    hide HasDecimals;
    if d.scale > 0 && d.coefficient % 10 == 0 {
      var e := Decimal(d.coefficient / 10, d.scale - 1);
      Divide(e.coefficient, Pow10(e.scale), 10);
      assert e.Value() == d.Value();
      NormaliseShort(e, decimals);
    } else if d.scale > decimals {
      LongEndsInZero(d, decimals);
    }
  }

  lemma LongEndsInZero(d: Decimal, decimals: nat)
    requires HasDecimals(d.Value(), decimals) && d.scale > decimals
    ensures d.coefficient % 10 == 0
  {
    hide Units;
    var k, j: nat := Units(d.Value(), decimals), d.scale - decimals;
    Pow10Sum(decimals, j);
    Divide(k, Pow10(decimals), Pow10(j));
    SameOver(d.coefficient, k * Pow10(j), Pow10(d.scale));
    assert Pow10(j) == 10 * Pow10(j - 1);
    MultipleOfTen(k, Pow10(j - 1));
  }

  lemma SameOver(a: int, b: int, p: int)
    requires p >= 1 && a as real / p as real == b as real / p as real
    ensures a == b
  {
    assert a as real == (a as real / p as real) * p as real;
  }

  lemma MultipleOfTen(k: int, p: int)
    ensures (k * (10 * p)) % 10 == 0
  {
    assert k * (10 * p) == 10 * (k * p);
  }

  /** A value bounded by a column has a bounded coefficient. */
  lemma CoefficientBound(d: Decimal, whole: nat, decimals: nat)
    requires Abs(d.Value()) < Pow10(whole) as real && d.scale <= decimals
    ensures Magnitude(d.coefficient) < Pow10(whole + decimals)
  {
    hide Pow10;
    Pow10Sum(whole, d.scale);
    Pow10Monotone(whole + d.scale, whole + decimals);
    ValueBound(d.coefficient, Pow10(d.scale), Pow10(whole));
  }

  lemma ValueBound(c: int, p: int, bound: int)
    requires p >= 1 && Abs(c as real / p as real) < bound as real
    ensures Magnitude(c) < bound * p
  {
    var v := c as real / p as real;
    assert c as real == v * p as real;
    assert v * p as real < bound as real * p as real;
    assert -v * p as real < bound as real * p as real;
    assert bound as real * p as real == (bound * p) as real;
  }

  /** The decimal read from a cell: same value as the exact one, coefficient within the column. */
  lemma ParseFits(text: string, whole: nat, decimals: nat)
    requires TextFits(text, whole, decimals)
    ensures Parse34(text).Some? <==> ToDecimal(text).Some?
    ensures ToDecimal(text).Some? ==>
      var d := Parse34(text).value;
      d.Value() == ToDecimal(text).value && d.scale <= decimals && Magnitude(d.coefficient) < Pow10(whole + decimals)
  {
    hide ParseDecimal, HasDecimals, Pow10, Normalise;
    if ParseDecimal(text).Some? {
      NormaliseShort(ParseDecimal(text).value, decimals);
      CoefficientBound(Parse34(text).value, whole, decimals);
    }
  }

  // --- Lines ----------------------------------------------------------------

  /** Quantity, price, discount and rate within their columns of invoice_line_items. */
  predicate LineFits(line: Line) {
    && TextFits(line.quantity, QUANTITY.whole, QUANTITY.decimals)
    && TextFits(line.unitPrice, UNIT_PRICE.whole, UNIT_PRICE.decimals)
    && TextFits(line.lineDiscount, AMOUNT.whole, AMOUNT.decimals)
    && (KnownCategory(line.vatCategory) || TextFits(line.vatRate, RATE.whole, RATE.decimals))
  }

  lemma Powers()
    ensures Pow10(2) == 100 && Pow10(4) == 10000 && Pow10(5) == 100000 && Pow10(6) == 1000000
    ensures Pow10(8) == 100000000
    ensures Pow10(12) == 1000000000000
    ensures Pow10(15) == 1000000000000000
  {
  }

  lemma LimitOfPrecision()
    ensures Pow10(34) == 10000000000000000000000000000000000
  {
    hide Pow10;
    Powers();
    Pow10Sum(15, 15);
    Pow10Sum(30, 4);
  }

  // --- Exactness from the size of the result --------------------------------

  /** Small enough in value, at few enough decimals, to need no more than 34 digits. */
  predicate Short(x: real, bound: real, decimals: nat) {
    Abs(x) < bound && bound * Pow10(decimals) as real <= 10000000000000000000000000000000000.0
  }

  lemma ScaledBound(v: real, p: int, bound: real, q: int)
    requires 1 <= p <= q && Abs(v) < bound
    ensures Abs(v * p as real) < bound * q as real
  {
    ScaledAbs(v, p as real);
    ScaledLess(Abs(v), bound, p as real);
    ScaledMore(bound, p as real, q as real);
    hide Abs;
    assert Abs(v * p as real) == Abs(v) * p as real < bound * p as real <= bound * q as real;
  }

  lemma ScaledAbs(v: real, p: real)
    requires p >= 1.0
    ensures Abs(v * p) == Abs(v) * p
  {
    if v < 0.0 {
      assert v * p < 0.0;
    } else {
      assert v * p >= 0.0;
    }
  }

  lemma ScaledLess(a: real, b: real, p: real)
    requires a < b && p >= 1.0
    ensures a * p < b * p
  {
    assert (b - a) * p > 0.0;
  }

  lemma ScaledMore(b: real, p: real, q: real)
    requires b >= 0.0 && p <= q
    ensures b * p <= b * q
  {
    assert b * (q - p) >= 0.0;
  }

  lemma ShortCoefficient(d: Decimal, bound: real, decimals: nat)
    requires Short(d.Value(), bound, decimals) && d.scale <= decimals
    ensures Magnitude(d.coefficient) < Pow10(34)
  {
    hide Pow10;
    LimitOfPrecision();
    Pow10Monotone(d.scale, decimals);
    ScaledBound(d.Value(), Pow10(d.scale), bound, Pow10(decimals));
    ScaleUp(d.coefficient, Pow10(d.scale));
  }

  lemma TimesShort(a: Decimal, b: Decimal, bound: real, decimals: nat)
    requires Short(Times(a.Value(), b.Value()), bound, decimals) && a.scale + b.scale <= decimals
    ensures Times34(a, b).Value() == Times(a.Value(), b.Value())
    ensures Times34(a, b).scale == a.scale + b.scale
  {
    hide Pow10, Finalise, Short, Times34;
    var exact := Decimal(a.coefficient * b.coefficient, a.scale + b.scale);
    ProductValue(a, b);
    ShortCoefficient(exact, bound, decimals);
    TimesExact(a, b);
  }

  lemma ProductValue(a: Decimal, b: Decimal)
    ensures Decimal(a.coefficient * b.coefficient, a.scale + b.scale).Value() == Times(a.Value(), b.Value())
  {
    hide Pow10;
    Pow10Sum(a.scale, b.scale);
    ProductOver(a.coefficient, b.coefficient, Pow10(a.scale), Pow10(b.scale));
  }

  lemma PlusShort(a: Decimal, b: Decimal, bound: real, decimals: nat)
    requires Short(a.Value() + b.Value(), bound, decimals) && a.scale <= decimals && b.scale <= decimals
    ensures Plus34(a, b).Value() == a.Value() + b.Value()
    ensures Plus34(a, b).scale <= decimals
  {
    hide Pow10, Finalise, Short, Plus34, Align;
    var s := Max(a.scale, b.scale);
    SumValue(a, b);
    ShortCoefficient(Decimal(Align(a, s) + Align(b, s), s), bound, decimals);
    PlusExact(a, b);
  }

  lemma SumValue(a: Decimal, b: Decimal)
    ensures var s := Max(a.scale, b.scale);
      Decimal(Align(a, s) + Align(b, s), s).Value() == a.Value() + b.Value()
  {
    hide Pow10, Align;
    var s := Max(a.scale, b.scale);
    AlignValue(a, s);
    AlignValue(b, s);
    SumOver(Align(a, s), Align(b, s), Pow10(s));
  }

  lemma DivideShort(a: Decimal, bound: real, decimals: nat)
    requires Short(a.Value(), bound, decimals) && a.scale <= decimals
    ensures DividedBy100(a).Value() == a.Value() / 100.0
  {
    hide Pow10, Finalise, Short, DividedBy100;
    ShortCoefficient(a, bound, decimals);
    DivideExact(a);
  }

  lemma CentsValue(a: Decimal)
    ensures ToCents(a).Value() == RoundTo(a.Value(), 2) && ToCents(a).scale == 2
  {
  }

  // --- One line -------------------------------------------------------------

  lemma ProductWithin(x: real, y: real, a: real, b: real)
    requires Abs(x) < a && Abs(y) < b
    ensures Abs(Times(x, y)) < a * b
  {
    assert Abs(x * y) == Abs(x) * Abs(y);
    assert Abs(x) * Abs(y) <= Abs(x) * b;
    assert Abs(x) * b < a * b;
  }

  lemma RoundWithin(x: real)
    ensures Abs(RoundTo(x, 2)) <= Abs(x) + 0.005
  {
    assert Pow10(2) == 100;
  }

  lemma NegatedValue(d: Decimal)
    ensures Decimal(-d.coefficient, d.scale).Value() == -d.Value()
  {
  }

  lemma GrossExact(qty: Decimal, price: Decimal)
    requires qty.scale <= 4 && Abs(qty.Value()) < 100000000.0
    requires price.scale <= 4 && Abs(price.Value()) < 100000000000.0
    ensures var gross := Times34(qty, price);
      && gross.Value() == Times(qty.Value(), price.Value())
      && gross.scale <= 8 && Abs(gross.Value()) < 10000000000000000000.0
  {
    Powers();
    hide Pow10, Times34, Times;
    ProductWithin(qty.Value(), price.Value(), 100000000.0, 100000000000.0);
    TimesShort(qty, price, 10000000000000000000.0, 8);
  }

  lemma DifferenceExact(gross: Decimal, discount: Decimal)
    requires gross.scale <= 8 && Abs(gross.Value()) < 10000000000000000000.0
    requires discount.scale <= 2 && Abs(discount.Value()) < 10000000000000.0
    ensures var value := Minus34(gross, discount);
      && value.Value() == gross.Value() - discount.Value()
      && Abs(value.Value()) < 10500000000000000000.0
  {
    Powers();
    hide Pow10, Plus34;
    NegatedValue(discount);
    PlusShort(gross, Decimal(-discount.coefficient, discount.scale), 10500000000000000000.0, 8);
  }

  lemma NetExact(qty: Decimal, price: Decimal, discount: Decimal)
    requires qty.scale <= 4 && Abs(qty.Value()) < 100000000.0
    requires price.scale <= 4 && Abs(price.Value()) < 100000000000.0
    requires discount.scale <= 2 && Abs(discount.Value()) < 10000000000000.0
    ensures var net := LineNet34(qty, price, discount);
      && net.Value() == RoundTo(Times(qty.Value(), price.Value()) - discount.Value(), 2)
      && net.scale == 2 && Abs(net.Value()) < 11000000000000000000.0
  {
    hide Times34, Minus34, Times, RoundTo, ToCents;
    GrossExact(qty, price);
    DifferenceExact(Times34(qty, price), discount);
    CentsValue(Minus34(Times34(qty, price), discount));
    RoundWithin(Minus34(Times34(qty, price), discount).Value());
  }

  lemma TaxExact(net: Decimal, rate: Decimal)
    requires net.scale <= 2 && Abs(net.Value()) < 11000000000000000000.0
    requires rate.scale <= 2 && Abs(rate.Value()) < 1000.0
    ensures var tax := DividedBy100(Times34(net, rate));
      && tax.Value() == Times(net.Value(), rate.Value()) / 100.0
      && Abs(tax.Value()) < 110000000000000000000.0
  {
    Powers();
    hide Pow10, Times34, Times, DividedBy100;
    ProductWithin(net.Value(), rate.Value(), 11000000000000000000.0, 1000.0);
    TimesShort(net, rate, 11000000000000000000000.0, 4);
    DivideShort(Times34(net, rate), 11000000000000000000000.0, 4);
  }

  lemma VatExact(net: Decimal, rate: Decimal)
    requires net.scale <= 2 && Abs(net.Value()) < 11000000000000000000.0
    requires rate.scale <= 2 && Abs(rate.Value()) < 1000.0
    ensures var vat := VatOn34(net, rate);
      && vat.Value() == VatOn(net.Value(), rate.Value())
      && vat.scale == 2 && Abs(vat.Value()) < 120000000000000000000.0
  {
    hide Times34, Times, RoundTo, ToCents, DividedBy100;
    TaxExact(net, rate);
    CentsValue(DividedBy100(Times34(net, rate)));
    RoundWithin(DividedBy100(Times34(net, rate)).Value());
  }

  lemma TotalExact(net: Decimal, vat: Decimal)
    requires net.scale == 2 && Abs(net.Value()) < 11000000000000000000.0
    requires vat.scale == 2 && Abs(vat.Value()) < 120000000000000000000.0
    ensures Plus34(net, vat).Value() == net.Value() + vat.Value()
  {
    Powers();
    hide Pow10, Plus34;
    PlusShort(net, vat, 140000000000000000000.0, 2);
  }

  lemma ParseColumns(line: Line)
    requires LineFits(line)
    ensures Parse34(line.quantity).Some? && Parse34(line.unitPrice).Some? <==> Computable(line)
    ensures Computable(line) ==>
      && CellExact(Parse34(line.quantity).value, ToDecimal(line.quantity).value, 100000000.0, 4)
      && CellExact(Parse34(line.unitPrice).value, ToDecimal(line.unitPrice).value, 100000000000.0, 4)
    ensures CellExact(OrElse34(Parse34(line.lineDiscount), ZERO), OrElse(ToDecimal(line.lineDiscount), 0.0), 10000000000000.0, 2)
    ensures CellExact(LineRate34(line), LineRate(line), 1000.0, 2)
  {
    hide Parse34, ToDecimal, Fits;
    ParseCell(line.quantity, 8, 4, 100000000.0);
    ParseCell(line.unitPrice, 11, 4, 100000000000.0);
    ParseCell(line.lineDiscount, 13, 2, 10000000000000.0);
    if !KnownCategory(line.vatCategory) {
      ParseCell(line.vatRate, 3, 2, 1000.0);
    }
  }

  predicate CellExact(d: Decimal, x: real, bound: real, decimals: nat) {
    d.Value() == x && d.scale <= decimals && Abs(x) < bound
  }

  lemma ParseCell(text: string, whole: nat, decimals: nat, bound: real)
    requires TextFits(text, whole, decimals) && Pow10(whole) as real == bound
    ensures Parse34(text).Some? <==> ToDecimal(text).Some?
    ensures ToDecimal(text).Some? ==> CellExact(Parse34(text).value, ToDecimal(text).value, bound, decimals)
  {
    hide Parse34, ToDecimal, HasDecimals, Pow10;
    ParseFits(text, whole, decimals);
  }

  /** Within the columns, 34 digits give the exact line, cell by cell and character by character. */
  lemma RecalcLineExact(line: Line)
    requires LineFits(line)
    ensures RecalcLine34(line) == RecalcLine(line)
  {
    hide Parse34, ToDecimal, LineFits, LineNet34, VatOn34, Plus34, VatOn, RoundTo, ToFixed, Times, LineRate, LineRate34;
    ParseColumns(line);
    if Computable(line) {
      var qty, price := Parse34(line.quantity).value, Parse34(line.unitPrice).value;
      var discount := OrElse34(Parse34(line.lineDiscount), ZERO);
      NetExact(qty, price, discount);
      var net := LineNet34(qty, price, discount);
      VatExact(net, LineRate34(line));
      TotalExact(net, VatOn34(net, LineRate34(line)));
    }
  }

  // --- The header -----------------------------------------------------------

  /** The most elements a JavaScript array can hold, plus one. */
  const ARRAY_LIMIT: nat := 4294967296

  const NET_BOUND := 11000000000000000000.0
  const VAT_BOUND := 120000000000000000000.0

  lemma ParseCents(text: string)
    requires Cents(Amount(text))
    ensures OrElse34(Parse34(text), ZERO).Value() == Amount(text)
    ensures OrElse34(Parse34(text), ZERO).scale <= 2
  {
    hide ParseDecimal, HasDecimals, Normalise, Pow10;
    if ParseDecimal(text).Some? {
      NormaliseShort(ParseDecimal(text).value, 2);
    } else {
      ZeroValue();
    }
  }

  lemma ZeroValue()
    ensures ZERO.Value() == 0.0 && ONE.Value() == 1.0
  {
  }

  predicate AmountsWithin(line: Line) {
    && Cents(Amount(line.netAmount)) && Abs(Amount(line.netAmount)) < NET_BOUND
    && Cents(Amount(line.vatAmount)) && Abs(Amount(line.vatAmount)) < VAT_BOUND
  }

  lemma RecalcWithin(line: Line)
    requires LineFits(line)
    ensures AmountsWithin(RecalcLine(line))
  {
    RecalcLineReads(line);
    if Computable(line) {
      LineBounds(line);
      hide Cents, ToDecimal, LineNet, VatOn, LineRate, RecalcLine;
    } else {
      hide Cents, ToDecimal, RecalcLine;
      BlankAmounts(line);
    }
  }

  lemma BlankAmounts(line: Line)
    requires !Computable(line)
    ensures Amount(RecalcLine(line).netAmount) == 0.0 && Amount(RecalcLine(line).vatAmount) == 0.0
  {
    hide Computable;
  }

  lemma LineBounds(line: Line)
    requires LineFits(line) && Computable(line)
    ensures Abs(LineNet(line)) < NET_BOUND && Abs(VatOn(LineNet(line), LineRate(line))) < VAT_BOUND
  {
    hide Parse34, ToDecimal, LineFits, LineNet34, VatOn34, VatOn, RoundTo, Times, LineRate, LineRate34;
    ParseColumns(line);
    var qty, price := Parse34(line.quantity).value, Parse34(line.unitPrice).value;
    var discount := OrElse34(Parse34(line.lineDiscount), ZERO);
    NetExact(qty, price, discount);
    VatExact(LineNet34(qty, price, discount), LineRate34(line));
  }

  /** One more printed amount, added exactly. */
  lemma AddCents(total: Decimal, text: string, limit: real)
    requires Cents(Amount(text)) && total.scale <= 2
    requires Abs(total.Value() + Amount(text)) < limit <= 1000000000000000000000000000000.0
    ensures var next := Plus34(total, OrElse34(Parse34(text), ZERO));
      && next.Value() == total.Value() + Amount(text) && next.scale <= 2
  {
    hide Plus34, Amount, Parse34, Cents;
    Powers();
    hide Pow10;
    ParseCents(text);
    PlusShort(total, OrElse34(Parse34(text), ZERO), limit, 2);
  }

  /** At most `n` amounts below the bound. */
  predicate SumWithin(sum: real, n: nat, bound: real) {
    Abs(sum) <= n as real * bound
  }

  lemma CountedBound(sum: real, x: real, n: nat, bound: real)
    requires SumWithin(sum, n, bound) && Abs(x) < bound
    ensures SumWithin(sum + x, n + 1, bound)
  {
    assert (n + 1) as real * bound == n as real * bound + bound;
  }

  lemma LargestSum(n: real, bound: real)
    requires 0.0 <= n <= 4294967296.0 && 0.0 <= bound <= VAT_BOUND
    ensures n * bound < 1000000000000000000000000000000.0
  {
    var most := 4294967296.0;
    ScaledMore(bound, n, most);
    assert n * bound == bound * n <= bound * most == most * bound;
    assert most * bound == 4294967296.0 * bound <= 515396075520000000000000000000.0;
  }

  lemma BelowLimit(sum: real, n: nat, bound: real)
    requires SumWithin(sum, n, bound) && n < ARRAY_LIMIT && 0.0 <= bound <= VAT_BOUND
    ensures Abs(sum) < 1000000000000000000000000000000.0
  {
    LargestSum(n as real, bound);
  }

  lemma OneMoreCell(total: Decimal, text: string, n: nat, bound: real)
    requires total.scale <= 2 && SumWithin(total.Value(), n, bound)
    requires Cents(Amount(text)) && Abs(Amount(text)) < bound
    requires n + 1 < ARRAY_LIMIT && 0.0 <= bound <= VAT_BOUND
    ensures var next := Plus34(total, OrElse34(Parse34(text), ZERO));
      && next.Value() == total.Value() + Amount(text) && next.scale <= 2
      && SumWithin(total.Value() + Amount(text), n + 1, bound)
  {
    hide Plus34, OrElse34, Amount, Parse34, Cents, Abs, SumWithin;
    CountedBound(total.Value(), Amount(text), n, bound);
    BelowLimit(total.Value() + Amount(text), n + 1, bound);
    AddCents(total, text, 1000000000000000000000000000000.0);
  }

  lemma {:induction false} NetSumExact(lines: seq<Line>)
    requires |lines| < ARRAY_LIMIT && forall l :: l in lines ==> AmountsWithin(l)
    ensures NetSum34(lines).Value() == NetSum(lines) && NetSum34(lines).scale <= 2
    ensures SumWithin(NetSum(lines), |lines|, NET_BOUND)
  {
    if lines == [] {
      ZeroValue();
    } else {
      var n := |lines| - 1;
      assert lines[n] in lines;
      hide Plus34, OrElse34, Amount, Parse34, Cents, Pow10, Abs, SumWithin;
      NetSumExact(lines[..n]);
      OneMoreCell(NetSum34(lines[..n]), lines[n].netAmount, n, NET_BOUND);
    }
  }

  lemma {:induction false} VatSumExact(lines: seq<Line>)
    requires |lines| < ARRAY_LIMIT && forall l :: l in lines ==> AmountsWithin(l)
    ensures VatSum34(lines).Value() == VatSum(lines) && VatSum34(lines).scale <= 2
    ensures SumWithin(VatSum(lines), |lines|, VAT_BOUND)
  {
    if lines == [] {
      ZeroValue();
    } else {
      var n := |lines| - 1;
      assert lines[n] in lines;
      hide Plus34, OrElse34, Amount, Parse34, Cents, Pow10, Abs, SumWithin;
      VatSumExact(lines[..n]);
      OneMoreCell(VatSum34(lines[..n]), lines[n].vatAmount, n, VAT_BOUND);
    }
  }

  lemma RecalcLinesExact(lines: seq<Line>)
    requires forall l :: l in lines ==> LineFits(l)
    ensures RecalcLines34(lines) == RecalcLines(lines)
    ensures forall l :: l in RecalcLines(lines) ==> AmountsWithin(l)
  {
    hide LineFits, RecalcLine, RecalcLine34, AmountsWithin;
    forall i | 0 <= i < |lines|
      ensures RecalcLine34(lines[i]) == RecalcLine(lines[i]) && AmountsWithin(RecalcLine(lines[i]))
    {
      assert lines[i] in lines;
      RecalcLineExact(lines[i]);
      RecalcWithin(lines[i]);
    }
  }

  lemma PayableExact(net: Decimal, vat: Decimal)
    requires net.scale <= 2 && Abs(net.Value()) <= ARRAY_LIMIT as real * NET_BOUND
    requires vat.scale <= 2 && Abs(vat.Value()) <= ARRAY_LIMIT as real * VAT_BOUND
    ensures Plus34(net, vat).Value() == net.Value() + vat.Value() && Plus34(net, vat).scale <= 2
  {
    Powers();
    hide Pow10, Plus34;
    PlusShort(net, vat, 1000000000000000000000000000000.0, 2);
  }

  lemma FxExact(fxRate: string)
    requires TextFits(fxRate, EXCHANGE_RATE.whole, EXCHANGE_RATE.decimals)
    ensures CellExact(FxFactor34(fxRate), FxFactor(fxRate), 1000000.0, 6)
  {
    Powers();
    ZeroValue();
    hide Parse34, ToDecimal, Pow10;
    ParseCell(fxRate, 6, 6, 1000000.0);
    if Parse34(fxRate).Some? {
      ZeroCoefficient(Parse34(fxRate).value);
    }
  }

  lemma ZeroCoefficient(d: Decimal)
    ensures d.coefficient == 0 <==> d.Value() == 0.0
  {
    ScaleUp(d.coefficient, Pow10(d.scale));
  }

  lemma AedExact(payable: Decimal, fx: Decimal)
    requires payable.scale <= 2 && Abs(payable.Value()) < 10000000000000.0
    requires fx.scale <= 6 && Abs(fx.Value()) < 1000000.0
    ensures ToCents(Times34(payable, fx)).Value() == RoundTo(Times(payable.Value(), fx.Value()), 2)
  {
    Powers();
    hide Pow10, Times34, Times, ToCents, RoundTo;
    ProductWithin(payable.Value(), fx.Value(), 10000000000000.0, 1000000.0);
    TimesShort(payable, fx, 10000000000000000000.0, 8);
    CentsValue(Times34(payable, fx));
  }

  /**
   * Finite precision is exact. With every operation rounded to 34 digits, an invoice whose cells fit
   * their columns recalculates to the same text as exact arithmetic; the AED amount needs the rate
   * and the payable to fit theirs too.
   */
  lemma RecalcInvoiceExact(invoice: Invoice)
    requires |invoice.lines| < ARRAY_LIMIT
    requires forall l :: l in invoice.lines ==> LineFits(l)
    ensures var exact, finite := RecalcInvoice(invoice), RecalcInvoice34(invoice);
      && finite.(payableAmountAed := exact.payableAmountAed) == exact
      && (TextFits(invoice.fxRate, EXCHANGE_RATE.whole, EXCHANGE_RATE.decimals) && Abs(Amount(exact.payableAmount)) < 10000000000000.0 ==> finite == exact)
  {
    hide AmountsWithin, LineFits, NetSum, VatSum, NetSum34, VatSum34, FxFactor, FxFactor34, TextFits, Plus34, Amount, ToFixed, RoundTo, Times, Times34, ToCents;
    var lines := RecalcLines(invoice.lines);
    RecalcLinesExact(invoice.lines);
    NetSumExact(lines);
    VatSumExact(lines);
    PayableExact(NetSum34(lines), VatSum34(lines));
    PayableReads(invoice);
    if TextFits(invoice.fxRate, EXCHANGE_RATE.whole, EXCHANGE_RATE.decimals) && Abs(NetSum(lines) + VatSum(lines)) < 10000000000000.0 {
      FxExact(invoice.fxRate);
      AedExact(Plus34(NetSum34(lines), VatSum34(lines)), FxFactor34(invoice.fxRate));
    }
  }

  lemma PayableReads(invoice: Invoice)
    ensures Amount(RecalcInvoice(invoice).payableAmount) == NetSum(RecalcLines(invoice.lines)) + VatSum(RecalcLines(invoice.lines))
  {
    Subtotals.HeaderReads(invoice);
    hide Amount, Print, NetSum, VatSum, RoundTo;
  }

  // --- Outside the columns --------------------------------------------------

  const BEYOND: nat := 10000000000000000000000000000000001

  lemma {:induction false} CountExact(n: nat, k: nat)
    requires Pow10(k) <= n < Pow10(k + 1)
    ensures DigitCount(n) == k + 1
  {
    if k > 0 {
      CountExact(n / 10, k - 1);
    } else {
      assert n / 10 == 0;
    }
  }

  lemma BeyondRounds()
    ensures Finalise(Decimal(BEYOND, 0)) == Decimal(BEYOND - 1, 0)
    ensures Finalise(Decimal(BEYOND - 1, 0)) == Decimal(BEYOND - 1, 0)
  {
    LimitOfPrecision();
    assert Pow10(35) == 10 * Pow10(34);
    assert Pow10(1) == 10 && Pow10(0) == 1;
    CountExact(BEYOND, 34);
    CountExact(BEYOND - 1, 34);
    hide DigitCount, Pow10;
  }

  lemma BeyondNet()
    ensures LineNet34(Decimal(BEYOND, 0), ONE, ZERO) == ToCents(Decimal(BEYOND - 1, 0))
  {
    hide Finalise, ToCents;
    BeyondRounds();
    TimesOne(BEYOND);
    MinusZero(BEYOND - 1);
  }

  lemma TimesOne(n: int)
    ensures Times34(Decimal(n, 0), ONE) == Finalise(Decimal(n, 0))
  {
    hide Finalise;
    assert n * 1 == n;
  }

  lemma MinusZero(n: int)
    ensures Minus34(Decimal(n, 0), ZERO) == Finalise(Decimal(n, 0))
  {
    hide Finalise;
    assert Pow10(0) == 1;
    assert Align(Decimal(n, 0), 0) == n * 1 == n;
  }

  lemma BeyondCents()
    ensures ToCents(Decimal(BEYOND - 1, 0)).Value() == (BEYOND - 1) as real
  {
    assert Decimal(BEYOND - 1, 0).Value() == (BEYOND - 1) as real;
    RateStability.WholeIsCents(BEYOND - 1);
    hide RoundTo, ToCents, Pow10;
    CentsValue(Decimal(BEYOND - 1, 0));
  }

  lemma ParseWhole(n: nat)
    ensures Parse34(Digits(n)) == Some(Decimal(n, 0))
  {
    ParseSigned(n, false, 0);
    WholeDigits(n);
    hide ParseDecimal, FixedPoint;
  }

  lemma WholeDigits(n: nat)
    ensures FixedPoint(n, 0) == Digits(n)
  {
    assert Pow10(0) == 1;
    assert Whole(n, 0) == n / 1 == n;
    assert Digits(n) + [] == Digits(n);
  }

  lemma FiniteNet(n: nat)
    ensures var line := RateStability.Probe("5", n);
      RecalcLine34(line).netAmount == Print34(LineNet34(Decimal(n, 0), ONE, ZERO))
  {
    ParseWhole(n);
    ParseWhole(1);
    assert Digits(1) == "1";
    BlankIsNoNumber();
    hide LineNet34, VatOn34, Plus34, ToFixed, LineRate34, ParseDecimal, Normalise;
  }

  lemma ExactNet(n: nat)
    ensures RecalcLine(RateStability.Probe("5", n)).netAmount == Print(n as real)
  {
    RateStability.ProbeNet("5", n);
    hide Computable, LineNet, LineRate, VatOn, Print, ToFixed;
  }

  /** A 35-digit quantity at 1.00: the condition on the columns cannot be dropped. */
  lemma PrecisionMatters()
    ensures var line := RateStability.Probe("5", BEYOND); RecalcLine34(line).netAmount != RecalcLine(line).netAmount
  {
    hide *;
    FiniteNet(BEYOND);
    ExactNet(BEYOND);
    BeyondNet();
    BeyondCents();
    BeyondPrints();
  }

  lemma BeyondPrints()
    requires ToCents(Decimal(BEYOND - 1, 0)).Value() == (BEYOND - 1) as real
    ensures Print34(ToCents(Decimal(BEYOND - 1, 0))) != Print(BEYOND as real)
  {
    RateStability.WholeIsCents(BEYOND);
    RateStability.WholeIsCents(BEYOND - 1);
    hide RoundTo, ToFixed, ToCents, Pow10;
    RateStability.PrintDiffers((BEYOND - 1) as real, BEYOND as real);
  }
}
