/** Auto-fix never breaks a good invoice: what could be submitted before it can be submitted after it. */
module AutoFixSafe {
  import opened Text
  import opened Money
  import opened Calc
  import opened Codes
  import opened Validate
  import opened RecalcFindings
  import opened AutoFix
  import opened AutoFixSettles

  // --- The header -----------------------------------------------------------

  lemma TypeUntouched(text: string)
    requires TypeSpec(Trim(text)).Some?
    ensures AliasOf(text) == None
  {
    TrimIsTrimmed(text);
    CodeIsNoAlias(Trim(text));
    hide Trim, ToLower, TypeAlias, TypeSpec;
  }

  lemma TimeUntouched(text: string)
    requires TimeShape(Trim(text))
    ensures FixedTime(text) == text
  {
    hide Trim;
  }

  lemma CurrencyStaysOk(x: Invoice)
    requires CurrencyOk(x)
    ensures CurrencyOk(FixFx(FixCurrency(x)))
  {
    UpperOfTrimIsStable(x.currency);
    hide Trim, ToUpper, ToDecimal;
  }

  lemma ValidTrnIsKept(text: string)
    requires IsValidTrn(Trim(text)) || Trim(text) == ""
    ensures StrippedTrn(text) == Trim(text)
    ensures Trim(StrippedTrn(text)) == Trim(text)
  {
    TrimIsTrimmed(text);
    FilterIgnoresTrim(text, KeptInTrn);
    var t := Trim(text);
    hide Trim;
    FilterKeepsAll(t, KeptInTrn);
    hide Filter;
  }

  lemma EmirateStaysOk(text: string)
    requires Trim(text) in EMIRATES
    ensures Trim(FixedEmirate(text)) in EMIRATES
  {
    TrimIsTrimmed(text);
    EmirateIsCanonical(Trim(text));
    hide Trim, EmirateAlias, Collapse, ToLower;
  }

  /** The header the rules see, field by field, after a fix that found nothing wrong. */
  lemma HeaderStaysOk(x: Invoice, z: Invoice, ctx: Context)
    requires HeaderOk(x, ctx)
    requires SameHeader(z, FixHeader(x)) && (z.lines == [] <==> x.lines == [])
    ensures HeaderOk(z, ctx)
  {
    HeaderFields(x);
    hide FixHeader, FixedCurrency, FixedTime, StrippedTrn, FixedEmirate, NeedsFx, AliasOf, TypeSpec, TimeShape, IsValidTrn, Trim,
      ToUpper, ToDecimal, NumberFormat, DateShape;
    TypeUntouched(x.invoiceType);
    TimeUntouched(x.issueTime);
    CurrencyStaysOk(x);
    ValidTrnIsKept(x.supplierTrn);
    ValidTrnIsKept(x.buyerTrn);
    EmirateStaysOk(x.buyerEmirate);
    CurrencyOnly(FixFx(FixCurrency(x)), z);
  }

  lemma CurrencyOnly(a: Invoice, b: Invoice)
    requires a.currency == b.currency && a.fxRate == b.fxRate
    ensures CurrencyOk(a) == CurrencyOk(b)
  {
    hide Trim, ToUpper, ToDecimal;
  }

  /** Equal but for the lines and the derived totals. */
  predicate SameHeader(a: Invoice, b: Invoice) {
    a.(lines := b.lines, lineExtensionAmount := b.lineExtensionAmount, taxExclusiveAmount := b.taxExclusiveAmount,
       vatTotalAmount := b.vatTotalAmount, taxInclusiveAmount := b.taxInclusiveAmount, payableAmount := b.payableAmount,
       payableAmountAed := b.payableAmountAed) == b
  }

  lemma SameHeaderOk(a: Invoice, b: Invoice, ctx: Context)
    requires SameHeader(a, b) && (a.lines == [] <==> b.lines == [])
    ensures HeaderOk(a, ctx) == HeaderOk(b, ctx)
  {
    hide TypeSpec, TimeShape, IsValidTrn, Trim, ToUpper, ToDecimal, NumberFormat, DateShape;
  }

  lemma RecalcSameHeader(x: Invoice)
    ensures SameHeader(RecalcInvoice(x), x)
  {
    hide RecalcLines, Print, NetSum, VatSum, RoundTo, FxFactor, Times;
  }

  lemma FixSameHeader(x: Invoice)
    ensures SameHeader(Fix(x), FixHeader(x))
    ensures |Fix(x).lines| == |x.lines|
  {
    HeaderKeepsLines(x);
    hide FixHeader, RecalcInvoice, FixNumbering;
    RecalcSameHeader(FixFields(x));
    SameShape(FixFields(x));
    assert |FixNumbering(FixLines(x.lines))| == |x.lines| by { NumberingKeepsLength(FixLines(x.lines)); }
  }

  lemma NumberingKeepsLength(lines: seq<Line>)
    ensures |FixNumbering(lines)| == |lines|
    ensures forall i :: 0 <= i < |lines| ==>
      FixNumbering(lines)[i] == lines[i].(lineNumber := FixNumbering(lines)[i].lineNumber)
  {
    hide NumberingBroken, Digits;
  }

  lemma HeaderSafe(x: Invoice, ctx: Context)
    requires HeaderOk(RecalcInvoice(x), ctx)
    ensures HeaderOk(Fix(x), ctx)
  {
    hide HeaderOk, Fix, FixHeader, SameHeader, RecalcInvoice;
    RecalcSameHeader(x);
    SameShape(x);
    SameHeaderOk(RecalcInvoice(x), x, ctx);
    FixSameHeader(x);
    HeaderStaysOk(x, Fix(x), ctx);
  }

  // --- One line -------------------------------------------------------------

  lemma UomStaysOk(text: string)
    requires Trim(text) in UOM_CODES
    ensures Trim(FixedUom(text)) in UOM_CODES
  {
    TrimIsTrimmed(text);
    var t := Trim(text);
    assert ToUpper(t) == t;
    hide Trim, ToUpper;
  }

  lemma CategoryBecomesKnown(text: string)
    requires KnownCategory(Trim(text))
    ensures FixedCategory(text) == Trim(text) && KnownCategory(FixedCategory(text))
  {
    var t := Trim(text);
    assert ToUpper(t) == t;
    hide Trim, ToUpper;
  }

  lemma ZeroDiscount()
    ensures ToDecimal("0.00") == Some(0.0)
  {
    RequiredIsPrint("Z");
    ParsePrint(0.0, 2);
    CentsOf(0);
    hide ToDecimal, ToFixed;
  }

  lemma GrossNotNegative(line: Line)
    requires QuantityOk(line) && PriceOk(line)
    ensures Computable(line) && LineGross(line) >= 0.0
  {
    hide ToDecimal;
  }

  lemma DiscountStaysOk(line: Line, fixed: Line)
    requires QuantityOk(line) && PriceOk(line) && DiscountOk(line)
    requires fixed.quantity == line.quantity && fixed.unitPrice == line.unitPrice
    requires fixed.lineDiscount == FixedDiscount(line.lineDiscount)
    ensures DiscountOk(fixed)
  {
    GrossNotNegative(line);
    ZeroDiscount();
    hide ToDecimal, Times, Trim;
  }

  /** An accepted line, fixed and recalculated, is accepted against itself. */
  lemma LineSafe(line: Line, number: string, repeated: bool)
    requires LineOk(RecalcLine(line), line, repeated)
    ensures var g := FixLine(line).(lineNumber := number);
      && Computable(g) && KnownCategory(g.vatCategory)
      && LineOk(RecalcLine(g), RecalcLine(g), false)
  {
    var g := FixLine(line).(lineNumber := number);
    FixedParts(line, number);
    hide FixLine, RecalcLine, BasicsOk, CategoryOk, DiscountOk, OverwriteOk, Computable, FixedUom, FixedCategory, FixedDiscount, KnownCategory;
    BasicsSafe(line, g, repeated);
    CategorySafe(line, g);
    DiscountSafe(line, g, repeated);
    OverwriteSelf(g);
  }

  lemma BasicsSafe(line: Line, g: Line, repeated: bool)
    requires BasicsOk(RecalcLine(line), repeated)
    requires g.quantity == line.quantity && g.unitPrice == line.unitPrice && g.description == line.description
    requires g.uom == FixedUom(line.uom)
    ensures Computable(g) && BasicsOk(RecalcLine(g), false)
  {
    SameIdentity(line);
    SameIdentity(g);
    UomStaysOk(line.uom);
    hide RecalcLine, FixedUom, Trim, ToDecimal;
  }

  lemma CategorySafe(line: Line, g: Line)
    requires CategoryOk(RecalcLine(line), line.vatRate)
    requires Computable(g) && g.vatCategory == FixedCategory(line.vatCategory)
    ensures KnownCategory(g.vatCategory) && CategoryOk(RecalcLine(g), RecalcLine(g).vatRate)
  {
    SameIdentity(line);
    SameIdentity(g);
    CategoryBecomesKnown(line.vatCategory);
    hide RecalcLine, FixedCategory, Computable, RateOk, KnownCategory;
    KnownIsTrimmed(g.vatCategory);
    RecalcRateOk(g);
  }

  lemma DiscountSafe(line: Line, g: Line, repeated: bool)
    requires BasicsOk(RecalcLine(line), repeated) && DiscountOk(RecalcLine(line))
    requires g.quantity == line.quantity && g.unitPrice == line.unitPrice
    requires g.lineDiscount == FixedDiscount(line.lineDiscount)
    ensures DiscountOk(RecalcLine(g))
  {
    SameIdentity(line);
    SameIdentity(g);
    hide RecalcLine, QuantityOk, PriceOk, DiscountOk, FixedDiscount;
    DiscountStaysOk(RecalcLine(line), RecalcLine(g));
  }

  lemma FixedParts(line: Line, number: string)
    ensures var g := FixLine(line).(lineNumber := number);
      && g.quantity == line.quantity && g.unitPrice == line.unitPrice && g.description == line.description && g.id == line.id
      && g.uom == FixedUom(line.uom) && g.vatCategory == FixedCategory(line.vatCategory)
      && g.lineDiscount == FixedDiscount(line.lineDiscount)
  {
    hide FixedUom, FixedCategory, FixedDiscount, FixedRate;
  }

  // --- Line numbers ---------------------------------------------------------

  lemma {:induction false} DistinctNumbersCount(lines: seq<Line>, number: string)
    requires forall i, j :: 0 <= i < j < |lines| ==> lines[i].lineNumber != lines[j].lineNumber
    ensures CountNumber(lines, number) <= 1
    ensures CountNumber(lines, number) == 1 ==> exists l :: l in lines && l.lineNumber == number
  {
    if lines != [] {
      var front, last := lines[..|lines| - 1], lines[|lines| - 1];
      DistinctNumbersCount(front, number);
      assert last in lines;
      if CountNumber(front, number) == 1 {
        var l :| l in front && l.lineNumber == number;
        assert l in lines;
        var i :| 0 <= i < |front| && front[i] == l;
        assert lines[i].lineNumber != last.lineNumber;
      }
    }
  }

  lemma NothingRepeated(lines: seq<Line>, number: string)
    requires !NumberingBroken(lines)
    ensures !Repeated(lines, number)
  {
    hide Trim;
    DistinctNumbersCount(lines, number);
  }

  // --- The invoice ----------------------------------------------------------

  lemma {:induction false} AllComputed(lines: seq<Line>)
    requires forall l :: l in lines ==> l.lineTotal != ""
    ensures Uncomputable(lines) == []
  {
    hide Uncomputable;
    assert Uncomputable(lines) == [] <==> forall l :: l in lines ==> l.lineTotal != "";
  }

  lemma FieldLines(x: Invoice)
    ensures var f := FixFields(x);
      && |f.lines| == |x.lines|
      && forall i :: 0 <= i < |x.lines| ==> f.lines[i] == FixLine(x.lines[i]).(lineNumber := f.lines[i].lineNumber)
  {
    HeaderKeepsLines(x);
    hide FixHeader, FixLine, FixNumbering;
    NumberingKeepsLength(FixLines(x.lines));
  }

  lemma FieldIds(x: Invoice)
    requires UniqueLineIds(x)
    ensures UniqueLineIds(FixFields(x))
  {
    FieldLines(x);
    hide FixFields, FixLine;
    var f := FixFields(x);
    forall i, j | 0 <= i < j < |f.lines|
      ensures f.lines[i].id != f.lines[j].id
    {
      FixedParts(x.lines[i], f.lines[i].lineNumber);
      FixedParts(x.lines[j], f.lines[j].lineNumber);
    }
  }

  /** Every line of an accepted invoice, fixed, is one recalculation settles and the rules accept. */
  lemma LinesSafe(x: Invoice, ctx: Context)
    requires UniqueLineIds(x) && Submittable(x, ctx)
    ensures StableInvoice(FixFields(x))
    ensures var z := Fix(x);
      && (forall i :: 0 <= i < |z.lines| ==> LineAccepted(z, i, z))
      && Uncomputable(z.lines) == []
  {
    hide FixFields, FixLine, LineOk, Repeated, UniqueLineIds, Findings, RecalcLine, Submittable, SuppliedOr, Uncomputable, StableLine,
      NumberingBroken, RecalcInvoice;
    var f := FixFields(x);
    var z := Fix(x);
    FieldLines(x);
    FieldIds(x);
    SubmittableIsStable(x, ctx);
    FixedLinesSettle(x);
    SameShape(f);
    forall i | 0 <= i < |f.lines|
      ensures StableLine(f.lines[i]) && LineAccepted(z, i, z) && z.lines[i].lineTotal != ""
    {
      assert AcceptedAt(x, i);
      AcceptedLine(x, i);
      var repeated := Repeated(RecalcInvoice(x).lines, RecalcLine(x.lines[i]).lineNumber);
      LineSafe(x.lines[i], f.lines[i].lineNumber, repeated);
      KnownIsStable(f.lines[i]);
      SuppliedOfRecalc(f, i);
      NothingRepeated(z.lines, z.lines[i].lineNumber);
      ComputedShows(f.lines[i]);
    }
    AllComputed(z.lines);
  }

  lemma KnownIsStable(line: Line)
    requires KnownCategory(line.vatCategory)
    ensures StableLine(line)
  {
    hide ToDecimal;
  }

  lemma AcceptedLine(x: Invoice, i: nat)
    requires i < |x.lines| && AcceptedAt(x, i)
    ensures LineOk(RecalcLine(x.lines[i]), x.lines[i], Repeated(RecalcInvoice(x).lines, RecalcLine(x.lines[i]).lineNumber))
  {
    hide LineOk, Repeated, RecalcLine, NetSum, VatSum, Print, RoundTo, FxFactor, Times;
  }

  /** A submittable invoice stays submittable when auto-fix has run over it, under the same context. */
  lemma FixKeepsSubmittable(x: Invoice, ctx: Context)
    requires UniqueLineIds(x) && Submittable(x, ctx)
    ensures Submittable(Fix(x), ctx)
  {
    var f := FixFields(x);
    var z := Fix(x);
    hide FixFields, HeaderOk, LineAccepted, Uncomputable, TotalsAgree, UniqueLineIds, StableInvoice, Findings, RecalcInvoice;
    assert InvoiceOk(x, ctx);
    HeaderSafe(x, ctx);
    LinesSafe(x, ctx);
    RecalcInvoiceSettles(f);
    RecalcTotalsAgree(f);
    assert InvoiceOk(z, ctx);
  }
}
