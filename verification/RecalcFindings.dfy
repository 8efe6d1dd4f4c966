/** What recalculating an invoice does to its findings: tamper findings go, everything else stays. */
module RecalcFindings {
  import opened Text
  import opened Money
  import opened Calc
  import opened Codes
  import opened Validate
  import Subtotals

  predicate UniqueLineIds(invoice: Invoice) {
    DistinctIds(invoice.lines)
  }

  predicate TrimmedCategories(invoice: Invoice) {
    forall l :: l in invoice.lines ==> Trim(l.vatCategory) == l.vatCategory
  }

  predicate ComputedLine(lines: seq<Line>, id: string) {
    exists l :: l in lines && l.id == id && l.lineTotal != ""
  }

  /** Overwritten amounts, overwritten totals, and a wrong rate on a line that could be computed. */
  predicate Tamper(f: Finding, lines: seq<Line>) {
    || f.message.AmountOverwritten?
    || f.message.TotalOverwritten?
    || (f.message.RateMismatch? && f.lineId.Some? && ComputedLine(lines, f.lineId.value))
  }

  function WithoutTamper(findings: seq<Finding>, lines: seq<Line>): seq<Finding> {
    if findings == [] then []
    else (if Tamper(findings[0], lines) then [] else [findings[0]]) + WithoutTamper(findings[1..], lines)
  }

  lemma {:induction false} WithoutTamperConcat(a: seq<Finding>, b: seq<Finding>, lines: seq<Line>)
    ensures WithoutTamper(a + b, lines) == WithoutTamper(a, lines) + WithoutTamper(b, lines)
  {
    hide Tamper;
    if a == [] {
      assert a + b == b;
    } else {
      assert (a + b)[1..] == a[1..] + b;
      WithoutTamperConcat(a[1..], b, lines);
    }
  }

  lemma {:induction false} NothingTampered(findings: seq<Finding>, lines: seq<Line>)
    requires forall f :: f in findings ==> !Tamper(f, lines)
    ensures WithoutTamper(findings, lines) == findings
  {
    hide Tamper;
    if findings != [] {
      NothingTampered(findings[1..], lines);
    }
  }

  lemma {:induction false} AllTampered(findings: seq<Finding>, lines: seq<Line>)
    requires forall f :: f in findings ==> Tamper(f, lines)
    ensures WithoutTamper(findings, lines) == []
  {
    hide Tamper;
    if findings != [] {
      AllTampered(findings[1..], lines);
    }
  }

  lemma NoneSuspectStays(findings: seq<Finding>, lines: seq<Line>)
    requires NoneSuspect(findings)
    ensures WithoutTamper(findings, lines) == findings
  {
    NothingTampered(findings, lines);
  }

  // --- Looking lines up by id -----------------------------------------------

  lemma {:induction false} SuppliedAt(lines: seq<Line>, i: nat)
    requires i < |lines| && forall a, b :: 0 <= a < b < |lines| ==> lines[a].id != lines[b].id
    ensures Supplied(lines, lines[i].id) == Some(lines[i])
  {
    if i > 0 {
      assert lines[0].id != lines[i].id;
      assert lines[1..][i - 1] == lines[i];
      SuppliedAt(lines[1..], i - 1);
    }
  }

  lemma SuppliedOfRecalc(invoice: Invoice, i: nat)
    requires UniqueLineIds(invoice) && i < |invoice.lines|
    ensures var y := RecalcInvoice(invoice);
      && |y.lines| == |invoice.lines| && y.lines[i] == RecalcLine(invoice.lines[i])
      && SuppliedOr(invoice.lines, y.lines[i]) == invoice.lines[i]
      && SuppliedOr(y.lines, y.lines[i]) == y.lines[i]
      && y.lines[i].id == invoice.lines[i].id
  {
    hide RecalcLine, NetSum, VatSum, Print, RoundTo, FxFactor, Times, Supplied;
    var y := RecalcInvoice(invoice);
    SameIds(invoice);
    SameIdentity(invoice.lines[i]);
    SuppliedAt(invoice.lines, i);
    SuppliedAt(y.lines, i);
  }

  lemma SameIdentity(line: Line)
    ensures var r := RecalcLine(line);
      && r.id == line.id && r.lineNumber == line.lineNumber && r.vatCategory == line.vatCategory
      && r.quantity == line.quantity && r.unitPrice == line.unitPrice && r.lineDiscount == line.lineDiscount
      && r.description == line.description && r.uom == line.uom
  {
  }

  lemma SameIds(invoice: Invoice)
    requires UniqueLineIds(invoice)
    ensures UniqueLineIds(RecalcInvoice(invoice))
  {
    hide RecalcLine, NetSum, VatSum, Print, RoundTo, FxFactor, Times;
    var y := RecalcInvoice(invoice);
    forall i, j | 0 <= i < j < |y.lines|
      ensures y.lines[i].id != y.lines[j].id
    {
      SameIdentity(invoice.lines[i]);
      SameIdentity(invoice.lines[j]);
    }
  }

  // --- One line -------------------------------------------------------------

  lemma BlankReadsNothing(line: Line)
    requires !Computable(line)
    ensures RecalcLine(line).lineTotal == "" && RecalcLine(line).netAmount == ""
    ensures RecalcLine(line).vatRate == line.vatRate
  {
    hide Computable;
  }

  lemma ComputedShows(line: Line)
    requires Computable(line)
    ensures RecalcLine(line).lineTotal != "" && RecalcLine(line).netAmount != ""
  {
    RecalcLineReads(line);
    hide RecalcLine;
  }

  /** After recalculation a computable line of a known category carries the rate its category asks for. */
  lemma RecalcRateOk(line: Line)
    requires Computable(line) && KnownCategory(line.vatCategory)
    ensures RateOk(line.vatCategory, RecalcLine(line).vatRate)
  {
    hide ToFixed, RoundTo, ToDecimal, LineNet, VatOn, Print, HasDecimals;
    ParsePrint(ExpectedRate(line.vatCategory), 2);
    RateCents(LineRate(line), line);
    assert HasDecimals(ExpectedRate(line.vatCategory), 2);
    RoundedRate(line.vatCategory);
  }

  lemma RoundedRate(category: string)
    ensures RoundTo(ExpectedRate(category), 2) == ExpectedRate(category)
  {
    CentsOf(500);
    CentsOf(0);
  }

  /** The category findings that survive are those recalculation would raise again. */
  lemma CategorySurvives(line: Line, lines: seq<Line>)
    requires Trim(line.vatCategory) == line.vatCategory
    requires ComputedLine(lines, line.id) <==> Computable(line)
    ensures var r := RecalcLine(line);
      WithoutTamper(CategoryFindings(r, line.vatRate), lines) == CategoryFindings(r, r.vatRate)
  {
    var r := RecalcLine(line);
    SameIdentity(line);
    if !KnownCategory(line.vatCategory) {
      UnknownCategory(r, line.vatRate);
      UnknownCategory(r, r.vatRate);
      hide CategoryFindings, RecalcLine, ComputedLine, Computable;
      NothingTampered(CategoryFindings(r, line.vatRate), lines);
    } else if Computable(line) {
      RecalcRateOk(line);
      hide CategoryFindings, RecalcLine, ComputedLine, Computable;
      KnownCategoryOnly(r, line.vatRate);
      AllTampered(CategoryFindings(r, line.vatRate), lines);
      assert CategoryOk(r, r.vatRate);
    } else {
      BlankReadsNothing(line);
      hide CategoryFindings, RecalcLine, ComputedLine, Computable;
      NothingTampered(CategoryFindings(r, line.vatRate), lines);
    }
  }

  lemma UnknownCategory(line: Line, rateText: string)
    requires !KnownCategory(Trim(line.vatCategory))
    ensures CategoryFindings(line, rateText) == [LineFinding(CategoryInvalid(line.vatCategory), "I", line)]
  {
  }

  lemma KnownCategoryOnly(line: Line, rateText: string)
    requires KnownCategory(Trim(line.vatCategory))
    ensures forall f :: f in CategoryFindings(line, rateText) ==> f.message.RateMismatch? && f.lineId == Some(line.id)
  {
    hide ToDecimal, ToFixed, CellAt, Trim;
  }

  /** A recalculated line agrees with itself. */
  lemma NotOverwritten(line: Line)
    ensures OverwriteFindings(RecalcLine(line), RecalcLine(line)) == []
  {
    hide RecalcLine, OverwriteFindings, ToDecimal;
    assert OverwriteOk(RecalcLine(line), RecalcLine(line));
  }

  lemma OverwriteRemoved(line: Line, supplied: Line, lines: seq<Line>)
    ensures WithoutTamper(OverwriteFindings(line, supplied), lines) == []
  {
    hide OverwriteFindings, ComputedLine;
    AllTampered(OverwriteFindings(line, supplied), lines);
  }

  lemma LineSurvives(line: Line, lines: seq<Line>, repeated: bool, invoiceNumber: string)
    requires Trim(line.vatCategory) == line.vatCategory
    requires ComputedLine(lines, line.id) <==> Computable(line)
    ensures var r := RecalcLine(line);
      WithoutTamper(LineFindings(r, line, repeated, invoiceNumber), lines) == LineFindings(r, r, repeated, invoiceNumber)
  {
    hide RecalcLine, BasicFindings, CategoryFindings, DiscountFindings, OverwriteFindings, WithoutTamper, NoneSuspect, NoBlocking, ComputedLine, Computable;
    var r := RecalcLine(line);
    var b, c, d, o := BasicFindings(r, repeated, invoiceNumber), CategoryFindings(r, line.vatRate), DiscountFindings(r), OverwriteFindings(r, line);
    WithoutTamperConcat(b, c + (d + o), lines);
    WithoutTamperConcat(c, d + o, lines);
    WithoutTamperConcat(d, o, lines);
    NoneSuspectStays(b, lines);
    CategorySurvives(line, lines);
    NoneSuspectStays(d, lines);
    OverwriteRemoved(r, line, lines);
    NotOverwritten(line);
  }

  lemma ComputedExactly(invoice: Invoice, i: nat)
    requires UniqueLineIds(invoice) && i < |invoice.lines|
    ensures ComputedLine(RecalcInvoice(invoice).lines, invoice.lines[i].id) <==> Computable(invoice.lines[i])
  {
    hide RecalcLine, NetSum, VatSum, Print, RoundTo, FxFactor, Times, Computable;
    var y := RecalcInvoice(invoice);
    SameIds(invoice);
    SameIdentity(invoice.lines[i]);
    if Computable(invoice.lines[i]) {
      ComputedShows(invoice.lines[i]);
      assert y.lines[i] in y.lines;
    } else {
      BlankReadsNothing(invoice.lines[i]);
    }
  }

  // --- The invoice ----------------------------------------------------------

  lemma FindingsOfLineSurvive(invoice: Invoice, i: nat)
    requires UniqueLineIds(invoice) && TrimmedCategories(invoice) && i < |invoice.lines|
    ensures var y := RecalcInvoice(invoice);
      && |y.lines| == |invoice.lines|
      && WithoutTamper(FindingsOfLine(y, i, invoice), y.lines) == FindingsOfLine(y, i, y)
  {
    hide RecalcInvoice, RecalcLine, LineFindings, CountNumber, NoBlocking, Tamper, SuppliedOr, UniqueLineIds, WithoutTamper, LineAccepted;
    var y := RecalcInvoice(invoice);
    SameShape(invoice);
    var line := invoice.lines[i];
    SuppliedOfRecalc(invoice, i);
    ComputedExactly(invoice, i);
    assert line in invoice.lines;
    LineSurvives(line, y.lines, Repeated(y.lines, y.lines[i].lineNumber), invoice.invoiceNumber);
  }

  lemma {:induction false} LinesSurvive(invoice: Invoice, n: nat)
    requires UniqueLineIds(invoice) && TrimmedCategories(invoice) && n <= |invoice.lines|
    ensures var y := RecalcInvoice(invoice);
      && |y.lines| == |invoice.lines|
      && WithoutTamper(LinesFindings(y, n, invoice), y.lines) == LinesFindings(y, n, y)
  {
    hide RecalcInvoice, FindingsOfLine, NoBlocking, Tamper, UniqueLineIds, TrimmedCategories, LineAccepted, AllAccepted;
    var y := RecalcInvoice(invoice);
    SameShape(invoice);
    if n > 0 {
      hide WithoutTamper;
      LinesSurvive(invoice, n - 1);
      FindingsOfLineSurvive(invoice, n - 1);
      WithoutTamperConcat(LinesFindings(y, n - 1, invoice), FindingsOfLine(y, n - 1, invoice), y.lines);
    }
  }

  lemma SameShape(invoice: Invoice)
    ensures |RecalcInvoice(invoice).lines| == |invoice.lines|
    ensures RecalcInvoice(invoice).invoiceNumber == invoice.invoiceNumber
  {
  }

  /** A recalculated invoice's line totals add up to its payable amount. */
  lemma RecalcTotalsAgree(invoice: Invoice)
    ensures TotalsAgree(RecalcInvoice(invoice), RecalcInvoice(invoice))
  {
    hide RecalcInvoice, TotalSum, NetSum, VatSum, ToDecimal, RoundTo;
    Subtotals.HeaderReads(invoice);
  }

  lemma TotalsSurvive(invoice: Invoice, ctx: Context)
    ensures var y := RecalcInvoice(invoice);
      WithoutTamper(TotalFindings(y, invoice, ctx), y.lines) == TotalFindings(y, y, ctx)
  {
    hide RecalcInvoice, IncompleteFindings, DisagreementFindings, AdvisoryFindings, WithoutTamper, NoneSuspect, NoBlocking, ComputedLine, TotalsAgree, Uncomputable;
    var y := RecalcInvoice(invoice);
    var a, b, c := IncompleteFindings(y), DisagreementFindings(y, invoice), AdvisoryFindings(y, ctx);
    WithoutTamperConcat(a, b + c, y.lines);
    WithoutTamperConcat(b, c, y.lines);
    NoneSuspectStays(a, y.lines);
    AllTampered(b, y.lines);
    NoneSuspectStays(c, y.lines);
    RecalcTotalsAgree(invoice);
  }

  /**
   * Recalculation only removes tamper findings. The findings of the recalculated invoice are, in the
   * same order, those of the upload without overwritten amounts, overwritten totals and wrong rates on
   * lines that could be computed.
   */
  lemma RecalcOnlyRemovesTamper(invoice: Invoice, ctx: Context)
    requires UniqueLineIds(invoice) && TrimmedCategories(invoice) && StableInvoice(invoice)
    ensures var y := RecalcInvoice(invoice);
      Findings(y, ctx) == WithoutTamper(Findings(invoice, ctx), y.lines)
  {
    hide RecalcInvoice, HeaderFindings, LinesFindings, TotalFindings, WithoutTamper, NoneSuspect, NoBlocking, StableInvoice, Findings, UniqueLineIds, TrimmedCategories;
    var y := RecalcInvoice(invoice);
    RecalcInvoiceSettles(invoice);
    SameShape(invoice);
    var h, l, t := HeaderFindings(y, ctx), LinesFindings(y, |y.lines|, invoice), TotalFindings(y, invoice, ctx);
    FindingsInOrder(invoice, ctx);
    FindingsInOrder(y, ctx);
    WithoutTamperConcat(h + l, t, y.lines);
    WithoutTamperConcat(h, l, y.lines);
    NoneSuspectStays(h, y.lines);
    LinesSurvive(invoice, |y.lines|);
    TotalsSurvive(invoice, ctx);
  }

  // --- Staying submittable --------------------------------------------------

  /** A standard-rated category with stray spaces and no readable rate: recalculated at zero, then judged at five. */
  predicate LosesItsRate(line: Line) {
    line.vatCategory != "S" && Trim(line.vatCategory) == "S" && ToDecimal(line.vatRate).None?
  }

  lemma KnownIsTrimmed(category: string)
    requires KnownCategory(category)
    ensures Trim(category) == category
  {
    TrimIsTrimmed(category);
  }

  /** An accepted line is stable: its rate is dictated, missing, or the one its category asks for. */
  lemma AcceptedIsStable(line: Line)
    requires CategoryOk(line, line.vatRate)
    ensures StableLine(line)
  {
    hide ToDecimal, Trim, RoundTo, Computable;
    if !KnownCategory(line.vatCategory) && ToDecimal(line.vatRate).Some? {
      RoundedRate(Trim(line.vatCategory));
    }
  }

  lemma PrintedRate(line: Line)
    requires Computable(line) && StableLine(line)
    ensures ToDecimal(RecalcLine(line).vatRate) == Some(LineRate(line))
  {
    hide ToFixed, RoundTo, ToDecimal, LineNet, VatOn, Print, HasDecimals, Computable;
    ParsePrint(LineRate(line), 2);
    RateCents(LineRate(line), line);
    RateRoundsToItself(LineRate(line));
  }

  lemma RateRoundsToItself(rate: real)
    requires HasDecimals(rate, 2)
    ensures RoundTo(rate, 2) == rate
  {
  }

  lemma CategoryAfterRecalc(line: Line)
    requires Computable(line) && CategoryOk(line, line.vatRate)
    ensures CategoryOk(RecalcLine(line), RecalcLine(line).vatRate) <==> !LosesItsRate(line)
  {
    AcceptedIsStable(line);
    PrintedRate(line);
    SameIdentity(line);
    hide RecalcLine, ToDecimal, Trim, Computable;
    if KnownCategory(line.vatCategory) {
      KnownIsTrimmed(line.vatCategory);
    }
  }

  /** Whether a recalculated line is accepted against itself, when the upload was. */
  lemma LineAfterRecalc(line: Line, repeated: bool)
    requires LineOk(RecalcLine(line), line, repeated)
    ensures StableLine(line)
    ensures LineOk(RecalcLine(line), RecalcLine(line), repeated) <==> !LosesItsRate(line)
  {
    SameIdentity(line);
    assert Computable(line) && CategoryOk(line, line.vatRate) by {
      hide ToDecimal, Trim, RecalcLine, OverwriteOk;
    }
    AcceptedIsStable(line);
    CategoryAfterRecalc(line);
    OverwriteSelf(line);
    hide RecalcLine, BasicsOk, CategoryOk, DiscountOk, OverwriteOk, LosesItsRate, StableLine;
  }

  lemma OverwriteSelf(line: Line)
    ensures OverwriteOk(RecalcLine(line), RecalcLine(line))
  {
    hide RecalcLine, ToDecimal;
  }

  lemma SubmittableIsStable(invoice: Invoice, ctx: Context)
    requires UniqueLineIds(invoice) && Submittable(invoice, ctx)
    ensures StableInvoice(invoice)
    ensures forall i :: 0 <= i < |invoice.lines| ==> AcceptedAt(invoice, i)
  {
    hide RecalcInvoice, HeaderOk, Uncomputable, TotalsAgree, RecalcLine, LineOk, SuppliedOr, Repeated, UniqueLineIds, StableLine, Findings;
    assert InvoiceOk(invoice, ctx);
    var y := RecalcInvoice(invoice);
    SameShape(invoice);
    forall i | 0 <= i < |invoice.lines|
      ensures AcceptedAt(invoice, i) && StableLine(invoice.lines[i])
    {
      SuppliedOfRecalc(invoice, i);
      assert LineAccepted(y, i, invoice);
      LineAfterRecalc(invoice.lines[i], Repeated(y.lines, y.lines[i].lineNumber));
    }
  }

  predicate AcceptedAt(invoice: Invoice, i: nat)
    requires i < |invoice.lines|
  {
    var lines := RecalcInvoice(invoice).lines;
    |lines| == |invoice.lines| && LineOk(lines[i], invoice.lines[i], Repeated(lines, lines[i].lineNumber))
  }

  /**
   * A row validated raw and stored recalculated stays submittable, unless a line spells "S" with stray
   * spaces and carries no readable rate. That exception is exact.
   */
  lemma RecalcKeepsSubmittable(invoice: Invoice, ctx: Context)
    requires UniqueLineIds(invoice) && Submittable(invoice, ctx)
    ensures Submittable(RecalcInvoice(invoice), ctx) <==> forall l :: l in invoice.lines ==> !LosesItsRate(l)
  {
    hide RecalcInvoice, HeaderOk, Uncomputable, TotalsAgree, RecalcLine, LineOk, SuppliedOr, Repeated, LosesItsRate, UniqueLineIds, StableLine, Findings;
    assert InvoiceOk(invoice, ctx);
    var y := RecalcInvoice(invoice);
    SubmittableIsStable(invoice, ctx);
    RecalcInvoiceSettles(invoice);
    RecalcTotalsAgree(invoice);
    SameShape(invoice);
    forall i | 0 <= i < |invoice.lines|
      ensures LineAccepted(y, i, y) <==> !LosesItsRate(invoice.lines[i])
    {
      SuppliedOfRecalc(invoice, i);
      assert AcceptedAt(invoice, i);
      LineAfterRecalc(invoice.lines[i], Repeated(y.lines, y.lines[i].lineNumber));
    }
    assert InvoiceOk(y, ctx) <==> forall i :: 0 <= i < |y.lines| ==> LineAccepted(y, i, y);
    if forall i :: 0 <= i < |y.lines| ==> LineAccepted(y, i, y) {
      forall l | l in invoice.lines
        ensures !LosesItsRate(l)
      {
        var i :| 0 <= i < |invoice.lines| && invoice.lines[i] == l;
        assert LineAccepted(y, i, y);
      }
    } else {
      var i :| 0 <= i < |y.lines| && !LineAccepted(y, i, y);
      assert LosesItsRate(invoice.lines[i]) && invoice.lines[i] in invoice.lines;
    }
  }
}
