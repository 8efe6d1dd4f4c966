/** The auto-fix log is complete, and a second run finds nothing left to do. */
module AutoFixLog {
  import opened Text
  import opened Money
  import opened Calc
  import opened Codes
  import opened AutoFix

  // --- Replaying a log ------------------------------------------------------

  function SetHeader(invoice: Invoice, field: Field, to: string): Invoice {
    match field
    case Currency => invoice.(currency := to)
    case FxRate => invoice.(fxRate := to)
    case IssueTime => invoice.(issueTime := to)
    case SupplierTrn => invoice.(supplierTrn := to)
    case BuyerTrn => invoice.(buyerTrn := to)
    case BuyerEmirate => invoice.(buyerEmirate := to)
    case InvoiceTypeField => invoice.(invoiceType := to)
    case _ => invoice
  }

  function SetLine(line: Line, field: Field, to: string): Line {
    match field
    case Uom => line.(uom := to)
    case VatCategory => line.(vatCategory := to)
    case VatRate => line.(vatRate := to)
    case LineDiscount => line.(lineDiscount := to)
    case LineNumber => line.(lineNumber := to)
    case _ => line
  }

  /** Writes one recorded value back into the field it names. */
  function Apply(invoice: Invoice, c: Change): Invoice {
    if c.invoiceId != invoice.id then invoice
    else
      match c.lineId
      case None => SetHeader(invoice, c.field, c.to)
      case Some(id) => invoice.(lines := ApplyToLines(invoice.lines, id, c.field, c.to))
  }

  function ApplyToLines(lines: seq<Line>, id: string, field: Field, to: string): (r: seq<Line>)
    ensures |r| == |lines|
    ensures forall i :: 0 <= i < |lines| ==> r[i] == if lines[i].id == id then SetLine(lines[i], field, to) else lines[i]
  {
    seq(|lines|, i requires 0 <= i < |lines| => if lines[i].id == id then SetLine(lines[i], field, to) else lines[i])
  }

  function Replay(invoice: Invoice, changes: seq<Change>): Invoice {
    if changes == [] then invoice
    else Apply(Replay(invoice, changes[..|changes| - 1]), changes[|changes| - 1])
  }

  lemma {:induction false} ReplayConcat(invoice: Invoice, a: seq<Change>, b: seq<Change>)
    ensures Replay(invoice, a + b) == Replay(Replay(invoice, a), b)
  {
    hide Apply;
    if b == [] {
      assert a + b == a;
    } else {
      var front := b[..|b| - 1];
      assert (a + b)[..|a + b| - 1] == a + front;
      ReplayConcat(invoice, a, front);
    }
  }

  lemma ReplayWhen(invoice: Invoice, condition: bool, c: Change)
    ensures Replay(invoice, When(condition, c)) == if condition then Apply(invoice, c) else invoice
  {
    hide Apply;
    assert When(true, c)[..0] == [];
  }

  // --- The header -----------------------------------------------------------

  lemma CurrencyReplay(next: Invoice)
    ensures Replay(next, CurrencyChanges(next)) == FixCurrency(next)
  {
    hide FixedCurrency;
    ReplayWhen(next, FixedCurrency(next.currency) != next.currency, Change(next.id, None, Currency, next.currency, FixedCurrency(next.currency)));
  }

  lemma FxReplay(next: Invoice)
    ensures Replay(next, FxChanges(next)) == FixFx(next)
  {
    hide NeedsFx, Trim;
    ReplayWhen(next, NeedsFx(next), Change(next.id, None, FxRate, Trim(next.fxRate), "1.000000"));
  }

  lemma TimeReplay(next: Invoice)
    ensures Replay(next, TimeChanges(next)) == FixTime(next)
  {
    hide Trim, ClockShape;
    ReplayWhen(next, NeedsTime(next.issueTime), Change(next.id, None, IssueTime, Trim(next.issueTime), FixedTime(next.issueTime)));
  }

  lemma SupplierTrnReplay(next: Invoice)
    ensures Replay(next, SupplierTrnChanges(next)) == FixSupplierTrn(next)
  {
    hide StrippedTrn;
    ReplayWhen(next, StrippedTrn(next.supplierTrn) != next.supplierTrn,
               Change(next.id, None, SupplierTrn, next.supplierTrn, StrippedTrn(next.supplierTrn)));
  }

  lemma BuyerTrnReplay(next: Invoice)
    ensures Replay(next, BuyerTrnChanges(next)) == FixBuyerTrn(next)
  {
    hide StrippedTrn;
    ReplayWhen(next, StrippedTrn(next.buyerTrn) != next.buyerTrn,
               Change(next.id, None, BuyerTrn, next.buyerTrn, StrippedTrn(next.buyerTrn)));
  }

  lemma EmirateReplay(next: Invoice)
    ensures Replay(next, EmirateChanges(next)) == FixEmirate(next)
  {
    hide FixedEmirate;
    ReplayWhen(next, FixedEmirate(next.buyerEmirate) != next.buyerEmirate,
               Change(next.id, None, BuyerEmirate, next.buyerEmirate, FixedEmirate(next.buyerEmirate)));
  }

  lemma TypeReplay(next: Invoice)
    ensures Replay(next, TypeChanges(next)) == FixType(next)
  {
    hide AliasOf, Trim;
    match AliasOf(next.invoiceType)
    case None =>
    case Some(code) => ReplayWhen(next, true, Change(next.id, None, InvoiceTypeField, Trim(next.invoiceType), code));
  }

  lemma HeaderReplay(invoice: Invoice)
    ensures Replay(invoice, HeaderChanges(invoice)) == FixHeader(invoice)
  {
    hide Replay, FixCurrency, FixFx, FixTime, FixSupplierTrn, FixBuyerTrn, FixEmirate, FixType, CurrencyChanges, FxChanges, TimeChanges,
      SupplierTrnChanges, BuyerTrnChanges, EmirateChanges, TypeChanges;
    var a := FixCurrency(invoice);
    var b := FixFx(a);
    var c := FixTime(b);
    var d := FixSupplierTrn(c);
    var e := FixBuyerTrn(d);
    var f := FixEmirate(e);
    var l1 := CurrencyChanges(invoice) + FxChanges(a);
    var l2 := l1 + TimeChanges(b);
    var l3 := l2 + SupplierTrnChanges(c);
    var l4 := l3 + BuyerTrnChanges(d);
    var l5 := l4 + EmirateChanges(e);
    ReplayConcat(invoice, CurrencyChanges(invoice), FxChanges(a));
    ReplayConcat(invoice, l1, TimeChanges(b));
    ReplayConcat(invoice, l2, SupplierTrnChanges(c));
    ReplayConcat(invoice, l3, BuyerTrnChanges(d));
    ReplayConcat(invoice, l4, EmirateChanges(e));
    ReplayConcat(invoice, l5, TypeChanges(f));
    CurrencyReplay(invoice);
    FxReplay(a);
    TimeReplay(b);
    SupplierTrnReplay(c);
    BuyerTrnReplay(d);
    EmirateReplay(e);
    TypeReplay(f);
  }

  // --- Lines ----------------------------------------------------------------

  /** Line changes of this invoice. */
  predicate ForLines(changes: seq<Change>, invoiceId: string) {
    forall c :: c in changes ==> c.invoiceId == invoiceId && c.lineId.Some?
  }

  /** What a log does to one line. */
  function ReplayLine(line: Line, changes: seq<Change>): (r: Line)
    ensures r.id == line.id
  {
    if changes == [] then line
    else
      var before, c := ReplayLine(line, changes[..|changes| - 1]), changes[|changes| - 1];
      if c.lineId == Some(line.id) then SetLine(before, c.field, c.to) else before
  }

  lemma {:induction false} ReplayByLine(invoice: Invoice, changes: seq<Change>, i: nat)
    requires ForLines(changes, invoice.id) && i < |invoice.lines|
    ensures var r := Replay(invoice, changes);
      && r.(lines := invoice.lines) == invoice
      && |r.lines| == |invoice.lines| && r.lines[i] == ReplayLine(invoice.lines[i], changes)
  {
    hide SetLine;
    if changes != [] {
      var front, c := changes[..|changes| - 1], changes[|changes| - 1];
      assert c in changes;
      ReplayByLine(invoice, front, i);
    }
  }

  lemma {:induction false} ReplayKeepsHeader(invoice: Invoice, changes: seq<Change>)
    requires ForLines(changes, invoice.id)
    ensures var r := Replay(invoice, changes); r.(lines := invoice.lines) == invoice && |r.lines| == |invoice.lines|
  {
    hide SetLine;
    if changes != [] {
      var front, c := changes[..|changes| - 1], changes[|changes| - 1];
      assert c in changes;
      ReplayKeepsHeader(invoice, front);
    }
  }

  lemma {:induction false} ReplayLineConcat(line: Line, a: seq<Change>, b: seq<Change>)
    ensures ReplayLine(line, a + b) == ReplayLine(ReplayLine(line, a), b)
  {
    hide SetLine;
    if b == [] {
      assert a + b == a;
    } else {
      var front := b[..|b| - 1];
      assert (a + b)[..|a + b| - 1] == a + front;
      ReplayLineConcat(line, a, front);
    }
  }

  lemma {:induction false} ReplayLineSkips(line: Line, changes: seq<Change>)
    requires forall c :: c in changes ==> c.lineId != Some(line.id)
    ensures ReplayLine(line, changes) == line
  {
    if changes != [] {
      assert changes[|changes| - 1] in changes;
      ReplayLineSkips(line, changes[..|changes| - 1]);
    }
  }

  lemma ReplayLineWhen(line: Line, condition: bool, c: Change)
    requires c.lineId == Some(line.id)
    ensures ReplayLine(line, When(condition, c)) == if condition then SetLine(line, c.field, c.to) else line
  {
    hide SetLine;
    assert When(true, c)[..0] == [];
    assert ReplayLine(line, []) == line;
  }

  lemma FixLineReplay(line: Line, invoiceId: string)
    ensures ReplayLine(line, LineChanges(line, invoiceId)) == FixLine(line)
  {
    var a := line.(uom := FixedUom(line.uom));
    var b := a.(vatCategory := FixedCategory(line.vatCategory));
    var category := FixedCategory(line.vatCategory);
    var c := b.(vatRate := FixedRate(category, line.vatRate));
    UomReplay(line, invoiceId);
    CategoryReplay(line, a, invoiceId);
    RateReplay(line, b, invoiceId);
    DiscountReplay(line, c, invoiceId);
    hide ReplayLine, UomChanges, CategoryChanges, RateChanges, DiscountChanges, FixedUom, FixedCategory, FixedRate, FixedDiscount;
    ReplayLineConcat(line, UomChanges(line, invoiceId), CategoryChanges(line, invoiceId));
    ReplayLineConcat(line, UomChanges(line, invoiceId) + CategoryChanges(line, invoiceId), RateChanges(line, invoiceId));
    ReplayLineConcat(line, UomChanges(line, invoiceId) + CategoryChanges(line, invoiceId) + RateChanges(line, invoiceId),
                     DiscountChanges(line, invoiceId));
  }

  lemma UomReplay(line: Line, invoiceId: string)
    ensures ReplayLine(line, UomChanges(line, invoiceId)) == line.(uom := FixedUom(line.uom))
  {
    hide Trim, ToUpper, ReplayLine;
    ReplayLineWhen(line, FixedUom(line.uom) != line.uom, Change(invoiceId, Some(line.id), Uom, line.uom, FixedUom(line.uom)));
    ReplayLineWhen(line, true, Change(invoiceId, Some(line.id), Uom, "", "PCE"));
  }

  lemma CategoryReplay(line: Line, at: Line, invoiceId: string)
    requires at.id == line.id && at.vatCategory == line.vatCategory
    ensures ReplayLine(at, CategoryChanges(line, invoiceId)) == at.(vatCategory := FixedCategory(line.vatCategory))
  {
    hide FixedCategory, ReplayLine;
    ReplayLineWhen(at, FixedCategory(line.vatCategory) != line.vatCategory,
                   Change(invoiceId, Some(line.id), VatCategory, line.vatCategory, FixedCategory(line.vatCategory)));
  }

  lemma RateReplay(line: Line, at: Line, invoiceId: string)
    requires at.id == line.id && at.vatRate == line.vatRate
    ensures ReplayLine(at, RateChanges(line, invoiceId))
         == at.(vatRate := FixedRate(FixedCategory(line.vatCategory), line.vatRate))
  {
    hide FixedCategory, ReplayLine, NeedsRate, RequiredRate, Trim;
    var category := FixedCategory(line.vatCategory);
    ReplayLineWhen(at, NeedsRate(category, line.vatRate),
                   Change(invoiceId, Some(line.id), VatRate, Trim(line.vatRate), RequiredRate(category)));
  }

  lemma DiscountReplay(line: Line, at: Line, invoiceId: string)
    requires at.id == line.id && at.lineDiscount == line.lineDiscount
    ensures ReplayLine(at, DiscountChanges(line, invoiceId)) == at.(lineDiscount := FixedDiscount(line.lineDiscount))
  {
    hide Trim, ReplayLine;
    ReplayLineWhen(at, Trim(line.lineDiscount) == "", Change(invoiceId, Some(line.id), LineDiscount, "", "0.00"));
  }

  lemma LineChangesTarget(line: Line, invoiceId: string)
    ensures forall c :: c in LineChanges(line, invoiceId) ==> c.invoiceId == invoiceId && c.lineId == Some(line.id)
  {
    hide Trim, FixedUom, FixedCategory, NeedsRate, RequiredRate;
  }

  lemma {:induction false} LinesChangesTarget(lines: seq<Line>, invoiceId: string)
    ensures ForLines(LinesChanges(lines, invoiceId), invoiceId)
    ensures forall c :: c in LinesChanges(lines, invoiceId) ==> exists l :: l in lines && c.lineId == Some(l.id)
  {
    hide LineChanges;
    if lines != [] {
      var front, last := lines[..|lines| - 1], lines[|lines| - 1];
      LinesChangesTarget(front, invoiceId);
      LineChangesTarget(last, invoiceId);
      forall c | c in LinesChanges(lines, invoiceId)
        ensures exists l :: l in lines && c.lineId == Some(l.id)
      {
        if c in LinesChanges(front, invoiceId) {
          var l :| l in front && c.lineId == Some(l.id);
          assert l in lines;
        } else {
          assert last in lines;
        }
      }
    }
  }

  /** With unique ids, each line gets exactly its own changes. */
  lemma {:induction false} LinesReplay(lines: seq<Line>, invoiceId: string, i: nat)
    requires DistinctIds(lines) && i < |lines|
    ensures ReplayLine(lines[i], LinesChanges(lines, invoiceId)) == FixLine(lines[i])
  {
    hide LineChanges, FixLine, ReplayLine;
    var front, last := lines[..|lines| - 1], lines[|lines| - 1];
    ReplayLineConcat(lines[i], LinesChanges(front, invoiceId), LineChanges(last, invoiceId));
    LineChangesTarget(last, invoiceId);
    if i < |front| {
      LinesReplay(front, invoiceId, i);
      SameLineId(lines[i]);
      ReplayLineSkips(FixLine(lines[i]), LineChanges(last, invoiceId));
    } else {
      LinesChangesTarget(front, invoiceId);
      ReplayLineSkips(last, LinesChanges(front, invoiceId));
      FixLineReplay(last, invoiceId);
    }
  }

  lemma SameLineId(line: Line)
    ensures FixLine(line).id == line.id
  {
  }

  lemma {:induction false} RenumberTarget(lines: seq<Line>, invoiceId: string)
    ensures ForLines(RenumberChanges(lines, invoiceId), invoiceId)
    ensures forall c :: c in RenumberChanges(lines, invoiceId) ==> exists l :: l in lines && c.lineId == Some(l.id)
  {
    hide Digits;
    if lines != [] {
      var front, last := lines[..|lines| - 1], lines[|lines| - 1];
      RenumberTarget(front, invoiceId);
      assert last in lines;
      forall c | c in RenumberChanges(lines, invoiceId)
        ensures exists l :: l in lines && c.lineId == Some(l.id)
      {
        if c in RenumberChanges(front, invoiceId) {
          var l :| l in front && c.lineId == Some(l.id);
          assert l in lines;
        }
      }
    }
  }

  lemma {:induction false} RenumberReplay(lines: seq<Line>, invoiceId: string, i: nat)
    requires DistinctIds(lines) && i < |lines|
    ensures ReplayLine(lines[i], RenumberChanges(lines, invoiceId)) == lines[i].(lineNumber := Digits(i + 1))
  {
    hide Digits, ReplayLine;
    var n := |lines|;
    var front, last := lines[..n - 1], lines[n - 1];
    var c := Change(invoiceId, Some(last.id), LineNumber, last.lineNumber, Digits(n));
    ReplayLineConcat(lines[i], RenumberChanges(front, invoiceId), When(last.lineNumber != Digits(n), c));
    if i < |front| {
      RenumberReplay(front, invoiceId, i);
      ReplayLineSkips(lines[i].(lineNumber := Digits(i + 1)), When(last.lineNumber != Digits(n), c));
    } else {
      RenumberTarget(front, invoiceId);
      ReplayLineSkips(last, RenumberChanges(front, invoiceId));
      ReplayLineWhen(last, last.lineNumber != Digits(n), c);
    }
  }

  // --- The log is complete --------------------------------------------------

  lemma LinesAndNumbersReplay(h: Invoice, invoiceId: string)
    requires DistinctIds(h.lines) && h.id == invoiceId
    ensures var m := Replay(h, LinesChanges(h.lines, invoiceId));
      && m == h.(lines := FixLines(h.lines))
      && Replay(m, NumberingChanges(FixLines(h.lines), invoiceId)) == h.(lines := FixNumbering(FixLines(h.lines)))
  {
    hide LinesChanges, FixLine, Replay, ReplayLine, RenumberChanges, NumberingBroken, Digits;
    LinesChangesTarget(h.lines, invoiceId);
    ReplayKeepsHeader(h, LinesChanges(h.lines, invoiceId));
    var m := Replay(h, LinesChanges(h.lines, invoiceId));
    forall i | 0 <= i < |h.lines|
      ensures m.lines[i] == FixLine(h.lines[i])
    {
      ReplayByLine(h, LinesChanges(h.lines, invoiceId), i);
      LinesReplay(h.lines, invoiceId, i);
    }
    assert m.lines == FixLines(h.lines);
    FixLinesKeepIds(h.lines);
    NumberingReplay(m, invoiceId);
  }

  lemma FixLinesKeepIds(lines: seq<Line>)
    requires DistinctIds(lines)
    ensures DistinctIds(FixLines(lines))
  {
    hide FixLine;
    forall i, j | 0 <= i < j < |lines|
      ensures FixLines(lines)[i].id != FixLines(lines)[j].id
    {
      SameLineId(lines[i]);
      SameLineId(lines[j]);
    }
  }

  lemma NumberingReplay(m: Invoice, invoiceId: string)
    requires DistinctIds(m.lines) && m.id == invoiceId
    ensures Replay(m, NumberingChanges(m.lines, invoiceId)) == m.(lines := FixNumbering(m.lines))
  {
    hide ReplayLine, RenumberChanges, NumberingBroken, Digits, Replay;
    if NumberingBroken(m.lines) {
      RenumberTarget(m.lines, invoiceId);
      var changes := RenumberChanges(m.lines, invoiceId);
      ReplayKeepsHeader(m, changes);
      forall i | 0 <= i < |m.lines|
        ensures Replay(m, changes).lines[i] == Renumber(m.lines)[i]
      {
        ReplayByLine(m, changes, i);
        RenumberReplay(m.lines, invoiceId, i);
      }
      assert Replay(m, changes).lines == Renumber(m.lines);
    } else {
      NothingReplayed(m);
    }
  }

  lemma NothingReplayed(invoice: Invoice)
    ensures Replay(invoice, []) == invoice
  {
  }

  lemma InvoiceReplay(invoice: Invoice)
    requires DistinctIds(invoice.lines)
    ensures Replay(invoice, Changes(invoice)) == FixFields(invoice)
  {
    hide Replay, FixHeader, HeaderChanges, LinesChanges, NumberingChanges, FixNumbering;
    var h, l, n := HeaderChanges(invoice), LinesChanges(invoice.lines, invoice.id), NumberingChanges(FixLines(invoice.lines), invoice.id);
    ReplayConcat(invoice, h + l, n);
    ReplayConcat(invoice, h, l);
    HeaderReplay(invoice);
    HeaderKeepsLines(invoice);
    LinesAndNumbersReplay(FixHeader(invoice), invoice.id);
  }

  // --- A batch of invoices --------------------------------------------------

  predicate About(changes: seq<Change>, invoiceId: string) {
    forall c :: c in changes ==> c.invoiceId == invoiceId
  }

  lemma HeaderChangesAbout(invoice: Invoice)
    ensures About(HeaderChanges(invoice), invoice.id)
  {
    hide FixedCurrency, FixedTime, StrippedTrn, FixedEmirate, NeedsFx, NeedsTime, AliasOf, Trim;
  }

  lemma ChangesAbout(invoice: Invoice)
    ensures About(Changes(invoice), invoice.id)
  {
    hide HeaderChanges, LinesChanges, RenumberChanges, NumberingBroken, FixLine;
    HeaderChangesAbout(invoice);
    LinesChangesTarget(invoice.lines, invoice.id);
    RenumberTarget(FixLines(invoice.lines), invoice.id);
  }

  lemma {:induction false} ReplaySkips(invoice: Invoice, changes: seq<Change>)
    requires forall c :: c in changes ==> c.invoiceId != invoice.id
    ensures Replay(invoice, changes) == invoice
  {
    if changes != [] {
      assert changes[|changes| - 1] in changes;
      ReplaySkips(invoice, changes[..|changes| - 1]);
    }
  }

  predicate UniqueInvoiceIds(invoices: seq<Invoice>) {
    forall i, j :: 0 <= i < j < |invoices| ==> invoices[i].id != invoices[j].id
  }

  lemma {:induction false} AllChangesElsewhere(invoices: seq<Invoice>, id: string)
    requires forall i :: 0 <= i < |invoices| ==> invoices[i].id != id
    ensures forall c :: c in AllChanges(invoices) ==> c.invoiceId != id
  {
    hide Changes;
    if invoices != [] {
      AllChangesElsewhere(invoices[..|invoices| - 1], id);
      ChangesAbout(invoices[|invoices| - 1]);
    }
  }

  lemma KeepsId(invoice: Invoice)
    ensures FixFields(invoice).id == invoice.id
  {
    hide FixHeader, FixNumbering;
    HeaderKeepsLines(invoice);
  }

  /**
   * The log is complete: replaying the whole batch's changes on an original invoice, then
   * recalculating, gives exactly the invoice auto-fix returned.
   */
  lemma {:induction false} LogIsComplete(invoices: seq<Invoice>, i: nat)
    requires UniqueInvoiceIds(invoices) && i < |invoices| && DistinctIds(invoices[i].lines)
    ensures Replay(invoices[i], AllChanges(invoices)) == FixFields(invoices[i])
    ensures RecalcInvoice(Replay(invoices[i], AllChanges(invoices))) == Fix(invoices[i])
  {
    hide Changes, Replay, FixFields, RecalcInvoice;
    var front, last := invoices[..|invoices| - 1], invoices[|invoices| - 1];
    ReplayConcat(invoices[i], AllChanges(front), Changes(last));
    ChangesAbout(last);
    if i < |front| {
      LogIsComplete(front, i);
      KeepsId(invoices[i]);
      ReplaySkips(FixFields(invoices[i]), Changes(last));
    } else {
      AllChangesElsewhere(front, last.id);
      ReplaySkips(last, AllChanges(front));
      InvoiceReplay(last);
    }
  }

  // --- What is never touched ------------------------------------------------

  /** Auto-fix invents nothing: names, dates, numbers, references, quantities and prices stay as they are. */
  lemma NeverTouched(invoice: Invoice)
    ensures var z := Fix(invoice);
      && z.id == invoice.id && z.invoiceNumber == invoice.invoiceNumber && z.issueDate == invoice.issueDate
      && z.supplierName == invoice.supplierName && z.buyerName == invoice.buyerName
      && z.poReference == invoice.poReference && z.precedingInvoiceId == invoice.precedingInvoiceId
      && z.paymentMeans == invoice.paymentMeans && z.sourceRow == invoice.sourceRow
      && z.supplierTrn == Filter(invoice.supplierTrn, KeptInTrn) && z.buyerTrn == Filter(invoice.buyerTrn, KeptInTrn)
      && |z.lines| == |invoice.lines|
      && forall i :: 0 <= i < |z.lines| ==> LineKept(z.lines[i], invoice.lines[i])
  {
    hide FixedCurrency, FixedTime, FixedEmirate, NeedsFx, AliasOf, NumberingBroken, RecalcLine, NetSum, VatSum, Print, RoundTo,
      FxFactor, Times, FixLine, LineKept, Filter, Digits;
    var lines := FixNumbering(FixLines(invoice.lines));
    forall i | 0 <= i < |invoice.lines|
      ensures LineKept(RecalcLine(lines[i]), invoice.lines[i])
    {
      FixLineKeeps(invoice.lines[i], if NumberingBroken(FixLines(invoice.lines)) then Digits(i + 1) else FixLine(invoice.lines[i]).lineNumber);
    }
  }

  predicate LineKept(after: Line, before: Line) {
    && after.id == before.id && after.description == before.description && after.hsCode == before.hsCode
    && after.quantity == before.quantity && after.unitPrice == before.unitPrice && after.sourceRow == before.sourceRow
  }

  lemma FixLineKeeps(line: Line, number: string)
    ensures LineKept(RecalcLine(FixLine(line).(lineNumber := number)), line)
  {
  }
}
