/** What recalculating a staged payload once more can change: nothing the rules accepted, but the spelling of a rate. */
module StagedPayload {
  import opened Text
  import opened Money
  import opened Calc
  import opened Validate
  import opened RecalcFindings

  /** Equal in every field but the text of line rates. */
  predicate Agrees(a: Invoice, b: Invoice) {
    && |a.lines| == |b.lines|
    && (forall i :: 0 <= i < |a.lines| ==> LineAgrees(a.lines[i], b.lines[i]))
    && a.(lines := b.lines) == b
  }

  predicate LineAgrees(a: Line, b: Line) {
    a.(vatRate := b.vatRate) == b
  }

  // --- Twice is enough ------------------------------------------------------

  /** A recalculated line carries a rate of two decimals, so recalculation settles on it. */
  lemma RecalculatedIsStable(line: Line)
    ensures StableLine(RecalcLine(line))
  {
    if Computable(line) {
      ParsePrint(LineRate(line), 2);
      RoundingSettles(LineRate(line), 2);
      hide ToFixed, RoundTo, ToDecimal, LineNet, VatOn, Print, LineRate;
    } else {
      hide ToDecimal;
    }
  }

  /** For every invoice: after two recalculations a third changes nothing. */
  lemma TwiceIsEnough(x: Invoice)
    ensures StableInvoice(RecalcInvoice(x))
    ensures RecalcInvoice(RecalcInvoice(RecalcInvoice(x))) == RecalcInvoice(RecalcInvoice(x))
  {
    hide RecalcLine, StableLine, NetSum, VatSum, Print, RoundTo, FxFactor, Times;
    var y := RecalcInvoice(x);
    forall l | l in y.lines
      ensures StableLine(l)
    {
      var i :| 0 <= i < |x.lines| && l == RecalcLine(x.lines[i]);
      RecalculatedIsStable(x.lines[i]);
    }
    hide *;
    StableMeans(y);
    RecalcInvoiceSettles(y);
  }

  lemma StableMeans(y: Invoice)
    requires forall l :: l in y.lines ==> StableLine(l)
    ensures StableInvoice(y)
  {
    hide StableLine;
  }

  // --- Accepted against itself ----------------------------------------------

  /** Two amounts printed with two decimals that agree to two decimals are the same text. */
  lemma SamePrint(a: real, b: real)
    requires Cents(a) && Cents(b) && CellOk(Print(a), Print(b))
    ensures a == b
  {
    PrintReads(a);
    PrintReads(b);
    hide Print, ToDecimal, Amount;
  }

  lemma AcceptedVat(line: Line)
    requires Computable(line)
    requires var r := RecalcLine(line); CellOk(r.vatAmount, RecalcLine(r).vatAmount)
    ensures var r := RecalcLine(line);
      && Computable(r) && LineNet(r) == LineNet(line)
      && VatOn(LineNet(r), LineRate(r)) == VatOn(LineNet(line), LineRate(line))
  {
    var r := RecalcLine(line);
    SameComputation(r, line);
    VatCents(LineNet(line), LineRate(line));
    VatCents(LineNet(r), LineRate(r));
    VatTexts(line);
    VatTexts(r);
    hide *;
    SamePrint(VatOn(LineNet(line), LineRate(line)), VatOn(LineNet(r), LineRate(r)));
  }

  lemma VatTexts(line: Line)
    requires Computable(line)
    ensures RecalcLine(line).vatAmount == Print(VatOn(LineNet(line), LineRate(line)))
  {
    hide Print, VatOn, LineNet, LineRate, ToFixed, Computable;
  }

  /** A recalculated line the rules accept keeps its amounts when recalculated again. */
  lemma AcceptedLineAgrees(line: Line, repeated: bool)
    requires LineOk(RecalcLine(RecalcLine(line)), RecalcLine(line), repeated)
    ensures LineAgrees(RecalcLine(RecalcLine(line)), RecalcLine(line))
  {
    var r := RecalcLine(line);
    if Computable(line) {
      SameComputation(r, line);
      hide *;
      ComputedShows(r);
      AcceptedCells(r, repeated);
      AcceptedVat(line);
      ComputedAgrees(line);
    } else {
      NothingComputed(line);
      hide *;
    }
  }

  lemma AcceptedCells(r: Line, repeated: bool)
    requires LineOk(RecalcLine(r), r, repeated) && RecalcLine(r).netAmount != ""
    ensures CellOk(r.vatAmount, RecalcLine(r).vatAmount)
  {
    hide RecalcLine, CellOk, BasicsOk, CategoryOk, DiscountOk;
  }

  lemma ComputedAgrees(line: Line)
    requires Computable(line)
    requires var r := RecalcLine(line);
      && Computable(r) && LineNet(r) == LineNet(line)
      && VatOn(LineNet(r), LineRate(r)) == VatOn(LineNet(line), LineRate(line))
    ensures LineAgrees(RecalcLine(RecalcLine(line)), RecalcLine(line))
  {
    hide Print, VatOn, LineNet, LineRate, ToFixed, Computable;
  }

  lemma NothingComputed(line: Line)
    requires !Computable(line)
    ensures LineAgrees(RecalcLine(RecalcLine(line)), RecalcLine(line))
  {
    SameComputation(RecalcLine(line), line);
    hide Computable;
  }

  lemma {:induction false} SameSums(a: seq<Line>, b: seq<Line>)
    requires |a| == |b| && forall i :: 0 <= i < |a| ==> LineAgrees(a[i], b[i])
    ensures NetSum(a) == NetSum(b) && VatSum(a) == VatSum(b)
  {
    hide Amount;
    if a != [] {
      SameSums(a[..|a| - 1], b[..|b| - 1]);
    }
  }

  lemma SameHeader(x: Invoice)
    requires var y := RecalcInvoice(x); var z := RecalcInvoice(y);
      |z.lines| == |y.lines| && forall i :: 0 <= i < |z.lines| ==> LineAgrees(z.lines[i], y.lines[i])
    ensures Agrees(RecalcInvoice(RecalcInvoice(x)), RecalcInvoice(x))
  {
    hide RecalcLine, LineAgrees, NetSum, VatSum, Print, RoundTo, FxFactor, Times;
    var y := RecalcInvoice(x);
    SameSums(RecalcInvoice(y).lines, y.lines);
  }

  /** A recalculated invoice the rules accept shows the amounts every later recalculation will show. */
  lemma JudgedAgrees(x: Invoice, ctx: Context)
    requires UniqueLineIds(x) && Submittable(RecalcInvoice(x), ctx)
    ensures Agrees(RecalcInvoice(RecalcInvoice(x)), RecalcInvoice(x))
  {
    hide RecalcInvoice, RecalcLine, LineOk, Repeated, UniqueLineIds, Findings, Submittable, Agrees, StableLine;
    var y := RecalcInvoice(x);
    var z := RecalcInvoice(y);
    SameShape(x);
    SameShape(y);
    SameIds(x);
    SubmittableIsStable(y, ctx);
    forall i | 0 <= i < |z.lines|
      ensures LineAgrees(z.lines[i], y.lines[i])
    {
      assert AcceptedAt(y, i);
      SuppliedOfRecalc(x, i);
      SuppliedOfRecalc(y, i);
      AcceptedLineAgrees(x.lines[i], Repeated(z.lines, z.lines[i].lineNumber));
    }
    SameHeader(x);
  }

  /** An accepted upload, stored recalculated, is stored as every later recalculation leaves it. */
  lemma UploadSettles(x: Invoice, ctx: Context)
    requires UniqueLineIds(x) && Submittable(x, ctx)
    ensures RecalcInvoice(RecalcInvoice(x)) == RecalcInvoice(x)
  {
    hide RecalcInvoice, Submittable, AcceptedAt, StableInvoice;
    SubmittableIsStable(x, ctx);
    RecalcInvoiceSettles(x);
  }

  lemma SelfAgrees(x: Invoice)
    ensures Agrees(x, x)
  {
  }
}
