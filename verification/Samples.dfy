/** Two runs the rules let through: one number on two submittable rows, and an accepted invoice no submission can insert. */
module Samples {
  import opened Text
  import opened Money
  import opened Calc
  import opened Codes
  import opened Columns
  import opened Validate
  import opened RecalcFindings
  import opened StagedPayload
  import AutoFixSafe
  import opened Patches
  import opened Staging
  import opened StagingRules
  import opened PromotionRules
  import opened PromotionResults
  import opened Filing
  import opened FilingRuns

  // --- An invoice the rules accept ------------------------------------------

  const TRN := "100000000000003"
  const DAY := "2026-01-15"

  function SampleLine(id: string, lineNumber: string): Line {
    Line(id, lineNumber, "Paper", "", "1", "PCE", "1", "", "S", "", "", "", "", None)
  }

  function SampleLines(lineNumbers: seq<string>): (r: seq<Line>)
    ensures |r| == |lineNumbers|
  {
    seq(|lineNumbers|, i requires 0 <= i < |lineNumbers| => SampleLine(Digits(i), lineNumbers[i]))
  }

  /** A simplified invoice, one line for each line number. */
  function Sample(number: string, lineNumbers: seq<string>): Invoice {
    Invoice("sample", number, "388", DAY, "09:30:00", "AED", "", TRN, "Stationers", "", "Customer", "Dubai", "", "", "10",
            SampleLines(lineNumbers), "", "", "", "", "", "", None)
  }

  /** A tenant with this number, on or after the day of the sample. */
  predicate Suits(ctx: Context) {
    (ctx.tenantTrn == "" || ctx.tenantTrn == TRN) && ctx.dayOf(DAY).Some? && ctx.dayOf(DAY).value <= ctx.today
  }

  predicate Distinct(texts: seq<string>) {
    forall i, j :: 0 <= i < j < |texts| ==> texts[i] != texts[j]
  }

  lemma SampleIds(number: string, lineNumbers: seq<string>)
    ensures UniqueLineIds(Sample(number, lineNumbers))
  {
    forall i, j | 0 <= i < j < |lineNumbers|
      ensures Digits(i) != Digits(j)
    {
      if Digits(i) == Digits(j) {
        DigitsInjective(i, j);
        assert false;
      }
    }
    hide Digits;
  }

  lemma OneIsOne()
    ensures ToDecimal("1") == Some(1.0)
  {
    assert Digits(1) == "1";
    ParseDigits(1);
  }

  lemma Literals()
    ensures Trim("388") == "388" && Trim(DAY) == DAY && Trim("09:30:00") == "09:30:00" && Trim("AED") == "AED"
    ensures Trim(TRN) == TRN && Trim("Stationers") == "Stationers" && Trim("") == "" && Trim("Customer") == "Customer"
    ensures Trim("Dubai") == "Dubai" && Trim("10") == "10" && Trim("Paper") == "Paper" && Trim("PCE") == "PCE" && Trim("S") == "S"
  {
    hide Trim;
    TrimIsTrimmed("388");
    TrimIsTrimmed(DAY);
    TrimIsTrimmed("09:30:00");
    TrimIsTrimmed("AED");
    TrimIsTrimmed(TRN);
    TrimIsTrimmed("Stationers");
    TrimIsTrimmed("");
    TrimIsTrimmed("Customer");
    TrimIsTrimmed("Dubai");
    TrimIsTrimmed("10");
    TrimIsTrimmed("Paper");
    TrimIsTrimmed("PCE");
    TrimIsTrimmed("S");
  }

  lemma SampleHeader(number: string, lineNumbers: seq<string>, ctx: Context)
    requires Suits(ctx) && lineNumbers != []
    requires NumberOk(Sample(number, lineNumbers), ctx)
    ensures HeaderOk(Sample(number, lineNumbers), ctx)
  {
    hide Trim, TrnShape, NumberOk, CurrencyOk, SupplierOk, BuyerOk, ReferencesOk, DateShape, TimeShape, SampleLines;
    Literals();
    Shapes();
    SampleParties(number, lineNumbers, ctx);
  }

  lemma Shapes()
    ensures TrnShape(TRN) && DateShape(DAY) && TimeShape("09:30:00")
  {
  }

  lemma SampleParties(number: string, lineNumbers: seq<string>, ctx: Context)
    requires Suits(ctx)
    ensures var x := Sample(number, lineNumbers);
      CurrencyOk(x) && SupplierOk(x, ctx) && BuyerOk(x) && ReferencesOk(x)
  {
    Literals();
    Shapes();
    hide Trim, TrnShape, SampleLines;
    assert ToUpper("AED") == "AED";
  }

  lemma RecalcHeader(x: Invoice, ctx: Context)
    requires HeaderOk(x, ctx)
    ensures HeaderOk(RecalcInvoice(x), ctx)
  {
    hide RecalcLine, NetSum, VatSum, Print, RoundTo, Times, FxFactor, Trim, TypeSpec, NumberFormat, DateShape, TimeShape,
      IsValidTrn, Blank, ToDecimal;
  }

  lemma SampleLineOk(line: Line)
    requires exists id, number :: line == SampleLine(id, number)
    ensures Computable(line) && LineOk(RecalcLine(line), line, false)
  {
    Literals();
    OneIsOne();
    BlankIsNoNumber();
    SameIdentity(line);
    hide Trim, RecalcLine, ToDecimal, RoundTo;
  }

  /** Under any number the rules accept and any distinct line numbers, the sample is submittable. */
  lemma SampleAccepted(number: string, lineNumbers: seq<string>, ctx: Context)
    requires Suits(ctx) && lineNumbers != [] && Distinct(lineNumbers)
    requires NumberOk(Sample(number, lineNumbers), ctx)
    ensures Submittable(Sample(number, lineNumbers), ctx)
  {
    var x := Sample(number, lineNumbers);
    var y := RecalcInvoice(x);
    SampleHeader(number, lineNumbers, ctx);
    RecalcHeader(x, ctx);
    SampleIds(number, lineNumbers);
    BlankIsNoNumber();
    SampleTotals(number, lineNumbers);
    hide RecalcInvoice, HeaderOk, NumberOk, Suits, UniqueLineIds, LineOk, SuppliedOr, Repeated, Findings, Uncomputable, TotalsAgree,
      ToDecimal, RecalcLine;
    SameShape(x);
    forall i | 0 <= i < |y.lines|
      ensures LineAccepted(y, i, x)
    {
      SuppliedOfRecalc(x, i);
      SampleLineOk(x.lines[i]);
      SampleNumberOnce(number, lineNumbers, y.lines[i].lineNumber);
    }
    hide LineAccepted;
    assert InvoiceOk(x, ctx);
  }

  lemma SampleTotals(number: string, lineNumbers: seq<string>)
    requires lineNumbers != []
    ensures var x := Sample(number, lineNumbers); var y := RecalcInvoice(x);
      Uncomputable(y.lines) == [] && TotalsAgree(y, x)
  {
    var x := Sample(number, lineNumbers);
    BlankIsNoNumber();
    assert x.lines[0] in x.lines && !AllTotalsRead(x.lines);
    hide ToDecimal, RecalcLine, NetSum, VatSum, Print, RoundTo, Times, FxFactor;
    forall l | l in RecalcInvoice(x).lines
      ensures l.lineTotal != ""
    {
      var i :| 0 <= i < |x.lines| && l == RecalcLine(x.lines[i]);
      SampleLineOk(x.lines[i]);
      RecalcLineReads(x.lines[i]);
    }
  }

  lemma SampleNumberOnce(number: string, lineNumbers: seq<string>, text: string)
    requires Distinct(lineNumbers)
    ensures !Repeated(RecalcInvoice(Sample(number, lineNumbers)).lines, text)
  {
    var lines := RecalcInvoice(Sample(number, lineNumbers)).lines;
    hide RecalcLine, NetSum, VatSum, Print, RoundTo, Times, FxFactor;
    forall i | 0 <= i < |lines|
      ensures lines[i].lineNumber == lineNumbers[i]
    {
      SameIdentity(SampleLine(Digits(i), lineNumbers[i]));
    }
    AutoFixSafe.DistinctNumbersCount(lines, text);
  }

  // --- An accepted invoice that cannot be inserted --------------------------

  predicate GoodNumber(number: string) {
    Trimmed(number) && NumberFormat(number)
  }

  lemma FreeNumber(x: Invoice, ctx: Context)
    requires GoodNumber(x.invoiceNumber) && x.invoiceNumber !in ctx.filed
    requires !(x.invoiceNumber in ctx.batch && ctx.batch[x.invoiceNumber] > 1)
    ensures NumberOk(x, ctx)
  {
    TrimIsTrimmed(x.invoiceNumber);
    hide Trim, Trimmed;
  }

  /** In an empty database, an upload of invoices with different good numbers is judged by a context that frees them all. */
  lemma UploadFrees(parsed: seq<Invoice>, ctx: Context, k: nat)
    requires k < |parsed|
    requires forall i :: 0 <= i < |parsed| ==> GoodNumber(parsed[i].invoiceNumber)
    requires forall i, j :: 0 <= i < j < |parsed| ==> parsed[i].invoiceNumber != parsed[j].invoiceNumber
    ensures NumberOk(parsed[k], ParseContext(Initial().db, parsed, ctx))
  {
    var number := parsed[k].invoiceNumber;
    CountedAtMostOnce(parsed, number);
    hide CountInvoices, GoodNumber;
    FreeNumber(parsed[k], ParseContext(Initial().db, parsed, ctx));
  }

  lemma {:induction false} CountedAtMostOnce(parsed: seq<Invoice>, number: string)
    requires forall i :: 0 <= i < |parsed| ==> GoodNumber(parsed[i].invoiceNumber)
    requires forall i, j :: 0 <= i < j < |parsed| ==> parsed[i].invoiceNumber != parsed[j].invoiceNumber
    ensures CountInvoices(parsed, number) <= 1
    ensures CountInvoices(parsed, number) == 1 ==> exists i :: 0 <= i < |parsed| && parsed[i].invoiceNumber == number
  {
    hide Trim, NumberFormat;
    if parsed != [] {
      var n := |parsed| - 1;
      CountedAtMostOnce(parsed[..n], number);
      TrimIsTrimmed(parsed[n].invoiceNumber);
      if CountInvoices(parsed[..n], number) == 1 {
        var i :| 0 <= i < n && parsed[..n][i].invoiceNumber == number;
        assert parsed[i].invoiceNumber != parsed[n].invoiceNumber;
      }
    }
  }

  /** The rows a first upload leaves. */
  lemma FirstUpload(b: BatchId, parsed: seq<Invoice>, ctx: Context)
    ensures var s := Run(Initial(), [ParseBatch(b, parsed, [], ctx)]);
      && s == Initial().(db := Parse(Initial().db, b, parsed, [], ctx))
      && b in s.db.rows && |s.db.rows[b]| == |parsed| && s.db.invoices == map[]
      && forall i :: 0 <= i < |parsed| ==> s.db.rows[b][i] == NewRow(i, parsed[i], ParseContext(Initial().db, parsed, ctx))
  {
    hide Run, Next, Parse, ParseContext, NewRow;
    UpToThree(Initial(), [ParseBatch(b, parsed, [], ctx)]);
    ParseIs(Initial(), b, parsed, ctx);
    ParsedRows(Initial().db, b, parsed, ctx);
  }

  lemma ParseIs(s: System, b: BatchId, parsed: seq<Invoice>, ctx: Context)
    ensures Next(s, ParseBatch(b, parsed, [], ctx)) == s.(db := Parse(s.db, b, parsed, [], ctx))
  {
    hide Parse;
  }

  lemma ParsedRows(db: Db, b: BatchId, parsed: seq<Invoice>, ctx: Context)
    requires b !in db.rows
    ensures var t := Parse(db, b, parsed, [], ctx);
      && b in t.rows && t.invoices == db.invoices
      && t.rows[b] == NewRows(db.nextRow, parsed, ParseContext(db, parsed, ctx))
  {
    hide NewRows, ParseContext, Logged, CountersOf;
    assert parsed + [] == parsed;
  }

  lemma OneSpelledTwice()
    ensures PositiveDigits("1") && PositiveDigits("01") && NatOf("1") == NatOf("01") == 1
  {
    assert "1"[..0] == "" && "01"[..1] == "0" && "0"[..0] == "";
  }

  lemma NumbersClash(number: string, num: string -> Option<real>)
    requires ReadsDigits(num)
    ensures !NumbersFit(RecalcInvoice(Sample(number, ["1", "01"])).lines, num)
  {
    var lines := RecalcInvoice(Sample(number, ["1", "01"])).lines;
    hide RecalcLine, NetSum, VatSum, Print, RoundTo, Times, FxFactor, NumbersFit;
    SameIdentity(SampleLine(Digits(0), "1"));
    SameIdentity(SampleLine(Digits(1), "01"));
    OneSpelledTwice();
    hide NatOf, Digits;
    assert lines[0].lineNumber == "1" && lines[1].lineNumber == "01";
    DigitNumbersFit(lines, num);
    assert !DifferentNumbers(lines);
  }

  /**
   * Accepted, and impossible to submit: the rules take line numbers "1" and "01" for different, the database
   * stores both as one, and any submission that chooses the row aborts.
   */
  lemma AcceptedButNeverInserted(b: BatchId, number: string, ctx: Context, d: Submission)
    requires Suits(ctx) && GoodNumber(number) && ReadsDigits(d.num) && d.selected.None?
    ensures var s := Run(Initial(), [ParseBatch(b, [Sample(number, ["1", "01"])], [], ctx)]);
      && b in s.db.rows && |s.db.rows[b]| == 1 && Chosen(s.db.rows[b][0], d)
      && Next(s, SubmitBatch(b, d)) == s
  {
    hide Run, Next, Sample, Suits, NumberOk, GoodNumber, ReadsDigits, Submittable, ParseContext, RecalcInvoice, NewRow, Insertable, Submit;
    var x := Sample(number, ["1", "01"]);
    var c := ParseContext(Initial().db, [x], ctx);
    SampleNumber(number, ["1", "01"]);
    FirstUpload(b, [x], ctx);
    UploadFrees([x], ctx, 0);
    SameSuits([x], ctx);
    SampleAccepted(number, ["1", "01"], c);
    NotInsertable(number, d);
    var s := Run(Initial(), [ParseBatch(b, [x], [], ctx)]);
    OnlyRow(s.db, b, x, c, d);
    SubmitIs(s, b, d);
  }

  lemma SampleNumber(number: string, lineNumbers: seq<string>)
    ensures Sample(number, lineNumbers).invoiceNumber == number
  {
    hide SampleLines;
  }

  lemma SameSuits(parsed: seq<Invoice>, ctx: Context)
    requires Suits(ctx)
    ensures Suits(ParseContext(Initial().db, parsed, ctx))
  {
  }

  lemma NotInsertable(number: string, d: Submission)
    requires ReadsDigits(d.num)
    ensures !Insertable(RecalcInvoice(RecalcInvoice(Sample(number, ["1", "01"]))), d)
  {
    hide RecalcInvoice, Sample, NumbersFit, AmountsFit, CellsFit, ReadsDigits;
    NumbersClash(number, d.num);
    RecalcTwice(number, ["1", "01"]);
  }

  lemma SubmitIs(s: System, b: BatchId, d: Submission)
    ensures Next(s, SubmitBatch(b, d)) == s.(db := Submit(s.db, b, d))
  {
    hide Submit;
  }

  lemma OnlyRow(db: Db, b: BatchId, x: Invoice, c: Context, d: Submission)
    requires b in db.rows && |db.rows[b]| == 1 && db.rows[b][0] == NewRow(0, x, c)
    requires Submittable(x, c) && d.selected.None? && !Insertable(RecalcInvoice(RecalcInvoice(x)), d)
    ensures Chosen(db.rows[b][0], d) && Submit(db, b, d) == db
  {
    hide Submittable, Findings, RecalcInvoice, Insertable, Taken;
    assert PromoteUpTo(db, b, 0, d) == Some(db);
    assert PromoteUpTo(db, b, 1, d) == PromoteRow(db, b, 0, d);
  }

  lemma RecalcTwice(number: string, lineNumbers: seq<string>)
    ensures var x := Sample(number, lineNumbers); RecalcInvoice(RecalcInvoice(x)) == RecalcInvoice(x)
  {
    hide RecalcInvoice;
    RecalcInvoiceSettles(Sample(number, lineNumbers));
  }

  // --- One number on two submittable rows -----------------------------------

  /** An edit of the invoice number alone. */
  function NumberPatch(number: string): Patch {
    Patch(HeaderPatch(Some(number), None, None, None, None, None, None, None, None, None, None, None, None, None, None,
                      None, None, None, None, None, None), [], [])
  }

  lemma Renumbered(number: string, other: string, lineNumbers: seq<string>)
    requires number != other
    ensures var before := RecalcInvoice(Sample(other, lineNumbers));
      && Patches.Changes(before, NumberPatch(number))
      && RecalcInvoice(Patched(before, NumberPatch(number))) == RecalcInvoice(Sample(number, lineNumbers))
  {
    hide RecalcLines, NetSum, VatSum, Print, RoundTo, Times, FxFactor, SampleLines;
    var before := RecalcInvoice(Sample(other, lineNumbers));
    assert Patched(before, NumberPatch(number)) == RecalcInvoice(Sample(number, lineNumbers));
    RecalcTwice(number, lineNumbers);
  }

  lemma SampleKeepsVerdict(number: string, lineNumbers: seq<string>, ctx: Context)
    requires Submittable(Sample(number, lineNumbers), ctx)
    ensures Submittable(RecalcInvoice(Sample(number, lineNumbers)), ctx)
  {
    hide Submittable, RecalcInvoice, UniqueLineIds;
    SampleIds(number, lineNumbers);
    RecalcKeepsSubmittable(Sample(number, lineNumbers), ctx);
  }

  /**
   * The duplicate rule escaped: two rows of an upload with different numbers, the second edited to the first
   * one's number and a space after it, and both are submittable.
   */
  lemma OneNumberTwice(b: BatchId, number: string, other: string, ctx: Context)
    requires Suits(ctx) && GoodNumber(number) && GoodNumber(other) && number != other
    ensures var parsed := [Sample(number, ["1"]), Sample(other, ["1"])];
      var s := Run(Initial(), [ParseBatch(b, parsed, [], ctx)]);
      var t := Next(s, EditRow(b, 1, NumberPatch(number + " "), ctx));
      && b in t.db.rows && |t.db.rows[b]| == 2
      && t.db.rows[b][0].submittable && t.db.rows[b][1].submittable
      && Trim(t.db.rows[b][0].number) == Trim(t.db.rows[b][1].number) == number
  {
    hide Run, Next, Suits, NumberOk, Submittable, ParseContext, Sample, NewRow, NumberPatch, Edit, Trim, GoodNumber;
    var parsed := [Sample(number, ["1"]), Sample(other, ["1"])];
    var c := ParseContext(Initial().db, parsed, ctx);
    SampleNumber(number, ["1"]);
    SampleNumber(other, ["1"]);
    FirstUpload(b, parsed, ctx);
    UploadFrees(parsed, ctx, 0);
    SameSuits(parsed, ctx);
    OneLineNumber();
    SampleAccepted(number, ["1"], c);
    var s := Run(Initial(), [ParseBatch(b, parsed, [], ctx)]);
    FirstRow(number, c);
    SecondRow(s.db, b, number, other, ctx, c);
    GoodTrims(number);
    EditIs(s, b, 1, NumberPatch(number + " "), ctx);
  }

  lemma OneLineNumber()
    ensures Distinct(["1"]) && Distinct(["1", "01"])
  {
  }

  lemma GoodTrims(number: string)
    requires GoodNumber(number)
    ensures Trim(number) == number && Trim(number + " ") == number
  {
    TrailingSpaceTrims(number);
    TrimIsTrimmed(number);
    hide Trim;
  }

  lemma EditIs(s: System, b: BatchId, id: RowId, p: Patch, ctx: Context)
    requires b in s.db.rows
    ensures Next(s, EditRow(b, id, p, ctx)) == s.(db := Edit(s.db, b, id, p, ctx))
  {
    hide Edit;
  }

  lemma FirstRow(number: string, c: Context)
    requires Submittable(Sample(number, ["1"]), c)
    ensures var row := NewRow(0, Sample(number, ["1"]), c); row.submittable && row.number == number
  {
    hide Submittable, Findings, RecalcInvoice, Sample;
    SampleNumber(number, ["1"]);
  }

  /** Editing the second of two rows. */
  lemma EditsSecond(db: Db, b: BatchId, p: Patch, ctx: Context)
    requires b in db.rows && |db.rows[b]| == 2 && db.rows[b][0].id == 0 && db.rows[b][1].id == 1
    requires db.rows[b][1].invoiceId.None? && Patches.Changes(db.rows[b][1].payload, p)
    ensures var y := RecalcInvoice(Patched(db.rows[b][1].payload, p));
      var t := Edit(db, b, 1, p, ctx);
      b in t.rows && t.rows[b] == [db.rows[b][0], Judged(db.rows[b][1], y, EditContext(db, b, 1, y, ctx))]
  {
    hide Patched, Patches.Changes, RecalcInvoice, Judged, EditContext, CountersOf;
    assert Position(db.rows[b], 1) == 1;
  }

  lemma CountOthers(rows: seq<Row>, number: string)
    requires |rows| == 2 && rows[0].id == 0 && rows[1].id == 1
    ensures CountColumn(Without(rows, 1), number) <= 1
  {
    assert rows[..1][..0] == [];
    assert Without(rows, 1) == Without(rows[..1], 1) == [rows[0]];
    assert [rows[0]][..0] == [];
  }

  lemma SpacedIsFree(db: Db, b: BatchId, number: string, ctx: Context, y: Invoice)
    requires GoodNumber(number) && y.invoiceNumber == number + " "
    requires b in db.rows && |db.rows[b]| == 2 && db.rows[b][0].id == 0 && db.rows[b][1].id == 1
    ensures NumberOk(y, EditContext(db, b, 1, y, ctx))
  {
    TrailingSpaceTrims(number);
    CountOthers(db.rows[b], number);
    EditedNumberRule(db, b, 1, y, ctx);
    assert !Trimmed(y.invoiceNumber) by { assert IsSpace(y.invoiceNumber[|number|]); }
    hide Trim, NumberOk, NumberFormat, EditContext, CountColumn, Without, Live, Trimmed;
  }

  lemma SecondRow(db: Db, b: BatchId, number: string, other: string, ctx: Context, c: Context)
    requires Suits(ctx) && GoodNumber(number) && GoodNumber(other) && number != other
    requires b in db.rows && |db.rows[b]| == 2
    requires db.rows[b][0] == NewRow(0, Sample(number, ["1"]), c) && db.rows[b][1] == NewRow(1, Sample(other, ["1"]), c)
    ensures var rows := Edit(db, b, 1, NumberPatch(number + " "), ctx).rows;
      && b in rows && |rows[b]| == 2 && rows[b][0] == db.rows[b][0]
      && rows[b][1].submittable && rows[b][1].number == number + " "
  {
    hide NewRow, RecalcInvoice, Sample, Patched, Patches.Changes, NumberPatch, EditContext, Edit, Suits, NumberOk, Submittable, Judged, Trimmed,
      NumberFormat;
    var spaced := number + " ";
    var y := RecalcInvoice(Sample(spaced, ["1"]));
    NewRowIs(0, Sample(number, ["1"]), c);
    NewRowIs(1, Sample(other, ["1"]), c);
    SampleShape(spaced);
    SampleRow(other, c);
    SpacedDiffers(number, other);
    Renumbered(spaced, other, ["1"]);
    EditsSecond(db, b, NumberPatch(spaced), ctx);
    var ec := EditContext(db, b, 1, y, ctx);
    SpacedIsFree(db, b, number, ctx, y);
    EditContextIs(db, b, 1, y, ctx);
    SpacedAccepted(spaced, y, ec, ctx);
    JudgedIs(db.rows[b][1], y, ec);
  }

  lemma SpacedDiffers(number: string, other: string)
    requires Trimmed(other)
    ensures number + " " != other
  {
    assert IsSpace((number + " ")[|number|]);
  }

  lemma EditContextIs(db: Db, b: BatchId, id: RowId, x: Invoice, ctx: Context)
    ensures var ec := EditContext(db, b, id, x, ctx); ec == ctx.(filed := ec.filed, batch := ec.batch)
  {
    hide FiledNumbers, NumbersOf, CountsWithOwn;
  }

  lemma SampleShape(number: string)
    ensures RecalcInvoice(Sample(number, ["1"])).invoiceNumber == number
  {
    hide RecalcInvoice;
    SameShape(Sample(number, ["1"]));
  }

  lemma SampleRow(number: string, c: Context)
    ensures NewRow(1, Sample(number, ["1"]), c).payload == RecalcInvoice(Sample(number, ["1"]))
  {
    hide Submittable, Findings, RecalcInvoice, Sample;
  }

  lemma JudgedIs(row: Row, x: Invoice, ctx: Context)
    ensures Judged(row, x, ctx).submittable == Submittable(x, ctx) && Judged(row, x, ctx).number == x.invoiceNumber
  {
    hide Submittable, Findings;
  }

  lemma SpacedAccepted(spaced: string, y: Invoice, ec: Context, ctx: Context)
    requires Suits(ctx) && ec == ctx.(filed := ec.filed, batch := ec.batch)
    requires y == RecalcInvoice(Sample(spaced, ["1"])) && y.invoiceNumber == spaced && NumberOk(y, ec)
    ensures Submittable(y, ec)
  {
    hide RecalcInvoice, Submittable, SampleLines;
    assert NumberOk(Sample(spaced, ["1"]), ec) by { hide Trim, NumberFormat; }
    assert Suits(ec);
    SampleAccepted(spaced, ["1"], ec);
    SampleKeepsVerdict(spaced, ["1"], ec);
  }
}
