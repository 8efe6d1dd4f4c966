/** What an inline edit leaves of an invoice, and what each staging step leaves of the tables. */
module StagingSteps {
  import opened Text
  import opened Calc
  import opened Codes
  import opened Validate
  import AutoFix
  import opened RecalcFindings
  import opened Patches
  import opened Staging
  import opened StagingRules
  import opened PromotionRules
  import opened PromotionResults
  import opened TableRules

  // --- Inline edits ---------------------------------------------------------

  /** A field after an edit: what the edit gives, or what was there. */
  predicate Takes<T(==)>(given: Option<T>, before: T, after: T) {
    after == if given.Some? then given.value else before
  }

  predicate HeaderEdited(x: Invoice, p: HeaderPatch, y: Invoice) {
    && y.id == x.id
    && Takes(p.invoiceNumber, x.invoiceNumber, y.invoiceNumber)
    && Takes(p.invoiceType, x.invoiceType, y.invoiceType)
    && Takes(p.issueDate, x.issueDate, y.issueDate)
    && Takes(p.issueTime, x.issueTime, y.issueTime)
    && Takes(p.currency, x.currency, y.currency)
    && Takes(p.fxRate, x.fxRate, y.fxRate)
    && Takes(p.supplierTrn, x.supplierTrn, y.supplierTrn)
    && Takes(p.supplierName, x.supplierName, y.supplierName)
    && Takes(p.buyerTrn, x.buyerTrn, y.buyerTrn)
    && Takes(p.buyerName, x.buyerName, y.buyerName)
    && Takes(p.buyerEmirate, x.buyerEmirate, y.buyerEmirate)
    && Takes(p.poReference, x.poReference, y.poReference)
    && Takes(p.precedingInvoiceId, x.precedingInvoiceId, y.precedingInvoiceId)
    && Takes(p.paymentMeans, x.paymentMeans, y.paymentMeans)
    && Takes(p.lineExtensionAmount, x.lineExtensionAmount, y.lineExtensionAmount)
    && Takes(p.taxExclusiveAmount, x.taxExclusiveAmount, y.taxExclusiveAmount)
    && Takes(p.vatTotalAmount, x.vatTotalAmount, y.vatTotalAmount)
    && Takes(p.taxInclusiveAmount, x.taxInclusiveAmount, y.taxInclusiveAmount)
    && Takes(p.payableAmount, x.payableAmount, y.payableAmount)
    && Takes(p.payableAmountAed, x.payableAmountAed, y.payableAmountAed)
    && Takes(p.sourceRow, x.sourceRow, y.sourceRow)
  }

  predicate LineEdited(l: Line, p: LinePatch, m: Line) {
    && m.id == l.id
    && Takes(p.lineNumber, l.lineNumber, m.lineNumber)
    && Takes(p.description, l.description, m.description)
    && Takes(p.hsCode, l.hsCode, m.hsCode)
    && Takes(p.quantity, l.quantity, m.quantity)
    && Takes(p.uom, l.uom, m.uom)
    && Takes(p.unitPrice, l.unitPrice, m.unitPrice)
    && Takes(p.lineDiscount, l.lineDiscount, m.lineDiscount)
    && Takes(p.vatCategory, l.vatCategory, m.vatCategory)
    && Takes(p.vatRate, l.vatRate, m.vatRate)
    && Takes(p.netAmount, l.netAmount, m.netAmount)
    && Takes(p.vatAmount, l.vatAmount, m.vatAmount)
    && Takes(p.lineTotal, l.lineTotal, m.lineTotal)
    && Takes(p.sourceRow, l.sourceRow, m.sourceRow)
  }

  lemma HeaderMerged(x: Invoice, p: HeaderPatch)
    ensures HeaderEdited(x, p, MergeHeader(x, p)) && MergeHeader(x, p).lines == x.lines
  {
  }

  lemma LineMerged(l: Line, p: LinePatch)
    ensures LineEdited(l, p, MergeLine(l, p))
  {
  }

  /** The edit listed for a line; an object has at most one under each id. */
  function EditFor(edits: seq<LineEdit>, id: string): Option<LineEdit> {
    if edits == [] then None
    else if edits[|edits| - 1].id == id then Some(edits[|edits| - 1])
    else EditFor(edits[..|edits| - 1], id)
  }

  predicate OneEach(edits: seq<LineEdit>) {
    forall i, j :: 0 <= i < j < |edits| ==> edits[i].id != edits[j].id
  }

  /** What is left of one line: nothing when it is removed, itself when it is not listed. */
  predicate LineAfter(l: Line, edits: seq<LineEdit>, left: seq<Line>) {
    match EditFor(edits, l.id)
    case None => left == [l]
    case Some(e) => if e.patch.None? then left == [] else |left| == 1 && LineEdited(l, e.patch.value, left[0])
  }

  /** The lines after the edits are what is left of each, in their order. */
  ghost predicate LinesAfter(lines: seq<Line>, edits: seq<LineEdit>, after: seq<Line>) {
    if lines == [] then after == []
    else
      exists left ::
        && LineAfter(lines[|lines| - 1], edits, left) && |left| <= |after|
        && LinesAfter(lines[..|lines| - 1], edits, after[..|after| - |left|]) && after[|after| - |left|..] == left
  }

  function Left(l: Line, edits: seq<LineEdit>): seq<Line> {
    match EditFor(edits, l.id)
    case None => [l]
    case Some(e) => if e.patch.None? then [] else [MergeLine(l, e.patch.value)]
  }

  function AllLeft(lines: seq<Line>, edits: seq<LineEdit>): seq<Line> {
    if lines == [] then [] else AllLeft(lines[..|lines| - 1], edits) + Left(lines[|lines| - 1], edits)
  }

  lemma {:induction false} LeftIsAfter(lines: seq<Line>, edits: seq<LineEdit>)
    ensures LinesAfter(lines, edits, AllLeft(lines, edits))
  {
    if lines != [] {
      var n := |lines| - 1;
      var left, after := Left(lines[n], edits), AllLeft(lines, edits);
      LeftIsAfter(lines[..n], edits);
      assert LineAfter(lines[n], edits, left) by {
        if EditFor(edits, lines[n].id).Some? && EditFor(edits, lines[n].id).value.patch.Some? {
          LineMerged(lines[n], EditFor(edits, lines[n].id).value.patch.value);
        }
        hide MergeLine, LineEdited;
      }
      hide LineAfter, Left;
      assert after[..|after| - |left|] == AllLeft(lines[..n], edits) && after[|after| - |left|..] == left;
    }
  }

  lemma {:induction false} IndexInFront(lines: seq<Line>, id: string)
    requires lines != []
    ensures IndexOf(lines, id)
      == if IndexOf(lines[..|lines| - 1], id) < |lines| - 1 then IndexOf(lines[..|lines| - 1], id)
         else if lines[|lines| - 1].id == id then |lines| - 1 else |lines|
  {
    var front := lines[..|lines| - 1];
    if front == [] {
      assert lines[1..] == [];
    } else {
      assert lines[1..][..|lines| - 2] == front[1..];
      IndexInFront(lines[1..], id);
    }
  }

  lemma {:induction false} OneEdit(lines: seq<Line>, e: LineEdit)
    requires DistinctIds(lines)
    ensures EditLine(lines, e) == AllLeft(lines, [e])
  {
    if lines == [] {
    } else {
      var n := |lines| - 1;
      OneEdit(lines[..n], e);
      EditLast(lines, e);
      LeftOfOne(lines[n], e);
      hide Left, EditFor, EditLine, MergeLine;
      assert AllLeft(lines, [e]) == AllLeft(lines[..n], [e]) + Left(lines[n], [e]);
    }
  }

  lemma EditLast(lines: seq<Line>, e: LineEdit)
    requires DistinctIds(lines) && lines != []
    ensures var n := |lines| - 1;
      EditLine(lines, e) == EditLine(lines[..n], e)
        + (if lines[n].id != e.id then [lines[n]] else if e.patch.None? then [] else [MergeLine(lines[n], e.patch.value)])
  {
    var n := |lines| - 1;
    IndexInFront(lines, e.id);
    var i := IndexOf(lines, e.id);
    hide MergeLine, IndexOf;
    if i < n {
      assert lines[i].id != lines[n].id;
      assert lines[..n][..i] + lines[..n][i + 1..] + [lines[n]] == lines[..i] + lines[i + 1..];
    } else if i == n {
      assert lines[..n] + [] == lines[..i] + lines[i + 1..];
    } else {
      assert lines[..n] + [lines[n]] == lines;
    }
  }

  lemma LeftOfOne(l: Line, e: LineEdit)
    ensures Left(l, [e]) == if l.id != e.id then [l] else if e.patch.None? then [] else [MergeLine(l, e.patch.value)]
  {
    assert [e][..0] == [] && EditFor([], l.id) == None;
    hide MergeLine;
  }

  lemma {:induction false} LeftOfLeft(lines: seq<Line>, front: seq<LineEdit>, e: LineEdit)
    requires OneEach(front + [e])
    ensures AllLeft(AllLeft(lines, front), [e]) == AllLeft(lines, front + [e])
  {
    if lines != [] {
      var n := |lines| - 1;
      LeftOfLeft(lines[..n], front, e);
      LeftConcat(AllLeft(lines[..n], front), Left(lines[n], front), [e]);
      LeftTwice(lines[n], front, e);
      hide Left;
    }
  }

  lemma {:induction false} LeftConcat(a: seq<Line>, b: seq<Line>, edits: seq<LineEdit>)
    ensures AllLeft(a + b, edits) == AllLeft(a, edits) + AllLeft(b, edits)
  {
    hide Left;
    if b == [] {
      assert a + b == a;
    } else {
      assert (a + b)[..|a + b| - 1] == a + b[..|b| - 1];
      LeftConcat(a, b[..|b| - 1], edits);
    }
  }

  lemma LeftTwice(l: Line, front: seq<LineEdit>, e: LineEdit)
    requires OneEach(front + [e])
    ensures AllLeft(Left(l, front), [e]) == Left(l, front + [e])
  {
    var edits, before := front + [e], Left(l, front);
    assert edits[..|edits| - 1] == front;
    if e.id == l.id {
      NotListed(front, e.id, e);
    }
    hide MergeLine;
    if |before| == 1 {
      assert before[..0] == [];
      LeftOfOne(before[0], e);
      MergeKeepsId(l, front);
    }
  }

  lemma MergeKeepsId(l: Line, edits: seq<LineEdit>)
    ensures |Left(l, edits)| == 1 ==> Left(l, edits)[0].id == l.id
  {
  }

  lemma {:induction false} NotListed(front: seq<LineEdit>, id: string, e: LineEdit)
    requires OneEach(front + [e]) && e.id == id
    ensures EditFor(front, id) == None
  {
    if front != [] {
      var n := |front| - 1;
      assert (front + [e])[n].id != (front + [e])[n + 1].id;
      Shorter(front, e);
      NotListed(front[..n], id, e);
    }
  }

  lemma Shorter(front: seq<LineEdit>, e: LineEdit)
    requires front != [] && OneEach(front + [e])
    ensures OneEach(front[..|front| - 1] + [e])
  {
    var n, all, fewer := |front| - 1, front + [e], front[..|front| - 1] + [e];
    forall i, j | 0 <= i < j < |fewer|
      ensures fewer[i].id != fewer[j].id
    {
      assert fewer[i] == all[i] && fewer[j] == all[if j == n then n + 1 else j];
    }
  }

  lemma {:induction false} EditsLeave(lines: seq<Line>, edits: seq<LineEdit>)
    requires DistinctIds(lines) && OneEach(edits)
    ensures EditLines(lines, edits) == AllLeft(lines, edits)
  {
    if edits == [] {
      NothingListed(lines);
    } else {
      var front, last := edits[..|edits| - 1], edits[|edits| - 1];
      EditsLeave(lines, front);
      EditLinesKeepDistinct(lines, front);
      OneEdit(EditLines(lines, front), last);
      assert edits == front + [last];
      LeftOfLeft(lines, front, last);
      hide EditLine, AllLeft;
    }
  }

  lemma {:induction false} NothingListed(lines: seq<Line>)
    ensures AllLeft(lines, []) == lines
  {
    if lines != [] {
      NothingListed(lines[..|lines| - 1]);
    }
  }

  /** A line added by an edit: the template's defaults where the edit gives nothing, the next number, no source row. */
  predicate LineAdded(n: NewLine, place: nat, m: Line) {
    && m.id == n.id && m.sourceRow == None
    && Takes(n.patch.lineNumber, Digits(place), m.lineNumber) && Takes(n.patch.description, "", m.description)
    && Takes(n.patch.hsCode, "", m.hsCode) && Takes(n.patch.quantity, "", m.quantity) && Takes(n.patch.uom, "PCE", m.uom)
    && Takes(n.patch.unitPrice, "", m.unitPrice) && Takes(n.patch.lineDiscount, "0.00", m.lineDiscount)
    && Takes(n.patch.vatCategory, "S", m.vatCategory) && Takes(n.patch.vatRate, "5.00", m.vatRate)
    && Takes(n.patch.netAmount, "", m.netAmount) && Takes(n.patch.vatAmount, "", m.vatAmount)
    && Takes(n.patch.lineTotal, "", m.lineTotal)
  }

  lemma {:induction false} LinesAppended(lines: seq<Line>, added: seq<NewLine>)
    ensures var after := AddLines(lines, added);
      && |after| == |lines| + |added| && after[..|lines|] == lines
      && forall i :: 0 <= i < |added| ==> LineAdded(added[i], |lines| + i + 1, after[|lines| + i])
  {
    hide LineAdded, Added;
    if added == [] {
      assert lines[..|lines|] == lines;
    } else {
      var n := |added| - 1;
      LinesAppended(lines, added[..n]);
      AddedIs(AddLines(lines, added[..n]), added[n]);
    }
  }

  lemma AddedIs(lines: seq<Line>, n: NewLine)
    ensures LineAdded(n, |lines| + 1, Added(lines, n))
  {
    hide Digits;
  }

  /**
   * An invoice after an edit: every header field as given or as it was; of every line, in order, nothing if it is
   * removed, its cells as given or as they were if it is edited, and itself otherwise; then the added lines.
   */
  ghost predicate EditShown(x: Invoice, p: Patch, y: Invoice) {
    && HeaderEdited(x, p.header, y)
    && |p.added| <= |y.lines|
    && LinesAfter(x.lines, p.lines, y.lines[..|y.lines| - |p.added|])
    && LinesNew(p.added, |y.lines| - |p.added|, y.lines)
  }

  predicate LinesNew(added: seq<NewLine>, kept: nat, lines: seq<Line>)
    requires kept + |added| == |lines|
  {
    forall i :: 0 <= i < |added| ==> LineAdded(added[i], kept + i + 1, lines[kept + i])
  }

  /** What an edit leaves of an invoice. */
  lemma EditLeaves(x: Invoice, p: Patch)
    requires DistinctIds(x.lines) && OneEach(p.lines)
    ensures EditShown(x, p, Patched(x, p))
  {
    hide *;
    HeaderMerged(x, p.header);
    EditsLeave(x.lines, p.lines);
    LeftIsAfter(x.lines, p.lines);
    LinesAppended(AllLeft(x.lines, p.lines), p.added);
    PatchedIs(x, p);
    Shown(x, p, MergeHeader(x, p.header), AllLeft(x.lines, p.lines), AddLines(AllLeft(x.lines, p.lines), p.added));
  }

  lemma PatchedIs(x: Invoice, p: Patch)
    ensures Patched(x, p) == MergeHeader(x, p.header).(lines := AddLines(EditLines(x.lines, p.lines), p.added))
  {
    hide MergeHeader, AddLines, EditLines;
  }

  lemma Shown(x: Invoice, p: Patch, y: Invoice, left: seq<Line>, after: seq<Line>)
    requires HeaderEdited(x, p.header, y) && LinesAfter(x.lines, p.lines, left)
    requires |after| == |left| + |p.added| && after[..|left|] == left
    requires forall i :: 0 <= i < |p.added| ==> LineAdded(p.added[i], |left| + i + 1, after[|left| + i])
    ensures EditShown(x, p, y.(lines := after))
  {
    hide HeaderEdited, LinesAfter, LineAdded, LinesNew;
    SameHeader(x, p.header, y, after);
    NewLinesAre(p.added, |left|, after);
    var z := y.(lines := after);
    assert |z.lines| - |p.added| == |left| && z.lines[..|left|] == left;
  }

  lemma NewLinesAre(added: seq<NewLine>, kept: nat, lines: seq<Line>)
    requires kept + |added| == |lines| && forall i :: 0 <= i < |added| ==> LineAdded(added[i], kept + i + 1, lines[kept + i])
    ensures LinesNew(added, kept, lines)
  {
    hide LineAdded;
  }

  lemma SameHeader(x: Invoice, p: HeaderPatch, y: Invoice, lines: seq<Line>)
    requires HeaderEdited(x, p, y)
    ensures HeaderEdited(x, p, y.(lines := lines))
  {
    hide Takes;
  }

  // --- Counters -------------------------------------------------------------

  function Places(rows: seq<Row>, which: Row -> bool): set<int> {
    set i | 0 <= i < |rows| && which(rows[i])
  }

  function Accepted(row: Row): bool {
    row.submittable
  }

  function Linkless(row: Row): bool {
    row.invoiceId.None?
  }

  /** Counters say how many rows there are, how many are submittable, how many hold an invoice, and what that makes the batch. */
  predicate Counts(c: Counters, rows: seq<Row>) {
    && c.total == |rows|
    && c.valid == |Places(rows, Accepted)| && c.invalid == |rows| - c.valid
    && c.submitted == |rows| - |Places(rows, Linkless)|
    && c.status ==
       (if c.submitted > 0 then (if c.submitted == |rows| then Completed else Processing)
        else if c.valid == |rows| then BatchValidated else StagedWithErrors)
  }

  lemma PlacesStep(rows: seq<Row>, which: Row -> bool)
    requires rows != []
    ensures |Places(rows, which)| == |Places(rows[..|rows| - 1], which)| + if which(rows[|rows| - 1]) then 1 else 0
  {
    var n := |rows| - 1;
    var before, after := Places(rows[..n], which), Places(rows, which);
    forall i
      ensures i in after <==> i in before || (i == n && which(rows[n]))
    {
      assert 0 <= i < n ==> rows[..n][i] == rows[i];
    }
    assert n !in before;
    hide Places;
    if which(rows[n]) {
      assert after == before + {n};
    } else {
      assert after == before;
    }
  }

  lemma {:induction false} CountsAre(rows: seq<Row>)
    ensures CountValid(rows) == |Places(rows, Accepted)| && CountPromoted(rows) == |rows| - |Places(rows, Linkless)|
  {
    if rows != [] {
      CountsAre(rows[..|rows| - 1]);
      PlacesStep(rows, Accepted);
      PlacesStep(rows, Linkless);
      hide Places;
    }
  }

  /** The counters every staging step leaves for its batch. */
  lemma CountersCount(rows: seq<Row>)
    ensures Counts(CountersOf(rows), rows)
  {
    CountsAre(rows);
    hide CountValid, CountPromoted, Places;
  }

  // --- The number rules -----------------------------------------------------

  /** Two of the texts are this number. */
  predicate Twice(texts: seq<string>, n: string) {
    exists i, j :: 0 <= i < j < |texts| && texts[i] == n && texts[j] == n
  }

  predicate Once(texts: seq<string>, n: string) {
    exists i :: 0 <= i < |texts| && texts[i] == n
  }

  lemma TwiceStep(texts: seq<string>, last: string, n: string)
    ensures Twice(texts + [last], n) <==> Twice(texts, n) || (last == n && Once(texts, n))
    ensures Once(texts + [last], n) <==> Once(texts, n) || last == n
  {
    var all := texts + [last];
    if Once(texts, n) {
      var i :| 0 <= i < |texts| && texts[i] == n;
      assert all[i] == n;
      assert all[|texts|] == last;
    }
    if Twice(texts, n) {
      var i, j :| 0 <= i < j < |texts| && texts[i] == n && texts[j] == n;
      assert all[i] == n && all[j] == n;
    }
    assert last == n ==> all[|texts|] == n;
  }

  function Spellings(rows: seq<Row>): (r: seq<string>)
    ensures |r| == |rows| && forall i :: 0 <= i < |r| ==> r[i] == rows[i].number
  {
    seq(|rows|, i requires 0 <= i < |rows| => rows[i].number)
  }

  function TrimmedNumbers(parsed: seq<Invoice>): (r: seq<string>)
    ensures |r| == |parsed| && forall i :: 0 <= i < |r| ==> r[i] == Trim(parsed[i].invoiceNumber)
  {
    seq(|parsed|, i requires 0 <= i < |parsed| => Trim(parsed[i].invoiceNumber))
  }

  lemma {:induction false} ColumnTexts(rows: seq<Row>, n: string)
    ensures CountColumn(rows, n) > 1 <==> Twice(Spellings(rows), n)
    ensures CountColumn(rows, n) > 0 <==> Once(Spellings(rows), n)
  {
    if rows != [] {
      var k := |rows| - 1;
      ColumnTexts(rows[..k], n);
      assert Spellings(rows) == Spellings(rows[..k]) + [rows[k].number];
      TwiceStep(Spellings(rows[..k]), rows[k].number, n);
      hide Twice, Once;
    }
  }

  lemma {:induction false} UploadTexts(parsed: seq<Invoice>, n: string)
    ensures CountInvoices(parsed, n) > 1 <==> Twice(TrimmedNumbers(parsed), n)
    ensures CountInvoices(parsed, n) > 0 <==> Once(TrimmedNumbers(parsed), n)
  {
    hide Trim;
    if parsed != [] {
      var k := |parsed| - 1;
      UploadTexts(parsed[..k], n);
      assert TrimmedNumbers(parsed) == TrimmedNumbers(parsed[..k]) + [Trim(parsed[k].invoiceNumber)];
      TwiceStep(TrimmedNumbers(parsed[..k]), Trim(parsed[k].invoiceNumber), n);
      hide Twice, Once;
    }
  }

  /** One of the invoices spells its number exactly so. */
  predicate Spelled(invoices: seq<Invoice>, n: string) {
    exists x :: x in invoices && x.invoiceNumber == n
  }

  lemma LiveAndAskedFor<A>(invoices: map<InvoiceId, Filed<A>>, asked: seq<Invoice>, n: string)
    requires n != ""
    ensures n in FiledNumbers(invoices, NumbersOf(asked)) <==> Live(invoices, n) && Spelled(asked, n)
  {
  }

  /**
   * The number rule of an upload: the trimmed number has the format, no two invoices of the upload share it, and
   * no live invoice holds it. The last is asked only if some invoice of the upload spells it without stray spaces.
   */
  lemma UploadNumberRule<A>(s: Store<A>, parsed: seq<Invoice>, x: Invoice, ctx: Context)
    ensures var n := Trim(x.invoiceNumber);
      NumberOk(x, ParseContext(s, parsed, ctx)) <==>
        NumberFormat(n) && !Twice(TrimmedNumbers(parsed), n) && !(Live(s.invoices, n) && Spelled(parsed, n))
  {
    var n := Trim(x.invoiceNumber);
    UploadTexts(parsed, n);
    BlankHasNoFormat();
    if n != "" {
      LiveAndAskedFor(s.invoices, parsed, n);
      UploadCountIs(parsed, n);
    }
    hide Trim, NumberFormat, Twice, TrimmedNumbers, Live, Spelled, FiledNumbers, NumbersOf, UploadCounts, CountInvoices;
  }

  lemma UploadCountIs(parsed: seq<Invoice>, n: string)
    requires n != ""
    ensures n in UploadCounts(parsed) && UploadCounts(parsed)[n] > 1 <==> CountInvoices(parsed, n) > 1
  {
    UploadCountsCount(parsed);
    hide Trim, CountInvoices, UploadCounts;
  }

  /**
   * The number rule of a re-validation or an auto-fix: the trimmed number has the format, at most one row of the
   * batch spells it exactly so, and no live invoice holds it, which is asked only if some open row spells it so.
   */
  lemma BatchNumberRule<A>(s: Store<A>, b: BatchId, x: Invoice, ctx: Context)
    ensures var n := Trim(x.invoiceNumber);
      NumberOk(x, BatchContext(s, b, ctx)) <==>
        NumberFormat(n) && !Twice(Spellings(RowsOf(s, b)), n) && !(Live(s.invoices, n) && AnyOpen(RowsOf(s, b), n))
  {
    var n, rows := Trim(x.invoiceNumber), RowsOf(s, b);
    ColumnTexts(rows, n);
    BlankHasNoFormat();
    if n != "" {
      LiveAndAskedFor(s.invoices, OpenPayloads(rows), n);
      OpenSpelled(rows, n);
      CountedInColumn(rows, n);
    }
    hide Trim, NumberFormat, Twice, Spellings, Live, Spelled, FiledNumbers, NumbersOf, CountColumn, ColumnOf, OpenPayloads, AnyOpen;
  }

  predicate AnyOpen(rows: seq<Row>, n: string) {
    exists i :: 0 <= i < |rows| && rows[i].invoiceId.None? && rows[i].payload.invoiceNumber == n
  }

  lemma {:induction false} OpenSpelled(rows: seq<Row>, n: string)
    ensures Spelled(OpenPayloads(rows), n) <==> AnyOpen(rows, n)
  {
    if rows != [] {
      var k := |rows| - 1;
      OpenSpelled(rows[..k], n);
      var front, all := OpenPayloads(rows[..k]), OpenPayloads(rows);
      assert forall x :: x in all <==> x in front || (rows[k].invoiceId.None? && x == rows[k].payload);
      assert AnyOpen(rows, n) <==> AnyOpen(rows[..k], n) || (rows[k].invoiceId.None? && rows[k].payload.invoiceNumber == n) by {
        if AnyOpen(rows[..k], n) {
          var i :| 0 <= i < k && rows[..k][i].invoiceId.None? && rows[..k][i].payload.invoiceNumber == n;
          assert rows[i] == rows[..k][i];
        }
        assert forall i :: 0 <= i < k ==> rows[..k][i] == rows[i];
        hide OpenPayloads, Spelled;
      }
      hide OpenPayloads, AnyOpen;
    }
  }

  // --- The steps ------------------------------------------------------------

  /** Everything but the numbers in use is the tenant's own context. */
  ghost predicate SameTenant(c: Context, ctx: Context) {
    && c.tenantTrn == ctx.tenantTrn && c.today == ctx.today && c.dayOf == ctx.dayOf && c.threshold == ctx.threshold
  }

  lemma ContextsAreTheTenants<A>(s: Store<A>, b: BatchId, id: RowId, x: Invoice, parsed: seq<Invoice>, ctx: Context)
    ensures SameTenant(ParseContext(s, parsed, ctx), ctx)
    ensures SameTenant(EditContext(s, b, id, x, ctx), ctx)
    ensures SameTenant(BatchContext(s, b, ctx), ctx)
  {
    hide FiledNumbers, NumbersOf, UploadCounts, CountsWithOwn, BatchCounts, OpenPayloads;
  }

  /** The row shows the verdict on this invoice. */
  predicate Shows(row: Row, x: Invoice, ctx: Context) {
    row.findings == Findings(x, ctx) && (row.submittable <==> Submittable(x, ctx))
  }

  /** Nothing but the rows of this batch, their counters and their logs has changed. */
  ghost predicate OnlyBatch<A>(s: Store<A>, b: BatchId, t: Store<A>) {
    && t.invoices == s.invoices && t.nextInvoice == s.nextInvoice
    && t.rows.Keys == s.rows.Keys + {b} && t.counters.Keys == s.counters.Keys + {b}
    && (forall c :: c in s.rows && c != b ==> t.rows[c] == s.rows[c])
    && (forall c :: c in s.counters && c != b ==> t.counters[c] == s.counters[c])
    && Counts(t.counters[b], t.rows[b])
  }

  lemma RefreshedBatch<A>(s: Store<A>, t: Store<A>, b: BatchId)
    requires t.invoices == s.invoices && t.nextInvoice == s.nextInvoice && t.counters == s.counters
    requires b in t.rows && t.rows == s.rows[b := t.rows[b]]
    ensures OnlyBatch(s, b, Refreshed(t, b))
  {
    CountersCount(t.rows[b]);
    hide CountersOf, Counts;
  }

  predicate HasId(rows: seq<Row>, id: RowId) {
    exists i :: 0 <= i < |rows| && rows[i].id == id
  }

  /** The log follows the batch: each of its rows is logged as it stands, what left it is not, and others are as they were. */
  ghost predicate LogsFollow<A>(s: Store<A>, b: BatchId, t: Store<A>)
    requires b in t.rows
  {
    && (forall i :: 0 <= i < |t.rows[b]| ==> t.rows[b][i].id in t.logs && t.logs[t.rows[b][i].id] == t.rows[b][i].findings)
    && forall id: RowId :: !HasId(t.rows[b], id) ==>
      if HasId(RowsOf(s, b), id) then id !in t.logs else SameLog(s.logs, t.logs, id)
  }

  predicate SameLog(before: map<RowId, seq<Finding>>, after: map<RowId, seq<Finding>>, id: RowId) {
    (id in after <==> id in before) && (id in before ==> after[id] == before[id])
  }

  /** A row as parsing stores it: judged as uploaded, stored recalculated. */
  predicate Stored(row: Row, id: RowId, x: Invoice, c: Context) {
    && row.id == id && row.invoiceId == None && row.number == x.invoiceNumber
    && row.payload == RecalcInvoice(x) && Shows(row, x, c)
  }

  predicate AllStored(rows: seq<Row>, first: RowId, all: seq<Invoice>, c: Context) {
    |rows| == |all| && forall i :: 0 <= i < |rows| ==> Stored(rows[i], first + i, all[i], c)
  }

  lemma NewRowsAreStored(first: RowId, all: seq<Invoice>, c: Context)
    ensures AllStored(NewRows(first, all, c), first, all, c)
  {
    NewRowsAre(first, all, c);
    hide NewRows, Findings, Submittable, RecalcInvoice;
  }

  /**
   * Parsing a batch: refused when a row of it is already an invoice; otherwise its rows are the upload's
   * invoices and then the synthetic ones, under new ids, each judged as uploaded and stored recalculated.
   */
  lemma ParseMeans<A>(s: Store<A>, b: BatchId, parsed: seq<Invoice>, synthetic: seq<Invoice>, ctx: Context)
    requires Consistent(s) && Tallied(s)
    ensures var t := Parse(s, b, parsed, synthetic, ctx);
      if exists i :: 0 <= i < |RowsOf(s, b)| && RowsOf(s, b)[i].invoiceId.Some? then t == s
      else
        && OnlyBatch(s, b, t) && LogsFollow(s, b, t) && t.nextRow == s.nextRow + |parsed| + |synthetic|
        && AllStored(t.rows[b], s.nextRow, parsed + synthetic, ParseContext(s, parsed, ctx))
  {
    hide NewRows, ParseContext, Logged, Refreshed, Consistent, IdsOf, Tallied, OnlyBatch, LogsFollow, AllStored;
    if !Promoted(RowsOf(s, b)) {
      var all, c := parsed + synthetic, ParseContext(s, parsed, ctx);
      ParseTallied(s, b, parsed, synthetic, ctx);
      NewRowsAreStored(s.nextRow, all, c);
      assert Parse(s, b, parsed, synthetic, ctx) == Refreshed(WithFresh(s, b, NewRows(s.nextRow, all, c)), b);
      hide Parse;
      FreshMeans(s, b, NewRows(s.nextRow, all, c), all, c);
    }
  }

  /** The batch replaced by these rows, its old logs dropped. */
  function WithFresh<A>(s: Store<A>, b: BatchId, rows: seq<Row>): Store<A> {
    s.(rows := s.rows[b := rows], logs := Logged(s.logs - IdsOf(RowsOf(s, b)), rows), nextRow := s.nextRow + |rows|)
  }

  lemma FreshMeans<A>(s: Store<A>, b: BatchId, rows: seq<Row>, all: seq<Invoice>, c: Context)
    requires AllStored(rows, s.nextRow, all, c) && Tallied(Refreshed(WithFresh(s, b, rows), b))
    ensures var t := Refreshed(WithFresh(s, b, rows), b);
      OnlyBatch(s, b, t) && LogsFollow(s, b, t) && t.nextRow == s.nextRow + |all| && t.rows[b] == rows
  {
    hide Refreshed, Logged, Tallied, OnlyBatch, LogsFollow, AllStored, IdsOf, RowsOf, WithFresh;
    var u := WithFresh(s, b, rows);
    FreshIds(rows, s.nextRow, all, c);
    FreshTables(s, b, rows);
    RefreshedRows(u, b);
    RefreshedBatch(s, u, b);
    ParsedLogsFollow(s, u, Refreshed(u, b), b, s.logs - IdsOf(RowsOf(s, b)));
  }

  lemma FreshTables<A>(s: Store<A>, b: BatchId, rows: seq<Row>)
    ensures var u := WithFresh(s, b, rows);
      && b in u.rows && u.rows[b] == rows && u.rows == s.rows[b := u.rows[b]] && u.logs == Logged(s.logs - IdsOf(RowsOf(s, b)), rows)
      && u.nextRow == s.nextRow + |rows|
      && u.invoices == s.invoices && u.nextInvoice == s.nextInvoice && u.counters == s.counters
  {
    hide Logged, IdsOf, RowsOf;
  }

  lemma RefreshedRows<A>(t: Store<A>, b: BatchId)
    ensures Refreshed(t, b).rows == t.rows && Refreshed(t, b).logs == t.logs && Refreshed(t, b).nextRow == t.nextRow
  {
    hide CountersOf;
  }

  lemma FreshIds(rows: seq<Row>, first: RowId, all: seq<Invoice>, c: Context)
    requires AllStored(rows, first, all, c)
    ensures |rows| == |all| && forall i :: 0 <= i < |rows| ==> rows[i].id == first + i
  {
    hide Shows, RecalcInvoice;
  }

  lemma ParsedLogsFollow<A>(s: Store<A>, u: Store<A>, t: Store<A>, b: BatchId, cleared: map<RowId, seq<Finding>>)
    requires Tallied(t) && t.rows == u.rows && t.logs == u.logs && b in t.rows
    requires cleared == s.logs - IdsOf(RowsOf(s, b)) && u.logs == Logged(cleared, u.rows[b])
    requires forall i :: 0 <= i < |u.rows[b]| ==> u.rows[b][i].id == s.nextRow + i
    ensures LogsFollow(s, b, t)
  {
    var rows := t.rows[b];
    assert LogsOk(t);
    hide CountersOk, Logged;
    forall id: RowId | !HasId(rows, id)
      ensures if HasId(RowsOf(s, b), id) then id !in t.logs else SameLog(s.logs, t.logs, id)
    {
      LoggedAt(cleared, rows, id);
      assert HasId(RowsOf(s, b), id) <==> id in IdsOf(RowsOf(s, b));
    }
  }

  /** A row judged again: the same row with this payload and the verdict on it. */
  predicate Rejudged(before: Row, after: Row, x: Invoice, c: Context) {
    && after.id == before.id && after.invoiceId == before.invoiceId
    && after.payload == x && after.number == x.invoiceNumber && Shows(after, x, c)
  }

  lemma JudgedIsRejudged(row: Row, x: Invoice, c: Context)
    ensures Rejudged(row, Judged(row, x, c), x, c)
  {
    hide Findings, Submittable;
  }

  lemma PositionIs(rows: seq<Row>, k: nat)
    requires k < |rows| && forall i, j :: 0 <= i < j < |rows| ==> rows[i].id != rows[j].id
    ensures Position(rows, rows[k].id) == k
  {
    hide Position;
    assert Position(rows, rows[k].id) < |rows|;
  }

  /**
   * An edit of one row: refused on a row that is an invoice, and nothing when it changes nothing; otherwise that
   * row alone holds the edited payload, recalculated, and the verdict on it.
   */
  lemma EditMeans<A>(s: Store<A>, b: BatchId, k: nat, p: Patch, ctx: Context)
    requires Consistent(s) && Tallied(s) && b in s.rows && k < |s.rows[b]|
    ensures var row := s.rows[b][k];
      var t, x := Edit(s, b, row.id, p, ctx), RecalcInvoice(Patched(row.payload, p));
      if row.invoiceId.Some? || !Patches.Changes(row.payload, p) then t == s
      else
        && OnlyBatch(s, b, t) && LogsFollow(s, b, t) && t.nextRow == s.nextRow && |t.rows[b]| == |s.rows[b]|
        && (forall i :: 0 <= i < |s.rows[b]| && i != k ==> t.rows[b][i] == s.rows[b][i])
        && Rejudged(row, t.rows[b][k], x, EditContext(s, b, row.id, x, ctx))
  {
    hide Position, RecalcInvoice, Patched, EditContext, Judged, Refreshed, Consistent, Tallied, OnlyBatch, Patches.Changes, Rejudged,
      IdsDistinct, Replaced, LogsFollow;
    OlderIds(s);
    BatchIds(s, b);
    PositionIs(s.rows[b], k);
    var row := s.rows[b][k];
    EditTallied(s, b, row.id, p, ctx);
    if row.invoiceId.None? && Patches.Changes(row.payload, p) {
      var x := RecalcInvoice(Patched(row.payload, p));
      var c := EditContext(s, b, row.id, x, ctx);
      JudgedIsRejudged(row, x, c);
      RejudgedLinks(row, Judged(row, x, c), x, c);
      assert Edit(s, b, row.id, p, ctx) == Refreshed(Replaced(s, b, k, Judged(row, x, c)), b);
      hide Edit;
      ReplacedMeans(s, b, k, Judged(row, x, c));
    }
  }

  lemma ReplacedMeans<A>(s: Store<A>, b: BatchId, k: nat, row: Row)
    requires b in s.rows && k < |s.rows[b]| && row.id == s.rows[b][k].id
    requires Tallied(Refreshed(Replaced(s, b, k, row), b))
    ensures var t := Refreshed(Replaced(s, b, k, row), b);
      OnlyBatch(s, b, t) && LogsFollow(s, b, t) && t.nextRow == s.nextRow && t.rows[b] == s.rows[b][k := row]
  {
    hide Refreshed, Tallied, OnlyBatch, LogsFollow;
    var u := Replaced(s, b, k, row);
    RefreshedRows(u, b);
    RefreshedBatch(s, u, b);
    EditedLogsFollow(s, Refreshed(u, b), b, k);
  }

  lemma RejudgedLinks(before: Row, after: Row, x: Invoice, c: Context)
    requires Rejudged(before, after, x, c)
    ensures after.id == before.id && after.invoiceId == before.invoiceId
  {
    hide Shows;
  }

  lemma EditedLogsFollow<A>(s: Store<A>, t: Store<A>, b: BatchId, k: nat)
    requires Tallied(t) && b in s.rows && b in t.rows && k < |s.rows[b]| == |t.rows[b]|
    requires forall i :: 0 <= i < |s.rows[b]| ==> t.rows[b][i].id == s.rows[b][i].id
    requires t.logs == s.logs[t.rows[b][k].id := t.rows[b][k].findings]
    ensures LogsFollow(s, b, t)
  {
    assert LogsOk(t);
    hide CountersOk;
    forall id: RowId
      ensures HasId(t.rows[b], id) <==> HasId(s.rows[b], id)
    {
    }
    assert HasId(t.rows[b], t.rows[b][k].id);
    hide HasId;
  }

  lemma RewrittenLogsFollow<A>(s: Store<A>, t: Store<A>, b: BatchId, touched: Row -> bool)
    requires IdsDistinct(s) && Tallied(t) && b in s.rows && b in t.rows && TableRules.SameIds(s.rows[b], t.rows[b])
    requires t.logs == Relogged(s.logs, s.rows[b], t.rows[b], touched)
    ensures LogsFollow(s, b, t)
  {
    BatchIds(s, b);
    assert LogsOk(t);
    hide CountersOk, IdsDistinct, Relogged;
    forall id: RowId | !HasId(t.rows[b], id)
      ensures !HasId(s.rows[b], id) && SameLog(s.logs, t.logs, id)
    {
      assert forall i :: 0 <= i < |s.rows[b]| ==> s.rows[b][i].id == t.rows[b][i].id;
      ReloggedAt(s.logs, s.rows[b], t.rows[b], touched, id);
    }
    hide HasId;
  }

  /** Rewriting the rows of a batch, given what becomes of each row. */
  lemma RewriteMeans<A>(s: Store<A>, b: BatchId, rows: seq<Row>, touched: Row -> bool)
    requires IdsDistinct(s) && b in s.rows && TableRules.SameIds(s.rows[b], rows) && Tallied(WithRows(s, b, rows, touched))
    ensures var t := WithRows(s, b, rows, touched);
      OnlyBatch(s, b, t) && LogsFollow(s, b, t) && t.nextRow == s.nextRow && t.rows[b] == rows
  {
    var u := s.(rows := s.rows[b := rows], logs := Relogged(s.logs, s.rows[b], rows, touched));
    hide Refreshed, Relogged, IdsDistinct, Tallied, OnlyBatch, TableRules.SameIds;
    assert WithRows(s, b, rows, touched) == Refreshed(u, b);
    hide WithRows;
    RefreshedRows(u, b);
    RefreshedBatch(s, u, b);
    RewrittenLogsFollow(s, Refreshed(u, b), b, touched);
  }

  /** Re-validation: every open row is recalculated and judged again, and rows that are invoices are left alone. */
  lemma RevalidateMeans<A>(s: Store<A>, b: BatchId, ctx: Context)
    requires Consistent(s) && Tallied(s) && b in s.rows
    ensures var t := Revalidate(s, b, ctx);
      && OnlyBatch(s, b, t) && LogsFollow(s, b, t) && t.nextRow == s.nextRow && |t.rows[b]| == |s.rows[b]|
      && forall i :: 0 <= i < |s.rows[b]| ==> var row := s.rows[b][i];
        if row.invoiceId.Some? then t.rows[b][i] == row
        else Rejudged(row, t.rows[b][i], RecalcInvoice(row.payload), BatchContext(s, b, ctx))
  {
    var c := BatchContext(s, b, ctx);
    var rows := s.rows[b];
    var after := RevalidatedRows(rows, c);
    OlderIds(s);
    RewritesTallied(s, b, ctx);
    RowsShape(rows, c);
    hide BatchContext, Consistent, IdsDistinct, Tallied, OnlyBatch, LogsFollow, WithRows, TableRules.SameIds, RevalidatedRow, RecalcInvoice;
    assert Revalidate(s, b, ctx) == WithRows(s, b, after, Open);
    RewriteMeans(s, b, after, Open);
    hide Revalidate, Rejudged;
    forall i | 0 <= i < |rows|
      ensures if rows[i].invoiceId.Some? then after[i] == rows[i] else Rejudged(rows[i], after[i], RecalcInvoice(rows[i].payload), c)
    {
      RevalidatedRowMeans(rows[i], c);
    }
  }

  lemma RevalidatedRowMeans(row: Row, c: Context)
    ensures
      if row.invoiceId.Some? then RevalidatedRow(row, c) == row
      else Rejudged(row, RevalidatedRow(row, c), RecalcInvoice(row.payload), c)
  {
    JudgedIsRejudged(row, RecalcInvoice(row.payload), c);
    hide Judged, Rejudged, RecalcInvoice;
  }

  /** Auto-fix of a batch: an open row it has something to change on is fixed and judged again; every other row is left alone. */
  lemma AutoFixMeans<A>(s: Store<A>, b: BatchId, ctx: Context)
    requires Consistent(s) && Tallied(s) && b in s.rows
    ensures var t := AutoFixRows(s, b, ctx);
      && OnlyBatch(s, b, t) && LogsFollow(s, b, t) && t.nextRow == s.nextRow && |t.rows[b]| == |s.rows[b]|
      && forall i :: 0 <= i < |s.rows[b]| ==> var row := s.rows[b][i];
        if row.invoiceId.Some? || AutoFix.Changes(row.payload) == [] then t.rows[b][i] == row
        else Rejudged(row, t.rows[b][i], AutoFix.Fix(row.payload), BatchContext(s, b, ctx))
  {
    var c := BatchContext(s, b, ctx);
    var rows := s.rows[b];
    var after := FixedRows(rows, c);
    OlderIds(s);
    RewritesTallied(s, b, ctx);
    RowsShape(rows, c);
    hide BatchContext, Consistent, IdsDistinct, Tallied, OnlyBatch, LogsFollow, WithRows, TableRules.SameIds, FixedRow, AutoFix.Fix,
      AutoFix.Changes;
    assert AutoFixRows(s, b, ctx) == WithRows(s, b, after, Fixable);
    RewriteMeans(s, b, after, Fixable);
    hide AutoFixRows, Fixable, Rejudged;
    forall i | 0 <= i < |rows|
      ensures if rows[i].invoiceId.Some? || AutoFix.Changes(rows[i].payload) == [] then after[i] == rows[i]
              else Rejudged(rows[i], after[i], AutoFix.Fix(rows[i].payload), c)
    {
      FixedRowMeans(rows[i], c);
    }
  }

  lemma FixedRowMeans(row: Row, c: Context)
    ensures
      if row.invoiceId.Some? || AutoFix.Changes(row.payload) == [] then FixedRow(row, c) == row
      else Rejudged(row, FixedRow(row, c), AutoFix.Fix(row.payload), c)
  {
    JudgedIsRejudged(row, AutoFix.Fix(row.payload), c);
    hide Judged, Rejudged, AutoFix.Fix, AutoFix.Changes;
  }

  /** Deleting a row: refused on an invoice; otherwise the row leaves its batch, its log leaves with it, and the others close up. */
  lemma DeleteMeans<A>(s: Store<A>, b: BatchId, k: nat)
    requires Consistent(s) && Tallied(s) && b in s.rows && k < |s.rows[b]|
    ensures var t := Delete(s, b, s.rows[b][k].id);
      if s.rows[b][k].invoiceId.Some? then t == s
      else
        && OnlyBatch(s, b, t) && LogsFollow(s, b, t) && t.nextRow == s.nextRow && |t.rows[b]| == |s.rows[b]| - 1
        && forall i :: 0 <= i < |t.rows[b]| ==> t.rows[b][i] == if i < k then s.rows[b][i] else s.rows[b][i + 1]
  {
    hide Position, Refreshed, Consistent, Tallied, OnlyBatch, IdsDistinct, LogsFollow;
    OlderIds(s);
    BatchIds(s, b);
    PositionIs(s.rows[b], k);
    var rows, id := s.rows[b], s.rows[b][k].id;
    DeleteTallied(s, b, id);
    if rows[k].invoiceId.None? {
      assert Delete(s, b, id) == Refreshed(WithoutRow(s, b, k), b);
      hide Delete;
      DeletedMeans(s, b, k);
    }
  }

  function WithoutRow<A>(s: Store<A>, b: BatchId, k: nat): Store<A>
    requires b in s.rows && k < |s.rows[b]|
  {
    s.(rows := s.rows[b := s.rows[b][..k] + s.rows[b][k + 1..]], logs := s.logs - {s.rows[b][k].id})
  }

  lemma DeletedMeans<A>(s: Store<A>, b: BatchId, k: nat)
    requires b in s.rows && k < |s.rows[b]| && Tallied(Refreshed(WithoutRow(s, b, k), b))
    ensures var t := Refreshed(WithoutRow(s, b, k), b);
      OnlyBatch(s, b, t) && LogsFollow(s, b, t) && t.nextRow == s.nextRow && t.rows[b] == s.rows[b][..k] + s.rows[b][k + 1..]
  {
    hide Refreshed, Tallied, OnlyBatch, LogsFollow;
    var u := WithoutRow(s, b, k);
    RefreshedRows(u, b);
    RefreshedBatch(s, u, b);
    DeletedLogsFollow(s, Refreshed(u, b), b, k);
  }

  lemma DeletedLogsFollow<A>(s: Store<A>, t: Store<A>, b: BatchId, k: nat)
    requires Tallied(t) && b in s.rows && b in t.rows && k < |s.rows[b]|
    requires t.rows[b] == s.rows[b][..k] + s.rows[b][k + 1..] && t.logs == s.logs - {s.rows[b][k].id}
    ensures LogsFollow(s, b, t)
  {
    var before, after := s.rows[b], t.rows[b];
    assert LogsOk(t);
    hide CountersOk;
    forall i | 0 <= i < |before| && i != k
      ensures HasId(after, before[i].id)
    {
      assert after[if i < k then i else i - 1] == before[i];
    }
    assert HasId(before, before[k].id);
  }

  /** Edits and deletions of a row the batch does not have do nothing. */
  lemma NoSuchRow<A>(s: Store<A>, b: BatchId, id: RowId, p: Patch, ctx: Context)
    requires !HasId(RowsOf(s, b), id)
    ensures Edit(s, b, id, p, ctx) == s && Delete(s, b, id) == s
  {
    var rows := RowsOf(s, b);
    assert Position(rows, id) == |rows|;
    hide Position, Patches.Changes;
  }

  /** A submission that goes through leaves counters that count, and touches no log and no other batch. */
  lemma SubmitMeans<A>(s: Store<A>, b: BatchId, d: Submission)
    requires b in s.rows && PromoteUpTo(s, b, |s.rows[b]|, d).Some?
    ensures var t := Submit(s, b, d);
      && b in t.rows && b in t.counters && Counts(t.counters[b], t.rows[b])
      && t.logs == s.logs && (forall c :: c in s.counters && c != b ==> c in t.counters && t.counters[c] == s.counters[c])
      && forall c :: c in s.rows && c != b ==> c in t.rows && t.rows[c] == s.rows[c]
  {
    PromotionOnlyLinks(s, b, |s.rows[b]|, d);
    var t := PromoteUpTo(s, b, |s.rows[b]|, d).value;
    CountersCount(t.rows[b]);
    hide PromoteUpTo, CountersOf, Counts, OnlyLinked;
  }

  /** What counts as a change: an edit that changes nothing leaves the invoice as it is. */
  lemma {:induction false} NoChange(lines: seq<Line>, edits: seq<LineEdit>)
    requires !EditsLines(lines, edits)
    ensures EditLines(lines, edits) == lines
  {
    if edits != [] {
      NoChange(lines, edits[..|edits| - 1]);
      hide Spread, IndexOf;
    }
  }

  lemma NoChangeIsIdentity(x: Invoice, p: Patch)
    requires !Patches.Changes(x, p)
    ensures Patched(x, p) == x
  {
    NoChange(x.lines, p.lines);
    hide MergeHeader, EditLines, EditsLines;
  }
}
