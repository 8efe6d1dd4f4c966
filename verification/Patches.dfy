/** Inline edits of a staged invoice: header fields, lines changed or removed by id, lines appended. */
module Patches {
  import opened Text
  import opened Calc
  import opened RecalcFindings

  datatype HeaderPatch = HeaderPatch(
    invoiceNumber: Option<string>,
    invoiceType: Option<string>,
    issueDate: Option<string>,
    issueTime: Option<string>,
    currency: Option<string>,
    fxRate: Option<string>,
    supplierTrn: Option<string>,
    supplierName: Option<string>,
    buyerTrn: Option<string>,
    buyerName: Option<string>,
    buyerEmirate: Option<string>,
    poReference: Option<string>,
    precedingInvoiceId: Option<string>,
    paymentMeans: Option<string>,
    lineExtensionAmount: Option<string>,
    taxExclusiveAmount: Option<string>,
    vatTotalAmount: Option<string>,
    taxInclusiveAmount: Option<string>,
    payableAmount: Option<string>,
    payableAmountAed: Option<string>,
    sourceRow: Option<Option<int>>
  )

  datatype LinePatch = LinePatch(
    id: Option<string>,
    lineNumber: Option<string>,
    description: Option<string>,
    hsCode: Option<string>,
    quantity: Option<string>,
    uom: Option<string>,
    unitPrice: Option<string>,
    lineDiscount: Option<string>,
    vatCategory: Option<string>,
    vatRate: Option<string>,
    netAmount: Option<string>,
    vatAmount: Option<string>,
    lineTotal: Option<string>,
    sourceRow: Option<Option<int>>
  )

  /** A null line patch removes the line. New lines come with the ids drawn for them. */
  datatype LineEdit = LineEdit(id: string, patch: Option<LinePatch>)
  datatype NewLine = NewLine(id: string, patch: LinePatch)

  datatype Patch = Patch(header: HeaderPatch, lines: seq<LineEdit>, added: seq<NewLine>)

  function Or<T>(given: Option<T>, current: T): T {
    match given
    case Some(x) => x
    case None => current
  }

  function MergeHeader(x: Invoice, p: HeaderPatch): (r: Invoice)
    ensures r.id == x.id && r.lines == x.lines
  {
    Invoice(x.id, Or(p.invoiceNumber, x.invoiceNumber), Or(p.invoiceType, x.invoiceType), Or(p.issueDate, x.issueDate),
            Or(p.issueTime, x.issueTime), Or(p.currency, x.currency), Or(p.fxRate, x.fxRate), Or(p.supplierTrn, x.supplierTrn),
            Or(p.supplierName, x.supplierName), Or(p.buyerTrn, x.buyerTrn), Or(p.buyerName, x.buyerName),
            Or(p.buyerEmirate, x.buyerEmirate), Or(p.poReference, x.poReference),
            Or(p.precedingInvoiceId, x.precedingInvoiceId), Or(p.paymentMeans, x.paymentMeans), x.lines,
            Or(p.lineExtensionAmount, x.lineExtensionAmount), Or(p.taxExclusiveAmount, x.taxExclusiveAmount),
            Or(p.vatTotalAmount, x.vatTotalAmount), Or(p.taxInclusiveAmount, x.taxInclusiveAmount),
            Or(p.payableAmount, x.payableAmount), Or(p.payableAmountAed, x.payableAmountAed), Or(p.sourceRow, x.sourceRow))
  }

  /** Everything given, the id included. */
  function Spread(l: Line, p: LinePatch): Line {
    Line(Or(p.id, l.id), Or(p.lineNumber, l.lineNumber), Or(p.description, l.description), Or(p.hsCode, l.hsCode),
         Or(p.quantity, l.quantity), Or(p.uom, l.uom), Or(p.unitPrice, l.unitPrice), Or(p.lineDiscount, l.lineDiscount),
         Or(p.vatCategory, l.vatCategory), Or(p.vatRate, l.vatRate), Or(p.netAmount, l.netAmount), Or(p.vatAmount, l.vatAmount),
         Or(p.lineTotal, l.lineTotal), Or(p.sourceRow, l.sourceRow))
  }

  /** An edited line keeps its id, whatever the patch says. */
  function MergeLine(l: Line, p: LinePatch): (r: Line)
    ensures r.id == l.id
  {
    Spread(l, p).(id := l.id)
  }

  function IndexOf(lines: seq<Line>, id: string): (i: nat)
    ensures i <= |lines| && (i < |lines| ==> lines[i].id == id)
    ensures forall j :: 0 <= j < i ==> lines[j].id != id
  {
    if lines == [] || lines[0].id == id then 0 else 1 + IndexOf(lines[1..], id)
  }

  /** An edit of a line the invoice does not have is ignored. */
  function EditLine(lines: seq<Line>, e: LineEdit): seq<Line> {
    var i := IndexOf(lines, e.id);
    if i == |lines| then lines
    else
      match e.patch
      case None => lines[..i] + lines[i + 1..]
      case Some(p) => lines[i := MergeLine(lines[i], p)]
  }

  predicate EditsLine(lines: seq<Line>, e: LineEdit) {
    var i := IndexOf(lines, e.id);
    i < |lines| && (e.patch.None? || Spread(lines[i], e.patch.value) != lines[i])
  }

  function EditLines(lines: seq<Line>, edits: seq<LineEdit>): seq<Line> {
    if edits == [] then lines else EditLine(EditLines(lines, edits[..|edits| - 1]), edits[|edits| - 1])
  }

  predicate EditsLines(lines: seq<Line>, edits: seq<LineEdit>) {
    edits != [] && (EditsLines(lines, edits[..|edits| - 1]) || EditsLine(EditLines(lines, edits[..|edits| - 1]), edits[|edits| - 1]))
  }

  /** A new line starts from the template's defaults and has no source row. */
  function Added(lines: seq<Line>, n: NewLine): (r: Line)
    ensures r.id == n.id
  {
    Spread(EmptyLine(n.id, |lines| + 1), n.patch).(id := n.id, sourceRow := None)
  }

  function AddLines(lines: seq<Line>, added: seq<NewLine>): seq<Line> {
    if added == [] then lines
    else
      var before := AddLines(lines, added[..|added| - 1]);
      before + [Added(before, added[|added| - 1])]
  }

  function Patched(before: Invoice, p: Patch): Invoice {
    MergeHeader(before, p.header).(lines := AddLines(EditLines(before.lines, p.lines), p.added))
  }

  predicate Changes(before: Invoice, p: Patch) {
    MergeHeader(before, p.header) != before || EditsLines(before.lines, p.lines) || p.added != []
  }

  /** Splices, merges and pushes in the order the edits are listed. */
  method ApplyPatch(before: Invoice, p: Patch) returns (next: Invoice, changed: bool)
    ensures next == Patched(before, p)
    ensures changed <==> Changes(before, p)
  {
    hide MergeHeader, MergeLine, Spread, IndexOf, Added;
    next := MergeHeader(before, p.header);
    changed := next != before;
    var lines := before.lines;
    ghost var header := changed;
    for n := 0 to |p.lines|
      invariant lines == EditLines(before.lines, p.lines[..n])
      invariant changed <==> header || EditsLines(before.lines, p.lines[..n])
    {
      assert p.lines[..n + 1][..n] == p.lines[..n];
      var e := p.lines[n];
      var index := IndexOf(lines, e.id);
      if index < |lines| {
        if e.patch.None? {
          changed := true;
          lines := lines[..index] + lines[index + 1..];
        } else {
          changed := changed || Spread(lines[index], e.patch.value) != lines[index];
          lines := lines[index := MergeLine(lines[index], e.patch.value)];
        }
      }
    }
    assert p.lines[..|p.lines|] == p.lines;
    ghost var edited := lines;
    for n := 0 to |p.added|
      invariant lines == AddLines(edited, p.added[..n])
      invariant changed <==> header || EditsLines(before.lines, p.lines) || n > 0
    {
      assert p.added[..n + 1][..n] == p.added[..n];
      lines := lines + [Added(lines, p.added[n])];
      changed := true;
    }
    assert p.added[..|p.added|] == p.added;
    next := next.(lines := lines);
  }

  // --- Line ids stay unique -------------------------------------------------

  /** The ids drawn for new lines: different from each other and from those in use. */
  predicate Fresh(before: Invoice, p: Patch) {
    && (forall i, j :: 0 <= i < j < |p.added| ==> p.added[i].id != p.added[j].id)
    && (forall n, l :: n in p.added && l in before.lines ==> n.id != l.id)
  }

  lemma EditLineKeepsDistinct(lines: seq<Line>, e: LineEdit)
    requires DistinctIds(lines)
    ensures DistinctIds(EditLine(lines, e))
    ensures forall l :: l in EditLine(lines, e) ==> exists o :: o in lines && o.id == l.id
  {
    hide MergeLine;
  }

  lemma {:induction false} EditLinesKeepDistinct(lines: seq<Line>, edits: seq<LineEdit>)
    requires DistinctIds(lines)
    ensures DistinctIds(EditLines(lines, edits))
    ensures forall l :: l in EditLines(lines, edits) ==> exists o :: o in lines && o.id == l.id
  {
    hide DistinctIds, EditLine;
    if edits != [] {
      var front, last := edits[..|edits| - 1], edits[|edits| - 1];
      EditLinesKeepDistinct(lines, front);
      EditLineKeepsDistinct(EditLines(lines, front), last);
    }
  }

  lemma {:induction false} AddLinesKeepDistinct(lines: seq<Line>, added: seq<NewLine>)
    requires DistinctIds(lines)
    requires forall i, j :: 0 <= i < j < |added| ==> added[i].id != added[j].id
    requires forall n, l :: n in added && l in lines ==> n.id != l.id
    ensures DistinctIds(AddLines(lines, added))
    ensures forall l :: l in AddLines(lines, added) ==> l in lines || exists n :: n in added && n.id == l.id
  {
    hide Added;
    if added != [] {
      var front, last := added[..|added| - 1], added[|added| - 1];
      AddLinesKeepDistinct(lines, front);
      var before := AddLines(lines, front);
      forall i | 0 <= i < |before|
        ensures before[i].id != last.id
      {
        assert before[i] in before && last in added;
        if before[i] !in lines {
          var n :| n in front && n.id == before[i].id;
          var k :| 0 <= k < |front| && front[k] == n;
          assert added[k].id != added[|added| - 1].id;
        }
      }
      forall l | l in AddLines(lines, added)
        ensures l in lines || exists n :: n in added && n.id == l.id
      {
        if l in before {
          if l !in lines {
            var n :| n in front && n.id == l.id;
            assert n in added;
          }
        } else {
          assert last in added;
        }
      }
    }
  }

  /** Line ids stay unique under every edit, and the invoice keeps its own id. */
  lemma PatchKeepsIds(before: Invoice, p: Patch)
    requires UniqueLineIds(before) && Fresh(before, p)
    ensures UniqueLineIds(Patched(before, p)) && Patched(before, p).id == before.id
  {
    hide MergeHeader;
    var edited := EditLines(before.lines, p.lines);
    EditLinesKeepDistinct(before.lines, p.lines);
    forall n, l | n in p.added && l in edited
      ensures n.id != l.id
    {
      var o :| o in before.lines && o.id == l.id;
    }
    AddLinesKeepDistinct(edited, p.added);
  }
}
