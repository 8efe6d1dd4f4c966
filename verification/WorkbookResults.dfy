/** No line is lost between workbook and staging, and lines come out in the order the user numbered them. */
module WorkbookResults {
  import opened Text
  import opened Money
  import opened Calc
  import opened RecalcFindings
  import opened Workbook
  import PromotionRules

  // --- Conservation ---------------------------------------------------------

  function LinesIn(pending: seq<Pending>): seq<Line> {
    if pending == [] then [] else LinesIn(pending[..|pending| - 1]) + [pending[|pending| - 1].line]
  }

  function AllLines(invoices: seq<Invoice>): multiset<Line> {
    if invoices == [] then multiset{} else AllLines(invoices[..|invoices| - 1]) + multiset(invoices[|invoices| - 1].lines)
  }

  lemma {:induction false} PushedLine(invoices: seq<Invoice>, k: nat, line: Line)
    requires k < |invoices|
    ensures AllLines(invoices[k := invoices[k].(lines := invoices[k].lines + [line])]) == AllLines(invoices) + multiset{line}
  {
    var after := invoices[k := invoices[k].(lines := invoices[k].lines + [line])];
    var n := |invoices| - 1;
    if k < n {
      PushedLine(invoices[..n], k, line);
      assert after[..n] == invoices[..n][k := invoices[k].(lines := invoices[k].lines + [line])];
    } else {
      assert after[..n] == invoices[..n];
    }
  }

  lemma {:induction false} NoLinesYet(headers: seq<Invoice>)
    requires forall h :: h in headers ==> h.lines == []
    ensures AllLines(headers) == multiset{}
  {
    if headers != [] {
      NoLinesYet(headers[..|headers| - 1]);
      assert headers[|headers| - 1] in headers;
    }
  }

  lemma LinesInStep(pending: seq<Pending>, p: Pending)
    ensures LinesIn(pending + [p]) == LinesIn(pending) + [p.line]
  {
    assert (pending + [p])[..|pending|] == pending;
  }

  lemma JoinOneConserves(j: Joined, index: map<string, nat>, p: Pending)
    ensures var u := JoinOne(j, index, p);
      AllLines(u.invoices) + multiset(LinesIn(u.orphans)) == AllLines(j.invoices) + multiset(LinesIn(j.orphans)) + multiset{p.line}
  {
    LinesInStep(j.orphans, p);
    hide AllLines, LinesIn;
    if p.invoiceNumber in index && index[p.invoiceNumber] < |j.invoices| {
      PushedLine(j.invoices, index[p.invoiceNumber], p.line);
    }
  }

  /** Every line of the join, wherever it is. */
  function Placed(j: Joined): multiset<Line> {
    AllLines(j.invoices) + multiset(LinesIn(j.orphans))
  }

  lemma PlacedAtFirst(headers: seq<Invoice>)
    requires forall h :: h in headers ==> h.lines == []
    ensures Placed(Joined(headers, [])) == multiset{}
  {
    NoLinesYet(headers);
  }

  lemma JoinStep(headers: seq<Invoice>, index: map<string, nat>, pending: seq<Pending>, p: Pending)
    ensures Placed(Join(headers, index, pending + [p])) == Placed(Join(headers, index, pending)) + multiset{p.line}
  {
    assert (pending + [p])[..|pending|] == pending;
    JoinOneConserves(Join(headers, index, pending), index, p);
    hide AllLines, LinesIn, JoinOne;
  }

  /** Joining moves every pending line to exactly one place. */
  lemma {:induction false} JoinConserves(headers: seq<Invoice>, index: map<string, nat>, pending: seq<Pending>)
    requires forall h :: h in headers ==> h.lines == []
    ensures Placed(Join(headers, index, pending)) == multiset(LinesIn(pending))
  {
    hide Placed, JoinOne;
    if pending == [] {
      PlacedAtFirst(headers);
    } else {
      var front, p := pending[..|pending| - 1], pending[|pending| - 1];
      assert pending == front + [p];
      JoinConserves(headers, index, front);
      JoinStep(headers, index, front, p);
      LinesInStep(front, p);
      hide LinesIn, Join;
    }
  }

  lemma {:induction false} InsertKeeps(l: Line, sorted: seq<Line>, num: string -> Option<real>)
    ensures multiset(Insert(l, sorted, num)) == multiset(sorted) + multiset{l}
  {
    hide Compare;
    if sorted != [] {
      assert sorted == sorted[..|sorted| - 1] + [sorted[|sorted| - 1]];
      InsertKeeps(l, sorted[..|sorted| - 1], num);
    }
  }

  lemma {:induction false} OrderedKeeps(lines: seq<Line>, num: string -> Option<real>)
    ensures multiset(Ordered(lines, num)) == multiset(lines)
  {
    hide Insert;
    if lines != [] {
      assert lines == lines[..|lines| - 1] + [lines[|lines| - 1]];
      OrderedKeeps(lines[..|lines| - 1], num);
      InsertKeeps(lines[|lines| - 1], Ordered(lines[..|lines| - 1], num), num);
    }
  }

  lemma {:induction false} OrderedAllKeeps(invoices: seq<Invoice>, num: string -> Option<real>)
    ensures AllLines(OrderedAll(invoices, num)) == AllLines(invoices)
  {
    hide Ordered;
    if invoices != [] {
      var n := |invoices| - 1;
      OrderedAllKeeps(invoices[..n], num);
      OrderedKeeps(invoices[n].lines, num);
      assert OrderedAll(invoices, num)[..n] == OrderedAll(invoices[..n], num);
    }
  }

  lemma {:induction false} HeadersAreBare(rows: seq<SheetRow>, c: map<string, nat>, ids: Ids)
    ensures forall h :: h in Headers(rows, c, ids) ==> h.lines == []
  {
    hide MeaningfulHeader, Read;
    if rows != [] {
      HeadersAreBare(rows[..|rows| - 1], c, ids);
    }
  }

  function CountMeaningful(rows: seq<SheetRow>, c: map<string, nat>): nat {
    if rows == [] then 0 else CountMeaningful(rows[..|rows| - 1], c) + if MeaningfulHeader(rows[|rows| - 1], c) then 1 else 0
  }

  lemma {:induction false} OneInvoicePerHeader(rows: seq<SheetRow>, c: map<string, nat>, ids: Ids)
    ensures |Headers(rows, c, ids)| == CountMeaningful(rows, c)
  {
    hide MeaningfulHeader, HeaderOf;
    if rows != [] {
      OneInvoicePerHeader(rows[..|rows| - 1], c, ids);
    }
  }

  /**
   * No line is lost: every line row that is not padding ends up in exactly one invoice or among the orphans,
   * every header row that is not padding gives exactly one invoice, and together they are within the cap.
   */
  lemma NothingLost(headerSheet: Option<SheetText>, lineSheet: Option<SheetText>, maxRows: nat, ids: Ids, num: string -> Option<real>)
    ensures var r := ParseOf(headerSheet, lineSheet, maxRows, ids, num);
      r.Parsed? ==>
        && AllLines(r.invoices) + multiset(LinesIn(r.orphans)) == multiset(LinesIn(PendingLines(lineSheet, ids)))
        && |r.invoices| == CountMeaningful(headerSheet.value.rows, ColumnsOf(HEADER_COLUMNS, headerSheet.value.header))
        && |r.invoices| + |PendingLines(lineSheet, ids)| <= maxRows
  {
    var r := ParseOf(headerSheet, lineSheet, maxRows, ids, num);
    hide ColumnsOf, Missing, Headers, Lines, Warnings, NumberIndex, Join, OrderedAll, AllLines, LinesIn, CountMeaningful;
    if r.Parsed? {
      var headers, pending := HeaderInvoices(headerSheet, ids), PendingLines(lineSheet, ids);
      var c := ColumnsOf(HEADER_COLUMNS, headerSheet.value.header);
      HeadersAreBare(headerSheet.value.rows, c, ids);
      OneInvoicePerHeader(headerSheet.value.rows, c, ids);
      JoinConserves(headers, NumberIndex(headers), pending);
      OrderedAllKeeps(Join(headers, NumberIndex(headers), pending).invoices, num);
    }
  }

  // --- Every line to its own invoice ----------------------------------------

  /** The first header that carries this number; blank numbers have none. */
  predicate Owns(headers: seq<Invoice>, k: nat, number: string)
    requires k < |headers|
  {
    number != "" && headers[k].invoiceNumber == number && forall j :: 0 <= j < k ==> headers[j].invoiceNumber != number
  }

  predicate Owned(headers: seq<Invoice>, number: string) {
    number != "" && exists k :: 0 <= k < |headers| && headers[k].invoiceNumber == number
  }

  /** The lines that name header `k`, in sheet order. */
  function LinesOwned(headers: seq<Invoice>, k: nat, pending: seq<Pending>): seq<Line>
    requires k < |headers|
  {
    if pending == [] then []
    else
      var front, p := LinesOwned(headers, k, pending[..|pending| - 1]), pending[|pending| - 1];
      if Owns(headers, k, p.invoiceNumber) then front + [p.line] else front
  }

  function Unowned(headers: seq<Invoice>, pending: seq<Pending>): seq<Pending> {
    if pending == [] then []
    else
      var front, p := Unowned(headers, pending[..|pending| - 1]), pending[|pending| - 1];
      if Owned(headers, p.invoiceNumber) then front else front + [p]
  }

  lemma IndexOwns(headers: seq<Invoice>, number: string)
    ensures number in NumberIndex(headers) <==> Owned(headers, number)
    ensures forall k :: 0 <= k < |headers| ==> (Owns(headers, k, number) <==> number in NumberIndex(headers) && NumberIndex(headers)[number] == k)
  {
    IndexIsFirst(headers, number);
    hide NumberIndex;
  }

  predicate JoinedBy(headers: seq<Invoice>, pending: seq<Pending>, j: Joined) {
    && |j.invoices| == |headers|
    && (forall k :: 0 <= k < |headers| ==> j.invoices[k] == headers[k].(lines := LinesOwned(headers, k, pending)))
    && j.orphans == Unowned(headers, pending)
  }

  lemma {:induction false} JoinIsExact(headers: seq<Invoice>, pending: seq<Pending>)
    requires forall h :: h in headers ==> h.lines == []
    ensures JoinedBy(headers, pending, Join(headers, NumberIndex(headers), pending))
  {
    if pending != [] {
      var p := pending[|pending| - 1];
      JoinIsExact(headers, pending[..|pending| - 1]);
      IndexOwns(headers, p.invoiceNumber);
      hide NumberIndex, Owns, Owned;
    }
  }

  /**
   * Every line in its own invoice: an invoice holds exactly the lines that name its number, sorted, when it is
   * the first header with that number, and the orphans are exactly the lines whose number no header carries.
   */
  lemma EveryLineInItsInvoice(headerSheet: Option<SheetText>, lineSheet: Option<SheetText>, maxRows: nat, ids: Ids,
                              num: string -> Option<real>)
    ensures var r := ParseOf(headerSheet, lineSheet, maxRows, ids, num);
      var headers, pending := HeaderInvoices(headerSheet, ids), PendingLines(lineSheet, ids);
      r.Parsed? ==>
        && |r.invoices| == |headers|
        && (forall k :: 0 <= k < |headers| ==>
             r.invoices[k] == headers[k].(lines := Ordered(LinesOwned(headers, k, pending), num)))
        && r.orphans == Unowned(headers, pending)
  {
    var r := ParseOf(headerSheet, lineSheet, maxRows, ids, num);
    hide ColumnsOf, Missing, Headers, Lines, Warnings, NumberIndex, Join, Ordered, LinesOwned, Unowned;
    if r.Parsed? {
      HeadersAreBare(headerSheet.value.rows, ColumnsOf(HEADER_COLUMNS, headerSheet.value.header), ids);
      JoinIsExact(HeaderInvoices(headerSheet, ids), PendingLines(lineSheet, ids));
    }
  }

  // --- Order ----------------------------------------------------------------

  predicate AllNumeric(lines: seq<Line>, num: string -> Option<real>) {
    forall l :: l in lines ==> num(l.lineNumber).Some?
  }

  /** By number, then by source row. */
  predicate InOrder(a: Line, b: Line, num: string -> Option<real>)
    requires num(a.lineNumber).Some? && num(b.lineNumber).Some?
  {
    var x, y := num(a.lineNumber).value, num(b.lineNumber).value;
    x < y || (x == y && RowOf(a) <= RowOf(b))
  }

  predicate AllInOrder(lines: seq<Line>, num: string -> Option<real>)
    requires AllNumeric(lines, num)
  {
    forall i, j :: 0 <= i < j < |lines| ==> InOrder(lines[i], lines[j], num)
  }

  lemma InsertNumeric(l: Line, sorted: seq<Line>, num: string -> Option<real>)
    requires num(l.lineNumber).Some? && AllNumeric(sorted, num)
    ensures AllNumeric(Insert(l, sorted, num), num)
    ensures forall x :: x in Insert(l, sorted, num) <==> x == l || x in sorted
  {
    InsertKeeps(l, sorted, num);
    forall x
      ensures x in Insert(l, sorted, num) <==> x == l || x in sorted
    {
      assert x in multiset(Insert(l, sorted, num)) <==> x in multiset(sorted) + multiset{l};
    }
    hide Insert;
  }

  lemma {:induction false} InsertOrders(l: Line, sorted: seq<Line>, num: string -> Option<real>)
    requires num(l.lineNumber).Some? && AllNumeric(sorted, num) && AllInOrder(sorted, num)
    ensures AllNumeric(Insert(l, sorted, num), num) && AllInOrder(Insert(l, sorted, num), num)
  {
    InsertNumeric(l, sorted, num);
    if sorted != [] {
      var front, last := sorted[..|sorted| - 1], sorted[|sorted| - 1];
      assert last in sorted;
      if Compare(l, last, num) < 0.0 {
        InsertOrders(l, front, num);
        InsertNumeric(l, front, num);
        BeforeLast(Insert(l, front, num), front, last, l, num);
      } else {
        AfterLast(sorted, l, num);
      }
    }
  }

  lemma BeforeLast(inserted: seq<Line>, front: seq<Line>, last: Line, l: Line, num: string -> Option<real>)
    requires AllNumeric(front + [last], num) && AllNumeric(inserted, num) && num(l.lineNumber).Some?
    requires AllInOrder(front + [last], num) && AllInOrder(inserted, num)
    requires forall x :: x in inserted <==> x == l || x in front
    requires num(last.lineNumber).Some? && Compare(l, last, num) < 0.0
    ensures AllNumeric(inserted + [last], num) && AllInOrder(inserted + [last], num)
  {
    forall i | 0 <= i < |inserted|
      ensures InOrder(inserted[i], last, num)
    {
      if inserted[i] != l {
        assert inserted[i] in inserted;
        var k :| 0 <= k < |front| && front[k] == inserted[i];
        assert InOrder((front + [last])[k], (front + [last])[|front|], num);
      }
    }
  }

  lemma AfterLast(sorted: seq<Line>, l: Line, num: string -> Option<real>)
    requires sorted != [] && AllNumeric(sorted, num) && num(l.lineNumber).Some? && AllInOrder(sorted, num)
    requires Compare(l, sorted[|sorted| - 1], num) >= 0.0
    ensures AllNumeric(sorted + [l], num) && AllInOrder(sorted + [l], num)
  {
    var last := sorted[|sorted| - 1];
    assert last in sorted;
    forall i | 0 <= i < |sorted|
      ensures num(sorted[i].lineNumber).Some? && InOrder(sorted[i], l, num)
    {
      assert sorted[i] in sorted;
      if i < |sorted| - 1 {
        assert InOrder(sorted[i], last, num);
      }
    }
  }

  /** When every line number is numeric, an invoice's lines come out by number, ties in sheet order. */
  lemma {:induction false} LinesComeOutInOrder(lines: seq<Line>, num: string -> Option<real>)
    requires AllNumeric(lines, num)
    ensures AllNumeric(Ordered(lines, num), num) && AllInOrder(Ordered(lines, num), num)
  {
    if lines != [] {
      hide Insert;
      var front, last := lines[..|lines| - 1], lines[|lines| - 1];
      assert last in lines;
      LinesComeOutInOrder(front, num);
      InsertOrders(last, Ordered(front, num), num);
    }
  }

  // --- Orphans --------------------------------------------------------------

  datatype Group = Group(number: string, lines: seq<Line>)

  function GroupAt(groups: seq<Group>, number: string): (k: nat)
    ensures k <= |groups| && (k < |groups| ==> groups[k].number == number)
    ensures forall j :: 0 <= j < k ==> groups[j].number != number
  {
    if groups == [] || groups[0].number == number then 0 else 1 + GroupAt(groups[1..], number)
  }

  function Grouped(groups: seq<Group>, p: Pending): seq<Group> {
    var k := GroupAt(groups, p.invoiceNumber);
    if k < |groups| then groups[k := groups[k].(lines := groups[k].lines + [p.line])]
    else groups + [Group(p.invoiceNumber, [p.line])]
  }

  /** Orphans gathered by the number they name, numbers in order of first appearance. */
  function GroupsOf(orphans: seq<Pending>): seq<Group> {
    if orphans == [] then [] else Grouped(GroupsOf(orphans[..|orphans| - 1]), orphans[|orphans| - 1])
  }

  function GroupLines(groups: seq<Group>): multiset<Line> {
    if groups == [] then multiset{} else GroupLines(groups[..|groups| - 1]) + multiset(groups[|groups| - 1].lines)
  }

  predicate NumbersDistinct(groups: seq<Group>) {
    forall i, j :: 0 <= i < j < |groups| ==> groups[i].number != groups[j].number
  }

  /** Gathers orphans one by one into a map of lists kept in insertion order. */
  method GroupOrphans(orphans: seq<Pending>) returns (groups: seq<Group>)
    ensures groups == GroupsOf(orphans)
  {
    groups := [];
    var at: map<string, nat> := map[];
    for n := 0 to |orphans|
      invariant groups == GroupsOf(orphans[..n]) && NumbersDistinct(groups)
      invariant forall k :: (k in at ==> at[k] < |groups| && groups[at[k]].number == k)
      invariant forall i :: 0 <= i < |groups| ==> groups[i].number in at
    {
      assert orphans[..n + 1][..n] == orphans[..n];
      var o := orphans[n];
      if o.invoiceNumber in at {
        var k := at[o.invoiceNumber];
        groups := groups[k := groups[k].(lines := groups[k].lines + [o.line])];
      } else {
        at := at[o.invoiceNumber := |groups|];
        groups := groups + [Group(o.invoiceNumber, [o.line])];
      }
    }
    assert orphans[..|orphans|] == orphans;
  }

  lemma {:induction false} PushedToGroup(groups: seq<Group>, k: nat, line: Line)
    requires k < |groups|
    ensures GroupLines(groups[k := groups[k].(lines := groups[k].lines + [line])]) == GroupLines(groups) + multiset{line}
  {
    var after := groups[k := groups[k].(lines := groups[k].lines + [line])];
    var n := |groups| - 1;
    if k < n {
      PushedToGroup(groups[..n], k, line);
      assert after[..n] == groups[..n][k := groups[k].(lines := groups[k].lines + [line])];
    } else {
      assert after[..n] == groups[..n];
    }
  }

  lemma GroupedConserves(groups: seq<Group>, p: Pending)
    requires NumbersDistinct(groups)
    ensures GroupLines(Grouped(groups, p)) == GroupLines(groups) + multiset{p.line} && NumbersDistinct(Grouped(groups, p))
  {
    var k := GroupAt(groups, p.invoiceNumber);
    if k < |groups| {
      PushedToGroup(groups, k, p.line);
    } else {
      assert (groups + [Group(p.invoiceNumber, [p.line])])[..|groups|] == groups;
    }
  }

  /** One group a number, and every orphan in exactly one group. */
  lemma {:induction false} OrphansAllGrouped(orphans: seq<Pending>)
    ensures GroupLines(GroupsOf(orphans)) == multiset(LinesIn(orphans)) && NumbersDistinct(GroupsOf(orphans))
  {
    if orphans != [] {
      hide GroupLines, NumbersDistinct, Grouped;
      var front, p := orphans[..|orphans| - 1], orphans[|orphans| - 1];
      OrphansAllGrouped(front);
      GroupedConserves(GroupsOf(front), p);
    } else {
      assert GroupLines([]) == multiset{};
    }
  }

  /** The invoice that stands in for a missing header: nothing but the number, the defaults and the lines. */
  function Synthetic(id: string, g: Group): Invoice {
    RecalcInvoice(Invoice(id, g.number, "", "", "", "AED", "1.000000", "", "", "", "", "", "", "", "", g.lines,
                          "", "", "", "", "", "", None))
  }

  function Synthetics(groups: seq<Group>, id: nat -> string): (r: seq<Invoice>)
    ensures |r| == |groups|
  {
    seq(|groups|, i requires 0 <= i < |groups| => Synthetic(id(i), groups[i]))
  }

  // --- Line ids -------------------------------------------------------------

  /** Identifiers drawn for different rows are different, and no two rows share a number. */
  ghost predicate Drawn(rows: seq<SheetRow>, ids: Ids) {
    forall i, j :: 0 <= i < j < |rows| ==> ids.line(rows[i].number) != ids.line(rows[j].number)
  }

  lemma {:induction false} PendingIdsOnce(rows: seq<SheetRow>, c: map<string, nat>, ids: Ids)
    requires Drawn(rows, ids)
    ensures DistinctIds(LinesIn(Lines(rows, c, ids)))
    ensures forall l :: l in LinesIn(Lines(rows, c, ids)) ==> exists i :: 0 <= i < |rows| && l.id == ids.line(rows[i].number)
  {
    hide MeaningfulLine, Read;
    if rows != [] {
      var n := |rows| - 1;
      PendingIdsOnce(rows[..n], c, ids);
      var front := Lines(rows[..n], c, ids);
      forall l | l in LinesIn(front)
        ensures l.id != ids.line(rows[n].number) && exists i :: 0 <= i < |rows| && l.id == ids.line(rows[i].number)
      {
        var i :| 0 <= i < |rows[..n]| && l.id == ids.line(rows[..n][i].number);
        assert ids.line(rows[i].number) != ids.line(rows[n].number);
      }
      if MeaningfulLine(rows[n], c) {
        assert (front + [LineOf(rows[n], c, ids)])[..|front|] == front;
      } else {
        assert front + [] == front;
      }
    }
  }

  /** Lines among lines with unique ids, each at most once, have unique ids themselves. */
  lemma PartIdsOnce(part: seq<Line>, whole: seq<Line>)
    requires DistinctIds(whole) && multiset(part) <= multiset(whole)
    ensures DistinctIds(part)
  {
    forall i, j | 0 <= i < j < |part|
      ensures part[i].id != part[j].id
    {
      assert part[i] in multiset(part) && part[j] in multiset(part);
      assert part[i] in whole && part[j] in whole;
      if part[i].id == part[j].id {
        OneLinePerId(whole, part[i], part[j]);
        Twice(part, i, j);
        Once(whole, part[i]);
      }
    }
  }

  lemma OneLinePerId(whole: seq<Line>, a: Line, b: Line)
    requires DistinctIds(whole) && a in whole && b in whole && a.id == b.id
    ensures a == b
  {
  }

  lemma Twice(part: seq<Line>, i: nat, j: nat)
    requires i < j < |part| && part[i] == part[j]
    ensures multiset(part)[part[i]] >= 2
  {
    assert part == part[..j] + [part[j]] + part[j + 1..];
    assert part[i] in part[..j];
    assert multiset(part[..j])[part[i]] >= 1;
  }

  lemma {:induction false} Once(whole: seq<Line>, l: Line)
    requires DistinctIds(whole)
    ensures multiset(whole)[l] <= 1
  {
    if whole != [] {
      var n := |whole| - 1;
      Once(whole[..n], l);
      assert whole == whole[..n] + [whole[n]];
      if whole[n] == l {
        assert l !in whole[..n];
      }
    }
  }

  lemma {:induction false} PartOfAll(invoices: seq<Invoice>, k: nat)
    requires k < |invoices|
    ensures multiset(invoices[k].lines) <= AllLines(invoices)
  {
    if k < |invoices| - 1 {
      PartOfAll(invoices[..|invoices| - 1], k);
    }
  }

  lemma {:induction false} PartOfGroups(groups: seq<Group>, k: nat)
    requires k < |groups|
    ensures multiset(groups[k].lines) <= GroupLines(groups)
  {
    if k < |groups| - 1 {
      PartOfGroups(groups[..|groups| - 1], k);
    }
  }

  lemma SyntheticIs(id: string, g: Group)
    requires DistinctIds(g.lines)
    ensures UniqueLineIds(Synthetic(id, g)) && Synthetic(id, g).invoiceType == ""
  {
    SameIds(Invoice(id, g.number, "", "", "", "AED", "1.000000", "", "", "", "", "", "", "", "", g.lines, "", "", "", "", "", "", None));
    hide RecalcLines, Print, NetSum, VatSum, RoundTo, FxFactor, Times;
  }

  /** What the parser hands to staging is an upload: unique line ids everywhere, and typeless synthetic invoices. */
  lemma ParsedIsUpload(headerSheet: Option<SheetText>, lineSheet: Option<SheetText>, maxRows: nat, ids: Ids,
                       num: string -> Option<real>, synthetic: nat -> string)
    requires lineSheet.Some? ==> Drawn(lineSheet.value.rows, ids)
    ensures var r := ParseOf(headerSheet, lineSheet, maxRows, ids, num);
      r.Parsed? ==> PromotionRules.Upload(r.invoices, Synthetics(GroupsOf(r.orphans), synthetic))
  {
    var r := ParseOf(headerSheet, lineSheet, maxRows, ids, num);
    if r.Parsed? {
      NothingLost(headerSheet, lineSheet, maxRows, ids, num);
      OrphansAllGrouped(r.orphans);
      PendingIdsOnce(lineSheet.value.rows, ColumnsOf(LINE_COLUMNS, lineSheet.value.header), ids);
      var whole := LinesIn(PendingLines(lineSheet, ids));
      assert DistinctIds(whole);
      hide ParseOf, PendingLines, AllLines, LinesIn, GroupLines, GroupsOf, Drawn, Synthetic;
      UploadParts(r.invoices, GroupsOf(r.orphans), r.orphans, whole, synthetic);
    }
  }

  lemma UploadParts(invoices: seq<Invoice>, groups: seq<Group>, orphans: seq<Pending>, whole: seq<Line>, synthetic: nat -> string)
    requires DistinctIds(whole)
    requires AllLines(invoices) + multiset(LinesIn(orphans)) == multiset(whole)
    requires GroupLines(groups) == multiset(LinesIn(orphans))
    ensures PromotionRules.Upload(invoices, Synthetics(groups, synthetic))
  {
    hide AllLines, LinesIn, GroupLines, Synthetic;
    forall x | x in invoices
      ensures UniqueLineIds(x)
    {
      var k :| 0 <= k < |invoices| && invoices[k] == x;
      PartOfAll(invoices, k);
      PartIdsOnce(x.lines, whole);
    }
    forall x | x in Synthetics(groups, synthetic)
      ensures UniqueLineIds(x) && x.invoiceType == ""
    {
      var k :| 0 <= k < |groups| && x == Synthetic(synthetic(k), groups[k]);
      PartOfGroups(groups, k);
      PartIdsOnce(groups[k].lines, whole);
      SyntheticIs(synthetic(k), groups[k]);
    }
  }
}
