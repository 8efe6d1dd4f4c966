/** From workbook to staged rows: what the parser hands over keeps its verdict when it is stored recalculated. */
module Uploads {
  import opened Text
  import opened Calc
  import opened Validate
  import opened RecalcFindings
  import opened Workbook
  import opened WorkbookResults
  import opened Staging
  import opened PromotionRules

  predicate TrimmedLines(lines: seq<Line>) {
    forall l :: l in lines ==> Trim(l.vatCategory) == l.vatCategory
  }

  lemma ReadIsTrimmed(row: SheetRow, c: map<string, nat>, field: string)
    ensures Trim(Read(row, c, field)) == Read(row, c, field)
  {
    TrimIsTrimmed("");
    if field in c && c[field] < |row.cells| {
      TrimIsTrimmed(row.cells[c[field]]);
    }
  }

  lemma {:induction false} PendingAreTrimmed(rows: seq<SheetRow>, c: map<string, nat>, ids: Ids)
    ensures TrimmedLines(LinesIn(Lines(rows, c, ids)))
  {
    hide MeaningfulLine, Read, Trim;
    if rows != [] {
      var n := |rows| - 1;
      var front := Lines(rows[..n], c, ids);
      PendingAreTrimmed(rows[..n], c, ids);
      ReadIsTrimmed(rows[n], c, "vatCategory");
      LinesInStep(front, LineOf(rows[n], c, ids));
      assert front + [] == front;
    }
  }

  lemma PartIsTrimmed(part: seq<Line>, whole: seq<Line>)
    requires TrimmedLines(whole) && multiset(part) <= multiset(whole)
    ensures TrimmedLines(part)
  {
    hide Trim;
    forall l | l in part
      ensures Trim(l.vatCategory) == l.vatCategory
    {
      assert l in multiset(part);
      assert l in whole;
    }
  }

  /** Every invoice the parser returns holds lines whose category carries no stray spaces. */
  lemma ParsedIsTrimmed(headerSheet: Option<SheetText>, lineSheet: Option<SheetText>, maxRows: nat, ids: Ids,
                        num: string -> Option<real>, k: nat)
    requires var r := ParseOf(headerSheet, lineSheet, maxRows, ids, num); r.Parsed? && k < |r.invoices|
    ensures TrimmedCategories(ParseOf(headerSheet, lineSheet, maxRows, ids, num).invoices[k])
  {
    var r := ParseOf(headerSheet, lineSheet, maxRows, ids, num);
    NothingLost(headerSheet, lineSheet, maxRows, ids, num);
    PendingAreTrimmed(lineSheet.value.rows, ColumnsOf(LINE_COLUMNS, lineSheet.value.header), ids);
    PartOfAll(r.invoices, k);
    hide ParseOf, AllLines, LinesIn, Lines, ColumnsOf, Trim;
    PartIsTrimmed(r.invoices[k].lines, LinesIn(PendingLines(lineSheet, ids)));
  }

  lemma TrimmedKeepsVerdict(x: Invoice, ctx: Context)
    requires UniqueLineIds(x) && TrimmedCategories(x) && Submittable(x, ctx)
    ensures Submittable(RecalcInvoice(x), ctx)
  {
    RecalcKeepsSubmittable(x, ctx);
    hide Submittable, RecalcInvoice, UniqueLineIds, Trim;
  }

  /**
   * The verdict of an upload holds for what is stored: a row that staging inserts as submittable is one whose
   * stored, recalculated payload is submittable too, under the same context.
   */
  lemma StoredKeepsVerdict(headerSheet: Option<SheetText>, lineSheet: Option<SheetText>, maxRows: nat, ids: Ids,
                           num: string -> Option<real>, synthetic: nat -> string, first: RowId, ctx: Context, i: nat)
    requires ParseOf(headerSheet, lineSheet, maxRows, ids, num).Parsed?
    requires Drawn(lineSheet.value.rows, ids)
    requires var r := ParseOf(headerSheet, lineSheet, maxRows, ids, num); i < |r.invoices| + |GroupsOf(r.orphans)|
    ensures var r := ParseOf(headerSheet, lineSheet, maxRows, ids, num);
      var row := NewRows(first, r.invoices + Synthetics(GroupsOf(r.orphans), synthetic), ctx)[i];
      row.submittable ==> Submittable(row.payload, ctx)
  {
    var r := ParseOf(headerSheet, lineSheet, maxRows, ids, num);
    ParsedIsUpload(headerSheet, lineSheet, maxRows, ids, num, synthetic);
    if i < |r.invoices| {
      ParsedIsTrimmed(headerSheet, lineSheet, maxRows, ids, num, i);
    }
    var parsed, extra := r.invoices, Synthetics(GroupsOf(r.orphans), synthetic);
    hide ParseOf, GroupsOf, Synthetics, Synthetic, Drawn, Submittable, Findings, RecalcInvoice, UniqueLineIds, TrimmedCategories;
    NewRowsAre(first, parsed + extra, ctx);
    hide NewRows;
    if i < |parsed| {
      assert (parsed + extra)[i] == parsed[i] && parsed[i] in parsed;
      if Submittable(parsed[i], ctx) {
        TrimmedKeepsVerdict(parsed[i], ctx);
      }
    } else {
      assert (parsed + extra)[i] == extra[i - |parsed|] && extra[i - |parsed|] in extra;
      NoType(extra[i - |parsed|], ctx);
    }
  }
}
