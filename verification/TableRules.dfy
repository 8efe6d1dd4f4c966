/** Derived tables agree with the rows: batch counters with a recount, the validation log with the stored findings. */
module TableRules {
  import opened Text
  import opened Calc
  import opened Validate
  import opened Patches
  import opened Staging
  import opened StagingRules
  import opened PromotionRules

  // --- Counters -------------------------------------------------------------

  /** Total, valid and invalid equal a recount; `submitted` may lag behind a rejection, never the other way. */
  predicate CounterOk(c: Counters, rows: seq<Row>) {
    && c.total == |rows| && c.valid == CountValid(rows) && c.invalid == c.total - c.valid
    && c.submitted >= CountPromoted(rows)
  }

  ghost predicate CountersOk<A>(s: Store<A>) {
    forall b :: b in s.counters ==> b in s.rows && CounterOk(s.counters[b], s.rows[b])
  }

  /** Every row's log is what the row holds. */
  ghost predicate LogsOk<A>(s: Store<A>) {
    forall b, i :: b in s.rows && 0 <= i < |s.rows[b]| ==>
      s.rows[b][i].id in s.logs && s.logs[s.rows[b][i].id] == s.rows[b][i].findings
  }

  ghost predicate Tallied<A>(s: Store<A>) {
    CountersOk(s) && LogsOk(s)
  }

  lemma RefreshCounts<A>(s: Store<A>, t: Store<A>, b: BatchId)
    requires CountersOk(s) && b in t.rows && t.rows == s.rows[b := t.rows[b]]
    requires t.counters == s.counters[b := CountersOf(t.rows[b])]
    ensures CountersOk(t)
  {
    hide CountValid, CountPromoted;
  }

  lemma {:induction false} SameCounts(before: seq<Row>, after: seq<Row>)
    requires |after| == |before|
    requires forall i :: 0 <= i < |before| ==> after[i].submittable == before[i].submittable
    requires forall i :: 0 <= i < |before| ==> after[i].invoiceId.Some? ==> before[i].invoiceId.Some?
    ensures CountValid(after) == CountValid(before) && CountPromoted(after) <= CountPromoted(before)
  {
    if before != [] {
      SameCounts(before[..|before| - 1], after[..|before| - 1]);
    }
  }

  // --- The log --------------------------------------------------------------

  lemma {:induction false} LoggedAt(logs: map<RowId, seq<Finding>>, rows: seq<Row>, id: RowId)
    requires forall i, j :: 0 <= i < j < |rows| ==> rows[i].id != rows[j].id
    ensures (forall i :: 0 <= i < |rows| ==> rows[i].id != id) ==>
      ((id in Logged(logs, rows) <==> id in logs) && (id in logs ==> Logged(logs, rows)[id] == logs[id]))
    ensures forall i :: 0 <= i < |rows| && rows[i].id == id ==> id in Logged(logs, rows) && Logged(logs, rows)[id] == rows[i].findings
  {
    if rows != [] {
      LoggedAt(logs, rows[..|rows| - 1], id);
    }
  }

  predicate SameIds(before: seq<Row>, after: seq<Row>) {
    |after| == |before| && forall i :: 0 <= i < |before| ==> after[i].id == before[i].id
  }

  lemma {:induction false} ReloggedAt(logs: map<RowId, seq<Finding>>, before: seq<Row>, after: seq<Row>, touched: Row -> bool, id: RowId)
    requires SameIds(before, after)
    requires forall i, j :: 0 <= i < j < |before| ==> before[i].id != before[j].id
    ensures var r := Relogged(logs, before, after, touched);
      && ((forall i :: 0 <= i < |before| && before[i].id == id ==> !touched(before[i])) ==>
           (id in r <==> id in logs) && (id in logs ==> r[id] == logs[id]))
      && (forall i :: 0 <= i < |before| && before[i].id == id && touched(before[i]) ==> id in r && r[id] == after[i].findings)
  {
    if before != [] {
      var n := |before| - 1;
      ReloggedAt(logs, before[..n], after[..n], touched, id);
    }
  }

  lemma BatchIds<A>(s: Store<A>, b: BatchId)
    requires IdsDistinct(s) && b in s.rows
    ensures forall i, j :: 0 <= i < j < |s.rows[b]| ==> s.rows[b][i].id != s.rows[b][j].id
  {
  }

  lemma OtherBatchIds<A>(s: Store<A>, b: BatchId, c: BatchId, i: nat)
    requires IdsDistinct(s) && b in s.rows && c in s.rows && b != c && i < |s.rows[c]|
    ensures forall j :: 0 <= j < |s.rows[b]| ==> s.rows[b][j].id != s.rows[c][i].id
  {
  }

  lemma RewriteLogs<A>(s: Store<A>, t: Store<A>, b: BatchId, touched: Row -> bool)
    requires IdsDistinct(s) && LogsOk(s) && b in s.rows && b in t.rows && t.rows == s.rows[b := t.rows[b]]
    requires SameIds(s.rows[b], t.rows[b])
    requires forall i :: 0 <= i < |s.rows[b]| && !touched(s.rows[b][i]) ==> t.rows[b][i] == s.rows[b][i]
    requires t.logs == Relogged(s.logs, s.rows[b], t.rows[b], touched)
    ensures LogsOk(t)
  {
    BatchIds(s, b);
    forall c, i | c in t.rows && 0 <= i < |t.rows[c]|
      ensures t.rows[c][i].id in t.logs && t.logs[t.rows[c][i].id] == t.rows[c][i].findings
    {
      var id := s.rows[c][i].id;
      ReloggedAt(s.logs, s.rows[b], t.rows[b], touched, id);
      hide Relogged;
      if c != b {
        OtherBatchIds(s, b, c, i);
      }
    }
  }

  // --- Every step keeps the tables ------------------------------------------

  lemma RewritesTallied<A>(s: Store<A>, b: BatchId, ctx: Context)
    requires IdsDistinct(s) && Tallied(s) && b in s.rows
    ensures Tallied(Revalidate(s, b, ctx)) && Tallied(AutoFixRows(s, b, ctx))
  {
    var c := BatchContext(s, b, ctx);
    var t, u := Revalidate(s, b, ctx), AutoFixRows(s, b, ctx);
    RowsShape(s.rows[b], c);
    hide BatchContext, CountersOf, Relogged, RevalidatedRow, FixedRow, Open, Fixable;
    RewriteLogs(s, t, b, Open);
    RewriteLogs(s, u, b, Fixable);
    hide LogsOk, IdsDistinct;
    RefreshCounts(s, t, b);
    RefreshCounts(s, u, b);
  }

  lemma RowsShape(rows: seq<Row>, ctx: Context)
    ensures SameIds(rows, RevalidatedRows(rows, ctx)) && SameIds(rows, FixedRows(rows, ctx))
    ensures forall i :: 0 <= i < |rows| && !Open(rows[i]) ==> RevalidatedRows(rows, ctx)[i] == rows[i]
    ensures forall i :: 0 <= i < |rows| && !Fixable(rows[i]) ==> FixedRows(rows, ctx)[i] == rows[i]
  {
    hide Findings, Submittable, RecalcInvoice, AutoFix.Fix, AutoFix.Changes;
  }

  lemma EditTallied<A>(s: Store<A>, b: BatchId, id: RowId, p: Patch, ctx: Context)
    requires IdsDistinct(s) && Tallied(s) && b in s.rows
    ensures Tallied(Edit(s, b, id, p, ctx))
  {
    EditIs(s, b, id, p, ctx);
    var i := Position(s.rows[b], id);
    if i < |s.rows[b]| && s.rows[b][i].invoiceId.None? && Patches.Changes(s.rows[b][i].payload, p) {
      var y := RecalcInvoice(Patched(s.rows[b][i].payload, p));
      var row := Judged(s.rows[b][i], y, EditContext(s, b, id, y, ctx));
      JudgedLinks(s.rows[b][i], y, EditContext(s, b, id, y, ctx));
      hide Edit, Patched, RecalcInvoice, Judged, EditContext, Patches.Changes;
      ReplacedTallied(s, b, i, row);
    }
  }

  lemma ReplacedTallied<A>(s: Store<A>, b: BatchId, i: nat, row: Row)
    requires IdsDistinct(s) && Tallied(s) && b in s.rows && i < |s.rows[b]| && row.id == s.rows[b][i].id
    ensures Tallied(Refreshed(Replaced(s, b, i, row), b))
  {
    hide CountersOf;
    RefreshCounts(s, Refreshed(Replaced(s, b, i, row), b), b);
    hide CountersOk;
  }

  lemma DeleteTallied<A>(s: Store<A>, b: BatchId, id: RowId)
    requires IdsDistinct(s) && Tallied(s) && b in s.rows
    ensures Tallied(Delete(s, b, id))
  {
    var i := Position(s.rows[b], id);
    var rows := s.rows[b];
    if i < |rows| && rows[i].invoiceId.None? {
      var t := Delete(s, b, id);
      hide CountersOf, Position, CountersOk, LogsOk, IdsDistinct;
      assert t.rows == s.rows[b := rows[..i] + rows[i + 1..]] && t.logs == s.logs - {id};
      assert t.counters == s.counters[b := CountersOf(t.rows[b])];
      hide Delete;
      RefreshCounts(s, t, b);
      DeletedLogs(s, t, b, i);
    }
  }

  lemma DeletedLogs<A>(s: Store<A>, t: Store<A>, b: BatchId, i: nat)
    requires IdsDistinct(s) && LogsOk(s) && b in s.rows && i < |s.rows[b]|
    requires t.rows == s.rows[b := s.rows[b][..i] + s.rows[b][i + 1..]] && t.logs == s.logs - {s.rows[b][i].id}
    ensures LogsOk(t)
  {
    forall c, k | c in t.rows && 0 <= k < |t.rows[c]|
      ensures t.rows[c][k].id in t.logs && t.logs[t.rows[c][k].id] == t.rows[c][k].findings
    {
      var from := Before(b, i, c, k);
      assert t.rows[c][k] == s.rows[c][from];
      assert s.rows[c][from].id != s.rows[b][i].id;
    }
  }

  lemma ParseTallied<A>(s: Store<A>, b: BatchId, parsed: seq<Invoice>, synthetic: seq<Invoice>, ctx: Context)
    requires Consistent(s) && Tallied(s)
    ensures Tallied(Parse(s, b, parsed, synthetic, ctx))
  {
    if !Promoted(RowsOf(s, b)) {
      var t := Parse(s, b, parsed, synthetic, ctx);
      var c := ParseContext(s, parsed, ctx);
      hide NewRows, ParseContext, CountersOf, Logged, Consistent, Tallied;
      FirstIds(s.nextRow, parsed + synthetic, c);
      var cleared := s.logs - IdsOf(RowsOf(s, b));
      assert t.rows == s.rows[b := NewRows(s.nextRow, parsed + synthetic, c)] && t.logs == Logged(cleared, t.rows[b]);
      assert t.counters == s.counters[b := CountersOf(t.rows[b])];
      hide Parse, IdsOf;
      OlderIds(s);
      ParsedTables(s, t, b, cleared);
    }
  }

  lemma FirstIds(first: RowId, all: seq<Invoice>, ctx: Context)
    ensures forall i :: 0 <= i < |all| ==> NewRows(first, all, ctx)[i].id == first + i
  {
    NewRowsAre(first, all, ctx);
    hide NewRows, NewRow;
    forall i | 0 <= i < |all|
      ensures NewRows(first, all, ctx)[i].id == first + i
    {
      NewRowIs(first + i, all[i], ctx);
    }
  }

  lemma ParsedTables<A>(s: Store<A>, t: Store<A>, b: BatchId, cleared: map<RowId, seq<Finding>>)
    requires IdsDistinct(s) && Tallied(s) && b in t.rows && t.rows == s.rows[b := t.rows[b]]
    requires forall c, i :: c in s.rows && 0 <= i < |s.rows[c]| ==> s.rows[c][i].id < s.nextRow
    requires forall i :: 0 <= i < |t.rows[b]| ==> t.rows[b][i].id == s.nextRow + i
    requires cleared == s.logs - IdsOf(RowsOf(s, b)) && t.logs == Logged(cleared, t.rows[b])
    requires t.counters == s.counters[b := CountersOf(t.rows[b])]
    ensures Tallied(t)
  {
    hide CountersOk, LogsOk, IdsDistinct, Logged, CountersOf;
    RefreshCounts(s, t, b);
    ParsedLogs(s, t, b, cleared);
  }

  lemma OlderIds<A>(s: Store<A>)
    requires Consistent(s)
    ensures forall c, i :: c in s.rows && 0 <= i < |s.rows[c]| ==> s.rows[c][i].id < s.nextRow
    ensures IdsDistinct(s)
  {
    hide Sound, Linked, OnePerNumber, Holds, NumbersUnique;
    forall c, i | c in s.rows && 0 <= i < |s.rows[c]|
      ensures s.rows[c][i].id < s.nextRow
    {
      assert RowOk(s.rows[c][i], c, s.invoices, s.nextRow);
    }
  }

  lemma ParsedLogs<A>(s: Store<A>, t: Store<A>, b: BatchId, cleared: map<RowId, seq<Finding>>)
    requires IdsDistinct(s) && LogsOk(s) && b in t.rows && t.rows == s.rows[b := t.rows[b]]
    requires forall c, i :: c in s.rows && 0 <= i < |s.rows[c]| ==> s.rows[c][i].id < s.nextRow
    requires forall i :: 0 <= i < |t.rows[b]| ==> t.rows[b][i].id == s.nextRow + i
    requires cleared == s.logs - IdsOf(RowsOf(s, b)) && t.logs == Logged(cleared, t.rows[b])
    ensures LogsOk(t)
  {
    forall c, i | c in t.rows && 0 <= i < |t.rows[c]|
      ensures t.rows[c][i].id in t.logs && t.logs[t.rows[c][i].id] == t.rows[c][i].findings
    {
      LoggedAt(cleared, t.rows[b], t.rows[c][i].id);
      hide Logged;
      if c != b && b in s.rows {
        OtherBatchIds(s, b, c, i);
      }
    }
  }

  /** Rows as submission leaves them: only links are set. */
  predicate OnlyLinked(before: seq<Row>, after: seq<Row>) {
    |after| == |before| && forall i :: 0 <= i < |before| ==> after[i] == before[i].(invoiceId := after[i].invoiceId)
  }

  ghost predicate LinkedOnly<A>(s: Store<A>, t: Store<A>, b: BatchId) {
    && b in s.rows && b in t.rows && t.rows == s.rows[b := t.rows[b]] && OnlyLinked(s.rows[b], t.rows[b])
    && t.counters == s.counters && t.logs == s.logs
  }

  lemma {:induction false} PromotionOnlyLinks<A>(s: Store<A>, b: BatchId, n: nat, d: Submission)
    requires b in s.rows && n <= |s.rows[b]| && PromoteUpTo(s, b, n, d).Some?
    ensures LinkedOnly(s, PromoteUpTo(s, b, n, d).value, b)
  {
    hide LinkedOnly, PromoteRow;
    if n == 0 {
      LinkedAtFirst(s, b);
    } else {
      PromotionOnlyLinks(s, b, n - 1, d);
      RowOnlyLinks(s, PromoteUpTo(s, b, n - 1, d).value, b, n - 1, d);
    }
  }

  lemma LinkedAtFirst<A>(s: Store<A>, b: BatchId)
    requires b in s.rows
    ensures LinkedOnly(s, s, b)
  {
  }

  lemma RowOnlyLinks<A>(s: Store<A>, t: Store<A>, b: BatchId, k: nat, d: Submission)
    requires LinkedOnly(s, t, b) && k < |t.rows[b]| && PromoteRow(t, b, k, d).Some?
    ensures LinkedOnly(s, PromoteRow(t, b, k, d).value, b)
  {
    hide Refused, NewInvoice, Chosen;
  }

  lemma SubmitTallied<A>(s: Store<A>, b: BatchId, d: Submission)
    requires Tallied(s)
    ensures Tallied(Submit(s, b, d))
  {
    hide PromoteUpTo, CountersOf, CounterOk;
    if b in s.rows && PromoteUpTo(s, b, |s.rows[b]|, d).Some? {
      PromotionOnlyLinks(s, b, |s.rows[b]|, d);
      RefreshCounts(s, Submit(s, b, d), b);
      hide CountersOk;
    }
  }

  lemma RejectOneTallied<A>(s: Store<A>, ids: Option<set<InvoiceId>>, v: InvoiceId)
    requires Tallied(s)
    ensures Tallied(RejectOne(s, ids, v))
  {
    if Decidable(s, ids, v) {
      var t := RejectOne(s, ids, v);
      forall b | b in t.counters
        ensures b in t.rows && CounterOk(t.counters[b], t.rows[b])
      {
        SameCounts(s.rows[b], t.rows[b]);
      }
      hide CountersOk, Decidable;
    }
  }

  lemma {:induction false} RejectTallied<A>(s: Store<A>, ids: Option<set<InvoiceId>>, n: nat)
    requires Tallied(s)
    ensures Tallied(RejectUpTo(s, ids, n))
  {
    hide Tallied, RejectOne;
    if n > 0 {
      RejectTallied(s, ids, n - 1);
      RejectOneTallied(RejectUpTo(s, ids, n - 1), ids, n - 1);
    }
  }

  lemma {:induction false} ApproveKeepsRows<A>(s: Store<A>, ids: Option<set<InvoiceId>>, n: nat, user: UserId)
    ensures var t := ApproveUpTo(s, ids, n, user);
      t.rows == s.rows && t.counters == s.counters && t.logs == s.logs && t.nextInvoice == s.nextInvoice
  {
    if n > 0 {
      ApproveKeepsRows(s, ids, n - 1, user);
    }
  }
}
