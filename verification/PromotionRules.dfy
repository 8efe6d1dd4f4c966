/** Parsing, deleting, submitting, approving and rejecting keep staging consistent; promoted rows stay frozen. */
module PromotionRules {
  import opened Text
  import opened Calc
  import opened Codes
  import opened Validate
  import opened RecalcFindings
  import opened StagedPayload
  import opened Patches
  import opened Columns
  import opened Staging
  import opened StagingRules

  // --- Parse ----------------------------------------------------------------

  /** What the parser hands over: line ids drawn at random, and synthetic invoices with no type. */
  predicate Upload(parsed: seq<Invoice>, synthetic: seq<Invoice>) {
    && (forall x :: x in parsed ==> UniqueLineIds(x))
    && (forall x :: x in synthetic ==> UniqueLineIds(x) && x.invoiceType == "")
  }

  lemma NoType(x: Invoice, ctx: Context)
    requires x.invoiceType == ""
    ensures !Submittable(x, ctx)
  {
    hide RecalcLines, Print, NetSum, VatSum, LineAccepted, Uncomputable, TotalsAgree, NumberOk, DateOk, CurrencyOk, SupplierOk,
      BuyerOk, ReferencesOk, TimeShape, Findings;
    assert RecalcInvoice(x).invoiceType == "";
    TrimIsTrimmed("");
    assert !InvoiceOk(x, ctx);
  }

  lemma UploadCountsCount(parsed: seq<Invoice>)
    ensures CountsOf(parsed, UploadCounts(parsed))
  {
    hide Trim;
    forall n | n != "" && n !in UploadCounts(parsed)
      ensures CountInvoices(parsed, n) == 0
    {
      CountNone(parsed, n);
    }
  }

  lemma {:induction false} CountNone(parsed: seq<Invoice>, n: string)
    requires forall x :: x in parsed ==> Trim(x.invoiceNumber) != n
    ensures CountInvoices(parsed, n) == 0
  {
    hide Trim;
    if parsed != [] {
      CountNone(parsed[..|parsed| - 1], n);
    }
  }

  /** An upload's own duplicates hold each other back, spaces or not; synthetic rows are never submittable. */
  lemma ParsedOnePerNumber(first: RowId, parsed: seq<Invoice>, synthetic: seq<Invoice>, ctx: Context)
    requires Upload(parsed, synthetic) && ctx.batch == UploadCounts(parsed)
    ensures OnePerNumber(NewRows(first, parsed + synthetic, ctx))
  {
    var all := parsed + synthetic;
    var rows := NewRows(first, all, ctx);
    UploadCountsCount(parsed);
    hide CountsOf, UploadCounts, Submittable, Findings, RecalcInvoice, UniqueLineIds, Trim;
    forall i, j | 0 <= i < j < |rows| && rows[i].submittable && rows[j].submittable
      ensures rows[i].number != rows[j].number
    {
      if j >= |parsed| {
        assert all[j] in synthetic;
        NoType(all[j], ctx);
      } else if rows[i].number == rows[j].number {
        DuplicatesHeldBack(parsed, ctx, i, j);
      }
    }
  }

  lemma NewRowsAre(first: RowId, all: seq<Invoice>, ctx: Context)
    ensures forall i :: 0 <= i < |all| ==> NewRows(first, all, ctx)[i] == NewRow(first + i, all[i], ctx)
  {
    hide NewRow;
  }

  lemma NewRowIs(id: RowId, x: Invoice, ctx: Context)
    ensures NewRow(id, x, ctx).id == id && NewRow(id, x, ctx).invoiceId == None
  {
    hide Findings, Submittable, RecalcInvoice;
  }

  lemma ReplaceWithFresh<A>(s: Store<A>, t: Store<A>, b: BatchId)
    requires Consistent(s) && !Promoted(RowsOf(s, b)) && b in t.rows
    requires t.rows == s.rows[b := t.rows[b]] && t.invoices == s.invoices && t.nextInvoice == s.nextInvoice
    requires t.nextRow == s.nextRow + |t.rows[b]|
    requires forall i :: 0 <= i < |t.rows[b]| ==> t.rows[b][i].id == s.nextRow + i && t.rows[b][i].invoiceId == None && Sound(t.rows[b][i])
    requires OnePerNumber(t.rows[b])
    ensures Consistent(t)
  {
    hide Sound, Linked, OnePerNumber;
    forall c, i | c in t.rows && 0 <= i < |t.rows[c]|
      ensures RowOk(t.rows[c][i], c, t.invoices, t.nextRow)
      ensures c != b ==> t.rows[c][i].id < s.nextRow
    {
      if c != b {
        assert RowOk(s.rows[c][i], c, s.invoices, s.nextRow);
      }
    }
    forall v | v in t.invoices
      ensures v < t.nextInvoice && t.invoices[v].batch in t.rows && Holds(t.rows[t.invoices[v].batch], v)
    {
      assert Holds(s.rows[s.invoices[v].batch], v);
    }
  }

  lemma ParseConsistent<A>(s: Store<A>, b: BatchId, parsed: seq<Invoice>, synthetic: seq<Invoice>, ctx: Context)
    requires Consistent(s) && Upload(parsed, synthetic)
    ensures Consistent(Parse(s, b, parsed, synthetic, ctx))
  {
    if !Promoted(RowsOf(s, b)) {
      var c := ParseContext(s, parsed, ctx);
      assert c.batch == UploadCounts(parsed) by { hide UploadCounts, FiledNumbers, NumbersOf; }
      var all := parsed + synthetic;
      var rows := NewRows(s.nextRow, all, c);
      ParsedOnePerNumber(s.nextRow, parsed, synthetic, c);
      NewRowsAre(s.nextRow, all, c);
      hide Consistent, Sound, NewRow, NewRows, UniqueLineIds, OnePerNumber, ParseContext, CountersOf, Logged, UploadCounts;
      forall i | 0 <= i < |rows|
        ensures rows[i].id == s.nextRow + i && rows[i].invoiceId == None && Sound(rows[i])
      {
        assert all[i] in parsed || all[i] in synthetic;
        NewRowIs(s.nextRow + i, all[i], c);
        NewRowIsSound(s.nextRow + i, all[i], c);
      }
      var t := Parse(s, b, parsed, synthetic, ctx);
      assert t.rows == s.rows[b := rows];
      ReplaceWithFresh(s, t, b);
    }
  }

  // --- Delete ---------------------------------------------------------------

  lemma DeleteConsistent<A>(s: Store<A>, b: BatchId, id: RowId)
    requires Consistent(s) && b in s.rows
    ensures Consistent(Delete(s, b, id))
  {
    hide Consistent, Delete, Position, RowsOk, IdsDistinct, InvoicesHeld, NumbersUnique, OnePerNumber;
    DeleteIs(s, b, id);
    var i := Position(s.rows[b], id);
    if i < |s.rows[b]| && s.rows[b][i].invoiceId.None? {
      DeletedConsistent(s, Delete(s, b, id), b, i);
    }
  }

  lemma DeleteIs<A>(s: Store<A>, b: BatchId, id: RowId)
    requires b in s.rows
    ensures var i, t := Position(s.rows[b], id), Delete(s, b, id);
      if i < |s.rows[b]| && s.rows[b][i].invoiceId.None? then
        && t.rows == s.rows[b := s.rows[b][..i] + s.rows[b][i + 1..]] && t.invoices == s.invoices
        && t.nextRow == s.nextRow && t.nextInvoice == s.nextInvoice
      else t == s
  {
    hide CountersOf, Position;
  }

  lemma DeletedConsistent<A>(s: Store<A>, t: Store<A>, b: BatchId, i: nat)
    requires Consistent(s) && b in s.rows && i < |s.rows[b]| && s.rows[b][i].invoiceId.None?
    requires t.rows == s.rows[b := s.rows[b][..i] + s.rows[b][i + 1..]] && t.invoices == s.invoices
    requires t.nextRow == s.nextRow && t.nextInvoice == s.nextInvoice
    ensures Consistent(t)
  {
    DeletedRows(s, t, b, i);
    DeletedInvoices(s, t, b, i);
    hide RowsOk, IdsDistinct, InvoicesHeld, NumbersUnique, OnePerNumber;
  }

  lemma DeletedRows<A>(s: Store<A>, t: Store<A>, b: BatchId, i: nat)
    requires Consistent(s) && b in s.rows && i < |s.rows[b]|
    requires t.rows == s.rows[b := s.rows[b][..i] + s.rows[b][i + 1..]] && t.invoices == s.invoices && t.nextRow == s.nextRow
    ensures RowsOk(t) && IdsDistinct(t) && NumbersUnique(t.invoices) && forall c :: c in t.rows ==> OnePerNumber(t.rows[c])
  {
    hide RowOk, Holds, NumbersUnique, InvoicesHeld;
    assert forall c, k :: c in t.rows && 0 <= k < |t.rows[c]| ==> t.rows[c][k] == s.rows[c][Before(b, i, c, k)];
    forall c, k | c in t.rows && 0 <= k < |t.rows[c]|
      ensures RowOk(t.rows[c][k], c, t.invoices, t.nextRow)
    {
      assert RowOk(s.rows[c][Before(b, i, c, k)], c, s.invoices, s.nextRow);
    }
    assert IdsDistinct(t) by { hide RowsOk, OnePerNumber; }
    forall c | c in t.rows
      ensures OnePerNumber(t.rows[c])
    {
      hide RowsOk, IdsDistinct, Trimmed;
      assert OnePerNumber(s.rows[c]);
    }
  }

  lemma DeletedInvoices<A>(s: Store<A>, t: Store<A>, b: BatchId, i: nat)
    requires InvoicesHeld(s) && b in s.rows && i < |s.rows[b]| && s.rows[b][i].invoiceId.None?
    requires t.rows == s.rows[b := s.rows[b][..i] + s.rows[b][i + 1..]] && t.invoices == s.invoices && t.nextInvoice == s.nextInvoice
    ensures InvoicesHeld(t)
  {
    forall v | v in t.invoices
      ensures v < t.nextInvoice && t.invoices[v].batch in t.rows && Holds(t.rows[t.invoices[v].batch], v)
    {
      var c := s.invoices[v].batch;
      assert Holds(s.rows[c], v);
      var k :| 0 <= k < |s.rows[c]| && s.rows[c][k].invoiceId == Some(v);
      assert t.rows[c][if c == b && k > i then k - 1 else k].invoiceId == Some(v);
    }
  }

  /** Where a row stood before row `i` of batch `b` went. */
  function Before(b: BatchId, i: nat, c: BatchId, k: nat): nat {
    if c == b && k >= i then k + 1 else k
  }

  // --- Submit ---------------------------------------------------------------

  lemma PromoteRowConsistent<A>(s: Store<A>, b: BatchId, k: nat, d: Submission)
    requires Consistent(s) && b in s.rows && k < |s.rows[b]|
    ensures PromoteRow(s, b, k, d).Some? ==> Consistent(PromoteRow(s, b, k, d).value)
  {
    var row := s.rows[b][k];
    if PromoteRow(s, b, k, d).Some? && Chosen(row, d) {
      var t := PromoteRow(s, b, k, d).value;
      var f: Filed<A> := NewInvoice(b, row, d);
      assert RowOk(row, b, s.invoices, s.nextRow);
      NewInvoiceLinks<A>(b, row, d);
      assert Sound(row.(invoiceId := Some(s.nextInvoice))) by { SoundIgnoresLink(row, Some(s.nextInvoice)); }
      hide Sound, Linked, NewInvoice, RecalcInvoice;
      assert t.invoices == s.invoices[s.nextInvoice := f];
      assert t.rows == s.rows[b := s.rows[b][k := row.(invoiceId := Some(s.nextInvoice))]];
      assert forall v :: v in s.invoices ==> v < s.nextInvoice;
      PromotedRowsOk(s, t, b, k, f);
      PromotedInvoices(s, t, b, k, f);
    }
  }

  lemma SoundIgnoresLink(row: Row, link: Option<InvoiceId>)
    requires Sound(row)
    ensures Sound(row.(invoiceId := link))
  {
    hide UniqueLineIds, StableInvoice, Agrees, RecalcInvoice;
  }

  lemma NewInvoiceLinks<A>(b: BatchId, row: Row, d: Submission)
    requires Chosen(row, d) && Insertable(RecalcInvoice(row.payload), d)
    ensures var f: Filed<A> := NewInvoice(b, row, d);
      && (forall link :: Linked(row.(invoiceId := link), b, f))
      && f.number == RecalcInvoice(row.payload).invoiceNumber && f.batch == b && f.row == row.id
  {
    hide RecalcInvoice;
  }

  lemma PromotedRowsOk<A>(s: Store<A>, t: Store<A>, b: BatchId, k: nat, f: Filed<A>)
    requires RowsOk(s) && IdsDistinct(s) && b in s.rows && k < |s.rows[b]| && s.rows[b][k].invoiceId.None?
    requires forall b :: b in s.rows ==> OnePerNumber(s.rows[b])
    requires forall v :: v in s.invoices ==> v < s.nextInvoice
    requires t.invoices == s.invoices[s.nextInvoice := f] && t.nextRow == s.nextRow
    requires t.rows == s.rows[b := s.rows[b][k := s.rows[b][k].(invoiceId := Some(s.nextInvoice))]]
    requires Linked(s.rows[b][k].(invoiceId := Some(s.nextInvoice)), b, f)
    requires Sound(s.rows[b][k].(invoiceId := Some(s.nextInvoice)))
    ensures RowsOk(t) && IdsDistinct(t)
    ensures forall b :: b in t.rows ==> OnePerNumber(t.rows[b])
  {
    hide Sound, Linked, Trimmed;
    forall c, i | c in t.rows && 0 <= i < |t.rows[c]|
      ensures RowOk(t.rows[c][i], c, t.invoices, t.nextRow)
    {
      assert RowOk(s.rows[c][i], c, s.invoices, s.nextRow);
    }
    assert IdsDistinct(t) by { hide RowsOk, OnePerNumber; }
    assert OnePerNumber(s.rows[b]);
  }

  lemma PromotedInvoices<A>(s: Store<A>, t: Store<A>, b: BatchId, k: nat, f: Filed<A>)
    requires InvoicesHeld(s) && NumbersUnique(s.invoices) && b in s.rows && k < |s.rows[b]| && s.rows[b][k].invoiceId.None?
    requires t.invoices == s.invoices[s.nextInvoice := f] && t.nextInvoice == s.nextInvoice + 1
    requires t.rows == s.rows[b := s.rows[b][k := s.rows[b][k].(invoiceId := Some(s.nextInvoice))]]
    requires f.batch == b && !Taken(s.invoices, f.number)
    ensures InvoicesHeld(t) && NumbersUnique(t.invoices)
  {
    forall v | v in t.invoices
      ensures v < t.nextInvoice && t.invoices[v].batch in t.rows && Holds(t.rows[t.invoices[v].batch], v)
    {
      if v == s.nextInvoice {
        assert t.rows[b][k].invoiceId == Some(v);
      } else {
        var rows := s.rows[s.invoices[v].batch];
        assert Holds(rows, v);
        var i :| 0 <= i < |rows| && rows[i].invoiceId == Some(v);
        assert t.rows[s.invoices[v].batch][i].invoiceId == Some(v);
      }
    }
    hide Holds;
  }

  lemma {:induction false} PromoteUpToConsistent<A>(s: Store<A>, b: BatchId, n: nat, d: Submission)
    requires Consistent(s) && b in s.rows && n <= |s.rows[b]|
    ensures PromoteUpTo(s, b, n, d).Some? ==> Consistent(PromoteUpTo(s, b, n, d).value)
  {
    hide Consistent, PromoteRow;
    if n > 0 {
      PromoteUpToConsistent(s, b, n - 1, d);
      if PromoteUpTo(s, b, n - 1, d).Some? {
        PromoteRowConsistent(PromoteUpTo(s, b, n - 1, d).value, b, n - 1, d);
      }
    }
  }

  lemma SubmitConsistent<A>(s: Store<A>, b: BatchId, d: Submission)
    requires Consistent(s)
    ensures Consistent(Submit(s, b, d))
  {
    if b in s.rows {
      PromoteUpToConsistent(s, b, |s.rows[b]|, d);
      hide Consistent, PromoteUpTo, CountersOf;
      if PromoteUpTo(s, b, |s.rows[b]|, d).Some? {
        CountersDoNotMatter(PromoteUpTo(s, b, |s.rows[b]|, d).value, Submit(s, b, d));
      }
    }
  }

  // --- Approve, reject, and every later change of an invoice ----------------

  /** The same invoices but for status, approver and archive. */
  ghost predicate SameLinks<A>(before: map<InvoiceId, Filed<A>>, after: map<InvoiceId, Filed<A>>) {
    && after.Keys == before.Keys
    && forall v :: v in before ==>
      after[v] == before[v].(status := after[v].status, approver := after[v].approver, archive := after[v].archive)
  }

  lemma SameLinksConsistent<A>(s: Store<A>, t: Store<A>)
    requires Consistent(s) && t == s.(invoices := t.invoices) && SameLinks(s.invoices, t.invoices)
    ensures Consistent(t)
  {
    hide Sound, OnePerNumber, Holds;
    forall c, i | c in t.rows && 0 <= i < |t.rows[c]|
      ensures RowOk(t.rows[c][i], c, t.invoices, t.nextRow)
    {
      assert RowOk(s.rows[c][i], c, s.invoices, s.nextRow);
    }
  }

  lemma {:induction false} ApproveConsistent<A>(s: Store<A>, ids: Option<set<InvoiceId>>, n: nat, user: UserId)
    requires Consistent(s)
    ensures Consistent(ApproveUpTo(s, ids, n, user))
  {
    hide Consistent;
    if n > 0 {
      ApproveConsistent(s, ids, n - 1, user);
      var t := ApproveUpTo(s, ids, n - 1, user);
      SameLinksConsistent(t, ApproveOne(t, ids, n - 1, user));
    }
  }

  lemma RejectOneConsistent<A>(s: Store<A>, ids: Option<set<InvoiceId>>, v: InvoiceId)
    requires Consistent(s)
    ensures Consistent(RejectOne(s, ids, v))
  {
    if Decidable(s, ids, v) {
      var t := RejectOne(s, ids, v);
      var f := s.invoices[v];
      RejectedRows(s, ids, v);
      hide Sound, Linked, Decidable, OnePerNumber, RejectOne;
      RejectedInvoices(s, ids, v);
    }
  }

  /** The row of an invoice: the one that holds it, and the only one with that id. */
  lemma RowOfInvoice<A>(s: Store<A>, v: InvoiceId) returns (i: nat)
    requires Consistent(s) && v in s.invoices
    ensures s.invoices[v].batch in s.rows && i < |s.rows[s.invoices[v].batch]|
    ensures var row := s.rows[s.invoices[v].batch][i];
      && row.invoiceId == Some(v) && Linked(row, s.invoices[v].batch, s.invoices[v])
  {
    hide Sound, Linked, OnePerNumber, IdsDistinct, NumbersUnique;
    var rows := s.rows[s.invoices[v].batch];
    assert Holds(rows, v);
    i :| 0 <= i < |rows| && rows[i].invoiceId == Some(v);
    assert RowOk(rows[i], s.invoices[v].batch, s.invoices, s.nextRow);
  }

  /** Two rows never hold the same invoice. */
  lemma OneHolder<A>(s: Store<A>, b: BatchId, i: nat, c: BatchId, j: nat)
    requires Consistent(s) && b in s.rows && i < |s.rows[b]| && c in s.rows && j < |s.rows[c]|
    requires s.rows[b][i].invoiceId.Some? && s.rows[b][i].invoiceId == s.rows[c][j].invoiceId
    ensures b == c && i == j
  {
    hide Sound, OnePerNumber, InvoicesHeld, NumbersUnique;
    assert RowOk(s.rows[b][i], b, s.invoices, s.nextRow);
    assert RowOk(s.rows[c][j], c, s.invoices, s.nextRow);
  }

  lemma RejectedRows<A>(s: Store<A>, ids: Option<set<InvoiceId>>, v: InvoiceId)
    requires Consistent(s) && Decidable(s, ids, v)
    ensures var t := RejectOne(s, ids, v);
      && RowsOk(t) && IdsDistinct(t) && (forall b :: b in t.rows ==> OnePerNumber(t.rows[b]))
      && t.rows.Keys == s.rows.Keys && (forall b :: b in s.rows ==> |t.rows[b]| == |s.rows[b]|)
      && forall b, i :: b in s.rows && 0 <= i < |s.rows[b]| ==>
        t.rows[b][i] == if s.rows[b][i].invoiceId == Some(v) then s.rows[b][i].(invoiceId := None) else s.rows[b][i]
  {
    hide Consistent;
    var t := RejectOne(s, ids, v);
    var f := s.invoices[v];
    var k := RowOfInvoice(s, v);
    assert forall b :: b in s.rows ==> b in t.rows && t.rows[b] == ReopenedRows(s.rows[b], f.row);
    assert t.rows.Keys == s.rows.Keys && t.invoices == s.invoices - {v} && t.nextRow == s.nextRow;
    hide RejectOne, Decidable, Linked;
    forall b, i | b in s.rows && 0 <= i < |s.rows[b]|
      ensures t.rows[b][i] == if s.rows[b][i].invoiceId == Some(v) then s.rows[b][i].(invoiceId := None) else s.rows[b][i]
      ensures RowOk(t.rows[b][i], b, t.invoices, t.nextRow)
    {
      OneReopened(s, t, v, f, k, b, i);
    }
    hide RowOk;
    ReopenedApart(s, t, v);
  }

  lemma ReopenedApart<A>(s: Store<A>, t: Store<A>, v: InvoiceId)
    requires Consistent(s)
    requires t.rows.Keys == s.rows.Keys && forall b :: b in s.rows ==> |t.rows[b]| == |s.rows[b]|
    requires forall b, i :: b in s.rows && 0 <= i < |s.rows[b]| ==>
      t.rows[b][i] == if s.rows[b][i].invoiceId == Some(v) then s.rows[b][i].(invoiceId := None) else s.rows[b][i]
    ensures IdsDistinct(t) && forall b :: b in t.rows ==> OnePerNumber(t.rows[b])
  {
    assert IdsDistinct(s);
    assert IdsDistinct(t) by { hide OnePerNumber, RowsOk, InvoicesHeld, NumbersUnique; }
    forall b | b in t.rows
      ensures OnePerNumber(t.rows[b])
    {
      assert OnePerNumber(s.rows[b]);
      hide IdsDistinct, RowsOk, InvoicesHeld, NumbersUnique, Trimmed;
    }
  }

  lemma OneReopened<A>(s: Store<A>, t: Store<A>, v: InvoiceId, f: Filed<A>, k: nat, b: BatchId, i: nat)
    requires Consistent(s) && v in s.invoices && f == s.invoices[v] && b in s.rows && i < |s.rows[b]|
    requires f.batch in s.rows && k < |s.rows[f.batch]| && s.rows[f.batch][k].invoiceId == Some(v) && f.row == s.rows[f.batch][k].id
    requires b in t.rows && t.rows[b] == ReopenedRows(s.rows[b], f.row) && t.invoices == s.invoices - {v} && t.nextRow == s.nextRow
    ensures t.rows[b][i] == if s.rows[b][i].invoiceId == Some(v) then s.rows[b][i].(invoiceId := None) else s.rows[b][i]
    ensures RowOk(t.rows[b][i], b, t.invoices, t.nextRow)
  {
    hide OnePerNumber, InvoicesHeld, NumbersUnique, Sound, Linked;
    var row := s.rows[b][i];
    assert RowOk(row, b, s.invoices, s.nextRow);
    SoundIgnoresLink(row, None);
    if row.invoiceId == Some(v) {
      OneHolder(s, b, i, f.batch, k);
    } else {
      assert row.id != f.row;
    }
  }

  lemma RejectedInvoices<A>(s: Store<A>, ids: Option<set<InvoiceId>>, v: InvoiceId)
    requires Consistent(s) && Decidable(s, ids, v)
    ensures InvoicesHeld(RejectOne(s, ids, v)) && NumbersUnique(RejectOne(s, ids, v).invoices)
  {
    var t := RejectOne(s, ids, v);
    RejectedRows(s, ids, v);
    assert t.invoices == s.invoices - {v} && t.nextInvoice == s.nextInvoice;
    hide RejectOne, Decidable, RowsOk, IdsDistinct, OnePerNumber;
    OthersHeld(s, t, v);
  }

  lemma OthersHeld<A>(s: Store<A>, t: Store<A>, v: InvoiceId)
    requires InvoicesHeld(s) && NumbersUnique(s.invoices)
    requires t.invoices == s.invoices - {v} && t.nextInvoice == s.nextInvoice
    requires t.rows.Keys == s.rows.Keys && forall b :: b in s.rows ==> |t.rows[b]| == |s.rows[b]|
    requires forall b, i :: b in s.rows && 0 <= i < |s.rows[b]| && s.rows[b][i].invoiceId != Some(v) ==> t.rows[b][i] == s.rows[b][i]
    ensures InvoicesHeld(t) && NumbersUnique(t.invoices)
  {
    forall w | w in t.invoices
      ensures w < t.nextInvoice && t.invoices[w].batch in t.rows && Holds(t.rows[t.invoices[w].batch], w)
    {
      var rows := s.rows[s.invoices[w].batch];
      assert Holds(rows, w);
      var i :| 0 <= i < |rows| && rows[i].invoiceId == Some(w);
      assert t.rows[s.invoices[w].batch][i].invoiceId == Some(w);
    }
  }

  lemma RejectNext<A>(s: Store<A>, ids: Option<set<InvoiceId>>, n: nat)
    requires n > 0
    ensures RejectUpTo(s, ids, n) == RejectOne(RejectUpTo(s, ids, n - 1), ids, n - 1)
    ensures RejectUpTo(s, ids, n).nextInvoice == RejectUpTo(s, ids, n - 1).nextInvoice
  {
  }

  lemma {:induction false} RejectConsistent<A>(s: Store<A>, ids: Option<set<InvoiceId>>, n: nat)
    requires Consistent(s)
    ensures Consistent(RejectUpTo(s, ids, n))
  {
    hide Consistent, RejectOne;
    if n > 0 {
      RejectConsistent(s, ids, n - 1);
      RejectOneConsistent(RejectUpTo(s, ids, n - 1), ids, n - 1);
    }
  }
}
