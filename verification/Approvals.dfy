/** Who let an invoice out: what a submission creates, what a decision changes, and whose approval is on record. */
module Approvals {
  import opened Text
  import opened Calc
  import opened Patches
  import opened Staging
  import opened StagingRules
  import opened PromotionRules
  import opened PromotionResults
  import opened Filing
  import opened FilingRules
  import opened FilingRuns

  // --- What a submission creates --------------------------------------------

  /** Open, accepted by the rules, and among the rows asked for. */
  predicate Asked(row: Row, d: Submission) {
    row.invoiceId == None && row.submittable && (d.selected.Some? ==> row.id in d.selected.value)
  }

  /** The invoice made of a row: its payload recalculated, filed at once by an approver and held at the gate for anyone else. */
  predicate MadeFrom<A>(f: Filed<A>, b: BatchId, row: Row, d: Submission) {
    var x := RecalcInvoice(row.payload);
    && f.batch == b && f.row == row.id && f.raw == x && f.number == row.payload.invoiceNumber
    && f.uuid == (if row.id in d.uuids then d.uuids[row.id] else "")
    && f.amounts.lineExtension == x.lineExtensionAmount && f.amounts.taxExclusive == x.taxExclusiveAmount
    && f.amounts.taxInclusive == x.taxInclusiveAmount && f.amounts.vatTotal == x.vatTotalAmount
    && f.amounts.payable == x.payableAmount && f.amounts.payableAed == x.payableAmountAed
    && f.archive == None
    && if d.files then f.status == Validated && f.approver == Some(d.user) else f.status == PendingApproval && f.approver == None
  }

  predicate BelowNext<A>(s: Store<A>) {
    forall v :: v in s.invoices ==> v < s.nextInvoice
  }

  /** The first `n` rows are dealt with: those asked for carry new invoices made of them, all else is as it was. */
  ghost predicate DealtWith<A>(s: Store<A>, b: BatchId, n: nat, d: Submission, t: Store<A>)
    requires b in s.rows && n <= |s.rows[b]|
  {
    && b in t.rows && t.rows == s.rows[b := t.rows[b]] && |t.rows[b]| == |s.rows[b]| && s.nextInvoice <= t.nextInvoice
    && (forall k :: 0 <= k < |s.rows[b]| ==> RowDealt(s, b, k, n, d, t))
    && (forall v :: v in s.invoices ==> v in t.invoices && t.invoices[v] == s.invoices[v])
    && (forall v :: v in t.invoices && v !in s.invoices ==> MadeOfOne(s, b, n, d, t, v))
  }

  predicate RowDealt<A>(s: Store<A>, b: BatchId, k: nat, n: nat, d: Submission, t: Store<A>)
    requires b in s.rows && k < |s.rows[b]| && b in t.rows && k < |t.rows[b]|
  {
    var before, after := s.rows[b][k], t.rows[b][k];
    if k < n && Asked(before, d) then
      && after == before.(invoiceId := after.invoiceId) && after.invoiceId.Some?
      && s.nextInvoice <= after.invoiceId.value < t.nextInvoice && after.invoiceId.value in t.invoices
      && MadeFrom(t.invoices[after.invoiceId.value], b, before, d)
    else after == before
  }

  ghost predicate MadeOfOne<A>(s: Store<A>, b: BatchId, n: nat, d: Submission, t: Store<A>, v: InvoiceId)
    requires b in s.rows && n <= |s.rows[b]| && b in t.rows && |t.rows[b]| == |s.rows[b]|
  {
    v < t.nextInvoice && exists k :: 0 <= k < n && Asked(s.rows[b][k], d) && t.rows[b][k].invoiceId == Some(v)
  }

  lemma NewIsMade<A>(b: BatchId, row: Row, d: Submission)
    ensures var f: Filed<A> := NewInvoice(b, row, d); MadeFrom(f, b, row, d)
    ensures Asked(row, d) <==> Chosen(row, d)
  {
    KeepsNumber(row.payload);
    hide RecalcInvoice;
  }

  /** One row dealt with: promoted when it is asked for, and nothing done when it is not. */
  ghost predicate OneDealt<A>(t: Store<A>, b: BatchId, k: nat, d: Submission, u: Store<A>)
    requires b in t.rows && k < |t.rows[b]|
  {
    var row := t.rows[b][k];
    if Asked(row, d) then
      && u.nextInvoice == t.nextInvoice + 1 && u.rows == t.rows[b := t.rows[b][k := row.(invoiceId := Some(t.nextInvoice))]]
      && t.nextInvoice in u.invoices && u.invoices == t.invoices[t.nextInvoice := u.invoices[t.nextInvoice]]
      && MadeFrom(u.invoices[t.nextInvoice], b, row, d)
    else u == t
  }

  lemma PromotesAsked<A>(t: Store<A>, b: BatchId, k: nat, d: Submission)
    requires b in t.rows && k < |t.rows[b]| && PromoteRow(t, b, k, d).Some?
    ensures OneDealt(t, b, k, d, PromoteRow(t, b, k, d).value)
  {
    NewIsMade<A>(b, t.rows[b][k], d);
    hide MadeFrom, Asked, Chosen, Refused, NewInvoice;
  }

  lemma DealRow<A>(s: Store<A>, b: BatchId, k: nat, n: nat, d: Submission, t: Store<A>, u: Store<A>, j: nat)
    requires b in s.rows && k < |s.rows[b]| && n == k + 1 && DealtWith(s, b, k, d, t) && OneDealt(t, b, k, d, u)
    requires BelowNext(t) && j < |s.rows[b]|
    ensures b in u.rows && |u.rows[b]| == |s.rows[b]| && RowDealt(s, b, j, n, d, u)
  {
    hide MadeFrom, Asked, MadeOfOne;
    assert RowDealt(s, b, k, k, d, t);
    assert RowDealt(s, b, j, k, d, t);
  }

  lemma DealInvoices<A>(s: Store<A>, b: BatchId, k: nat, n: nat, d: Submission, t: Store<A>, u: Store<A>, v: InvoiceId)
    requires BelowNext(s) && b in s.rows && k < |s.rows[b]| && n == k + 1 && DealtWith(s, b, k, d, t) && OneDealt(t, b, k, d, u)
    ensures b in u.rows && |u.rows[b]| == |s.rows[b]|
    ensures v in s.invoices ==> v in u.invoices && u.invoices[v] == s.invoices[v]
    ensures v in u.invoices && v !in s.invoices ==> MadeOfOne(s, b, n, d, u, v)
  {
    assert RowDealt(s, b, k, k, d, t);
    hide MadeFrom, Asked, RowDealt;
    if v in u.invoices && v !in s.invoices {
      if v in t.invoices {
        StillMade(s, b, k, n, d, t, u, v);
      } else {
        assert u.rows[b][k].invoiceId == Some(v);
      }
    }
  }

  lemma DealNext<A>(s: Store<A>, b: BatchId, k: nat, n: nat, d: Submission, t: Store<A>)
    requires BelowNext(s) && b in s.rows && k < |s.rows[b]| && n == k + 1 && DealtWith(s, b, k, d, t)
    requires PromoteRow(t, b, k, d).Some?
    ensures DealtWith(s, b, n, d, PromoteRow(t, b, k, d).value)
  {
    hide MadeFrom, Asked, PromoteRow, RowDealt, MadeOfOne, DealtWith, OneDealt, BelowNext;
    DealtBounds(s, b, k, d, t);
    var u := PromoteRow(t, b, k, d).value;
    PromotesAsked(t, b, k, d);
    NewestBelow(s, b, k, d, t);
    DealShape(s, b, k, d, t, u);
    forall j | 0 <= j < |s.rows[b]|
      ensures RowDealt(s, b, j, n, d, u)
    {
      DealRow(s, b, k, n, d, t, u, j);
    }
    forall v: InvoiceId
      ensures v in s.invoices ==> v in u.invoices && u.invoices[v] == s.invoices[v]
      ensures v in u.invoices && v !in s.invoices ==> MadeOfOne(s, b, n, d, u, v)
    {
      DealInvoices(s, b, k, n, d, t, u, v);
    }
    Assembled(s, b, n, d, u);
  }

  lemma DealtBounds<A>(s: Store<A>, b: BatchId, k: nat, d: Submission, t: Store<A>)
    requires b in s.rows && k <= |s.rows[b]| && DealtWith(s, b, k, d, t)
    ensures b in t.rows && |t.rows[b]| == |s.rows[b]|
  {
    hide RowDealt, MadeOfOne;
  }

  lemma DealShape<A>(s: Store<A>, b: BatchId, k: nat, d: Submission, t: Store<A>, u: Store<A>)
    requires b in s.rows && k < |s.rows[b]| && DealtWith(s, b, k, d, t) && OneDealt(t, b, k, d, u)
    ensures b in u.rows && |u.rows[b]| == |s.rows[b]| && u.rows == s.rows[b := u.rows[b]] && s.nextInvoice <= u.nextInvoice
  {
    hide RowDealt, MadeOfOne, MadeFrom, Asked;
  }

  lemma Assembled<A>(s: Store<A>, b: BatchId, n: nat, d: Submission, u: Store<A>)
    requires b in s.rows && n <= |s.rows[b]| && b in u.rows && |u.rows[b]| == |s.rows[b]|
    requires u.rows == s.rows[b := u.rows[b]] && s.nextInvoice <= u.nextInvoice
    requires forall j :: 0 <= j < |s.rows[b]| ==> RowDealt(s, b, j, n, d, u)
    requires forall v :: v in s.invoices ==> v in u.invoices && u.invoices[v] == s.invoices[v]
    requires forall v :: v in u.invoices && v !in s.invoices ==> MadeOfOne(s, b, n, d, u, v)
    ensures DealtWith(s, b, n, d, u)
  {
    hide RowDealt, MadeOfOne;
  }

  lemma NewestBelow<A>(s: Store<A>, b: BatchId, k: nat, d: Submission, t: Store<A>)
    requires BelowNext(s) && b in s.rows && k <= |s.rows[b]| && DealtWith(s, b, k, d, t)
    ensures BelowNext(t)
  {
    hide RowDealt, Asked;
    forall v | v in t.invoices
      ensures v < t.nextInvoice
    {
      if v !in s.invoices {
        assert MadeOfOne(s, b, k, d, t, v);
      }
    }
  }

  lemma StillMade<A>(s: Store<A>, b: BatchId, k: nat, n: nat, d: Submission, t: Store<A>, u: Store<A>, v: InvoiceId)
    requires b in s.rows && k < |s.rows[b]| && n == k + 1 && DealtWith(s, b, k, d, t) && v in t.invoices && v !in s.invoices
    requires b in u.rows && |u.rows[b]| == |s.rows[b]| && t.nextInvoice <= u.nextInvoice
    requires forall j :: 0 <= j < k ==> u.rows[b][j] == t.rows[b][j]
    ensures MadeOfOne(s, b, n, d, u, v)
  {
    hide RowDealt, Asked;
    assert MadeOfOne(s, b, k, d, t, v);
    var j :| 0 <= j < k && Asked(s.rows[b][j], d) && t.rows[b][j].invoiceId == Some(v);
    assert u.rows[b][j].invoiceId == Some(v);
  }

  lemma {:induction false} DealtSoFar<A>(s: Store<A>, b: BatchId, n: nat, d: Submission)
    requires BelowNext(s) && b in s.rows && n <= |s.rows[b]| && PromoteUpTo(s, b, n, d).Some?
    ensures DealtWith(s, b, n, d, PromoteUpTo(s, b, n, d).value)
  {
    hide PromoteRow, Asked, MadeFrom;
    if n == 0 {
      NothingDealt(s, b, d);
    } else {
      DealtSoFar(s, b, n - 1, d);
      hide DealtWith;
      PromotedNext(s, b, n, d, PromoteUpTo(s, b, n - 1, d).value);
      DealNext(s, b, n - 1, n, d, PromoteUpTo(s, b, n - 1, d).value);
    }
  }

  lemma NothingDealt<A>(s: Store<A>, b: BatchId, d: Submission)
    requires b in s.rows
    ensures DealtWith(s, b, 0, d, s)
  {
    hide MadeFrom, Asked;
    assert forall k :: 0 <= k < |s.rows[b]| ==> RowDealt(s, b, k, 0, d, s);
  }

  /**
   * What a submission does, over the rows as they were: nothing at all, or every row asked for carries a new
   * invoice made of it, held at the gate unless the caller may file, and every other row and invoice is untouched.
   */
  lemma SubmissionMakes<A>(s: Store<A>, b: BatchId, d: Submission)
    requires BelowNext(s) && b in s.rows
    ensures var t := Submit(s, b, d);
      if PromoteUpTo(s, b, |s.rows[b]|, d).None? then t == s
      else DealtWith(s, b, |s.rows[b]|, d, t) && t.logs == s.logs && t.nextRow == s.nextRow
  {
    hide PromoteUpTo, DealtWith, CountersOf;
    if PromoteUpTo(s, b, |s.rows[b]|, d).Some? {
      DealtSoFar(s, b, |s.rows[b]|, d);
      PromotionKeepsLogs(s, b, |s.rows[b]|, d);
      CountersAside(s, b, d, PromoteUpTo(s, b, |s.rows[b]|, d).value, Submit(s, b, d));
    }
  }

  lemma CountersAside<A>(s: Store<A>, b: BatchId, d: Submission, t: Store<A>, u: Store<A>)
    requires b in s.rows && DealtWith(s, b, |s.rows[b]|, d, t) && u == t.(counters := u.counters)
    ensures DealtWith(s, b, |s.rows[b]|, d, u)
  {
    hide MadeFrom, Asked;
    forall k | 0 <= k < |s.rows[b]|
      ensures RowDealt(s, b, k, |s.rows[b]|, d, u)
    {
      assert RowDealt(s, b, k, |s.rows[b]|, d, t);
    }
    forall v | v in u.invoices && v !in s.invoices
      ensures MadeOfOne(s, b, |s.rows[b]|, d, u, v)
    {
      assert MadeOfOne(s, b, |s.rows[b]|, d, t, v);
    }
  }

  lemma {:induction false} PromotionKeepsLogs<A>(s: Store<A>, b: BatchId, n: nat, d: Submission)
    requires b in s.rows && n <= |s.rows[b]| && PromoteUpTo(s, b, n, d).Some?
    ensures var t := PromoteUpTo(s, b, n, d).value; t.logs == s.logs && t.nextRow == s.nextRow
  {
    hide Refused, NewInvoice, Chosen;
    if n > 0 {
      PromotionKeepsLogs(s, b, n - 1, d);
    }
  }

  /** The gate at submission: a new invoice waits with no approver, unless the caller may file, and then it carries the caller. */
  lemma SubmissionStopsAtTheGate<A>(s: Store<A>, b: BatchId, d: Submission, v: InvoiceId)
    requires BelowNext(s) && v !in s.invoices && v in Submit(s, b, d).invoices
    ensures var f := Submit(s, b, d).invoices[v];
      if d.files then f.status == Validated && f.approver == Some(d.user) else f.status == PendingApproval && f.approver == None
  {
    assert b in s.rows;
    SubmissionMakes(s, b, d);
    hide Submit, PromoteUpTo;
    assert MadeOfOne(s, b, |s.rows[b]|, d, Submit(s, b, d), v);
    var k :| 0 <= k < |s.rows[b]| && Asked(s.rows[b][k], d) && Submit(s, b, d).rows[b][k].invoiceId == Some(v);
    hide Asked, RecalcInvoice;
    assert RowDealt(s, b, k, |s.rows[b]|, d, Submit(s, b, d));
  }

  /** Of the invoices new since, all wait with no approver, or all carry the user who filed them at once. */
  predicate Gated<A>(before: map<InvoiceId, Filed<A>>, after: map<InvoiceId, Filed<A>>, files: bool, user: UserId) {
    forall v :: v in after && v !in before ==>
      if files then after[v].status == Validated && after[v].approver == Some(user)
      else after[v].status == PendingApproval && after[v].approver == None
  }

  lemma SubmissionIsGated<A>(s: Store<A>, b: BatchId, d: Submission)
    requires BelowNext(s)
    ensures Gated(s.invoices, Submit(s, b, d).invoices, d.files, d.user)
  {
    hide Submit, BelowNext;
    forall v | v in Submit(s, b, d).invoices && v !in s.invoices
      ensures var f := Submit(s, b, d).invoices[v];
        if d.files then f.status == Validated && f.approver == Some(d.user) else f.status == PendingApproval && f.approver == None
    {
      SubmissionStopsAtTheGate(s, b, d, v);
    }
  }

  // --- What a decision changes ----------------------------------------------

  /** Waiting for an approver, and among the invoices named, or none were named. */
  predicate Decided<A>(f: Filed<A>, ids: Option<set<InvoiceId>>, v: InvoiceId) {
    f.status == PendingApproval && (ids == None || v in ids.value)
  }

  /** Approval releases exactly the waiting invoices named, in the approver's name, and touches nothing else. */
  lemma {:induction false} ApproveMeans<A>(s: Store<A>, ids: Option<set<InvoiceId>>, n: nat, user: UserId)
    ensures var t := ApproveUpTo(s, ids, n, user);
      && t == s.(invoices := t.invoices) && t.invoices.Keys == s.invoices.Keys
      && forall v :: v in s.invoices ==>
        t.invoices[v] == if v < n && Decided(s.invoices[v], ids, v) then s.invoices[v].(status := Validated, approver := Some(user))
                         else s.invoices[v]
  {
    if n > 0 {
      hide Decided, ApproveOne;
      ApproveMeans(s, ids, n - 1, user);
      var t := ApproveUpTo(s, ids, n - 1, user);
      hide ApproveUpTo;
      ApproveOneMeans(t, ids, n - 1, user);
      assert ApproveUpTo(s, ids, n, user) == ApproveOne(t, ids, n - 1, user) by { ApproveLast(s, ids, n, user); }
    }
  }

  lemma ApproveLast<A>(s: Store<A>, ids: Option<set<InvoiceId>>, n: nat, user: UserId)
    requires n > 0
    ensures ApproveUpTo(s, ids, n, user) == ApproveOne(ApproveUpTo(s, ids, n - 1, user), ids, n - 1, user)
  {
    hide ApproveOne;
  }

  lemma ApproveOneMeans<A>(t: Store<A>, ids: Option<set<InvoiceId>>, v: InvoiceId, user: UserId)
    ensures var u := ApproveOne(t, ids, v, user);
      && u == t.(invoices := u.invoices) && u.invoices.Keys == t.invoices.Keys
      && (v in t.invoices ==>
           u.invoices[v] == if Decided(t.invoices[v], ids, v) then t.invoices[v].(status := Validated, approver := Some(user))
                            else t.invoices[v])
      && forall w :: w in t.invoices && w != v ==> u.invoices[w] == t.invoices[w]
  {
  }

  /** Withdrawal removes exactly the waiting invoices named, and changes no other. */
  lemma {:induction false} RejectMeans<A>(s: Store<A>, ids: Option<set<InvoiceId>>, n: nat)
    ensures var t := RejectUpTo(s, ids, n);
      && (forall v :: v in t.invoices ==> v in s.invoices && t.invoices[v] == s.invoices[v])
      && (forall v :: v in s.invoices ==> (v in t.invoices <==> !(v < n && Decided(s.invoices[v], ids, v))))
      && t.nextInvoice == s.nextInvoice
  {
    if n > 0 {
      RejectMeans(s, ids, n - 1);
      hide ReopenedRows;
    }
  }

  // --- Whose approval is on record ------------------------------------------

  /** The step from `s` to `t` puts this user on record as the approver of this invoice. */
  predicate Sanctions(s: System, e: Event, t: System, v: InvoiceId, user: UserId) {
    || (e.ApproveInvoices? && e.user == user && v in s.db.invoices && s.db.invoices[v].status == PendingApproval
        && (e.ids == None || v in e.ids.value))
    || (e.RetryInvoice? && e.user == user && e.invoice == v && v in s.db.invoices
        && s.db.invoices[v].status in {Validated, RejectedByFta, ValidationFailed})
    || (e.SubmitBatch? && e.submission.files && e.submission.user == user
        && v !in s.db.invoices && v in t.db.invoices)
  }

  /** After the step the invoice is approved by this user exactly when the step says so, or it was and nobody else took over. */
  ghost predicate ApproverFollows(s: System, e: Event, t: System, v: InvoiceId)
    requires v in t.db.invoices
  {
    var after := t.db.invoices[v].approver;
    && (forall u: UserId :: Sanctions(s, e, t, v, u) ==> after == Some(u))
    && ((forall u: UserId :: !Sanctions(s, e, t, v, u)) ==> after == if v in s.db.invoices then s.db.invoices[v].approver else None)
  }

  lemma SubmitSanctions(s: System, e: Event, v: InvoiceId)
    requires InvoicesHeld(s.db) && e.SubmitBatch? && v in Next(s, e).db.invoices
    ensures ApproverFollows(s, e, Next(s, e), v)
  {
    var b, d := e.batch, e.submission;
    NextOnStore(s, e);
    assert Next(s, e).db == Submit(s.db, b, d);
    HeldBelow(s.db);
    SubmitMoves(s.db, b, d);
    hide Next, NextStore, Submit, InvoicesHeld;
    if v !in s.db.invoices {
      SubmissionStopsAtTheGate(s.db, b, d, v);
      if d.files {
        assert Sanctions(s, e, Next(s, e), v, d.user);
      }
    } else {
      SubmitKeeps(s.db, b, d, v);
    }
  }

  lemma SubmitKeeps(db: Db, b: BatchId, d: Submission, v: InvoiceId)
    requires BelowNext(db) && v in db.invoices
    ensures v in Submit(db, b, d).invoices && Submit(db, b, d).invoices[v] == db.invoices[v]
  {
    if b in db.rows {
      SubmissionMakes(db, b, d);
      hide Submit, PromoteUpTo, RowDealt, MadeOfOne;
    }
  }

  lemma ApproveSanctions(s: System, e: Event, v: InvoiceId)
    requires InvoicesHeld(s.db) && e.ApproveInvoices? && v in Next(s, e).db.invoices
    ensures ApproverFollows(s, e, Next(s, e), v)
  {
    NextOnStore(s, e);
    assert Next(s, e).db == ApproveUpTo(s.db, e.ids, s.db.nextInvoice, e.user);
    HeldBelow(s.db);
    ApproveMeans(s.db, e.ids, s.db.nextInvoice, e.user);
    hide Next, NextStore, ApproveUpTo, InvoicesHeld;
    if Decided(s.db.invoices[v], e.ids, v) {
      assert Sanctions(s, e, Next(s, e), v, e.user);
    }
  }

  lemma RejectSanctions(s: System, e: Event, v: InvoiceId)
    requires e.RejectInvoices? && v in Next(s, e).db.invoices
    ensures ApproverFollows(s, e, Next(s, e), v)
  {
    NextOnStore(s, e);
    RejectMeans(s.db, e.ids, s.db.nextInvoice);
    hide Next, NextStore, RejectUpTo;
    assert NextStore(s.db, e) == RejectUpTo(s.db, e.ids, s.db.nextInvoice) by { RejectIs(s.db, e); }
  }

  lemma RejectIs(db: Db, e: Event)
    requires e.RejectInvoices?
    ensures NextStore(db, e) == RejectUpTo(db, e.ids, db.nextInvoice)
  {
    hide RejectUpTo;
  }

  lemma StagingSanctions(s: System, e: Event, v: InvoiceId)
    requires e.ParseBatch? || e.EditRow? || e.RevalidateBatch? || e.AutoFixBatch? || e.DeleteRow?
    requires v in Next(s, e).db.invoices
    ensures ApproverFollows(s, e, Next(s, e), v)
  {
    NextOnStore(s, e);
    StagingKeepsInvoices(s.db, e);
    hide Next, NextStore;
  }

  lemma OtherSanctions(s: System, e: Event, v: InvoiceId)
    requires !OnStore(e) && v in Next(s, e).db.invoices
    ensures ApproverFollows(s, e, Next(s, e), v)
  {
    OtherStepMoves(s, e);
    hide Next, OnStore, StatusAfter;
    assert Moved(s, e, v, Next(s, e).db.invoices[v]);
    if e.RetryInvoice? && e.invoice == v {
      assert s.db.invoices[v].status in {Validated, RejectedByFta, ValidationFailed} ==> Sanctions(s, e, Next(s, e), v, e.user);
    }
  }

  lemma ApproverStep(s: System, e: Event, v: InvoiceId)
    requires InvoicesHeld(s.db) && v in Next(s, e).db.invoices
    ensures ApproverFollows(s, e, Next(s, e), v)
  {
    hide Next, InvoicesHeld, ApproverFollows;
    match e
    case SubmitBatch(_, _) => SubmitSanctions(s, e, v);
    case ApproveInvoices(_, _) => ApproveSanctions(s, e, v);
    case RejectInvoices(_) => RejectSanctions(s, e, v);
    case ParseBatch(_, _, _, _) => StagingSanctions(s, e, v);
    case EditRow(_, _, _, _) => StagingSanctions(s, e, v);
    case RevalidateBatch(_, _) => StagingSanctions(s, e, v);
    case AutoFixBatch(_, _) => StagingSanctions(s, e, v);
    case DeleteRow(_, _) => StagingSanctions(s, e, v);
    case _ => OtherSanctions(s, e, v);
  }

  predicate SanctionedAt(events: seq<Event>, k: nat, v: InvoiceId, user: UserId)
    requires k < |events|
  {
    Sanctions(Run(Initial(), events[..k]), events[k], Run(Initial(), events[..k + 1]), v, user)
  }

  /** Some step of the run put this user on record for this invoice. */
  ghost predicate Sanctioned(events: seq<Event>, v: InvoiceId, user: UserId) {
    exists k :: 0 <= k < |events| && SanctionedAt(events, k, v, user)
  }

  lemma SanctionStays(events: seq<Event>, v: InvoiceId, user: UserId)
    requires events != [] && Sanctioned(events[..|events| - 1], v, user)
    ensures Sanctioned(events, v, user)
  {
    hide Run, Sanctions;
    var front := events[..|events| - 1];
    var k :| 0 <= k < |front| && SanctionedAt(front, k, v, user);
    assert front[..k] == events[..k] && front[k] == events[k] && front[..k + 1] == events[..k + 1];
    assert SanctionedAt(events, k, v, user);
  }

  /**
   * An approver on record approved. In every run, whoever an invoice names as its approver released it from
   * the queue while it waited, retried it, or submitted the batch it came from with the right to file.
   */
  lemma {:induction false} ApproverDidApprove(events: seq<Event>, v: InvoiceId, user: UserId)
    requires PlausibleRun(Initial(), events)
    requires v in Run(Initial(), events).db.invoices && Run(Initial(), events).db.invoices[v].approver == Some(user)
    ensures Sanctioned(events, v, user)
  {
    if events != [] {
      var front, last := events[..|events| - 1], events[|events| - 1];
      var s := Run(Initial(), front);
      HeldInRuns(front);
      ApproverStep(s, last, v);
      LastStep(events);
      hide Run, Next, Plausible, InvoicesHeld, Sanctions, Sanctioned;
      var e := Run(Initial(), events);
      if Sanctions(s, last, e, v, user) {
        SanctionLast(events, v, user);
      } else if v in s.db.invoices && s.db.invoices[v].approver == Some(user) {
        ApproverDidApprove(front, v, user);
        SanctionStays(events, v, user);
      } else {
        assert false;
      }
    }
  }

  lemma LastStep(events: seq<Event>)
    requires events != []
    ensures Run(Initial(), events) == Next(Run(Initial(), events[..|events| - 1]), events[|events| - 1])
  {
    hide Next;
  }

  lemma SanctionLast(events: seq<Event>, v: InvoiceId, user: UserId)
    requires events != []
    requires Sanctions(Run(Initial(), events[..|events| - 1]), events[|events| - 1], Run(Initial(), events), v, user)
    ensures Sanctioned(events, v, user)
  {
    hide Run, Sanctions;
    assert events[..|events| - 1 + 1] == events;
    assert SanctionedAt(events, |events| - 1, v, user);
  }

  lemma {:induction false} CallerDidApprove(events: seq<Event>, c: Call, user: UserId)
    requires PlausibleRun(Initial(), events) && c in Run(Initial(), events).calls && c.approver == Some(user)
    ensures Sanctioned(events, c.invoice, user)
  {
    if events != [] {
      var front, last := events[..|events| - 1], events[|events| - 1];
      var s := Run(Initial(), front);
      NextJobs(s, last);
      LastStep(events);
      hide Run, Next, Plausible, Sanctioned;
      if c in s.calls {
        CallerDidApprove(front, c, user);
      } else {
        assert c == CallOf(s, last.worker);
        ApproverDidApprove(front, c.invoice, user);
      }
      SanctionStays(events, c.invoice, user);
    }
  }

  /**
   * Nothing is filed that nobody approved. In every run no step of which bypasses the gate, each call the
   * provider receives is for an invoice some user had released, retried, or submitted with the right to file.
   */
  lemma EveryCallWasSanctioned(events: seq<Event>, c: Call)
    requires PlausibleRun(Initial(), events) && UnbypassedRun(Initial(), events)
    requires c in Run(Initial(), events).calls
    ensures c.approver.Some? && Sanctioned(events, c.invoice, c.approver.value)
  {
    EveryCallIsApproved(events);
    hide Run, PlausibleRun, UnbypassedRun, Sanctioned;
    CallerDidApprove(events, c, c.approver.value);
  }
}
