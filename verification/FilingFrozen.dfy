/** Rows and their invoices over whole runs: paired one to one, frozen until withdrawn, one submittable row a number. */
module FilingFrozen {
  import opened Text
  import opened Calc
  import opened Validate
  import opened Patches
  import opened Staging
  import opened StagingRules
  import opened PromotionRules
  import opened PromotionResults
  import opened TableRules
  import opened Filing
  import opened FilingRules
  import opened FilingRuns

  /** The invoice a row holds exists and names that row. */
  predicate NamesItsInvoice(db: Db, b: BatchId, i: nat)
    requires b in db.rows && i < |db.rows[b]|
  {
    var row := db.rows[b][i];
    row.invoiceId.Some? ==>
      && row.invoiceId.value in db.invoices
      && db.invoices[row.invoiceId.value].row == row.id && db.invoices[row.invoiceId.value].batch == b
  }

  predicate HoldSameInvoice(db: Db, b: BatchId, i: nat, c: BatchId, j: nat) {
    && b in db.rows && i < |db.rows[b]| && c in db.rows && j < |db.rows[c]|
    && db.rows[b][i].invoiceId.Some? && db.rows[b][i].invoiceId == db.rows[c][j].invoiceId
  }

  /** Promoted rows and invoices correspond one to one. */
  ghost predicate Paired(db: Db) {
    && (forall b, i :: b in db.rows && 0 <= i < |db.rows[b]| ==> NamesItsInvoice(db, b, i))
    && (forall v :: v in db.invoices ==> db.invoices[v].batch in db.rows && Holds(db.rows[db.invoices[v].batch], v))
    && (forall b, i, c, j :: HoldSameInvoice(db, b, i, c, j) ==> b == c && i == j)
  }

  lemma RowsAndInvoicesPaired(events: seq<Event>)
    requires PlausibleRun(Initial(), events)
    ensures Paired(Run(Initial(), events).db)
  {
    RunsStayConsistent(events);
    hide Run, PlausibleRun, Initial, Tallied;
    PairedIn(Run(Initial(), events).db);
  }

  lemma PairedIn(db: Db)
    requires Consistent(db)
    ensures Paired(db)
  {
    assert InvoicesHeld(db);
    hide Sound, OnePerNumber, NumbersUnique, Holds;
    forall b, i | b in db.rows && 0 <= i < |db.rows[b]|
      ensures NamesItsInvoice(db, b, i)
    {
      assert RowOk(db.rows[b][i], b, db.invoices, db.nextRow);
    }
    forall b, i, c, j | HoldSameInvoice(db, b, i, c, j)
      ensures b == c && i == j
    {
      hide NamesItsInvoice;
      OneHolder(db, b, i, c, j);
    }
    hide RowsOk, Linked, InvoicesHeld;
  }

  /**
   * At most one submittable row per invoice number in a batch, in every reachable state, for numbers
   * without surrounding spaces, although an edit judges only the edited row.
   */
  lemma OneSubmittableRowPerNumber(events: seq<Event>, b: BatchId, i: nat, j: nat)
    requires PlausibleRun(Initial(), events)
    requires var db := Run(Initial(), events).db;
      && b in db.rows && i < j < |db.rows[b]| && db.rows[b][i].submittable && db.rows[b][j].submittable
      && Trimmed(db.rows[b][i].number) && Trimmed(db.rows[b][j].number)
    ensures var db := Run(Initial(), events).db;
      db.rows[b][i].number != db.rows[b][j].number
  {
    RunsStayConsistent(events);
    hide Run, PlausibleRun, Initial, Tallied, RowsOk, IdsDistinct, InvoicesHeld, NumbersUnique, Trimmed;
    assert OnePerNumber(Run(Initial(), events).db.rows[b]);
  }

  /** The step is the withdrawal of this invoice by an approver, while it waits. */
  predicate Withdraws(s: System, e: Event, v: InvoiceId) {
    e.RejectInvoices? && Decidable(s.db, e.ids, v)
  }

  /**
   * A promoted row is frozen. Whatever step comes next, the row is still in its batch, unchanged, unless the
   * step withdraws its own waiting invoice; then it is there with its payload, open again.
   */
  lemma FrozenUntilWithdrawn(s: System, e: Event, c: BatchId, k: nat)
    requires Consistent(s.db) && c in s.db.rows && k < |s.db.rows[c]| && s.db.rows[c][k].invoiceId.Some?
    ensures var t, row := Next(s, e), s.db.rows[c][k];
      && c in t.db.rows
      && (row in t.db.rows[c]
          || (Withdraws(s, e, row.invoiceId.value) && row.invoiceId.value !in t.db.invoices && row.(invoiceId := None) in t.db.rows[c]))
  {
    if !OnStore(e) {
      OtherStepMoves(s, e);
      hide Next, Consistent, Moved, OnStore;
    } else {
      NextOnStore(s, e);
      hide Next, Consistent;
      FrozenInStore(s.db, e, c, k);
    }
  }

  lemma FrozenInStore(db: Db, e: Event, c: BatchId, k: nat)
    requires Consistent(db) && OnStore(e) && c in db.rows && k < |db.rows[c]| && db.rows[c][k].invoiceId.Some?
    ensures var t, row := NextStore(db, e), db.rows[c][k];
      && c in t.rows
      && (row in t.rows[c]
          || (e.RejectInvoices? && Decidable(db, e.ids, row.invoiceId.value) && row.invoiceId.value !in t.invoices
              && row.(invoiceId := None) in t.rows[c]))
  {
    hide Consistent, Decidable;
    match e
    case ParseBatch(b, parsed, synthetic, ctx) =>
      ParseFreezes(db, b, c, parsed, synthetic, ctx);
      hide Parse;
    case EditRow(b, row, patch, ctx) =>
      if b in db.rows {
        EditFreezes(db, b, c, row, patch, ctx);
      }
      hide Edit;
    case RevalidateBatch(b, ctx) =>
      if b in db.rows {
        RewritesFreeze(db, b, c, ctx);
      }
      hide Revalidate;
    case AutoFixBatch(b, ctx) =>
      if b in db.rows {
        RewritesFreeze(db, b, c, ctx);
      }
      hide AutoFixRows;
    case DeleteRow(b, row) =>
      if b in db.rows {
        DeleteFreezes(db, b, c, row);
      }
      hide Delete;
    case SubmitBatch(b, d) =>
      SubmitFreezes(db, b, d, c, k);
      hide Submit;
    case ApproveInvoices(ids, user) =>
      ApproveKeepsRows(db, ids, db.nextInvoice, user);
      hide ApproveUpTo;
    case RejectInvoices(ids) =>
      RejectFreezes(db, ids, db.nextInvoice, c, k);
      hide RejectUpTo;
  }
}
