/** What every run of the filing protocol keeps: acceptance, the approval gate, and the identity of what is filed. */
module FilingRules {
  import opened Text
  import opened Calc
  import opened Validate
  import opened Patches
  import opened Staging
  import opened StagingRules
  import opened PromotionRules
  import opened Filing

  // --- How a store step may move invoices -----------------------------------

  predicate Unchanged(before: FiledInvoice, after: FiledInvoice) {
    after == before
  }

  /** Released by an approver, and nothing else. */
  predicate Released(before: FiledInvoice, after: FiledInvoice) {
    before.status == PendingApproval && after.approver.Some? && after == before.(status := Validated, approver := after.approver)
  }

  /** As a submission creates it: at the gate, or already carrying its approver. */
  predicate Newborn(f: FiledInvoice) {
    f.archive.None? && (f.status == PendingApproval || (f.status == Validated && f.approver.Some?))
  }

  /** Store steps create invoices, release or withdraw waiting ones, and leave all others alone. */
  predicate StoreMoves(s: Db, t: Db) {
    && t.nextInvoice >= s.nextInvoice
    && (forall v :: v in s.invoices && v !in t.invoices ==> s.invoices[v].status == PendingApproval)
    && (forall v :: v in s.invoices && v in t.invoices ==>
         Unchanged(s.invoices[v], t.invoices[v]) || Released(s.invoices[v], t.invoices[v]))
    && (forall v :: v in t.invoices && v !in s.invoices ==> v >= s.nextInvoice && Newborn(t.invoices[v]))
  }

  lemma SameInvoicesMove(s: Db, t: Db)
    requires t.invoices == s.invoices && t.nextInvoice == s.nextInvoice
    ensures StoreMoves(s, t)
  {
  }

  lemma {:induction false} PromotionMoves(s: Db, b: BatchId, n: nat, d: Submission)
    requires InvoicesHeld(s) && b in s.rows && n <= |s.rows[b]| && PromoteUpTo(s, b, n, d).Some?
    ensures StoreMoves(s, PromoteUpTo(s, b, n, d).value)
    ensures forall v :: v in s.invoices ==>
      v in PromoteUpTo(s, b, n, d).value.invoices && PromoteUpTo(s, b, n, d).value.invoices[v] == s.invoices[v]
  {
    hide Holds, PromoteRow;
    if n > 0 {
      PromoteNext(s, b, n, d);
      PromotionMoves(s, b, n - 1, d);
      hide PromoteUpTo, Newborn;
      PromotedByRow(PromoteUpTo(s, b, n - 1, d).value, b, n - 1, d);
    }
  }

  lemma PromoteNext(s: Db, b: BatchId, n: nat, d: Submission)
    requires b in s.rows && 0 < n <= |s.rows[b]| && PromoteUpTo(s, b, n, d).Some?
    ensures PromoteUpTo(s, b, n - 1, d).Some?
    ensures PromoteUpTo(s, b, n, d) == PromoteRow(PromoteUpTo(s, b, n - 1, d).value, b, n - 1, d)
  {
    hide PromoteRow;
  }

  lemma PromotedByRow(t: Db, b: BatchId, k: nat, d: Submission)
    requires b in t.rows && k < |t.rows[b]|
    ensures PromoteRow(t, b, k, d).Some? ==>
      var u := PromoteRow(t, b, k, d).value;
      && u.nextInvoice >= t.nextInvoice
      && (u.invoices == t.invoices || (u.invoices == t.invoices[t.nextInvoice := u.invoices[t.nextInvoice]]
           && t.nextInvoice in u.invoices && Newborn(u.invoices[t.nextInvoice])))
  {
    hide RecalcInvoice, Refused, Chosen;
  }

  lemma SubmitMoves(s: Db, b: BatchId, d: Submission)
    requires InvoicesHeld(s)
    ensures StoreMoves(s, Submit(s, b, d))
  {
    hide PromoteUpTo, CountersOf, InvoicesHeld;
    if b in s.rows && PromoteUpTo(s, b, |s.rows[b]|, d).Some? {
      PromotionMoves(s, b, |s.rows[b]|, d);
    }
  }

  lemma {:induction false} ApproveMoves(s: Db, ids: Option<set<InvoiceId>>, n: nat, user: UserId)
    ensures StoreMoves(s, ApproveUpTo(s, ids, n, user))
  {
    if n > 0 {
      ApproveMoves(s, ids, n - 1, user);
    }
  }

  lemma {:induction false} RejectMoves(s: Db, ids: Option<set<InvoiceId>>, n: nat)
    ensures StoreMoves(s, RejectUpTo(s, ids, n))
  {
    if n > 0 {
      RejectMoves(s, ids, n - 1);
      var t := RejectUpTo(s, ids, n - 1);
      hide RejectUpTo;
      assert RejectOne(t, ids, n - 1).invoices == if Decidable(t, ids, n - 1) then t.invoices - {n - 1} else t.invoices;
      RejectNext(s, ids, n);
      hide RejectOne;
    }
  }

  lemma StagingMoves(s: Db, e: Event)
    requires e.ParseBatch? || e.EditRow? || e.RevalidateBatch? || e.AutoFixBatch? || e.DeleteRow?
    ensures StoreMoves(s, NextStore(s, e))
  {
    StagingKeepsInvoices(s, e);
    SameInvoicesMove(s, NextStore(s, e));
    hide *;
  }

  lemma StagingKeepsInvoices(s: Db, e: Event)
    requires e.ParseBatch? || e.EditRow? || e.RevalidateBatch? || e.AutoFixBatch? || e.DeleteRow?
    ensures NextStore(s, e).invoices == s.invoices && NextStore(s, e).nextInvoice == s.nextInvoice
  {
    hide NewRows, ParseContext, Logged, CountersOf, Patches.Changes, Patched, RecalcInvoice, Judged, EditContext, Position,
      BatchContext, RevalidatedRows, FixedRows, Relogged;
  }

  lemma NextMoves(s: Db, e: Event)
    requires InvoicesHeld(s) && OnStore(e)
    ensures StoreMoves(s, NextStore(s, e))
  {
    hide StoreMoves, InvoicesHeld;
    match e
    case SubmitBatch(b, d) => SubmitMoves(s, b, d);
    case ApproveInvoices(ids, user) => ApproveMoves(s, ids, s.nextInvoice, user);
    case RejectInvoices(ids) => RejectMoves(s, ids, s.nextInvoice);
    case _ => StagingMoves(s, e);
  }

  // --- How every other step moves one invoice -------------------------------

  predicate Judges(s: System, e: Event, v: InvoiceId) {
    || (e.ProcessWebhook? && e.target == Some(v) && e.delivery in s.deliveries && s.deliveries[e.delivery].Received?
        && Located(s, s.deliveries[e.delivery].update, e.target))
    || (e.PollProvider? && e.target == Some(v) && Answers(s, e.invoice, e.reference, e.verdict, e.target))
  }

  function VerdictOf(s: System, e: Event): Verdict
    requires e.PollProvider? || (e.ProcessWebhook? && e.delivery in s.deliveries && s.deliveries[e.delivery].Received?)
  {
    if e.PollProvider? then e.verdict else s.deliveries[e.delivery].update.verdict
  }

  predicate Closes(s: System, e: Event, v: InvoiceId) {
    e.CloseJob? && e.worker in s.workers && s.workers[e.worker].invoice == v && s.workers[e.worker].phase.Answered?
  }

  /** Where the step leaves an invoice. */
  function StatusAfter(s: System, e: Event, v: InvoiceId): Status
    requires v in s.db.invoices
  {
    var status := s.db.invoices[v].status;
    if e.RetryInvoice? && e.invoice == v && Retriable(status) then Validated
    else if e.PlatformRetryInvoice? && e.invoice == v && status != AcceptedByFta then Validated
    else if Closes(s, e, v) then OutcomeStatus(status, s.workers[e.worker].phase.outcome)
    else if Judges(s, e, v) then AfterVerdict(status, VerdictOf(s, e))
    else status
  }

  function ApproverAfter(s: System, e: Event, v: InvoiceId): Option<UserId>
    requires v in s.db.invoices
  {
    if e.RetryInvoice? && e.invoice == v && Retriable(s.db.invoices[v].status) then Some(e.user) else s.db.invoices[v].approver
  }

  /** Same invoices; each with the status and approver the step gives it, and possibly a new archive. */
  predicate OtherMoves(s: System, e: Event, t: System) {
    && t.db.invoices.Keys == s.db.invoices.Keys
    && t.db.nextInvoice == s.db.nextInvoice && t.db.rows == s.db.rows && t.db.counters == s.db.counters && t.db.logs == s.db.logs
    && t.db.nextRow == s.db.nextRow
    && forall v :: v in s.db.invoices ==> Moved(s, e, v, t.db.invoices[v])
  }

  predicate Moved(s: System, e: Event, v: InvoiceId, after: FiledInvoice)
    requires v in s.db.invoices
  {
    after == s.db.invoices[v].(status := StatusAfter(s, e, v), approver := ApproverAfter(s, e, v), archive := after.archive)
  }

  lemma OtherStepMoves(s: System, e: Event)
    requires !OnStore(e)
    ensures OtherMoves(s, e, Next(s, e))
  {
    hide OtherMoves;
    match e
    case RetryInvoice(_, _) => RetryMoves(s, e);
    case PlatformRetryInvoice(_) => RetryMoves(s, e);
    case StartJob(_, _) => JobMoves(s, e);
    case ArchiveXml(_, _) => ArchiveMoves(s, e);
    case CallProvider(_, _) => JobMoves(s, e);
    case CloseJob(_) => CloseMoves(s, e);
    case CrashJob(_) => JobMoves(s, e);
    case ReceiveWebhook(_, _) => JobMoves(s, e);
    case ProcessWebhook(_, _) => ProcessMoves(s, e);
    case SelectSilent(_) => JobMoves(s, e);
    case PollProvider(_, _, _, _) => PollMoves(s, e);
  }

  lemma RetryMoves(s: System, e: Event)
    requires e.RetryInvoice? || e.PlatformRetryInvoice?
    ensures OtherMoves(s, e, Next(s, e))
  {
  }

  lemma JobMoves(s: System, e: Event)
    requires e.StartJob? || e.CallProvider? || e.CrashJob? || e.ReceiveWebhook? || e.SelectSilent?
    ensures OtherMoves(s, e, Next(s, e))
  {
    hide CallOf, Selectable, LastReference, Located, Answers;
  }

  lemma ArchiveMoves(s: System, e: Event)
    requires e.ArchiveXml?
    ensures OtherMoves(s, e, Next(s, e))
  {
    hide ArchiveOf;
  }

  lemma CloseMoves(s: System, e: Event)
    requires e.CloseJob?
    ensures OtherMoves(s, e, Next(s, e))
  {
  }

  lemma ApplyMoves(s: System, u: Update, target: Option<InvoiceId>)
    requires Located(s, u, target)
    ensures var t := Apply(s, u, target);
      && t.db == s.db.(invoices := t.db.invoices) && t.db.invoices.Keys == s.db.invoices.Keys
      && t.workers == s.workers && t.calls == s.calls && t.deliveries == s.deliveries
      && forall v :: v in s.db.invoices ==>
        t.db.invoices[v] == if target == Some(v) then s.db.invoices[v].(status := AfterVerdict(s.db.invoices[v].status, u.verdict))
                            else s.db.invoices[v]
  {
    hide SettledAll, Located;
  }

  lemma ProcessMoves(s: System, e: Event)
    requires e.ProcessWebhook?
    ensures OtherMoves(s, e, Next(s, e))
  {
    if e.delivery in s.deliveries && s.deliveries[e.delivery].Received? && Located(s, s.deliveries[e.delivery].update, e.target) {
      ApplyMoves(s, s.deliveries[e.delivery].update, e.target);
    }
    hide Apply, Located, AfterVerdict;
  }

  lemma PollMoves(s: System, e: Event)
    requires e.PollProvider?
    ensures OtherMoves(s, e, Next(s, e))
  {
    var u := PollUpdate(e.invoice, e.reference, e.verdict);
    if Answers(s, e.invoice, e.reference, e.verdict, e.target) {
      ApplyMoves(s, u, e.target);
    }
    hide Apply, Located, AfterVerdict;
  }

  // --- How any step may move one invoice ------------------------------------

  /** Everything that identifies and describes the filing, as opposed to where it stands. */
  predicate SameFiling(before: FiledInvoice, after: FiledInvoice) {
    after == before.(status := after.status, approver := after.approver, archive := after.archive)
  }

  /** An invoice past the gate never waits again. */
  predicate StatusMoves(before: Status, after: Status) {
    after == PendingApproval ==> before == PendingApproval
  }

  /** No step changes what is filed, none sends an invoice back to the gate, and only waiting ones disappear. */
  lemma OneStep(s: System, e: Event, v: InvoiceId)
    requires InvoicesHeld(s.db) && v in s.db.invoices
    ensures var t := Next(s, e);
      if v in t.db.invoices then
        SameFiling(s.db.invoices[v], t.db.invoices[v]) && StatusMoves(s.db.invoices[v].status, t.db.invoices[v].status)
      else s.db.invoices[v].status == PendingApproval
  {
    if OnStore(e) {
      NextMoves(s.db, e);
      NextOnStore(s, e);
      hide Next, NextStore, InvoicesHeld, OnStore;
      MovedInStore(s.db, NextStore(s.db, e), v);
      hide StoreMoves;
    } else {
      OtherStepMoves(s, e);
      hide Next, InvoicesHeld, OnStore, Moved;
      MovedKeeps(s, e, v, Next(s, e).db.invoices[v]);
    }
  }

  lemma MovedInStore(db: Db, t: Db, v: InvoiceId)
    requires StoreMoves(db, t) && v in db.invoices
    ensures if v in t.invoices then
        SameFiling(db.invoices[v], t.invoices[v]) && StatusMoves(db.invoices[v].status, t.invoices[v].status)
      else db.invoices[v].status == PendingApproval
  {
    hide Newborn;
  }

  lemma MovedKeeps(s: System, e: Event, v: InvoiceId, after: FiledInvoice)
    requires v in s.db.invoices && Moved(s, e, v, after)
    ensures SameFiling(s.db.invoices[v], after) && StatusMoves(s.db.invoices[v].status, after.status)
  {
    hide Judges, Closes;
  }

  lemma NextOnStore(s: System, e: Event)
    requires OnStore(e)
    ensures Next(s, e) == s.(db := NextStore(s.db, e))
  {
    hide NextStore;
  }

  // --- Invariants of the system ---------------------------------------------

  /** New ids are drawn past all old ones; a job in flight holds what the invoice still says. */
  ghost predicate JobsOk(s: System) {
    forall w :: w in s.workers ==>
      var job := s.workers[w];
      && job.invoice < s.db.nextInvoice
      && (job.invoice in s.db.invoices ==> SameFiling(job.read, s.db.invoices[job.invoice]))
  }

  // --- Acceptance is permanent ----------------------------------------------

  predicate Cleared(s: System, v: InvoiceId) {
    v in s.db.invoices && s.db.invoices[v].status == AcceptedByFta
  }

  /** The one kind of step that can undo an acceptance: a closing write that still believes in an older read. */
  predicate Overwrites(s: System, e: Event, v: InvoiceId) {
    && e.CloseJob? && e.worker in s.workers
    && s.workers[e.worker].invoice == v
    && s.workers[e.worker].phase.Answered? && !s.workers[e.worker].phase.outcome.Retryable?
  }

  /** Exactly when one step takes an acceptance away. */
  lemma OnlyAClosingWriteUndoes(s: System, e: Event, v: InvoiceId)
    requires InvoicesHeld(s.db) && Cleared(s, v)
    ensures Cleared(Next(s, e), v) <==> !Overwrites(s, e, v)
  {
    if OnStore(e) {
      NextMoves(s.db, e);
      NextOnStore(s, e);
      hide Next, NextStore, InvoicesHeld;
    } else {
      OtherStepMoves(s, e);
      hide Next, InvoicesHeld, Overwrites, OnStore, Moved;
      MovedWhenCleared(s, e, v, Next(s, e).db.invoices[v]);
    }
  }

  lemma MovedWhenCleared(s: System, e: Event, v: InvoiceId, after: FiledInvoice)
    requires Cleared(s, v) && Moved(s, e, v, after)
    ensures after.status == AcceptedByFta <==> !Overwrites(s, e, v)
  {
    hide Judges;
  }

  /** The step applies an accepting verdict to this invoice. */
  predicate GetsAccepted(s: System, e: Event, v: InvoiceId) {
    v in s.db.invoices && Judges(s, e, v) && VerdictOf(s, e) == Clears && Applies(s.db.invoices[v].status, Clears)
  }

  /** A job that may still write a status: all but those holding a retryable answer. */
  predicate Risky(job: Worker) {
    !(job.phase.Answered? && job.phase.outcome.Retryable?)
  }

  /** A job between its read of this invoice and its closing write may still overwrite the invoice's status. */
  predicate AtRisk(s: System, v: InvoiceId) {
    exists w :: w in s.workers && s.workers[w].invoice == v && Risky(s.workers[w])
  }

  /** No accepting verdict reaches this invoice while a job of its own is between read and closing write. */
  predicate QuietFor(s: System, e: Event, v: InvoiceId) {
    AtRisk(s, v) ==> !GetsAccepted(s, e, v)
  }

  predicate SafeWhenCleared(s: System, v: InvoiceId) {
    Cleared(s, v) ==> !AtRisk(s, v)
  }

  /** A job at risk was at risk before the step, or starts with it on an invoice the guard lets through. */
  lemma NextRisks(s: System, e: Event, v: InvoiceId)
    requires AtRisk(Next(s, e), v)
    ensures AtRisk(s, v) || (v in s.db.invoices && MayFile(s.db.invoices[v].status) && e.StartJob?)
  {
    var t := Next(s, e);
    var w :| w in t.workers && t.workers[w].invoice == v && Risky(t.workers[w]);
    JobBefore(s, e, w);
    hide Next;
    if w in s.workers && s.workers[w].invoice == v && Risky(s.workers[w]) {
      assert AtRisk(s, v);
    }
  }

  lemma JobBefore(s: System, e: Event, w: WorkerId)
    requires w in Next(s, e).workers && Risky(Next(s, e).workers[w])
    ensures var v := Next(s, e).workers[w].invoice;
      || (w in s.workers && s.workers[w].invoice == v && Risky(s.workers[w]))
      || (v in s.db.invoices && MayFile(s.db.invoices[v].status) && e.StartJob?)
  {
    hide NextStore, ArchiveOf, SettledAll, Located, Applies, WithStatus, OutcomeStatus, OutcomeLog, CallOf;
  }

  lemma NewlyCleared(s: System, e: Event, v: InvoiceId)
    requires InvoicesHeld(s.db) && !Cleared(s, v) && Cleared(Next(s, e), v)
    ensures GetsAccepted(s, e, v) && (e.ProcessWebhook? || e.PollProvider?)
  {
    if OnStore(e) {
      NextMoves(s.db, e);
      NextOnStore(s, e);
      hide Next, NextStore, InvoicesHeld;
      assert false;
    } else {
      OtherStepMoves(s, e);
      hide Next, InvoicesHeld, OnStore, Moved, GetsAccepted;
      MovedToCleared(s, e, v, Next(s, e).db.invoices[v]);
    }
  }

  lemma MovedToCleared(s: System, e: Event, v: InvoiceId, after: FiledInvoice)
    requires v in s.db.invoices && !Cleared(s, v) && Moved(s, e, v, after) && after.status == AcceptedByFta
    ensures GetsAccepted(s, e, v) && (e.ProcessWebhook? || e.PollProvider?)
  {
    hide Located, Answers;
  }

  /** An accepted invoice is never at risk, as long as no accepting verdict comes while it is. */
  lemma SafeStep(s: System, e: Event, v: InvoiceId)
    requires InvoicesHeld(s.db) && SafeWhenCleared(s, v) && QuietFor(s, e, v)
    ensures SafeWhenCleared(Next(s, e), v)
  {
    var t := Next(s, e);
    if Cleared(t, v) && AtRisk(t, v) {
      NextRisks(s, e, v);
      hide Next, AtRisk, GetsAccepted, InvoicesHeld;
      if !Cleared(s, v) {
        NewlyCleared(s, e, v);
      }
    }
  }

  // --- The approval gate ----------------------------------------------------

  predicate Past(s: System, v: InvoiceId) {
    v in s.db.invoices && s.db.invoices[v].status != PendingApproval
  }

  /** Jobs in flight and calls ever made are for invoices past the gate. */
  ghost predicate PastGate(s: System) {
    && (forall w :: w in s.workers ==> Past(s, s.workers[w].invoice))
    && (forall c :: c in s.calls ==> Past(s, c.invoice))
  }

  /** Past the gate means approved, for invoices and for every call ever made. */
  ghost predicate Approved(s: System) {
    && (forall v :: v in s.db.invoices && s.db.invoices[v].status != PendingApproval ==> s.db.invoices[v].approver.Some?)
    && (forall c :: c in s.calls ==> c.approver.Some?)
  }

  ghost predicate Gate(s: System) {
    PastGate(s) && Approved(s)
  }

  /** What a step does besides moving invoices: jobs start past the gate, calls are made by jobs. */
  predicate JobsMove(s: System, e: Event, t: System) {
    && (forall w :: w in t.workers && (w !in s.workers || t.workers[w].invoice != s.workers[w].invoice) ==>
         var v := t.workers[w].invoice; v in s.db.invoices && MayFile(s.db.invoices[v].status))
    && (t.calls == s.calls || (e.CallProvider? && e.worker in s.workers && t.calls == s.calls + [CallOf(s, e.worker)]))
  }

  lemma NextJobs(s: System, e: Event)
    ensures JobsMove(s, e, Next(s, e))
  {
    hide NextStore, ArchiveOf, SettledAll, Located, Applies, WithStatus, OutcomeStatus, OutcomeLog, CallOf;
  }

  lemma StaysPast(s: System, e: Event, v: InvoiceId)
    requires InvoicesHeld(s.db) && Past(s, v)
    ensures Past(Next(s, e), v)
  {
    OneStep(s, e, v);
    hide Next, InvoicesHeld;
  }

  /** Whatever happens, jobs in flight and calls made stay with invoices past the gate. */
  lemma PastGateStep(s: System, e: Event)
    requires InvoicesHeld(s.db) && PastGate(s)
    ensures PastGate(Next(s, e))
  {
    NextJobs(s, e);
    hide Next, InvoicesHeld, Past;
    var t := Next(s, e);
    forall w | w in t.workers
      ensures Past(t, t.workers[w].invoice)
    {
      if !(w in s.workers && t.workers[w].invoice == s.workers[w].invoice) {
        GuardedIsPast(s, t.workers[w].invoice);
      }
      StaysPast(s, e, t.workers[w].invoice);
    }
    forall c | c in t.calls
      ensures Past(t, c.invoice)
    {
      if c !in s.calls {
        assert c == CallOf(s, e.worker);
      }
      StaysPast(s, e, c.invoice);
    }
  }

  lemma GuardedIsPast(s: System, v: InvoiceId)
    requires v in s.db.invoices && MayFile(s.db.invoices[v].status)
    ensures Past(s, v)
  {
  }

  predicate WaitsUnapproved(s: System, v: InvoiceId) {
    v in s.db.invoices && s.db.invoices[v].status == PendingApproval && s.db.invoices[v].approver.None?
  }

  /** The two ways around the approver: the platform's retry of a waiting invoice, and a verdict on one. */
  predicate Bypasses(s: System, e: Event) {
    || (e.PlatformRetryInvoice? && WaitsUnapproved(s, e.invoice))
    || ((e.ProcessWebhook? || e.PollProvider?) && e.target.Some? && Judges(s, e, e.target.value)
        && VerdictOf(s, e) != StillPending && WaitsUnapproved(s, e.target.value))
  }

  predicate ApprovedWhenPast(f: FiledInvoice) {
    f.status != PendingApproval ==> f.approver.Some?
  }

  /** Outside staging, the step leaves an invoice unapproved past the gate exactly when it bypasses the gate with it. */
  lemma MovedApproved(s: System, e: Event, v: InvoiceId, after: FiledInvoice)
    requires Gate(s) && v in s.db.invoices && Moved(s, e, v, after)
    ensures !Bypasses(s, e) ==> ApprovedWhenPast(after)
    ensures Bypasses(s, e) && (if e.PlatformRetryInvoice? then e.invoice == v else e.target == Some(v)) ==> !ApprovedWhenPast(after)
  {
    hide Located, Answers;
    if Closes(s, e, v) {
      assert Past(s, v);
    }
  }

  lemma GateInvoices(s: System, e: Event)
    requires InvoicesHeld(s.db) && Gate(s)
    ensures (forall v :: v in Next(s, e).db.invoices ==> ApprovedWhenPast(Next(s, e).db.invoices[v])) <==> !Bypasses(s, e)
  {
    var t := Next(s, e);
    if OnStore(e) {
      NextMoves(s.db, e);
      NextOnStore(s, e);
      hide Next, NextStore, InvoicesHeld, PastGate, Located, Answers;
    } else {
      OtherStepMoves(s, e);
      hide Next, InvoicesHeld, Gate, Moved, ApprovedWhenPast, OnStore;
      forall v | v in s.db.invoices
        ensures !Bypasses(s, e) ==> ApprovedWhenPast(t.db.invoices[v])
      {
        MovedApproved(s, e, v, t.db.invoices[v]);
      }
      if Bypasses(s, e) {
        var v := if e.PlatformRetryInvoice? then e.invoice else e.target.value;
        assert v in t.db.invoices by { BypassedExists(s, e); }
        MovedApproved(s, e, v, t.db.invoices[v]);
      }
    }
  }

  lemma BypassedExists(s: System, e: Event)
    requires Bypasses(s, e)
    ensures e.PlatformRetryInvoice? ==> e.invoice in s.db.invoices
    ensures !e.PlatformRetryInvoice? ==> (e.ProcessWebhook? || e.PollProvider?) && e.target.Some? && e.target.value in s.db.invoices
  {
    hide Judges;
  }

  lemma GateCalls(s: System, e: Event)
    requires Gate(s)
    ensures forall c :: c in Next(s, e).calls ==> c.approver.Some?
  {
    NextJobs(s, e);
    hide Next;
    var t := Next(s, e);
    forall c | c in t.calls
      ensures c.approver.Some?
    {
      if c !in s.calls {
        assert c == CallOf(s, e.worker);
        assert Past(s, s.workers[e.worker].invoice);
      }
    }
  }

  /** The gate survives a step if and only if the step does not bypass it. */
  lemma GateStep(s: System, e: Event)
    requires InvoicesHeld(s.db) && Gate(s)
    ensures Gate(Next(s, e)) <==> !Bypasses(s, e)
  {
    PastGateStep(s, e);
    GateInvoices(s, e);
    GateCalls(s, e);
    hide Next, InvoicesHeld, PastGate, Bypasses;
    ApprovedMeans(Next(s, e));
  }

  lemma ApprovedMeans(t: System)
    ensures Approved(t) <==>
      (forall v :: v in t.db.invoices ==> ApprovedWhenPast(t.db.invoices[v])) && (forall c :: c in t.calls ==> c.approver.Some?)
  {
    assert forall v :: v in t.db.invoices ==>
      (ApprovedWhenPast(t.db.invoices[v]) <==> (t.db.invoices[v].status != PendingApproval ==> t.db.invoices[v].approver.Some?));
  }

  predicate Called(s: System, v: InvoiceId) {
    exists c :: c in s.calls && c.invoice == v
  }

  /** Verdicts on invoices the provider was sent never bypass the gate. */
  lemma SolicitedVerdictsPass(s: System, e: Event)
    requires Gate(s) && (e.ProcessWebhook? || e.PollProvider?) && (e.target.Some? ==> Called(s, e.target.value))
    ensures !Bypasses(s, e)
  {
    hide Judges;
    if e.target.Some? {
      var c :| c in s.calls && c.invoice == e.target.value;
      assert Past(s, c.invoice);
    }
  }
}
