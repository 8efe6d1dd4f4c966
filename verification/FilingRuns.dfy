/** Whole runs of the filing system: what holds in every reachable state, under every interleaving. */
module FilingRuns {
  import opened Text
  import opened Calc
  import opened Validate
  import opened RecalcFindings
  import opened StagedPayload
  import opened Patches
  import opened Staging
  import opened StagingRules
  import opened PromotionRules
  import opened TableRules
  import opened Filing
  import opened FilingRules
  import Ubl

  // --- Reachable states -----------------------------------------------------

  /** What identifiers drawn at random guarantee: line ids of uploads and new lines are unique. */
  ghost predicate Plausible(s: System, e: Event) {
    && (e.ParseBatch? ==> Upload(e.parsed, e.synthetic))
    && (e.EditRow? && e.batch in s.db.rows ==>
         forall i :: 0 <= i < |s.db.rows[e.batch]| ==> Fresh(s.db.rows[e.batch][i].payload, e.patch))
  }

  ghost predicate PlausibleRun(s: System, events: seq<Event>) {
    events != [] ==>
      && PlausibleRun(s, events[..|events| - 1])
      && Plausible(Run(s, events[..|events| - 1]), events[|events| - 1])
  }

  lemma StoreStepConsistent(s: System, e: Event)
    requires Consistent(s.db) && Plausible(s, e) && OnStore(e)
    ensures Consistent(NextStore(s.db, e))
  {
    hide Consistent, Upload, Fresh;
    match e
    case ParseBatch(b, parsed, synthetic, ctx) => ParseConsistent(s.db, b, parsed, synthetic, ctx);
    case EditRow(b, row, patch, ctx) =>
      if b in s.db.rows {
        EditConsistent(s.db, b, row, patch, ctx);
      }
    case RevalidateBatch(b, ctx) =>
      if b in s.db.rows {
        RevalidateConsistent(s.db, b, ctx);
      }
    case AutoFixBatch(b, ctx) =>
      if b in s.db.rows {
        AutoFixConsistent(s.db, b, ctx);
      }
    case DeleteRow(b, row) =>
      if b in s.db.rows {
        DeleteConsistent(s.db, b, row);
      }
    case SubmitBatch(b, d) => SubmitConsistent(s.db, b, d);
    case ApproveInvoices(ids, user) => ApproveConsistent(s.db, ids, s.db.nextInvoice, user);
    case RejectInvoices(ids) => RejectConsistent(s.db, ids, s.db.nextInvoice);
  }

  lemma StepConsistent(s: System, e: Event)
    requires Consistent(s.db) && Plausible(s, e)
    ensures Consistent(Next(s, e).db)
  {
    if OnStore(e) {
      StoreStepConsistent(s, e);
      hide Consistent, NextStore, Plausible;
    } else {
      OtherStepMoves(s, e);
      hide Next, StatusAfter, ApproverAfter, Consistent, Plausible;
      var t := Next(s, e);
      forall v | v in s.db.invoices
        ensures SameRecord(s.db.invoices[v], t.db.invoices[v])
      {
        assert Moved(s, e, v, t.db.invoices[v]);
      }
      SameLinksConsistent(s.db, t.db);
    }
  }

  ghost predicate SameRecord(before: FiledInvoice, after: FiledInvoice) {
    after == before.(status := after.status, approver := after.approver, archive := after.archive)
  }

  lemma StoreStepTallied(s: System, e: Event)
    requires Consistent(s.db) && Tallied(s.db) && OnStore(e)
    ensures Tallied(NextStore(s.db, e))
  {
    OlderIds(s.db);
    hide Consistent, Tallied, IdsDistinct;
    match e
    case ParseBatch(b, parsed, synthetic, ctx) => ParseTallied(s.db, b, parsed, synthetic, ctx);
    case EditRow(b, row, patch, ctx) =>
      if b in s.db.rows {
        EditTallied(s.db, b, row, patch, ctx);
      }
    case RevalidateBatch(b, ctx) =>
      if b in s.db.rows {
        RewritesTallied(s.db, b, ctx);
      }
    case AutoFixBatch(b, ctx) =>
      if b in s.db.rows {
        RewritesTallied(s.db, b, ctx);
      }
    case DeleteRow(b, row) =>
      if b in s.db.rows {
        DeleteTallied(s.db, b, row);
      }
    case SubmitBatch(b, d) => SubmitTallied(s.db, b, d);
    case ApproveInvoices(ids, user) =>
      ApproveKeepsRows(s.db, ids, s.db.nextInvoice, user);
      SameTables(s.db, Approve(s.db, ids, user));
    case RejectInvoices(ids) => RejectTallied(s.db, ids, s.db.nextInvoice);
  }

  lemma SameTables(s: Db, t: Db)
    requires Tallied(s) && t.rows == s.rows && t.counters == s.counters && t.logs == s.logs
    ensures Tallied(t)
  {
    hide CounterOk;
  }

  lemma StepTallied(s: System, e: Event)
    requires Consistent(s.db) && Tallied(s.db)
    ensures Tallied(Next(s, e).db)
  {
    if OnStore(e) {
      StoreStepTallied(s, e);
      hide Consistent, NextStore, Tallied;
    } else {
      OtherStepMoves(s, e);
      hide Next, Consistent, Tallied, Moved;
      SameTables(s.db, Next(s, e).db);
    }
  }

  lemma EmptyIsConsistent()
    ensures Consistent(Initial().db) && Tallied(Initial().db)
  {
  }

  /** Rows and invoices stay paired, payloads frozen, numbers unique and derived tables exact, in every run. */
  lemma {:induction false} RunsStayConsistent(events: seq<Event>)
    requires PlausibleRun(Initial(), events)
    ensures Consistent(Run(Initial(), events).db) && Tallied(Run(Initial(), events).db)
  {
    EmptyIsConsistent();
    hide Consistent, Tallied, Next, Plausible;
    if events != [] {
      var front, last := events[..|events| - 1], events[|events| - 1];
      RunsStayConsistent(front);
      StepConsistent(Run(Initial(), front), last);
      StepTallied(Run(Initial(), front), last);
    }
  }

  lemma HeldInRuns(events: seq<Event>)
    requires PlausibleRun(Initial(), events)
    ensures InvoicesHeld(Run(Initial(), events).db)
  {
    RunsStayConsistent(events);
    hide Run, PlausibleRun, RowsOk, IdsDistinct, InvoicesHeld, NumbersUnique, OnePerNumber, Tallied;
  }

  lemma RunStep(s: System, a: seq<Event>, b: seq<Event>)
    requires b != []
    ensures Run(s, a + b) == Next(Run(s, a + b[..|b| - 1]), b[|b| - 1])
  {
    hide Next;
    assert (a + b)[..|a + b| - 1] == a + b[..|b| - 1];
  }

  lemma PlausibleFront(a: seq<Event>, b: seq<Event>)
    requires b != [] && PlausibleRun(Initial(), a + b)
    ensures PlausibleRun(Initial(), a + b[..|b| - 1])
  {
    assert (a + b)[..|a + b| - 1] == a + b[..|b| - 1];
  }

  // --- What is filed never changes ------------------------------------------

  /** Once past the gate an invoice stays, never waits again, and keeps everything that describes the filing. */
  lemma {:induction false} PastTheGateForGood(a: seq<Event>, b: seq<Event>, v: InvoiceId)
    requires PlausibleRun(Initial(), a + b)
    requires var s := Run(Initial(), a); v in s.db.invoices && s.db.invoices[v].status != PendingApproval
    ensures var s, t := Run(Initial(), a), Run(Initial(), a + b);
      && v in t.db.invoices && t.db.invoices[v].status != PendingApproval
      && SameFiling(s.db.invoices[v], t.db.invoices[v])
  {
    if b == [] {
      assert a + b == a;
    } else {
      hide Run, Next, PlausibleRun, InvoicesHeld;
      var front, last := b[..|b| - 1], b[|b| - 1];
      RunStep(Initial(), a, b);
      PlausibleFront(a, b);
      PastTheGateForGood(a, front, v);
      HeldInRuns(a + front);
      OneStep(Run(Initial(), a + front), last, v);
    }
  }

  // --- Acceptance -----------------------------------------------------------

  /** No accepting verdict is applied to this invoice while a job of its own may still write its status. */
  ghost predicate QuietRun(s: System, events: seq<Event>, v: InvoiceId) {
    events != [] ==>
      && QuietRun(s, events[..|events| - 1], v)
      && QuietFor(Run(s, events[..|events| - 1]), events[|events| - 1], v)
  }

  lemma {:induction false} SafeInRuns(events: seq<Event>, v: InvoiceId)
    requires PlausibleRun(Initial(), events) && QuietRun(Initial(), events, v)
    ensures SafeWhenCleared(Run(Initial(), events), v)
  {
    if events != [] {
      hide Next, Plausible, QuietFor, InvoicesHeld, SafeWhenCleared;
      var front, last := events[..|events| - 1], events[|events| - 1];
      SafeInRuns(front, v);
      HeldInRuns(front);
      SafeStep(Run(Initial(), front), last, v);
    }
  }

  /** An accepted invoice that is not at risk stays so in every continuation, whatever verdicts come. */
  lemma {:induction false} SafeForGood(a: seq<Event>, b: seq<Event>, v: InvoiceId)
    requires PlausibleRun(Initial(), a + b)
    requires Cleared(Run(Initial(), a), v) && !AtRisk(Run(Initial(), a), v)
    ensures Cleared(Run(Initial(), a + b), v) && !AtRisk(Run(Initial(), a + b), v)
  {
    if b == [] {
      assert a + b == a;
    } else {
      var front, last := b[..|b| - 1], b[|b| - 1];
      RunStep(Initial(), a, b);
      PlausibleFront(a, b);
      hide Run, Next, PlausibleRun, InvoicesHeld, Cleared, AtRisk;
      SafeForGood(a, front, v);
      HeldInRuns(a + front);
      SafeNext(Run(Initial(), a + front), last, v);
    }
  }

  lemma SafeNext(s: System, e: Event, v: InvoiceId)
    requires InvoicesHeld(s.db) && Cleared(s, v) && !AtRisk(s, v)
    ensures Cleared(Next(s, e), v) && !AtRisk(Next(s, e), v)
  {
    OnlyAClosingWriteUndoes(s, e, v);
    NotOverwritten(s, e, v);
    hide Next, InvoicesHeld, AtRisk, Overwrites;
    if AtRisk(Next(s, e), v) {
      NextRisks(s, e, v);
    }
  }

  lemma NotOverwritten(s: System, e: Event, v: InvoiceId)
    requires !AtRisk(s, v)
    ensures !Overwrites(s, e, v)
  {
  }

  /** What is left of a job: the steps that bring it to its closing write. */
  function RestOfJob(w: WorkerId, phase: Phase, seller: Seller, outcome: Outcome): seq<Event> {
    match phase
    case Checked => [ArchiveXml(w, seller), CallProvider(w, outcome), CloseJob(w)]
    case Stored => [CallProvider(w, outcome), CloseJob(w)]
    case Answered(_) => [CloseJob(w)]
  }

  /** Finishing a job that is at risk writes the invoice's status away from accepted. */
  lemma JobOverwrites(s: System, w: WorkerId, v: InvoiceId, seller: Seller)
    requires Cleared(s, v) && w in s.workers && s.workers[w].invoice == v && Risky(s.workers[w])
    ensures var t := Run(s, RestOfJob(w, s.workers[w].phase, seller, Rejected));
      v in t.db.invoices && !Cleared(t, v)
  {
    UpToThree(s, RestOfJob(w, s.workers[w].phase, seller, Rejected));
    hide Run, Next;
    var archived := Next(s, ArchiveXml(w, seller));
    match s.workers[w].phase
    case Checked =>
      ArchiveKeepsRisk(s, w, v, seller);
      CallKeepsRisk(archived, w, v);
      CloseOverwrites(Next(archived, CallProvider(w, Rejected)), w, v);
    case Stored =>
      CallKeepsRisk(s, w, v);
      CloseOverwrites(Next(s, CallProvider(w, Rejected)), w, v);
    case Answered(_) => CloseOverwrites(s, w, v);
  }

  lemma ArchiveKeepsRisk(s: System, w: WorkerId, v: InvoiceId, seller: Seller)
    requires Cleared(s, v) && w in s.workers && s.workers[w].invoice == v && s.workers[w].phase == Checked
    ensures var t := Next(s, ArchiveXml(w, seller));
      Cleared(t, v) && w in t.workers && t.workers[w].invoice == v && t.workers[w].phase == Stored
  {
    hide ArchiveOf;
  }

  lemma CallKeepsRisk(s: System, w: WorkerId, v: InvoiceId)
    requires Cleared(s, v) && w in s.workers && s.workers[w].invoice == v && s.workers[w].phase == Stored
    ensures var t := Next(s, CallProvider(w, Rejected));
      Cleared(t, v) && w in t.workers && t.workers[w].invoice == v && t.workers[w].phase == Answered(Rejected)
  {
    hide CallOf;
  }

  lemma CloseOverwrites(s: System, w: WorkerId, v: InvoiceId)
    requires Cleared(s, v) && w in s.workers && s.workers[w].invoice == v && s.workers[w].phase.Answered? && Risky(s.workers[w])
    ensures v in Next(s, CloseJob(w)).db.invoices && !Cleared(Next(s, CloseJob(w)), v)
  {
  }

  lemma UpToThree(s: System, events: seq<Event>)
    ensures |events| == 1 ==> Run(s, events) == Next(s, events[0])
    ensures |events| == 2 ==> Run(s, events) == Next(Next(s, events[0]), events[1])
    ensures |events| == 3 ==> Run(s, events) == Next(Next(Next(s, events[0]), events[1]), events[2])
  {
    hide Next;
    assert Run(s, []) == s;
    if |events| > 0 {
      assert events[..1][..0] == [];
      assert Run(s, events[..1]) == Next(s, events[0]);
    }
    if |events| > 1 {
      assert events[..2][..1] == events[..1];
      assert Run(s, events[..2]) == Next(Run(s, events[..1]), events[1]);
    }
    assert events[..|events|] == events;
  }

  lemma {:induction false} RunConcat(s: System, a: seq<Event>, b: seq<Event>)
    ensures Run(s, a + b) == Run(Run(s, a), b)
  {
    hide Next;
    if b == [] {
      assert a + b == a;
    } else {
      RunStep(s, a, b);
      RunConcat(s, a, b[..|b| - 1]);
    }
  }

  /** Steps of jobs are always plausible. */
  lemma {:induction false} JobsArePlausible(s: System, a: seq<Event>, b: seq<Event>)
    requires PlausibleRun(s, a) && forall e :: e in b ==> !e.ParseBatch? && !e.EditRow?
    ensures PlausibleRun(s, a + b)
  {
    hide Run;
    if b == [] {
      assert a + b == a;
    } else {
      assert (a + b)[..|a + b| - 1] == a + b[..|b| - 1];
      assert b[|b| - 1] in b;
      JobsArePlausible(s, a, b[..|b| - 1]);
    }
  }

  /** Accepted, and accepted in every continuation of the run. */
  ghost predicate ClearedForGood(a: seq<Event>, v: InvoiceId) {
    forall b :: PlausibleRun(Initial(), a + b) ==> Cleared(Run(Initial(), a + b), v)
  }

  /**
   * Exactly when an acceptance is permanent: an accepted invoice stays accepted in every continuation of the
   * run, whatever interleaves, if and only if no job for it that may still write its status is in flight.
   */
  lemma AcceptedForGood(a: seq<Event>, v: InvoiceId)
    requires PlausibleRun(Initial(), a) && Cleared(Run(Initial(), a), v)
    ensures ClearedForGood(a, v) <==> !AtRisk(Run(Initial(), a), v)
  {
    var s := Run(Initial(), a);
    if AtRisk(s, v) {
      var w :| w in s.workers && s.workers[w].invoice == v && Risky(s.workers[w]);
      var seller := Seller(Ubl.Supplier("", "", None, None, None, None, None), "", "", "");
      var b := RestOfJob(w, s.workers[w].phase, seller, Rejected);
      JobOverwrites(s, w, v, seller);
      RunConcat(Initial(), a, b);
      JobsArePlausible(Initial(), a, b);
      hide Run, Cleared, PlausibleRun;
      assert PlausibleRun(Initial(), a + b) && !Cleared(Run(Initial(), a + b), v);
    } else {
      hide Run, Cleared, PlausibleRun, AtRisk;
      forall b | PlausibleRun(Initial(), a + b)
        ensures Cleared(Run(Initial(), a + b), v)
      {
        SafeForGood(a, b, v);
      }
    }
  }

  /**
   * Acceptance is permanent. In every interleaving of staging, approval, retries, jobs, webhooks and polls,
   * an accepted invoice stays accepted, provided no verdict accepted it while a job of its own that had read it
   * could still write its status.
   */
  lemma AcceptanceIsPermanent(a: seq<Event>, b: seq<Event>, v: InvoiceId)
    requires PlausibleRun(Initial(), a + b) && QuietRun(Initial(), a, v)
    requires Cleared(Run(Initial(), a), v)
    ensures Cleared(Run(Initial(), a + b), v)
  {
    PlausiblePrefix(Initial(), a, b);
    SafeInRuns(a, v);
    hide Run, PlausibleRun, QuietRun, Cleared, AtRisk;
    SafeForGood(a, b, v);
  }

  lemma {:induction false} PlausiblePrefix(s: System, a: seq<Event>, b: seq<Event>)
    requires PlausibleRun(s, a + b)
    ensures PlausibleRun(s, a)
  {
    hide Plausible, Run;
    if b == [] {
      assert a + b == a;
    } else {
      assert (a + b)[..|a + b| - 1] == a + b[..|b| - 1];
      PlausiblePrefix(s, a, b[..|b| - 1]);
    }
  }

  // --- What a job reads -----------------------------------------------------

  lemma JobsStep(s: System, e: Event)
    requires InvoicesHeld(s.db) && JobsOk(s)
    ensures JobsOk(Next(s, e))
  {
    if OnStore(e) {
      NextMoves(s.db, e);
      hide NextStore, InvoicesHeld;
    } else {
      OtherStepMoves(s, e);
      NextReads(s, e);
      HeldBelow(s.db);
      hide Next, InvoicesHeld, StatusAfter, ApproverAfter;
      var t := Next(s, e);
      forall w | w in t.workers
        ensures t.workers[w].invoice < t.db.nextInvoice
        ensures t.workers[w].invoice in t.db.invoices ==> SameFiling(t.workers[w].read, t.db.invoices[t.workers[w].invoice])
      {
        var v := t.workers[w].invoice;
        if v in s.db.invoices {
          assert Moved(s, e, v, t.db.invoices[v]);
        }
      }
    }
  }

  lemma HeldBelow(db: Db)
    requires InvoicesHeld(db)
    ensures forall v :: v in db.invoices ==> v < db.nextInvoice
  {
    hide Holds;
  }

  /** A job's read is the one it started from, or the record it starts from now. */
  lemma NextReads(s: System, e: Event)
    requires !OnStore(e)
    ensures forall w :: w in Next(s, e).workers ==>
      var job := Next(s, e).workers[w];
      || (w in s.workers && job.invoice == s.workers[w].invoice && job.read == s.workers[w].read)
      || (job.invoice in s.db.invoices && job.read == s.db.invoices[job.invoice])
  {
    hide ArchiveOf, SettledAll, Located, Applies, WithStatus, OutcomeStatus, OutcomeLog, CallOf, MayFile;
  }

  // --- The approval gate ----------------------------------------------------

  lemma {:induction false} PastGateHolds(events: seq<Event>)
    requires PlausibleRun(Initial(), events)
    ensures PastGate(Run(Initial(), events))
  {
    if events != [] {
      hide Next, Plausible, InvoicesHeld, PastGate;
      var front, last := events[..|events| - 1], events[|events| - 1];
      PastGateHolds(front);
      HeldInRuns(front);
      PastGateStep(Run(Initial(), front), last);
    }
  }

  /** No step of the run bypasses the gate. */
  ghost predicate UnbypassedRun(s: System, events: seq<Event>) {
    events != [] ==>
      && UnbypassedRun(s, events[..|events| - 1])
      && !Bypasses(Run(s, events[..|events| - 1]), events[|events| - 1])
  }

  lemma {:induction false} GateHolds(events: seq<Event>)
    requires PlausibleRun(Initial(), events) && UnbypassedRun(Initial(), events)
    ensures Gate(Run(Initial(), events))
  {
    if events != [] {
      hide Next, Plausible, Bypasses, InvoicesHeld, Gate;
      var front, last := events[..|events| - 1], events[|events| - 1];
      GateHolds(front);
      HeldInRuns(front);
      GateStep(Run(Initial(), front), last);
    }
  }

  /**
   * The approval gate over whole runs, with jobs free to start on any invoice at any time: as long as no
   * step bypasses the gate, every call the provider ever receives is for an invoice that carried an approver
   * when it was made.
   */
  lemma EveryCallIsApproved(events: seq<Event>)
    requires PlausibleRun(Initial(), events) && UnbypassedRun(Initial(), events)
    ensures forall c :: c in Run(Initial(), events).calls ==> c.approver.Some?
  {
    GateHolds(events);
    hide Run, PlausibleRun, UnbypassedRun;
  }

  /** The first step that bypasses the gate breaks it: an invoice is then past the gate with no approver. */
  lemma BypassBreaksTheGate(events: seq<Event>, e: Event)
    requires PlausibleRun(Initial(), events + [e]) && UnbypassedRun(Initial(), events)
    ensures Gate(Run(Initial(), events + [e])) <==> !Bypasses(Run(Initial(), events), e)
  {
    PlausiblePrefix(Initial(), events, [e]);
    RunStep(Initial(), events, [e]);
    assert events + [e][..0] == events;
    GateHolds(events);
    HeldInRuns(events);
    hide Run, PlausibleRun, UnbypassedRun, Next, Gate, Bypasses;
    GateStep(Run(Initial(), events), e);
  }
}
