/** Verdicts: their order and repetition do not matter, few are ever applied, and the races that break acceptance and the gate. */
module FilingVerdicts {
  import opened Text
  import opened Calc
  import opened Staging
  import opened StagingRules
  import opened PromotionRules
  import opened Filing
  import opened FilingRules
  import opened FilingRuns

  // --- Confluence -----------------------------------------------------------

  /** Folding verdicts through the terminal-state rule. */
  function FoldVerdicts(status: Status, verdicts: seq<Verdict>): Status {
    if verdicts == [] then status
    else AfterVerdict(FoldVerdicts(status, verdicts[..|verdicts| - 1]), verdicts[|verdicts| - 1])
  }

  /** How many of them are applied. */
  function AppliedCount(status: Status, verdicts: seq<Verdict>): nat {
    if verdicts == [] then 0
    else
      AppliedCount(status, verdicts[..|verdicts| - 1])
      + if Applies(FoldVerdicts(status, verdicts[..|verdicts| - 1]), verdicts[|verdicts| - 1]) then 1 else 0
  }

  /** What a set of verdicts comes to. */
  function Resolved(status: Status, verdicts: set<Verdict>): Status {
    if Terminal(status) then status
    else if Clears in verdicts then AcceptedByFta
    else if Refuses in verdicts then RejectedByFta
    else status
  }

  function SetOf(verdicts: seq<Verdict>): set<Verdict> {
    set v | v in verdicts
  }

  /** The outcome of any sequence of verdicts is decided by which verdicts occur in it, not by order or repetition. */
  lemma {:induction false} VerdictsConfluent(status: Status, verdicts: seq<Verdict>)
    ensures FoldVerdicts(status, verdicts) == Resolved(status, SetOf(verdicts))
  {
    if verdicts != [] {
      var front, last := verdicts[..|verdicts| - 1], verdicts[|verdicts| - 1];
      VerdictsConfluent(status, front);
      assert SetOf(verdicts) == SetOf(front) + {last};
    }
  }

  /** Reordered, repeated or thinned of repeats: the same verdicts give the same status. */
  lemma OrderDoesNotMatter(status: Status, a: seq<Verdict>, b: seq<Verdict>)
    requires forall v :: v in a <==> v in b
    ensures FoldVerdicts(status, a) == FoldVerdicts(status, b)
  {
    VerdictsConfluent(status, a);
    VerdictsConfluent(status, b);
    assert SetOf(a) == SetOf(b);
  }

  /** How many verdicts a status can still absorb. */
  function Room(status: Status): nat {
    if Terminal(status) then 0 else if status == RejectedByFta then 1 else 2
  }

  lemma {:induction false} FewApplied(status: Status, verdicts: seq<Verdict>)
    ensures AppliedCount(status, verdicts) + Room(FoldVerdicts(status, verdicts)) <= Room(status)
    ensures AppliedCount(status, verdicts) <= 2
  {
    if verdicts != [] {
      FewApplied(status, verdicts[..|verdicts| - 1]);
    }
  }

  // --- The same over runs ---------------------------------------------------

  /** The step applies a verdict to this invoice. */
  predicate AppliesTo(s: System, e: Event, v: InvoiceId) {
    v in s.db.invoices && Judges(s, e, v) && Applies(s.db.invoices[v].status, VerdictOf(s, e))
  }

  function Applications(s: System, events: seq<Event>, v: InvoiceId): nat {
    if events == [] then 0
    else
      Applications(s, events[..|events| - 1], v)
      + if AppliesTo(Run(s, events[..|events| - 1]), events[|events| - 1], v) then 1 else 0
  }

  /** Retries of the invoice and closing writes of its jobs: the steps that open it to verdicts again. */
  predicate Reopens(s: System, e: Event, v: InvoiceId) {
    || (e.RetryInvoice? && e.invoice == v) || (e.PlatformRetryInvoice? && e.invoice == v) || Closes(s, e, v)
  }

  ghost predicate NeverReopened(s: System, events: seq<Event>, v: InvoiceId) {
    events != [] ==>
      && NeverReopened(s, events[..|events| - 1], v)
      && !Reopens(Run(s, events[..|events| - 1]), events[|events| - 1], v)
  }

  function RoomOf(s: System, v: InvoiceId): nat {
    if v in s.db.invoices then Room(s.db.invoices[v].status) else 0
  }

  lemma RoomStep(s: System, e: Event, v: InvoiceId)
    requires InvoicesHeld(s.db) && v < s.db.nextInvoice && !Reopens(s, e, v)
    ensures v < Next(s, e).db.nextInvoice
    ensures RoomOf(Next(s, e), v) + (if AppliesTo(s, e, v) then 1 else 0) <= RoomOf(s, v)
  {
    if OnStore(e) {
      NextMoves(s.db, e);
      NextOnStore(s, e);
      hide Next, NextStore, InvoicesHeld, Located;
    } else {
      OtherStepMoves(s, e);
      hide Next, InvoicesHeld, Located, Moved, Reopens, AppliesTo, Room;
      if v in s.db.invoices {
        MovedRoom(s, e, v, Next(s, e).db.invoices[v]);
      } else {
        assert !AppliesTo(s, e, v) by { NothingApplied(s, e, v); }
      }
    }
  }

  lemma NothingApplied(s: System, e: Event, v: InvoiceId)
    requires v !in s.db.invoices
    ensures !AppliesTo(s, e, v)
  {
  }

  lemma MovedRoom(s: System, e: Event, v: InvoiceId, after: FiledInvoice)
    requires v in s.db.invoices && !Reopens(s, e, v) && Moved(s, e, v, after)
    ensures Room(after.status) + (if AppliesTo(s, e, v) then 1 else 0) <= Room(s.db.invoices[v].status)
  {
    hide Located;
  }

  lemma {:induction false} RoomAfter(a: seq<Event>, b: seq<Event>, v: InvoiceId)
    requires PlausibleRun(Initial(), a + b)
    requires var s := Run(Initial(), a); v < s.db.nextInvoice && NeverReopened(s, b, v)
    ensures var s, t := Run(Initial(), a), Run(Initial(), a + b);
      && t == Run(s, b) && v < t.db.nextInvoice
      && Applications(s, b, v) + RoomOf(t, v) <= RoomOf(s, v)
  {
    if b == [] {
      assert a + b == a;
    } else {
      var front, last := b[..|b| - 1], b[|b| - 1];
      RunStep(Initial(), a, b);
      PlausibleFront(a, b);
      hide Next, PlausibleRun, InvoicesHeld, Reopens, AppliesTo, RoomOf;
      RoomAfter(a, front, v);
      HeldInRuns(a + front);
      RoomStep(Run(Initial(), a + front), last, v);
    }
  }

  /** Between two retries at most two verdicts are ever applied to an invoice, however many arrive by whatever route. */
  lemma AtMostTwoApplied(a: seq<Event>, b: seq<Event>, v: InvoiceId)
    requires PlausibleRun(Initial(), a + b)
    requires var s := Run(Initial(), a); v < s.db.nextInvoice && NeverReopened(s, b, v)
    ensures Applications(Run(Initial(), a), b, v) <= 2
  {
    hide Run, PlausibleRun, NeverReopened, Applications;
    RoomAfter(a, b, v);
  }

  // --- De-duplication -------------------------------------------------------

  /** A delivery already processed, delivered again and processed again, changes nothing at all. */
  lemma RedeliveryIsHarmless(s: System, d: DeliveryId, u: Update, target: Option<InvoiceId>)
    requires d in s.deliveries && s.deliveries[d].Processed?
    ensures Run(s, [ReceiveWebhook(d, u), ProcessWebhook(d, target)]) == s
  {
    UpToThree(s, [ReceiveWebhook(d, u), ProcessWebhook(d, target)]);
    hide Run, Apply, Located;
  }

  // --- The races ------------------------------------------------------------

  /** A job, taken through archiving to the provider's answer. */
  lemma JobReachesProvider(s: System, w: WorkerId, v: InvoiceId, seller: Seller, outcome: Outcome)
    requires v in s.db.invoices && w !in s.workers && MayFile(s.db.invoices[v].status)
    ensures var t := Run(s, [StartJob(w, v), ArchiveXml(w, seller), CallProvider(w, outcome)]);
      && w in t.workers && t.workers[w].invoice == v && t.workers[w].phase == Answered(outcome)
      && v in t.db.invoices && t.db.invoices[v].status == s.db.invoices[v].status
      && |t.calls| == |s.calls| + 1 && t.calls[|s.calls|].invoice == v && t.calls[|s.calls|].approver == s.db.invoices[v].approver
      && t.db.invoices.Keys == s.db.invoices.Keys && t.deliveries == s.deliveries
  {
    UpToThree(s, [StartJob(w, v), ArchiveXml(w, seller), CallProvider(w, outcome)]);
    hide Run, Next, MayFile;
    var started := Next(s, StartJob(w, v));
    StartIs(s, w, v);
    ArchiveIs(started, w, seller);
    CallIs(Next(started, ArchiveXml(w, seller)), w, outcome);
  }

  lemma StartIs(s: System, w: WorkerId, v: InvoiceId)
    requires v in s.db.invoices && w !in s.workers && MayFile(s.db.invoices[v].status)
    ensures Next(s, StartJob(w, v)) == s.(workers := s.workers[w := Worker(v, s.db.invoices[v], Checked)])
  {
    hide MayFile;
  }

  lemma ArchiveIs(s: System, w: WorkerId, seller: Seller)
    requires w in s.workers && s.workers[w].phase == Checked && s.workers[w].invoice in s.db.invoices
    ensures var t, v := Next(s, ArchiveXml(w, seller)), s.workers[w].invoice;
      && t.workers == s.workers[w := s.workers[w].(phase := Stored)] && t.calls == s.calls && t.deliveries == s.deliveries
      && t.db.invoices.Keys == s.db.invoices.Keys
      && t.db.invoices[v] == s.db.invoices[v].(archive := t.db.invoices[v].archive)
  {
    hide ArchiveOf;
  }

  lemma CallIs(s: System, w: WorkerId, outcome: Outcome)
    requires w in s.workers && s.workers[w].phase == Stored && s.workers[w].invoice in s.db.invoices
    ensures var t, v := Next(s, CallProvider(w, outcome)), s.workers[w].invoice;
      && t.workers == s.workers[w := s.workers[w].(phase := Answered(outcome))] && t.db == s.db && t.deliveries == s.deliveries
      && |t.calls| == |s.calls| + 1 && t.calls[|s.calls|].invoice == v && t.calls[|s.calls|].approver == s.db.invoices[v].approver
  {
  }

  /** The verdict as the provider's webhook reports it: by the uuid and number of the document it received. */
  function Echo(s: System, v: InvoiceId, verdict: Verdict): Update
    requires v in s.db.invoices
  {
    Update(None, Some(s.db.invoices[v].uuid), Some(s.db.invoices[v].number), None, verdict)
  }

  lemma VerdictArrives(s: System, d: DeliveryId, v: InvoiceId, verdict: Verdict)
    requires v in s.db.invoices && d !in s.deliveries && Applies(s.db.invoices[v].status, verdict)
    ensures var t := Run(s, [ReceiveWebhook(d, Echo(s, v, verdict)), ProcessWebhook(d, Some(v))]);
      && t.db == WithStatus(s.db, v, VerdictStatus(verdict))
      && t.workers == s.workers && t.calls == s.calls
  {
    var u := Echo(s, v, verdict);
    var t := s.(deliveries := s.deliveries[d := Received(u)]);
    UpToThree(s, [ReceiveWebhook(d, u), ProcessWebhook(d, Some(v))]);
    hide Run, SettledAll;
    assert Next(s, ReceiveWebhook(d, u)) == t;
    assert Located(t, u, Some(v));
    hide Matches, Located;
  }

  /**
   * Without that hypothesis acceptance is lost: a verdict that overtakes the closing write of the very job
   * that filed the invoice is overwritten by it.
   */
  lemma FastVerdictIsOverwritten(s: System, w: WorkerId, v: InvoiceId, seller: Seller, reference: string, d: DeliveryId)
    requires v in s.db.invoices && w !in s.workers && s.db.invoices[v].status == Validated && d !in s.deliveries
    ensures var t := Run(s, [StartJob(w, v), ArchiveXml(w, seller), CallProvider(w, Accepted(reference))]);
      && v in t.db.invoices
      && var r := Run(t, [ReceiveWebhook(d, Echo(t, v, Clears)), ProcessWebhook(d, Some(v))]);
      && Cleared(r, v)
      && v in Next(r, CloseJob(w)).db.invoices
      && Next(r, CloseJob(w)).db.invoices[v].status == SubmittedToAsp
  {
    var steps := [StartJob(w, v), ArchiveXml(w, seller), CallProvider(w, Accepted(reference))];
    JobReachesProvider(s, w, v, seller, Accepted(reference));
    hide Run, ArchiveOf;
    VerdictArrives(Run(s, steps), d, v, Clears);
  }

  /** The platform's retry of a waiting invoice walks past the gate: the provider is called with no approver on record. */
  lemma PlatformRetryBypassesTheGate(s: System, w: WorkerId, v: InvoiceId, seller: Seller, outcome: Outcome)
    requires WaitsUnapproved(s, v) && w !in s.workers
    ensures var r := Next(s, PlatformRetryInvoice(v));
      var t := Run(r, [StartJob(w, v), ArchiveXml(w, seller), CallProvider(w, outcome)]);
      |t.calls| == |s.calls| + 1 && t.calls[|s.calls|].invoice == v && t.calls[|s.calls|].approver == None
  {
    hide Run, ArchiveOf;
    JobReachesProvider(Next(s, PlatformRetryInvoice(v)), w, v, seller, outcome);
  }

  /** So does a webhook refusing an invoice that was never sent, followed by a stray job. */
  lemma UnsolicitedVerdictBypassesTheGate(s: System, w: WorkerId, v: InvoiceId, seller: Seller, outcome: Outcome, d: DeliveryId)
    requires WaitsUnapproved(s, v) && w !in s.workers && d !in s.deliveries
    ensures var r := Run(s, [ReceiveWebhook(d, Echo(s, v, Refuses)), ProcessWebhook(d, Some(v))]);
      var t := Run(r, [StartJob(w, v), ArchiveXml(w, seller), CallProvider(w, outcome)]);
      |t.calls| == |s.calls| + 1 && t.calls[|s.calls|].invoice == v && t.calls[|s.calls|].approver == None
  {
    hide Run, ArchiveOf;
    VerdictArrives(s, d, v, Refuses);
    JobReachesProvider(Run(s, [ReceiveWebhook(d, Echo(s, v, Refuses)), ProcessWebhook(d, Some(v))]), w, v, seller, outcome);
  }
}
