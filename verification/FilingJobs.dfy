/** What every job, retry, verdict and sweep does to an invoice, and what must have happened before it. */
module FilingJobs {
  import opened Text
  import opened Calc
  import opened Staging
  import opened StagingRules
  import opened PromotionRules
  import opened Filing
  import opened FilingRules
  import opened FilingRuns
  import FilingArchive

  // --- The guard ------------------------------------------------------------

  /** A job goes no further for an invoice that is accepted, with the provider, or waiting for its approver. */
  lemma GuardStops(s: System, w: WorkerId, v: InvoiceId)
    requires v in s.db.invoices && s.db.invoices[v].status in {AcceptedByFta, SubmittedToAsp, PendingApproval}
    ensures Next(s, StartJob(w, v)) == s
  {
  }

  /** For any other invoice it starts, holding the record as it stands. */
  lemma GuardLets(s: System, w: WorkerId, v: InvoiceId)
    requires v in s.db.invoices && s.db.invoices[v].status !in {AcceptedByFta, SubmittedToAsp, PendingApproval}
    requires w !in s.workers
    ensures Next(s, StartJob(w, v)) == s.(workers := s.workers[w := Worker(v, s.db.invoices[v], Checked)])
  {
  }

  /** The job has been in flight since step `j`, which started it on the record it holds. */
  ghost predicate InFlightSince(events: seq<Event>, j: nat, w: WorkerId) {
    && j < |events| && w in Run(Initial(), events).workers
    && var job := Run(Initial(), events).workers[w];
    && events[j] == StartJob(w, job.invoice)
    && job.invoice in Run(Initial(), events[..j]).db.invoices
    && job.read == Run(Initial(), events[..j]).db.invoices[job.invoice]
    && job.read.status !in {AcceptedByFta, SubmittedToAsp, PendingApproval}
    && Uninterrupted(events, j, w, job)
  }

  ghost predicate Uninterrupted(events: seq<Event>, j: nat, w: WorkerId, job: Worker) {
    forall i :: j < i <= |events| ==> SameJob(StateAfter(events, i), w, job)
  }

  /** The state after the first `n` steps. */
  function StateAfter(events: seq<Event>, n: nat): System
    requires n <= |events|
  {
    Run(Initial(), events[..n])
  }

  lemma StateAtEnd(events: seq<Event>)
    ensures StateAfter(events, |events|) == Run(Initial(), events)
  {
    assert events[..|events|] == events;
    hide Run;
  }

  lemma SameMeans(before: Worker, job: Worker)
    requires before.invoice == job.invoice && before.read == job.read
    ensures forall s, w :: SameJob(s, w, before) <==> SameJob(s, w, job)
  {
  }

  lemma StateBefore(events: seq<Event>, n: nat)
    requires n < |events|
    ensures StateAfter(events[..|events| - 1], n) == StateAfter(events, n)
  {
    assert events[..|events| - 1][..n] == events[..n];
    hide Run;
  }

  predicate SameJob(s: System, w: WorkerId, job: Worker) {
    w in s.workers && s.workers[w].invoice == job.invoice && s.workers[w].read == job.read
  }

  /** One step: a job that is in flight was, or is the one this step starts on a record the guard lets through. */
  lemma JobFrom(s: System, e: Event, w: WorkerId)
    requires w in Next(s, e).workers
    ensures var job := Next(s, e).workers[w];
      || SameJob(s, w, job)
      || (e == StartJob(w, job.invoice) && job.invoice in s.db.invoices && job.read == s.db.invoices[job.invoice]
          && job.read.status !in {AcceptedByFta, SubmittedToAsp, PendingApproval})
  {
    hide NextStore, ArchiveOf, SettledAll, Located, Answers, Applies, WithStatus, OutcomeStatus, OutcomeLog, CallOf, Selectable, LastReference;
  }

  lemma FlightGoesOn(events: seq<Event>, j: nat, w: WorkerId)
    requires events != [] && InFlightSince(events[..|events| - 1], j, w) && w in Run(Initial(), events).workers
    requires SameJob(Run(Initial(), events[..|events| - 1]), w, Run(Initial(), events).workers[w])
    ensures InFlightSince(events, j, w)
  {
    hide Run, Uninterrupted;
    var front, job := events[..|events| - 1], Run(Initial(), events).workers[w];
    assert front[..j] == events[..j] && front[j] == events[j];
    NotInterrupted(events, j, w, Run(Initial(), front).workers[w], job);
  }

  lemma NotInterrupted(events: seq<Event>, j: nat, w: WorkerId, before: Worker, job: Worker)
    requires events != [] && Uninterrupted(events[..|events| - 1], j, w, before)
    requires before.invoice == job.invoice && before.read == job.read && SameJob(Run(Initial(), events), w, job)
    ensures Uninterrupted(events, j, w, job)
  {
    hide Run, StateAfter, SameJob;
    StateAtEnd(events);
    SameMeans(before, job);
    forall i | j < i <= |events|
      ensures SameJob(StateAfter(events, i), w, job)
    {
      if i < |events| {
        StateBefore(events, i);
      }
    }
  }

  /** Every job in flight was started on the record it holds, by a guard that let it through. */
  lemma {:induction false} JobsWereGuarded(events: seq<Event>, w: WorkerId)
    requires w in Run(Initial(), events).workers
    ensures exists j :: InFlightSince(events, j, w)
  {
    if events != [] {
      var front, last := events[..|events| - 1], events[|events| - 1];
      JobFrom(Run(Initial(), front), last, w);
      hide Next;
      if SameJob(Run(Initial(), front), w, Run(Initial(), events).workers[w]) {
        JobsWereGuarded(front, w);
        hide Run;
        var j :| InFlightSince(front, j, w);
        FlightGoesOn(events, j, w);
      } else {
        assert events[..|events|] == events;
        assert InFlightSince(events, |events| - 1, w);
      }
    }
  }

  /**
   * No second filing from a job that came too late. In every run, whoever calls the provider is a job that was
   * started, and has been in flight ever since, on an invoice that was then neither accepted, nor with the
   * provider, nor waiting for its approver.
   */
  lemma CallsComeFromGuardedJobs(events: seq<Event>, k: nat)
    requires k < |events| && Run(Initial(), events[..k + 1]).calls != Run(Initial(), events[..k]).calls
    ensures events[k].CallProvider? && exists j :: InFlightSince(events[..k], j, events[k].worker)
    ensures var s := Run(Initial(), events[..k]);
      Run(Initial(), events[..k + 1]).calls == s.calls + [CallOf(s, events[k].worker)]
  {
    var s := Run(Initial(), events[..k]);
    assert events[..k + 1][..k] == events[..k];
    NextJobs(s, events[k]);
    hide Next;
    JobsWereGuarded(events[..k], events[k].worker);
    hide Run;
  }

  // --- Archived before it is called for -------------------------------------

  /** A job past archiving, and every call made, is for an invoice whose document is in the archive. */
  ghost predicate ArchivedFirst(s: System) {
    && (forall w :: w in s.workers ==> JobArchived(s, s.workers[w]))
    && (forall c :: c in s.calls ==> OnFile(s, c.invoice))
  }

  predicate OnFile(s: System, v: InvoiceId) {
    v in s.db.invoices && s.db.invoices[v].archive.Some?
  }

  predicate JobArchived(s: System, job: Worker) {
    job.phase != Checked || job.read.archive.Some? ==> OnFile(s, job.invoice)
  }

  /** An archived invoice past the gate stays archived. */
  lemma StaysOnFile(s: System, e: Event, v: InvoiceId)
    requires InvoicesHeld(s.db) && Past(s, v) && OnFile(s, v)
    ensures OnFile(Next(s, e), v)
  {
    StaysPast(s, e, v);
    if OnStore(e) {
      NextMoves(s.db, e);
      NextOnStore(s, e);
      hide Next, NextStore, InvoicesHeld;
    } else {
      FilingArchive.OtherArchives(s, e, v);
      hide Next, InvoicesHeld;
    }
  }

  /** Where a job stands after a step. */
  lemma JobMove(s: System, e: Event, w: WorkerId)
    requires w in Next(s, e).workers && !(e.StartJob? && w !in s.workers)
    ensures var job := Next(s, e).workers[w];
      && SameJob(s, w, job)
      && (job.phase == s.workers[w].phase
          || (e.ArchiveXml? && e.worker == w && s.workers[w].phase == Checked)
          || (e.CallProvider? && e.worker == w && s.workers[w].phase == Stored))
  {
    hide NextStore, ArchiveOf, SettledAll, Located, Applies, WithStatus, OutcomeStatus, OutcomeLog, CallOf, Selectable;
  }

  /** Archiving leaves the invoice archived: by this job, or by whoever had done it before the job read it. */
  lemma ArchivingArchives(s: System, w: WorkerId, seller: Seller)
    requires w in s.workers && s.workers[w].phase == Checked && s.workers[w].invoice in s.db.invoices
    requires s.workers[w].read.archive.Some? ==> OnFile(s, s.workers[w].invoice)
    ensures OnFile(Next(s, ArchiveXml(w, seller)), s.workers[w].invoice)
  {
    hide ArchiveOf;
  }

  lemma JobArchivedNext(s: System, e: Event, w: WorkerId)
    requires InvoicesHeld(s.db) && PastGate(s) && ArchivedFirst(s) && w in Next(s, e).workers
    ensures JobArchived(Next(s, e), Next(s, e).workers[w])
  {
    var t := Next(s, e);
    var job := t.workers[w];
    if e.StartJob? && w !in s.workers {
      JobFrom(s, e, w);
      StartKeepsDb(s, e);
      StartsChecked(s, e, w);
      hide Next, InvoicesHeld;
    } else {
      JobMove(s, e, w);
      assert Past(s, job.invoice) && JobArchived(s, s.workers[w]);
      if OnFile(s, job.invoice) {
        StaysOnFile(s, e, job.invoice);
      } else if e.ArchiveXml? && e.worker == w {
        ArchivingArchives(s, w, e.seller);
      }
      hide Next, InvoicesHeld, PastGate, ArchivedFirst;
    }
  }

  lemma StartKeepsDb(s: System, e: Event)
    requires e.StartJob?
    ensures Next(s, e).db == s.db
  {
  }

  lemma StartsChecked(s: System, e: Event, w: WorkerId)
    requires e.StartJob? && w !in s.workers && w in Next(s, e).workers
    ensures Next(s, e).workers[w].phase == Checked
  {
  }

  lemma ArchivedStep(s: System, e: Event)
    requires InvoicesHeld(s.db) && PastGate(s) && ArchivedFirst(s)
    ensures ArchivedFirst(Next(s, e))
  {
    hide Next, InvoicesHeld, JobArchived, OnFile, PastGate, Past;
    var t := Next(s, e);
    forall w | w in t.workers
      ensures JobArchived(t, t.workers[w])
    {
      JobArchivedNext(s, e, w);
    }
    forall c | c in t.calls
      ensures OnFile(t, c.invoice)
    {
      CallArchived(s, e, c);
    }
  }

  lemma CallArchived(s: System, e: Event, c: Call)
    requires InvoicesHeld(s.db) && PastGate(s) && ArchivedFirst(s) && c in Next(s, e).calls
    ensures OnFile(Next(s, e), c.invoice)
  {
    if c !in s.calls {
      NextJobs(s, e);
      CallsAreStored(s, e);
      hide Next;
      assert c == CallOf(s, e.worker);
      StoredIsOnFile(s, e.worker);
    }
    hide Next, InvoicesHeld, JobArchived;
    StaysOnFile(s, e, c.invoice);
  }

  lemma StoredIsOnFile(s: System, w: WorkerId)
    requires PastGate(s) && ArchivedFirst(s) && w in s.workers && s.workers[w].phase == Stored
    ensures OnFile(s, s.workers[w].invoice) && Past(s, s.workers[w].invoice)
  {
    assert JobArchived(s, s.workers[w]);
  }

  lemma CallsAreStored(s: System, e: Event)
    requires Next(s, e).calls != s.calls
    ensures e.CallProvider? && e.worker in s.workers && s.workers[e.worker].phase == Stored
  {
    hide NextStore, ArchiveOf, SettledAll, Located, Applies, WithStatus, OutcomeStatus, OutcomeLog, CallOf, Selectable;
  }

  /** Nothing is transmitted that was not archived first: in every run, every call is for an archived invoice. */
  lemma {:induction false} ArchivedBeforeCalled(events: seq<Event>)
    requires PlausibleRun(Initial(), events)
    ensures ArchivedFirst(Run(Initial(), events))
  {
    if events != [] {
      hide Next, Plausible, InvoicesHeld, PastGate, ArchivedFirst;
      var front, last := events[..|events| - 1], events[|events| - 1];
      ArchivedBeforeCalled(front);
      HeldInRuns(front);
      PastGateHolds(front);
      ArchivedStep(Run(Initial(), front), last);
    }
  }

  /** A job that read an archived invoice archives nothing: what is on file is never replaced by a retry. */
  lemma ArchivesOnce(s: System, w: WorkerId, seller: Seller)
    requires w in s.workers && s.workers[w].read.archive.Some?
    ensures Next(s, ArchiveXml(w, seller)).db == s.db
  {
  }

  // --- The closing write ----------------------------------------------------

  /** The latest reference logged for an invoice is the one no later entry of it replaces. */
  lemma {:induction false} LastReferenceMeans(ts: seq<Transmission>, v: InvoiceId, r: string)
    ensures LastReference(ts, v) == Some(r) <==>
      exists i :: 0 <= i < |ts| && LogsLast(ts, i, v, r)
  {
    if ts != [] {
      var n := |ts| - 1;
      LastReferenceMeans(ts[..n], v, r);
      if LastReference(ts, v) == Some(r) {
        if ts[n].invoice == v && ts[n].reference.Some? {
          assert LogsLast(ts, n, v, r);
        } else {
          var i :| 0 <= i < n && LogsLast(ts[..n], i, v, r);
          assert LogsLast(ts, i, v, r);
        }
      }
      if i :| 0 <= i < |ts| && LogsLast(ts, i, v, r) {
        if i < n {
          assert LogsLast(ts[..n], i, v, r);
        }
      }
    }
  }

  predicate LogsLast(ts: seq<Transmission>, i: nat, v: InvoiceId, r: string)
    requires i < |ts|
  {
    && ts[i].invoice == v && ts[i].reference == Some(r)
    && forall j :: i < j < |ts| ==> !(ts[j].invoice == v && ts[j].reference.Some?)
  }

  /**
   * The closing write, answer by answer. Accepted: the invoice is with the provider and the attempt is logged
   * under its reference, the one the next sweep asks about. Rejected: the invoice is rejected. Retryable: its
   * status stays. In every case the attempt is logged, the job is over, and no other invoice is touched.
   */
  lemma ClosingWrites(s: System, w: WorkerId)
    requires w in s.workers && s.workers[w].phase.Answered? && s.workers[w].invoice in s.db.invoices
    ensures var t, v, before := Next(s, CloseJob(w)), s.workers[w].invoice, s.db.invoices[s.workers[w].invoice];
      && t.workers == s.workers - {w} && t.calls == s.calls && t.deliveries == s.deliveries && t.silent == s.silent
      && t.db == s.db.(invoices := s.db.invoices[v := t.db.invoices[v]])
      && match s.workers[w].phase.outcome
         case Accepted(r) =>
           && t.db.invoices[v] == before.(status := SubmittedToAsp)
           && t.transmissions == s.transmissions + [Transmission(v, Some(r), SentOk)]
           && LastReference(t.transmissions, v) == Some(r)
           && Next(t, SelectSilent(v)).silent == t.silent + multiset{(v, r)}
         case Rejected =>
           && t.db.invoices[v] == before.(status := RejectedByFta)
           && t.transmissions == s.transmissions + [Transmission(v, None, SentRefused)]
         case Retryable =>
           && t.db.invoices[v] == before
           && t.transmissions == s.transmissions + [Transmission(v, None, SentFailed)]
  {
  }

  /** The step is one of this worker's job. */
  predicate StepOf(e: Event, w: WorkerId) {
    || (e.StartJob? && e.worker == w) || (e.ArchiveXml? && e.worker == w) || (e.CallProvider? && e.worker == w)
    || (e.CloseJob? && e.worker == w) || (e.CrashJob? && e.worker == w)
  }

  /** No step but its own moves a job. */
  lemma JobsAreTheirOwn(s: System, e: Event, w: WorkerId)
    requires !StepOf(e, w)
    ensures w in Next(s, e).workers <==> w in s.workers
    ensures w in s.workers ==> Next(s, e).workers[w] == s.workers[w]
  {
    hide NextStore, ArchiveOf, Apply, Located, MayFile, OutcomeStatus, OutcomeLog, CallOf, LastReference;
    if e.ProcessWebhook? || e.PollProvider? {
      assert forall u, target :: Apply(s, u, target).workers == s.workers by { ApplyKeepsJobs(s); }
    }
  }

  lemma ApplyKeepsJobs(s: System)
    ensures forall u, target :: Apply(s, u, target).workers == s.workers
  {
    hide Applies, SettledAll;
  }

  /** A job that dies is forgotten, and whatever it had written stays. */
  lemma CrashForgets(s: System, w: WorkerId)
    ensures Next(s, CrashJob(w)).workers == s.workers - {w}
    ensures Next(s, CrashJob(w)).db == s.db && Next(s, CrashJob(w)).transmissions == s.transmissions
    ensures Next(s, CrashJob(w)).calls == s.calls && Next(s, CrashJob(w)).deliveries == s.deliveries
  {
  }

  // --- Retries --------------------------------------------------------------

  /** A retry releases a validated, rejected or failed invoice in the caller's name; any other it leaves alone. */
  lemma RetryMeans(s: System, v: InvoiceId, user: UserId)
    requires v in s.db.invoices
    ensures var t, before := Next(s, RetryInvoice(v, user)), s.db.invoices[v];
      if before.status in {Validated, RejectedByFta, ValidationFailed} then
        t == s.(db := s.db.(invoices := s.db.invoices[v := before.(status := Validated, approver := Some(user))]))
      else t == s
  {
  }

  /** The platform's retry validates anything but an accepted invoice, and leaves the approver as it is. */
  lemma PlatformRetryMeans(s: System, v: InvoiceId)
    requires v in s.db.invoices
    ensures var t, before := Next(s, PlatformRetryInvoice(v)), s.db.invoices[v];
      if before.status != AcceptedByFta then t == s.(db := s.db.(invoices := s.db.invoices[v := before.(status := Validated)]))
      else t == s
  {
  }

  // --- Verdicts -------------------------------------------------------------

  /** A delivery is recorded the first time it comes, processed or not since; after that, and once processed, it does nothing. */
  lemma DeliveredOnce(s: System, d: DeliveryId, u: Update, target: Option<InvoiceId>)
    ensures Next(s, ReceiveWebhook(d, u)) == if d in s.deliveries then s else s.(deliveries := s.deliveries[d := Received(u)])
    ensures d !in s.deliveries || s.deliveries[d].Processed? ==> Next(s, ProcessWebhook(d, target)) == s
  {
    hide Apply, Located;
  }

  /** Any one identifier finds the invoice: its id, its UUID, its number, or a reference logged for it. */
  predicate Identifies(s: System, u: Update, v: InvoiceId)
    requires v in s.db.invoices
  {
    || u == Update(Some(v), None, None, None, u.verdict)
    || u == Update(None, Some(s.db.invoices[v].uuid), None, None, u.verdict)
    || u == Update(None, None, Some(s.db.invoices[v].number), None, u.verdict)
    || (u.reference.Some? && u == Update(None, None, None, u.reference, u.verdict)
        && exists i :: 0 <= i < |s.transmissions| && s.transmissions[i].invoice == v && s.transmissions[i].reference == u.reference)
  }

  /** What a decided verdict comes to: nothing for a settled invoice, its own status for any other. */
  function VerdictLeaves(status: Status, verdict: Verdict): Status {
    match verdict
    case StillPending => status
    case Clears => if status == Archived then Archived else AcceptedByFta
    case Refuses => if status == AcceptedByFta || status == Archived then status else RejectedByFta
  }

  /**
   * A webhook under any one identifier of an invoice reaches it: the invoice takes the verdict's status unless
   * it is settled, nothing else about any invoice changes, and an applied verdict marks the attempts it settles.
   */
  lemma WebhookReaches(s: System, d: DeliveryId, u: Update, v: InvoiceId)
    requires v in s.db.invoices && d !in s.deliveries && Identifies(s, u, v)
    ensures var t, before := Next(Next(s, ReceiveWebhook(d, u)), ProcessWebhook(d, Some(v))), s.db.invoices[v];
      var status := VerdictLeaves(before.status, u.verdict);
      && t.db == s.db.(invoices := s.db.invoices[v := before.(status := status)])
      && t.workers == s.workers && t.calls == s.calls && t.silent == s.silent
      && t.deliveries == s.deliveries[d := Processed(status != before.status)]
      && |t.transmissions| == |s.transmissions|
      && forall i :: 0 <= i < |t.transmissions| ==> t.transmissions[i] == Marked(s.transmissions[i], v, u, status != before.status)
  {
    var r := s.(deliveries := s.deliveries[d := Received(u)]);
    assert Next(s, ReceiveWebhook(d, u)) == r;
    Finds(s, r, u, v);
    ProcessIs(r, d, u, v);
    AppliedIs(r, u, v);
    hide Next, Apply, Identifies, Applies, Marked, VerdictLeaves;
  }

  lemma Finds(s: System, r: System, u: Update, v: InvoiceId)
    requires v in s.db.invoices && Identifies(s, u, v) && r == s.(deliveries := r.deliveries)
    ensures Located(r, u, Some(v))
  {
  }

  lemma ProcessIs(r: System, d: DeliveryId, u: Update, v: InvoiceId)
    requires v in r.db.invoices && d in r.deliveries && r.deliveries[d] == Received(u) && Located(r, u, Some(v))
    ensures Next(r, ProcessWebhook(d, Some(v)))
         == Apply(r, u, Some(v)).(deliveries := r.deliveries[d := Processed(Applies(r.db.invoices[v].status, u.verdict))])
  {
    hide Apply, Located, Applies;
  }

  lemma AppliedIs(r: System, u: Update, v: InvoiceId)
    requires v in r.db.invoices
    ensures var t, before := Apply(r, u, Some(v)), r.db.invoices[v];
      var status := VerdictLeaves(before.status, u.verdict);
      && t.db == r.db.(invoices := r.db.invoices[v := before.(status := status)])
      && t.workers == r.workers && t.calls == r.calls && t.silent == r.silent
      && (Applies(before.status, u.verdict) <==> status != before.status)
      && |t.transmissions| == |r.transmissions|
      && forall i :: 0 <= i < |t.transmissions| ==> t.transmissions[i] == Marked(r.transmissions[i], v, u, status != before.status)
  {
    assert r.db.invoices[v := r.db.invoices[v]] == r.db.invoices;
  }

  /** An accepted attempt under the verdict's reference, or any accepted attempt when it carries none. */
  function Marked(t: Transmission, v: InvoiceId, u: Update, applied: bool): Transmission {
    if applied && t.invoice == v && t.sent == SentOk && (u.reference == None || t.reference == u.reference) then
      t.(sent := if u.verdict == Clears then SentCleared else SentRefused)
    else t
  }

  // --- Sweeps ---------------------------------------------------------------

  /**
   * The provider's answer about a selected invoice: it takes the answer's status unless it is settled, only its
   * accepted attempts under the reference asked about are marked, and the selection is used up.
   */
  lemma PollMeans(s: System, v: InvoiceId, r: string, verdict: Verdict)
    requires v in s.db.invoices && (v, r) in s.silent
    ensures var t, before := Next(s, PollProvider(v, r, verdict, Some(v))), s.db.invoices[v];
      var status := VerdictLeaves(before.status, verdict);
      && t.db == s.db.(invoices := s.db.invoices[v := before.(status := status)])
      && t.workers == s.workers && t.calls == s.calls && t.deliveries == s.deliveries
      && t.silent == s.silent - multiset{(v, r)}
      && |t.transmissions| == |s.transmissions|
      && forall i :: 0 <= i < |t.transmissions| ==> t.transmissions[i] == Polled(s.transmissions[i], v, r, verdict, status != before.status)
  {
    var u := PollUpdate(v, r, verdict);
    AppliedIs(s, u, v);
    PollIs(s, v, r, verdict);
    hide Apply, VerdictLeaves, Next;
    var t := Apply(s, u, Some(v));
    forall i | 0 <= i < |t.transmissions|
      ensures t.transmissions[i]
           == Polled(s.transmissions[i], v, r, verdict, VerdictLeaves(s.db.invoices[v].status, verdict) != s.db.invoices[v].status)
    {
    }
  }

  lemma PollIs(s: System, v: InvoiceId, r: string, verdict: Verdict)
    requires v in s.db.invoices && (v, r) in s.silent
    ensures var u := PollUpdate(v, r, verdict);
      && Next(s, PollProvider(v, r, verdict, Some(v))) == Apply(s, u, Some(v)).(silent := s.silent - multiset{(v, r)})
      && Apply(s, u, Some(v)).deliveries == s.deliveries
  {
  }

  function Polled(t: Transmission, v: InvoiceId, r: string, verdict: Verdict, applied: bool): Transmission {
    if applied && t.invoice == v && t.reference == Some(r) && t.sent == SentOk then
      t.(sent := if verdict == Clears then SentCleared else SentRefused)
    else t
  }

  /** Some step selected the invoice while it was with the provider under this reference. */
  ghost predicate SelectedOnce(events: seq<Event>, v: InvoiceId, r: string) {
    exists k :: 0 <= k < |events| && SelectedAt(events, k, v, r)
  }

  predicate SelectedAt(events: seq<Event>, k: nat, v: InvoiceId, r: string)
    requires k < |events|
  {
    var s := Run(Initial(), events[..k]);
    && events[k] == SelectSilent(v) && v in s.db.invoices && s.db.invoices[v].status == SubmittedToAsp
    && LastReference(s.transmissions, v) == Some(r)
  }

  lemma SilentFrom(s: System, e: Event, v: InvoiceId, r: string)
    requires (v, r) in Next(s, e).silent
    ensures (v, r) in s.silent
      || (e == SelectSilent(v) && v in s.db.invoices && s.db.invoices[v].status == SubmittedToAsp
          && LastReference(s.transmissions, v) == Some(r))
  {
    hide NextStore, ArchiveOf, SettledAll, Located, Applies, WithStatus, OutcomeStatus, OutcomeLog, CallOf, LastReference, MayFile;
  }

  /** Sweeps ask only about what was with the provider: every selection was made of such an invoice, under its last reference. */
  lemma {:induction false} SweepsAskAboutSubmitted(events: seq<Event>, v: InvoiceId, r: string)
    requires (v, r) in Run(Initial(), events).silent
    ensures SelectedOnce(events, v, r)
  {
    if events != [] {
      var front, last := events[..|events| - 1], events[|events| - 1];
      SilentFrom(Run(Initial(), front), last, v, r);
      hide Next;
      if (v, r) in Run(Initial(), front).silent {
        SweepsAskAboutSubmitted(front, v, r);
        hide Run;
        var k :| 0 <= k < |front| && SelectedAt(front, k, v, r);
        assert front[..k] == events[..k];
        assert SelectedAt(events, k, v, r);
      } else {
        assert SelectedAt(events, |events| - 1, v, r);
      }
    }
  }
}
