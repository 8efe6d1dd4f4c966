/** One filing per invoice: the idempotency key is the same at every attempt and different for every invoice. */
module FilingKeys {
  import opened Text
  import opened Calc
  import opened Validate
  import opened Staging
  import opened StagingRules
  import opened PromotionRules
  import opened Filing
  import opened FilingRules
  import opened FilingRuns
  import Provider
  import RecalcFindings
  import StagedPayload
  import TableRules

  function KeyOfCall(tenant: string, c: Call): string {
    Provider.KeyOf(tenant, c.number, c.uuid)
  }

  /** Every call went out under the key its invoice still has. */
  ghost predicate CallsOk(s: System) {
    forall c :: c in s.calls ==>
      c.invoice in s.db.invoices ==> c.number == s.db.invoices[c.invoice].number && c.uuid == s.db.invoices[c.invoice].uuid
  }

  ghost predicate CallsBelow(s: System) {
    forall c :: c in s.calls ==> c.invoice < s.db.nextInvoice
  }

  lemma CallsStep(s: System, e: Event)
    requires InvoicesHeld(s.db) && JobsOk(s) && CallsOk(s) && CallsBelow(s)
    ensures CallsOk(Next(s, e)) && CallsBelow(Next(s, e))
  {
    var t := Next(s, e);
    NextJobs(s, e);
    Identities(s, e);
    hide Next, InvoicesHeld;
    forall c | c in t.calls
      ensures c.invoice < t.db.nextInvoice
      ensures c.invoice in t.db.invoices ==> c.number == t.db.invoices[c.invoice].number && c.uuid == t.db.invoices[c.invoice].uuid
    {
      if c !in s.calls {
        assert c == CallOf(s, e.worker);
      }
    }
  }

  /** No step changes an existing invoice's number or UUID, and new invoices take new ids. */
  lemma Identities(s: System, e: Event)
    requires InvoicesHeld(s.db)
    ensures var t := Next(s, e);
      && t.db.nextInvoice >= s.db.nextInvoice
      && forall v :: v in t.db.invoices && v < s.db.nextInvoice ==>
        v in s.db.invoices && t.db.invoices[v].number == s.db.invoices[v].number && t.db.invoices[v].uuid == s.db.invoices[v].uuid
  {
    if OnStore(e) {
      NextMoves(s.db, e);
      hide NextStore, InvoicesHeld;
    } else {
      OtherStepMoves(s, e);
      hide Next, InvoicesHeld, StatusAfter, ApproverAfter;
      forall v | v in Next(s, e).db.invoices
        ensures Next(s, e).db.invoices[v].number == s.db.invoices[v].number && Next(s, e).db.invoices[v].uuid == s.db.invoices[v].uuid
      {
        assert Moved(s, e, v, Next(s, e).db.invoices[v]);
      }
    }
  }

  lemma {:induction false} CallsInRuns(events: seq<Event>)
    requires PlausibleRun(Initial(), events)
    ensures var s := Run(Initial(), events); JobsOk(s) && CallsOk(s) && CallsBelow(s)
  {
    if events != [] {
      hide Next, Plausible, InvoicesHeld, JobsOk, CallsOk, CallsBelow;
      var front, last := events[..|events| - 1], events[|events| - 1];
      CallsInRuns(front);
      HeldInRuns(front);
      JobsStep(Run(Initial(), front), last);
      CallsStep(Run(Initial(), front), last);
    }
  }

  /** All attempts to file one invoice, in any run, use one key. */
  lemma AttemptsShareAKey(tenant: string, events: seq<Event>, c: Call, d: Call)
    requires PlausibleRun(Initial(), events)
    requires c in Run(Initial(), events).calls && d in Run(Initial(), events).calls && c.invoice == d.invoice
    ensures KeyOfCall(tenant, c) == KeyOfCall(tenant, d)
  {
    CallsInRuns(events);
    PastGateHolds(events);
    hide Run, PlausibleRun, JobsOk;
  }

  lemma NumberHasNoColon(s: System, v: InvoiceId)
    requires Consistent(s.db) && v in s.db.invoices
    ensures ':' !in s.db.invoices[v].number
  {
    var i := RowOfInvoice(s.db, v);
    var b := s.db.invoices[v].batch;
    hide OnePerNumber, IdsDistinct, InvoicesHeld, NumbersUnique;
    assert RowOk(s.db.rows[b][i], b, s.db.invoices, s.db.nextRow);
    KeepsNumber(s.db.rows[b][i].payload);
    hide RecalcInvoice, StagedPayload.Agrees, RecalcFindings.UniqueLineIds, StableInvoice;
  }

  /** Attempts to file different invoices never share a key. */
  lemma KeysTellInvoicesApart(tenant: string, events: seq<Event>, c: Call, d: Call)
    requires ':' !in tenant
    requires PlausibleRun(Initial(), events)
    requires c in Run(Initial(), events).calls && d in Run(Initial(), events).calls && c.invoice != d.invoice
    ensures KeyOfCall(tenant, c) != KeyOfCall(tenant, d)
  {
    var s := Run(Initial(), events);
    CallsInRuns(events);
    PastGateHolds(events);
    RunsStayConsistent(events);
    hide Run, PlausibleRun, JobsOk, RowsOk, IdsDistinct, InvoicesHeld, OnePerNumber, TableRules.Tallied;
    assert c.invoice in s.db.invoices && d.invoice in s.db.invoices;
    assert c.number == s.db.invoices[c.invoice].number && d.number == s.db.invoices[d.invoice].number;
    assert c.number != d.number;
    NumberHasNoColon(s, c.invoice);
    NumberHasNoColon(s, d.invoice);
    if KeyOfCall(tenant, c) == KeyOfCall(tenant, d) {
      Provider.KeysAreInjective(tenant, c.number, d.number, c.uuid, d.uuid);
    }
  }

  /**
   * One filing per invoice. Of two records the provider holds for calls of a run, made without overlap,
   * it holds one and the same exactly when the calls were for one invoice.
   */
  lemma OneRecordPerInvoice(tenant: string, events: seq<Event>, c: Call, d: Call, book: Provider.Book, steps: seq<Provider.Step>,
                            r: string, q: string)
    requires ':' !in tenant
    requires PlausibleRun(Initial(), events)
    requires c in Run(Initial(), events).calls && d in Run(Initial(), events).calls
    requires Provider.OneRecordEach(book) && Provider.OrderlyRun(book, steps)
    requires var held := Provider.Serve(book, steps).submissions;
      && r in held && held[r].key == KeyOfCall(tenant, c)
      && q in held && held[q].key == KeyOfCall(tenant, d)
    ensures r == q <==> c.invoice == d.invoice
  {
    hide Run, PlausibleRun, Initial, Provider.Serve, Provider.OrderlyRun, Provider.OneRecordEach, KeyOfCall;
    if c.invoice == d.invoice {
      AttemptsShareAKey(tenant, events, c, d);
      Provider.OneFilingPerKey(book, steps, r, q);
    } else {
      KeysTellInvoicesApart(tenant, events, c, d);
    }
  }
}
