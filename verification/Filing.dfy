/** The filing protocol: workers, verdicts and retries interleaving with staging, one transaction at a time. */
module Filing {
  import opened Text
  import opened Calc
  import opened Validate
  import opened Patches
  import opened Staging
  import Ubl
  import Qr

  type WorkerId = nat
  type DeliveryId = string

  /** What is archived before transmission: the document and the QR payload. */
  datatype Archive = Archive(xml: Ubl.Xml, qr: string)

  type Db = Store<Archive>
  type FiledInvoice = Filed<Archive>

  // --- Workers and verdicts -------------------------------------------------

  datatype Outcome = Accepted(reference: string) | Rejected | Retryable

  /** Where a submission job stands: past its guard, archived, or holding the provider's answer. */
  datatype Phase = Checked | Stored | Answered(outcome: Outcome)

  /** A job in flight, with the invoice record as the guard read it. */
  datatype Worker = Worker(invoice: InvoiceId, read: FiledInvoice, phase: Phase)

  datatype Verdict = Clears | Refuses | StillPending

  /** A verdict and whatever the provider echoes back to identify the invoice. */
  datatype Update = Update(
    invoiceId: Option<InvoiceId>,
    uuid: Option<string>,
    number: Option<string>,
    reference: Option<string>,
    verdict: Verdict
  )

  datatype Sent = SentOk | SentRefused | SentFailed | SentCleared

  datatype Transmission = Transmission(invoice: InvoiceId, reference: Option<string>, sent: Sent)

  datatype Delivery = Received(update: Update) | Processed(applied: bool)

  /** A call the provider has received. */
  datatype Call = Call(invoice: InvoiceId, number: string, uuid: string, approver: Option<UserId>)

  /** `silent` holds what polling sweeps have selected and not yet asked about: an invoice and its reference. */
  datatype System = System(
    db: Db,
    workers: map<WorkerId, Worker>,
    transmissions: seq<Transmission>,
    deliveries: map<DeliveryId, Delivery>,
    silent: multiset<(InvoiceId, string)>,
    calls: seq<Call>
  )

  // --- Verdicts -------------------------------------------------------------

  predicate Terminal(status: Status) {
    status == AcceptedByFta || status == Archived
  }

  function VerdictStatus(verdict: Verdict): Status {
    if verdict == Clears then AcceptedByFta else RejectedByFta
  }

  /** A verdict is applied unless it is still pending, too late, or already there. */
  predicate Applies(status: Status, verdict: Verdict) {
    verdict != StillPending && !Terminal(status) && status != VerdictStatus(verdict)
  }

  function AfterVerdict(status: Status, verdict: Verdict): Status {
    if Applies(status, verdict) then VerdictStatus(verdict) else status
  }

  /** The update names this invoice, by any identifier it carries. */
  predicate Matches(s: System, u: Update, v: InvoiceId) {
    && v in s.db.invoices
    && (|| u.invoiceId == Some(v)
        || u.uuid == Some(s.db.invoices[v].uuid)
        || u.number == Some(s.db.invoices[v].number)
        || (u.reference.Some? && exists t :: t in s.transmissions && t.invoice == v && t.reference == u.reference))
  }

  /** The row the lookup locks: one that matches, or none when nothing does. */
  predicate Located(s: System, u: Update, target: Option<InvoiceId>) {
    match target
    case Some(v) => Matches(s, u, v)
    case None => forall v :: v in s.db.invoices ==> !Matches(s, u, v)
  }

  function SentAfter(verdict: Verdict): Sent {
    if verdict == Clears then SentCleared else SentRefused
  }

  function Settled(t: Transmission, v: InvoiceId, u: Update): Transmission {
    if t.invoice == v && t.sent == SentOk && (u.reference.None? || t.reference == u.reference) then t.(sent := SentAfter(u.verdict)) else t
  }

  function SettledAll(ts: seq<Transmission>, v: InvoiceId, u: Update): (r: seq<Transmission>)
    ensures |r| == |ts| && forall i :: 0 <= i < |ts| ==> r[i] == Settled(ts[i], v, u)
  {
    seq(|ts|, i requires 0 <= i < |ts| => Settled(ts[i], v, u))
  }

  function WithStatus(db: Db, v: InvoiceId, status: Status): Db
    requires v in db.invoices
  {
    db.(invoices := db.invoices[v := db.invoices[v].(status := status)])
  }

  /** Applies a verdict to the row it located. */
  function Apply(s: System, u: Update, target: Option<InvoiceId>): System {
    if target.None? || target.value !in s.db.invoices || !Applies(s.db.invoices[target.value].status, u.verdict) then s
    else
      var v := target.value;
      s.(db := WithStatus(s.db, v, VerdictStatus(u.verdict)), transmissions := SettledAll(s.transmissions, v, u))
  }

  // --- The submission job, step by step -------------------------------------

  /** The job refuses what is cleared, in flight, or not yet approved. */
  predicate MayFile(status: Status) {
    status != AcceptedByFta && status != SubmittedToAsp && status != PendingApproval
  }

  function Start(s: System, w: WorkerId, v: InvoiceId): System {
    if w in s.workers || v !in s.db.invoices || !MayFile(s.db.invoices[v].status) then s
    else s.(workers := s.workers[w := Worker(v, s.db.invoices[v], Checked)])
  }

  datatype Seller = Seller(party: Ubl.Supplier, legalName: string, customization: string, profile: string)

  function ArchiveOf(read: FiledInvoice, seller: Seller): Archive {
    Archive(
      Ubl.Document(Ubl.Options(read.raw, seller.party, read.uuid, seller.customization, seller.profile)),
      Qr.BuildPayload(read.raw, seller.legalName, seller.party.trn, None))
  }

  /** Archives the document, unless the job read that one already had been. */
  function StoreXml(s: System, w: WorkerId, seller: Seller): System {
    if w !in s.workers || s.workers[w].phase != Checked then s
    else
      var job := s.workers[w];
      var t := s.(workers := s.workers[w := job.(phase := Stored)]);
      if job.read.archive.Some? || job.invoice !in s.db.invoices then t
      else t.(db := s.db.(invoices := s.db.invoices[job.invoice := s.db.invoices[job.invoice].(archive := Some(ArchiveOf(job.read, seller)))]))
  }

  function CallOf(s: System, w: WorkerId): Call
    requires w in s.workers
  {
    var job := s.workers[w];
    Call(job.invoice, job.read.number, job.read.uuid,
         if job.invoice in s.db.invoices then s.db.invoices[job.invoice].approver else None)
  }

  /** The provider is called and answers. */
  function Transmit(s: System, w: WorkerId, outcome: Outcome): System {
    if w !in s.workers || s.workers[w].phase != Stored then s
    else s.(workers := s.workers[w := s.workers[w].(phase := Answered(outcome))], calls := s.calls + [CallOf(s, w)])
  }

  function OutcomeStatus(status: Status, outcome: Outcome): Status {
    match outcome
    case Accepted(_) => SubmittedToAsp
    case Rejected => RejectedByFta
    case Retryable => status
  }

  function OutcomeLog(v: InvoiceId, outcome: Outcome): Transmission {
    match outcome
    case Accepted(reference) => Transmission(v, Some(reference), SentOk)
    case Rejected => Transmission(v, None, SentRefused)
    case Retryable => Transmission(v, None, SentFailed)
  }

  /** The closing write: the attempt is logged and the status follows the answer, whatever it has become meanwhile. */
  function Close(s: System, w: WorkerId): System {
    if w !in s.workers || !s.workers[w].phase.Answered? then s
    else
      var v, outcome := s.workers[w].invoice, s.workers[w].phase.outcome;
      var t := s.(workers := s.workers - {w}, transmissions := s.transmissions + [OutcomeLog(v, outcome)]);
      if v in s.db.invoices then t.(db := WithStatus(s.db, v, OutcomeStatus(s.db.invoices[v].status, outcome))) else t
  }

  /** A job that dies anywhere leaves only what it had already written. */
  function Crash(s: System, w: WorkerId): System {
    s.(workers := s.workers - {w})
  }

  // --- Retries --------------------------------------------------------------

  predicate Retriable(status: Status) {
    status == Validated || status == RejectedByFta || status == ValidationFailed
  }

  function Retry(s: System, v: InvoiceId, user: UserId): System {
    if v !in s.db.invoices || !Retriable(s.db.invoices[v].status) then s
    else s.(db := s.db.(invoices := s.db.invoices[v := s.db.invoices[v].(status := Validated, approver := Some(user))]))
  }

  /** The platform's retry refuses only a cleared invoice, and names no approver. */
  function PlatformRetry(s: System, v: InvoiceId): System {
    if v !in s.db.invoices || s.db.invoices[v].status == AcceptedByFta then s
    else s.(db := WithStatus(s.db, v, Validated))
  }

  // --- Webhooks and polls ---------------------------------------------------

  /** A delivery is recorded before it is applied; one seen before is dropped. */
  function Receive(s: System, d: DeliveryId, u: Update): System {
    if d in s.deliveries then s else s.(deliveries := s.deliveries[d := Received(u)])
  }

  function Process(s: System, d: DeliveryId, target: Option<InvoiceId>): System {
    if d !in s.deliveries || s.deliveries[d].Processed? || !Located(s, s.deliveries[d].update, target) then s
    else
      var u := s.deliveries[d].update;
      var applied := target.Some? && Applies(s.db.invoices[target.value].status, u.verdict);
      Apply(s, u, target).(deliveries := s.deliveries[d := Processed(applied)])
  }

  /** The latest reference logged for an invoice. */
  function LastReference(ts: seq<Transmission>, v: InvoiceId): Option<string> {
    if ts == [] then None
    else if ts[|ts| - 1].invoice == v && ts[|ts| - 1].reference.Some? then ts[|ts| - 1].reference
    else LastReference(ts[..|ts| - 1], v)
  }

  predicate Selectable(s: System, v: InvoiceId) {
    && v in s.db.invoices && s.db.invoices[v].status == SubmittedToAsp
    && LastReference(s.transmissions, v).Some?
  }

  /** A sweep selects an invoice that is with the provider and has a reference to ask about. */
  function Select(s: System, v: InvoiceId): System {
    if Selectable(s, v) then s.(silent := s.silent + multiset{(v, LastReference(s.transmissions, v).value)}) else s
  }

  function PollUpdate(v: InvoiceId, reference: string, verdict: Verdict): Update {
    Update(Some(v), None, None, Some(reference), verdict)
  }

  /** The provider answers about a selected invoice; whatever has happened to it meanwhile, the answer is applied now. */
  predicate Answers(s: System, v: InvoiceId, reference: string, verdict: Verdict, target: Option<InvoiceId>) {
    (v, reference) in s.silent && Located(s, PollUpdate(v, reference, verdict), target)
  }

  function Poll(s: System, v: InvoiceId, reference: string, verdict: Verdict, target: Option<InvoiceId>): System {
    if Answers(s, v, reference, verdict, target) then
      Apply(s, PollUpdate(v, reference, verdict), target).(silent := s.silent - multiset{(v, reference)})
    else s
  }

  // --- Runs -----------------------------------------------------------------

  datatype Event =
    | ParseBatch(batch: BatchId, parsed: seq<Invoice>, synthetic: seq<Invoice>, ctx: Context)
    | EditRow(batch: BatchId, row: RowId, patch: Patch, ctx: Context)
    | RevalidateBatch(batch: BatchId, ctx: Context)
    | AutoFixBatch(batch: BatchId, ctx: Context)
    | DeleteRow(batch: BatchId, row: RowId)
    | SubmitBatch(batch: BatchId, submission: Submission)
    | ApproveInvoices(ids: Option<set<InvoiceId>>, user: UserId)
    | RejectInvoices(ids: Option<set<InvoiceId>>)
    | RetryInvoice(invoice: InvoiceId, user: UserId)
    | PlatformRetryInvoice(invoice: InvoiceId)
    | StartJob(worker: WorkerId, invoice: InvoiceId)
    | ArchiveXml(worker: WorkerId, seller: Seller)
    | CallProvider(worker: WorkerId, outcome: Outcome)
    | CloseJob(worker: WorkerId)
    | CrashJob(worker: WorkerId)
    | ReceiveWebhook(delivery: DeliveryId, update: Update)
    | ProcessWebhook(delivery: DeliveryId, target: Option<InvoiceId>)
    | SelectSilent(invoice: InvoiceId)
    | PollProvider(invoice: InvoiceId, reference: string, verdict: Verdict, target: Option<InvoiceId>)

  predicate OnStore(e: Event) {
    || e.ParseBatch? || e.EditRow? || e.RevalidateBatch? || e.AutoFixBatch? || e.DeleteRow? || e.SubmitBatch?
    || e.ApproveInvoices? || e.RejectInvoices?
  }

  function NextStore(db: Db, e: Event): Db
    requires OnStore(e)
  {
    match e
    case ParseBatch(b, parsed, synthetic, ctx) => Parse(db, b, parsed, synthetic, ctx)
    case EditRow(b, row, patch, ctx) => if b in db.rows then Edit(db, b, row, patch, ctx) else db
    case RevalidateBatch(b, ctx) => if b in db.rows then Revalidate(db, b, ctx) else db
    case AutoFixBatch(b, ctx) => if b in db.rows then AutoFixRows(db, b, ctx) else db
    case DeleteRow(b, row) => if b in db.rows then Delete(db, b, row) else db
    case SubmitBatch(b, d) => Submit(db, b, d)
    case ApproveInvoices(ids, user) => Approve(db, ids, user)
    case RejectInvoices(ids) => Reject(db, ids)
  }

  function Next(s: System, e: Event): System {
    if OnStore(e) then s.(db := NextStore(s.db, e))
    else
      match e
      case RetryInvoice(v, user) => Retry(s, v, user)
      case PlatformRetryInvoice(v) => PlatformRetry(s, v)
      case StartJob(w, v) => Start(s, w, v)
      case ArchiveXml(w, seller) => StoreXml(s, w, seller)
      case CallProvider(w, outcome) => Transmit(s, w, outcome)
      case CloseJob(w) => Close(s, w)
      case CrashJob(w) => Crash(s, w)
      case ReceiveWebhook(d, u) => Receive(s, d, u)
      case ProcessWebhook(d, target) => Process(s, d, target)
      case SelectSilent(v) => Select(s, v)
      case PollProvider(v, reference, verdict, target) => Poll(s, v, reference, verdict, target)
      case _ => s
  }

  function Run(s: System, events: seq<Event>): System {
    if events == [] then s else Next(Run(s, events[..|events| - 1]), events[|events| - 1])
  }

  /** No batches, no invoices, nothing in flight. */
  function Initial(): System {
    System(Store(map[], map[], map[], map[], 0, 0), map[], [], map[], multiset{}, [])
  }
}
