/** Staged rows and the invoices they are promoted to: tables, and each transaction as a step on them. */
module Staging {
  import opened Text
  import opened Calc
  import opened Validate
  import opened AutoFix
  import opened Patches
  import opened Columns

  type RowId = nat
  type BatchId = nat
  type InvoiceId = nat
  type UserId = nat

  // --- Tables ---------------------------------------------------------------

  /** A row of the grid; `number` is the column duplicates are counted by. */
  datatype Row = Row(
    id: RowId,
    number: string,
    payload: Invoice,
    findings: seq<Finding>,
    submittable: bool,
    invoiceId: Option<InvoiceId>
  )

  datatype Status =
    | Ingested | Validated | ValidationFailed | PendingApproval
    | SubmittedToAsp | AcceptedByFta | RejectedByFta | Archived

  datatype Amounts = Amounts(
    lineExtension: string,
    taxExclusive: string,
    taxInclusive: string,
    vatTotal: string,
    payable: string,
    payableAed: string
  )

  function AmountsOf(x: Invoice): Amounts {
    Amounts(x.lineExtensionAmount, x.taxExclusiveAmount, x.taxInclusiveAmount, x.vatTotalAmount, x.payableAmount, x.payableAmountAed)
  }

  /** An invoice, with the payload it was promoted with and what has been archived for it. */
  datatype Filed<+Archive> = Filed(
    batch: BatchId,
    row: RowId,
    number: string,
    uuid: string,
    raw: Invoice,
    amounts: Amounts,
    status: Status,
    approver: Option<UserId>,
    archive: Option<Archive>
  )

  datatype BatchStatus = BatchValidated | Completed | Processing | StagedWithErrors

  datatype Counters = Counters(total: nat, valid: nat, invalid: int, submitted: nat, status: BatchStatus)

  /** The database of one tenant: rows by batch in row order, invoices, counters, and the log of findings by row. */
  datatype Store<+Archive> = Store(
    rows: map<BatchId, seq<Row>>,
    invoices: map<InvoiceId, Filed<Archive>>,
    counters: map<BatchId, Counters>,
    logs: map<RowId, seq<Finding>>,
    nextRow: RowId,
    nextInvoice: InvoiceId
  )

  function RowsOf<A>(s: Store<A>, b: BatchId): seq<Row> {
    if b in s.rows then s.rows[b] else []
  }

  // --- Counters -------------------------------------------------------------

  function CountValid(rows: seq<Row>): (n: nat)
    ensures n <= |rows|
  {
    if rows == [] then 0 else CountValid(rows[..|rows| - 1]) + if rows[|rows| - 1].submittable then 1 else 0
  }

  function CountPromoted(rows: seq<Row>): (n: nat)
    ensures n <= |rows|
  {
    if rows == [] then 0 else CountPromoted(rows[..|rows| - 1]) + if rows[|rows| - 1].invoiceId.Some? then 1 else 0
  }

  function StatusOf(total: nat, valid: nat, submitted: nat): BatchStatus {
    if total == 0 then BatchValidated
    else if submitted == total then Completed
    else if submitted > 0 then Processing
    else if valid < total then StagedWithErrors
    else BatchValidated
  }

  function CountersOf(rows: seq<Row>): Counters {
    var total, valid, submitted := |rows|, CountValid(rows), CountPromoted(rows);
    Counters(total, valid, total - valid, submitted, StatusOf(total, valid, submitted))
  }

  function Refreshed<A>(s: Store<A>, b: BatchId): Store<A> {
    s.(counters := s.counters[b := CountersOf(RowsOf(s, b))])
  }

  // --- What validation sees -------------------------------------------------

  /** Numbers already filed, among those asked about; a rejected invoice does not block its number. */
  function FiledNumbers<A>(invoices: map<InvoiceId, Filed<A>>, candidates: set<string>): set<string> {
    set v | v in invoices && invoices[v].status != RejectedByFta && invoices[v].number in candidates :: invoices[v].number
  }

  function NumbersOf(invoices: seq<Invoice>): set<string> {
    set x | x in invoices && x.invoiceNumber != "" :: x.invoiceNumber
  }

  function ColumnOf(rows: seq<Row>): set<string> {
    set r | r in rows && r.number != "" :: r.number
  }

  function CountColumn(rows: seq<Row>, number: string): nat {
    if rows == [] then 0 else
      CountColumn(rows[..|rows| - 1], number) + if rows[|rows| - 1].number == number then 1 else 0
  }

  /** How often each non-blank number stands in the column, untrimmed. */
  function BatchCounts(rows: seq<Row>): map<string, nat> {
    map n | n in ColumnOf(rows) :: CountColumn(rows, n)
  }

  function Without(rows: seq<Row>, id: RowId): seq<Row> {
    if rows == [] then [] else
      Without(rows[..|rows| - 1], id) + if rows[|rows| - 1].id == id then [] else [rows[|rows| - 1]]
  }

  /** Counts for an edited row: the others, plus the number it now carries. */
  function CountsWithOwn(rows: seq<Row>, id: RowId, number: string): map<string, nat> {
    var others := BatchCounts(Without(rows, id));
    if number == "" then others else others[number := (if number in others then others[number] else 0) + 1]
  }

  /** Counts over an upload, by trimmed number, header invoices only. */
  function UploadCounts(parsed: seq<Invoice>): map<string, nat> {
    map n | n in (set x | x in parsed && Trim(x.invoiceNumber) != "" :: Trim(x.invoiceNumber)) :: CountInvoices(parsed, n)
  }

  // --- Staging steps --------------------------------------------------------

  /** A row after its payload and its verdict have been rewritten. */
  function Judged(row: Row, invoice: Invoice, ctx: Context): Row {
    row.(payload := invoice, number := invoice.invoiceNumber, findings := Findings(invoice, ctx), submittable := Submittable(invoice, ctx))
  }

  function Promoted(rows: seq<Row>): bool {
    exists i :: 0 <= i < |rows| && rows[i].invoiceId.Some?
  }

  /** The upload is judged as it came, and stored recalculated. */
  function NewRow(id: RowId, raw: Invoice, ctx: Context): Row {
    Row(id, raw.invoiceNumber, RecalcInvoice(raw), Findings(raw, ctx), Submittable(raw, ctx), None)
  }

  function NewRows(first: RowId, invoices: seq<Invoice>, ctx: Context): (r: seq<Row>)
    ensures |r| == |invoices|
  {
    seq(|invoices|, i requires 0 <= i < |invoices| => NewRow(first + i, invoices[i], ctx))
  }

  /** The log of each row is what the row holds. */
  function Logged(logs: map<RowId, seq<Finding>>, rows: seq<Row>): map<RowId, seq<Finding>> {
    if rows == [] then logs else
      Logged(logs, rows[..|rows| - 1])[rows[|rows| - 1].id := rows[|rows| - 1].findings]
  }

  function IdsOf(rows: seq<Row>): set<RowId> {
    set r | r in rows :: r.id
  }

  function ParseContext<A>(s: Store<A>, parsed: seq<Invoice>, ctx: Context): Context {
    ctx.(filed := FiledNumbers(s.invoices, NumbersOf(parsed)), batch := UploadCounts(parsed))
  }

  /** Replaces the batch, unless some row of it is already an invoice. */
  function Parse<A>(s: Store<A>, b: BatchId, parsed: seq<Invoice>, synthetic: seq<Invoice>, ctx: Context): Store<A> {
    if Promoted(RowsOf(s, b)) then s
    else
      var rows := NewRows(s.nextRow, parsed + synthetic, ParseContext(s, parsed, ctx));
      Refreshed(s.(rows := s.rows[b := rows], logs := Logged(s.logs - IdsOf(RowsOf(s, b)), rows), nextRow := s.nextRow + |rows|), b)
  }

  /** Position of the row, or the number of rows when the batch has no such row. */
  function Position(rows: seq<Row>, id: RowId): (i: nat)
    ensures i <= |rows|
    ensures i < |rows| ==> rows[i].id == id
    ensures forall j :: 0 <= j < i ==> rows[j].id != id
  {
    if rows == [] || rows[0].id == id then 0 else 1 + Position(rows[1..], id)
  }

  function Replaced<A>(s: Store<A>, b: BatchId, i: nat, row: Row): Store<A>
    requires b in s.rows && i < |s.rows[b]|
  {
    s.(rows := s.rows[b := s.rows[b][i := row]], logs := s.logs[row.id := row.findings])
  }

  function EditContext<A>(s: Store<A>, b: BatchId, id: RowId, invoice: Invoice, ctx: Context): Context {
    ctx.(filed := FiledNumbers(s.invoices, NumbersOf([invoice])), batch := CountsWithOwn(RowsOf(s, b), id, invoice.invoiceNumber))
  }

  /** An edit of one row: recalculated, judged, stored. A promoted row refuses; an edit that changes nothing does nothing. */
  function Edit<A>(s: Store<A>, b: BatchId, id: RowId, p: Patch, ctx: Context): Store<A> {
    var i := Position(RowsOf(s, b), id);
    if i == |RowsOf(s, b)| || RowsOf(s, b)[i].invoiceId.Some? || !Patches.Changes(RowsOf(s, b)[i].payload, p) then s
    else
      var invoice := RecalcInvoice(Patched(RowsOf(s, b)[i].payload, p));
      Refreshed(Replaced(s, b, i, Judged(RowsOf(s, b)[i], invoice, EditContext(s, b, id, invoice, ctx))), b)
  }

  function OpenPayloads(rows: seq<Row>): seq<Invoice> {
    if rows == [] then [] else
      OpenPayloads(rows[..|rows| - 1]) + if rows[|rows| - 1].invoiceId.None? then [rows[|rows| - 1].payload] else []
  }

  function BatchContext<A>(s: Store<A>, b: BatchId, ctx: Context): Context {
    ctx.(filed := FiledNumbers(s.invoices, NumbersOf(OpenPayloads(RowsOf(s, b)))), batch := BatchCounts(RowsOf(s, b)))
  }

  function RevalidatedRow(row: Row, ctx: Context): Row {
    if Open(row) then Judged(row, RecalcInvoice(row.payload), ctx) else row
  }

  /** Only rows auto-fix has something to change on are rewritten. */
  function FixedRow(row: Row, ctx: Context): Row {
    if Fixable(row) then Judged(row, Fix(row.payload), ctx) else row
  }

  function RevalidatedRows(rows: seq<Row>, ctx: Context): (r: seq<Row>)
    ensures |r| == |rows| && forall i :: 0 <= i < |r| ==> r[i] == RevalidatedRow(rows[i], ctx)
  {
    seq(|rows|, i requires 0 <= i < |rows| => RevalidatedRow(rows[i], ctx))
  }

  function FixedRows(rows: seq<Row>, ctx: Context): (r: seq<Row>)
    ensures |r| == |rows| && forall i :: 0 <= i < |r| ==> r[i] == FixedRow(rows[i], ctx)
  {
    seq(|rows|, i requires 0 <= i < |rows| => FixedRow(rows[i], ctx))
  }

  /** The log after the touched rows of a batch have been rewritten. */
  function Relogged(logs: map<RowId, seq<Finding>>, before: seq<Row>, after: seq<Row>, touched: Row -> bool): map<RowId, seq<Finding>>
    requires |after| == |before|
  {
    if before == [] then logs
    else
      var n := |before| - 1;
      var front := Relogged(logs, before[..n], after[..n], touched);
      if touched(before[n]) then front[after[n].id := after[n].findings] else front
  }

  function WithRows<A>(s: Store<A>, b: BatchId, rows: seq<Row>, touched: Row -> bool): Store<A>
    requires |rows| == |RowsOf(s, b)|
  {
    Refreshed(s.(rows := s.rows[b := rows], logs := Relogged(s.logs, RowsOf(s, b), rows, touched)), b)
  }

  predicate Open(row: Row) {
    row.invoiceId.None?
  }

  predicate Fixable(row: Row) {
    row.invoiceId.None? && AutoFix.Changes(row.payload) != []
  }

  function Revalidate<A>(s: Store<A>, b: BatchId, ctx: Context): Store<A> {
    WithRows(s, b, RevalidatedRows(RowsOf(s, b), BatchContext(s, b, ctx)), Open)
  }

  function AutoFixRows<A>(s: Store<A>, b: BatchId, ctx: Context): Store<A> {
    WithRows(s, b, FixedRows(RowsOf(s, b), BatchContext(s, b, ctx)), Fixable)
  }

  function Delete<A>(s: Store<A>, b: BatchId, id: RowId): Store<A> {
    var i := Position(RowsOf(s, b), id);
    if i == |RowsOf(s, b)| || RowsOf(s, b)[i].invoiceId.Some? then s
    else
      var rows := RowsOf(s, b);
      Refreshed(s.(rows := s.rows[b := rows[..i] + rows[i + 1..]], logs := s.logs - {id}), b)
  }

  // --- Promotion ------------------------------------------------------------

  predicate Taken<A>(invoices: map<InvoiceId, Filed<A>>, number: string) {
    exists v :: v in invoices && invoices[v].number == number
  }

  /**
   * Who submits what: an approver files at once, anyone else stops at the approval gate. `num` reads line
   * numbers, and `casts` says whose texts the database can cast to the types of their columns.
   */
  datatype Submission = Submission(
    selected: Option<set<RowId>>,
    files: bool,
    user: UserId,
    uuids: map<RowId, string>,
    num: string -> Option<real>,
    casts: Invoice -> bool
  )

  predicate Selected(row: Row, d: Submission) {
    row.invoiceId.None? && (d.selected.Some? ==> row.id in d.selected.value)
  }

  predicate Chosen(row: Row, d: Submission) {
    Selected(row, d) && row.submittable
  }

  function NewInvoice<A>(b: BatchId, row: Row, d: Submission): Filed<A> {
    var invoice := RecalcInvoice(row.payload);
    Filed(b, row.id, invoice.invoiceNumber, if row.id in d.uuids then d.uuids[row.id] else "", invoice, AmountsOf(invoice),
          if d.files then Validated else PendingApproval, if d.files then Some(d.user) else None, None)
  }

  /** The tables take the invoice and its lines: amounts and line numbers within their columns, every text castable. */
  predicate Insertable(invoice: Invoice, d: Submission) {
    Storable(invoice, d.num) && d.casts(invoice)
  }

  /** The inserts of this row fail: its number is taken, or a column or the line-number constraint refuses. */
  predicate Refused<A>(invoices: map<InvoiceId, Filed<A>>, row: Row, d: Submission) {
    var invoice := RecalcInvoice(row.payload);
    Taken(invoices, invoice.invoiceNumber) || !Insertable(invoice, d)
  }

  /** Promotes one row; none when its inserts fail, which aborts the whole transaction. */
  function PromoteRow<A>(s: Store<A>, b: BatchId, k: nat, d: Submission): Option<Store<A>>
    requires b in s.rows && k < |s.rows[b]|
  {
    var row := s.rows[b][k];
    if !Chosen(row, d) then Some(s)
    else if Refused(s.invoices, row, d) then None
    else Some(s.(
      invoices := s.invoices[s.nextInvoice := NewInvoice(b, row, d)],
      rows := s.rows[b := s.rows[b][k := row.(invoiceId := Some(s.nextInvoice))]],
      nextInvoice := s.nextInvoice + 1))
  }

  function PromoteUpTo<A>(s: Store<A>, b: BatchId, n: nat, d: Submission): (r: Option<Store<A>>)
    requires b in s.rows && n <= |s.rows[b]|
    ensures r.Some? ==> b in r.value.rows && |r.value.rows[b]| == |s.rows[b]|
  {
    if n == 0 then Some(s)
    else
      match PromoteUpTo(s, b, n - 1, d)
      case None => None
      case Some(t) => PromoteRow(t, b, n - 1, d)
  }

  /** One submission is one transaction: all chosen rows are promoted, or nothing happens. */
  function Submit<A>(s: Store<A>, b: BatchId, d: Submission): Store<A> {
    if b !in s.rows then s
    else
      match PromoteUpTo(s, b, |s.rows[b]|, d)
      case None => s
      case Some(t) => Refreshed(t, b)
  }

  // --- Approval -------------------------------------------------------------

  predicate Named(ids: Option<set<InvoiceId>>, v: InvoiceId) {
    ids.Some? ==> v in ids.value
  }

  predicate Decidable<A>(s: Store<A>, ids: Option<set<InvoiceId>>, v: InvoiceId) {
    v in s.invoices && Named(ids, v) && s.invoices[v].status == PendingApproval
  }

  function ApproveOne<A>(s: Store<A>, ids: Option<set<InvoiceId>>, v: InvoiceId, user: UserId): Store<A> {
    if Decidable(s, ids, v) then
      s.(invoices := s.invoices[v := s.invoices[v].(status := Validated, approver := Some(user))])
    else s
  }

  function ApproveUpTo<A>(s: Store<A>, ids: Option<set<InvoiceId>>, n: nat, user: UserId): Store<A> {
    if n == 0 then s else ApproveOne(ApproveUpTo(s, ids, n - 1, user), ids, n - 1, user)
  }

  /** Approval walks the queue in the order the invoices were created. */
  function Approve<A>(s: Store<A>, ids: Option<set<InvoiceId>>, user: UserId): Store<A> {
    ApproveUpTo(s, ids, s.nextInvoice, user)
  }

  function ReopenedRow(row: Row, id: RowId): Row {
    if row.id == id then row.(invoiceId := None) else row
  }

  function ReopenedRows(rows: seq<Row>, id: RowId): (r: seq<Row>)
    ensures |r| == |rows| && forall i :: 0 <= i < |r| ==> r[i] == ReopenedRow(rows[i], id)
  {
    seq(|rows|, i requires 0 <= i < |rows| => ReopenedRow(rows[i], id))
  }

  /** A withdrawn invoice reopens its row and frees its number; the counters are left as they are. */
  function RejectOne<A>(s: Store<A>, ids: Option<set<InvoiceId>>, v: InvoiceId): Store<A> {
    if Decidable(s, ids, v) then
      s.(rows := map b | b in s.rows :: ReopenedRows(s.rows[b], s.invoices[v].row), invoices := s.invoices - {v})
    else s
  }

  function RejectUpTo<A>(s: Store<A>, ids: Option<set<InvoiceId>>, n: nat): Store<A> {
    if n == 0 then s else RejectOne(RejectUpTo(s, ids, n - 1), ids, n - 1)
  }

  function Reject<A>(s: Store<A>, ids: Option<set<InvoiceId>>): Store<A> {
    RejectUpTo(s, ids, s.nextInvoice)
  }
}
