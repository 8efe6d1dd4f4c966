/** The handlers and jobs as they run: tables updated in place, each method one transaction or one sequence of them. */
module Desk {
  import opened Text
  import opened Calc
  import opened Validate
  import opened AutoFix
  import opened Patches
  import opened Staging
  import opened Filing
  import Approvals

  // --- Folding helpers ------------------------------------------------------

  lemma UploadCountsStep(parsed: seq<Invoice>, n: nat)
    requires n < |parsed|
    ensures var before, key := UploadCounts(parsed[..n]), Trim(parsed[n].invoiceNumber);
      UploadCounts(parsed[..n + 1])
        == if key == "" then before else before[key := (if key in before then before[key] else 0) + 1]
  {
    hide Trim;
    assert forall x :: x in parsed[..n + 1] <==> x in parsed[..n] || x == parsed[n];
    var key := Trim(parsed[n].invoiceNumber);
    forall k | k in UploadCounts(parsed[..n + 1])
      ensures CountInvoices(parsed[..n + 1], k) == CountInvoices(parsed[..n], k) + if key == k then 1 else 0
    {
      CountStep(parsed, n, k);
    }
    hide CountInvoices;
    if key != "" && key !in UploadCounts(parsed[..n]) {
      NotCounted(parsed[..n], key);
    }
  }

  lemma CountStep(parsed: seq<Invoice>, n: nat, k: string)
    requires n < |parsed|
    ensures CountInvoices(parsed[..n + 1], k) == CountInvoices(parsed[..n], k) + if Trim(parsed[n].invoiceNumber) == k then 1 else 0
  {
    hide Trim;
    assert parsed[..n + 1][..n] == parsed[..n];
  }

  lemma {:induction false} NotCounted(parsed: seq<Invoice>, n: string)
    requires forall x :: x in parsed ==> Trim(x.invoiceNumber) != n
    ensures CountInvoices(parsed, n) == 0
  {
    hide Trim;
    if parsed != [] {
      NotCounted(parsed[..|parsed| - 1], n);
    }
  }

  /** Counts trimmed, non-blank numbers of the header invoices. */
  method CountUpload(parsed: seq<Invoice>) returns (counts: map<string, nat>)
    ensures counts == UploadCounts(parsed)
  {
    hide UploadCounts;
    counts := map[];
    NothingCounted();
    for n := 0 to |parsed|
      invariant counts == UploadCounts(parsed[..n])
    {
      UploadCountsStep(parsed, n);
      var key := Trim(parsed[n].invoiceNumber);
      if key != "" {
        counts := counts[key := (if key in counts then counts[key] else 0) + 1];
      }
    }
    assert parsed[..|parsed|] == parsed;
  }

  lemma NothingCounted()
    ensures UploadCounts([]) == map[]
  {
  }

  lemma NewRowsStep(first: RowId, all: seq<Invoice>, ctx: Context, n: nat)
    requires n < |all|
    ensures NewRows(first, all[..n + 1], ctx) == NewRows(first, all[..n], ctx) + [NewRow(first + n, all[n], ctx)]
  {
    hide NewRow;
  }

  lemma LoggedStep(logs: map<RowId, seq<Finding>>, rows: seq<Row>, row: Row)
    ensures Logged(logs, rows + [row]) == Logged(logs, rows)[row.id := row.findings]
  {
    assert (rows + [row])[..|rows|] == rows;
  }

  lemma ReloggedStep(logs: map<RowId, seq<Finding>>, before: seq<Row>, after: seq<Row>, touched: Row -> bool, n: nat)
    requires n < |before| && |after| == |before|
    ensures Relogged(logs, before[..n + 1], after[..n + 1], touched)
         == var front := Relogged(logs, before[..n], after[..n], touched);
            if touched(before[n]) then front[after[n].id := after[n].findings] else front
  {
    assert before[..n + 1][..n] == before[..n] && after[..n + 1][..n] == after[..n];
  }

  /** The ids of the rows that satisfy `p`, in row order. */
  function IdsWhere(rows: seq<Row>, p: Row -> bool): seq<RowId> {
    if rows == [] then []
    else IdsWhere(rows[..|rows| - 1], p) + if p(rows[|rows| - 1]) then [rows[|rows| - 1].id] else []
  }

  lemma IdsWhereStep(rows: seq<Row>, p: Row -> bool, n: nat)
    requires n < |rows|
    ensures IdsWhere(rows[..n + 1], p) == IdsWhere(rows[..n], p) + if p(rows[n]) then [rows[n].id] else []
  {
    assert rows[..n + 1][..n] == rows[..n];
  }

  /** Rows a submission reports back: selected, but with findings that block. */
  function HeldBack(d: Submission): Row -> bool {
    (row: Row) => Selected(row, d) && !row.submittable
  }

  predicate OpenValid(row: Row) {
    row.invoiceId.None? && row.submittable
  }

  // --- Filling, rewriting and promoting a batch -----------------------------

  /** The findings and the verdict are of the upload, the payload is its recalculation. */
  method RowToInsert(id: RowId, raw: Invoice, ctx: Context) returns (row: Row)
    ensures row == NewRow(id, raw, ctx)
  {
    var findings, submittable := ValidateInvoice(raw, ctx);
    var display := RecalcInvoice(raw);
    NewRowFields(id, raw, ctx);
    hide *;
    row := Row(id, raw.invoiceNumber, display, findings, submittable, None);
  }

  /** Inserts a row an invoice, judged as uploaded and stored recalculated, and writes its log. */
  method InsertAll(first: RowId, all: seq<Invoice>, ctx: Context, logs: map<RowId, seq<Finding>>)
    returns (inserted: seq<Row>, log: map<RowId, seq<Finding>>)
    ensures inserted == NewRows(first, all, ctx) && log == Logged(logs, inserted)
  {
    hide *;
    inserted, log := [], logs;
    StartEmpty(first, ctx, logs);
    for n := 0 to |all|
      invariant inserted == NewRows(first, all[..n], ctx) && log == Logged(logs, inserted)
    {
      NewRowsStep(first, all, ctx, n);
      var row := RowToInsert(first + n, all[n], ctx);
      LoggedStep(logs, inserted, row);
      inserted := inserted + [row];
      log := log[row.id := row.findings];
    }
    assert all[..|all|] == all;
  }

  /** Promotes the chosen rows in row order; an insert the database refuses stops everything. */
  method PromoteAll(before: Db, b: BatchId, d: Submission) returns (stage: Option<Db>, promoted: seq<InvoiceId>, reasons: seq<RowId>)
    requires b in before.rows
    ensures stage == PromoteUpTo(before, b, |before.rows[b]|, d)
    ensures stage.None? ==> promoted == [] && reasons == []
    ensures stage.Some? ==> |promoted| == stage.value.nextInvoice - before.nextInvoice
    ensures forall i :: 0 <= i < |promoted| ==> promoted[i] == before.nextInvoice + i
    ensures stage.Some? ==> reasons == IdsWhere(before.rows[b], HeldBack(d))
  {
    hide PromoteRow, PromoteUpTo, RecalcInvoice, Taken, Insertable, NewInvoice, Selected, IdsWhere;
    var t := before;
    promoted, reasons := [], [];
    NothingPromoted(before, b, d);
    NoIds(before.rows[b], HeldBack(d));
    for n := 0 to |before.rows[b]|
      invariant b in t.rows && |t.rows[b]| == |before.rows[b]|
      invariant forall k :: n <= k < |before.rows[b]| ==> t.rows[b][k] == before.rows[b][k]
      invariant PromoteUpTo(before, b, n, d) == Some(t)
      invariant |promoted| == t.nextInvoice - before.nextInvoice
      invariant forall i :: 0 <= i < |promoted| ==> promoted[i] == before.nextInvoice + i
      invariant reasons == IdsWhere(before.rows[b][..n], HeldBack(d))
    {
      PromoteMeans(before, b, n, d, t);
      IdsWhereStep(before.rows[b], HeldBack(d), n);
      var row := t.rows[b][n];
      if Selected(row, d) && !row.submittable {
        reasons := reasons + [row.id];
      } else if Selected(row, d) {
        var invoice := RecalcInvoice(row.payload);
        if Taken(t.invoices, invoice.invoiceNumber) || !Insertable(invoice, d) {
          AbortStays(before, b, n + 1, |before.rows[b]|, d);
          return None, [], [];
        }
        promoted := promoted + [t.nextInvoice];
        t := t.(
          invoices := t.invoices[t.nextInvoice := NewInvoice(b, row, d)],
          rows := t.rows[b := t.rows[b][n := row.(invoiceId := Some(t.nextInvoice))]],
          nextInvoice := t.nextInvoice + 1);
      }
    }
    assert before.rows[b][..|before.rows[b]|] == before.rows[b];
    stage := Some(t);
  }

  lemma NoIds(rows: seq<Row>, p: Row -> bool)
    ensures IdsWhere(rows[..0], p) == []
  {
  }

  lemma NothingPromoted(s: Db, b: BatchId, d: Submission)
    requires b in s.rows
    ensures PromoteUpTo(s, b, 0, d) == Some(s)
  {
  }

  /** Judges every open row again and rewrites its log. */
  method JudgeAll(before: seq<Row>, logs: map<RowId, seq<Finding>>, ctx: Context)
    returns (current: seq<Row>, log: map<RowId, seq<Finding>>, checked: nat, valid: nat)
    ensures current == RevalidatedRows(before, ctx) && log == Relogged(logs, before, current, Open)
    ensures checked == |IdsWhere(before, Open)| && valid == |IdsWhere(current, OpenValid)|
  {
    hide RevalidatedRow, Relogged, Judged, Open, RecalcInvoice, IdsWhere;
    ghost var after := RevalidatedRows(before, ctx);
    current, log, checked, valid := before, logs, 0, 0;
    NothingRelogged(logs, Open);
    NoIds(before, Open);
    NoIds(after, OpenValid);
    assert before[..0] == [] && after[..0] == [];
    for n := 0 to |before|
      invariant |current| == |before|
      invariant forall k :: 0 <= k < n ==> current[k] == after[k]
      invariant forall k :: n <= k < |before| ==> current[k] == before[k]
      invariant log == Relogged(logs, before[..n], after[..n], Open)
      invariant checked == |IdsWhere(before[..n], Open)| && valid == |IdsWhere(after[..n], OpenValid)|
    {
      ReloggedStep(logs, before, after, Open, n);
      IdsWhereStep(before, Open, n);
      IdsWhereStep(after, OpenValid, n);
      RevalidatedMeans(before[n], ctx);
      if current[n].invoiceId.None? {
        var row := Judged(current[n], RecalcInvoice(current[n].payload), ctx);
        JudgedKeepsId(current[n], RecalcInvoice(current[n].payload), ctx);
        current := current[n := row];
        log := log[row.id := row.findings];
        checked := checked + 1;
        valid := valid + if row.submittable then 1 else 0;
      }
    }
    assert before[..|before|] == before && after[..|before|] == after && current == after;
  }

  /** Fixes every open row that has something to fix, judges it, and rewrites its log. */
  method FixAll(before: seq<Row>, logs: map<RowId, seq<Finding>>, ctx: Context)
    returns (current: seq<Row>, log: map<RowId, seq<Finding>>, touched: nat)
    ensures current == FixedRows(before, ctx) && log == Relogged(logs, before, current, Fixable)
    ensures touched == |IdsWhere(before, Fixable)|
  {
    hide FixedRow, Relogged, Judged, Fixable, Fix, AutoFix.Changes, IdsWhere;
    ghost var after := FixedRows(before, ctx);
    current, log, touched := before, logs, 0;
    NothingRelogged(logs, Fixable);
    NoIds(before, Fixable);
    assert before[..0] == [] && after[..0] == [];
    for n := 0 to |before|
      invariant |current| == |before|
      invariant forall k :: 0 <= k < n ==> current[k] == after[k]
      invariant forall k :: n <= k < |before| ==> current[k] == before[k]
      invariant log == Relogged(logs, before[..n], after[..n], Fixable)
      invariant touched == |IdsWhere(before[..n], Fixable)|
    {
      ReloggedStep(logs, before, after, Fixable, n);
      IdsWhereStep(before, Fixable, n);
      FixedMeans(before[n], ctx);
      if current[n].invoiceId.None? {
        var invoice, changes := FixInvoice(current[n].payload);
        if changes != [] {
          var row := Judged(current[n], invoice, ctx);
          JudgedKeepsId(current[n], invoice, ctx);
          current := current[n := row];
          log := log[row.id := row.findings];
          touched := touched + 1;
        }
      }
    }
    assert before[..|before|] == before && after[..|before|] == after && current == after;
  }

  lemma JudgedKeepsId(row: Row, invoice: Invoice, ctx: Context)
    ensures Judged(row, invoice, ctx).id == row.id && Judged(row, invoice, ctx).invoiceId == row.invoiceId
  {
    hide Findings, Submittable;
  }

  // --- One polling sweep ----------------------------------------------------

  const BATCH_LIMIT := 100

  /** A row of the sweep's query: an invoice with the provider, and the last reference logged for it. */
  datatype SilentRow = SilentRow(invoice: InvoiceId, reference: Option<string>)

  /** The first hundred silent invoices with an id below `n`. */
  function SilentUpTo(s: System, quiet: InvoiceId -> bool, n: nat): seq<SilentRow> {
    if n == 0 then []
    else
      var front, v := SilentUpTo(s, quiet, n - 1), n - 1;
      if |front| < BATCH_LIMIT && v in s.db.invoices && s.db.invoices[v].status == SubmittedToAsp && quiet(v) then
        front + [SilentRow(v, LastReference(s.transmissions, v))]
      else front
  }

  function SilentRows(s: System, quiet: InvoiceId -> bool): seq<SilentRow> {
    SilentUpTo(s, quiet, s.db.nextInvoice)
  }

  function SelectEvents(pending: seq<SilentRow>): seq<Event> {
    if pending == [] then []
    else
      var front, last := SelectEvents(pending[..|pending| - 1]), pending[|pending| - 1];
      if last.reference.Some? then front + [SelectSilent(last.invoice)] else front
  }

  function PollEvents(pending: seq<SilentRow>, answer: string -> Verdict): seq<Event> {
    if pending == [] then []
    else
      var front, last := PollEvents(pending[..|pending| - 1], answer), pending[|pending| - 1];
      if last.reference.Some? then front + [PollOf(last, answer)] else front
  }

  function PollOf(row: SilentRow, answer: string -> Verdict): Event
    requires row.reference.Some?
  {
    PollProvider(row.invoice, row.reference.value, answer(row.reference.value), Some(row.invoice))
  }

  /** The invoices the provider has decided on. */
  function Decided(pending: seq<SilentRow>, answer: string -> Verdict): seq<InvoiceId> {
    if pending == [] then []
    else
      var front, last := Decided(pending[..|pending| - 1], answer), pending[|pending| - 1];
      if last.reference.Some? && answer(last.reference.value) != StillPending then front + [last.invoice] else front
  }

  function Pairs(pending: seq<SilentRow>): multiset<(InvoiceId, string)> {
    if pending == [] then multiset{}
    else
      var front, last := Pairs(pending[..|pending| - 1]), pending[|pending| - 1];
      if last.reference.Some? then front + multiset{(last.invoice, last.reference.value)} else front
  }

  /** Rows still to be asked about: with the provider, and selected. */
  predicate StillSilent(s: System, pending: seq<SilentRow>) {
    && (forall i, j :: 0 <= i < j < |pending| ==> pending[i].invoice < pending[j].invoice)
    && forall i :: 0 <= i < |pending| ==>
      var row := pending[i];
      && row.invoice in s.db.invoices && s.db.invoices[row.invoice].status == SubmittedToAsp
      && (row.reference.Some? ==> (row.invoice, row.reference.value) in s.silent)
  }

  /** Rows as the query returns them. */
  predicate Queried(s: System, pending: seq<SilentRow>) {
    && (forall i, j :: 0 <= i < j < |pending| ==> pending[i].invoice < pending[j].invoice)
    && forall i :: 0 <= i < |pending| ==>
      var row := pending[i];
      && row.invoice in s.db.invoices && s.db.invoices[row.invoice].status == SubmittedToAsp
      && row.reference == LastReference(s.transmissions, row.invoice)
  }

  lemma {:induction false} QueriedUpTo(s: System, quiet: InvoiceId -> bool, n: nat)
    ensures Queried(s, SilentUpTo(s, quiet, n))
    ensures forall row :: row in SilentUpTo(s, quiet, n) ==> row.invoice < n
  {
    hide LastReference;
    if n > 0 {
      QueriedUpTo(s, quiet, n - 1);
    }
  }

  lemma {:induction false} AllSelected(s: System, pending: seq<SilentRow>)
    requires Queried(s, pending)
    ensures Run(s, SelectEvents(pending)) == s.(silent := s.silent + Pairs(pending))
  {
    hide LastReference;
    if pending == [] {
      NoEvents(s);
    } else {
      var front, last := pending[..|pending| - 1], pending[|pending| - 1];
      AllSelected(s, front);
      hide Run, Next;
      if last.reference.Some? {
        OneMoreEvent(s, SelectEvents(front), SelectSilent(last.invoice));
        SelectIs(s, Run(s, SelectEvents(front)), last.invoice);
      }
    }
  }

  lemma SelectIs(s: System, t: System, v: InvoiceId)
    requires Selectable(s, v) && t == s.(silent := t.silent)
    ensures Next(t, SelectSilent(v)) == t.(silent := t.silent + multiset{(v, LastReference(s.transmissions, v).value)})
  {
    hide LastReference;
  }

  lemma SelectedAreSilent(s: System, pending: seq<SilentRow>)
    requires Queried(s, pending)
    ensures StillSilent(s.(silent := s.silent + Pairs(pending)), pending)
  {
    hide LastReference;
    forall i | 0 <= i < |pending| && pending[i].reference.Some?
      ensures (pending[i].invoice, pending[i].reference.value) in Pairs(pending)
    {
      PairOf(pending, i);
    }
    hide Pairs;
  }

  lemma {:induction false} PairOf(pending: seq<SilentRow>, i: nat)
    requires i < |pending| && pending[i].reference.Some?
    ensures (pending[i].invoice, pending[i].reference.value) in Pairs(pending)
  {
    if i < |pending| - 1 {
      PairOf(pending[..|pending| - 1], i);
    }
  }

  lemma PollStep(s: System, first: seq<Event>, pending: seq<SilentRow>, answer: string -> Verdict, n: nat)
    requires n < |pending|
    ensures var before, row := Run(s, first + PollEvents(pending[..n], answer)), pending[n];
      Run(s, first + PollEvents(pending[..n + 1], answer)) == if row.reference.Some? then Next(before, PollOf(row, answer)) else before
    ensures var decided, row := |Decided(pending[..n], answer)|, pending[n];
      |Decided(pending[..n + 1], answer)| ==
        decided + if row.reference.Some? && answer(row.reference.value) != StillPending then 1 else 0
  {
    hide Next, Run;
    var polled, row := PollEvents(pending[..n], answer), pending[n];
    assert pending[..n + 1][..n] == pending[..n];
    if row.reference.Some? {
      assert first + (polled + [PollOf(row, answer)]) == first + polled + [PollOf(row, answer)];
      OneMoreEvent(s, first + polled, PollOf(row, answer));
    }
  }

  lemma NothingPolled(first: seq<Event>, pending: seq<SilentRow>, answer: string -> Verdict)
    ensures first + PollEvents(pending[..0], answer) == first && Decided(pending[..0], answer) == []
  {
  }

  lemma PollIs(s: System, row: SilentRow, answer: string -> Verdict)
    requires row.reference.Some? && row.invoice in s.db.invoices && (row.invoice, row.reference.value) in s.silent
    ensures var u := PollUpdate(row.invoice, row.reference.value, answer(row.reference.value));
      var t := s.(silent := s.silent - multiset{(row.invoice, row.reference.value)});
      && Located(t, u, Some(row.invoice))
      && Next(s, PollOf(row, answer)) == Apply(t, u, Some(row.invoice))
      && (u.verdict == StillPending ==> Apply(t, u, Some(row.invoice)) == t)
  {
    var u := PollUpdate(row.invoice, row.reference.value, answer(row.reference.value));
    assert Matches(s, u, row.invoice);
    hide SettledAll;
  }

  /** Asking about the first row leaves the others silent. */
  lemma OthersStaySilent(s: System, pending: seq<SilentRow>, answer: string -> Verdict)
    requires pending != [] && StillSilent(s, pending)
    ensures StillSilent(s, pending[1..])
    ensures pending[0].reference.Some? ==> StillSilent(Next(s, PollOf(pending[0], answer)), pending[1..])
  {
    hide Next, Located, SettledAll;
    if pending[0].reference.Some? {
      PollIs(s, pending[0], answer);
    }
  }

  // --- The desk -------------------------------------------------------------

  class Desk {
    var rows: map<BatchId, seq<Row>>
    var invoices: map<InvoiceId, FiledInvoice>
    var counters: map<BatchId, Counters>
    var logs: map<RowId, seq<Finding>>
    var nextRow: RowId
    var nextInvoice: InvoiceId
    var workers: map<WorkerId, Worker>
    var transmissions: seq<Transmission>
    var deliveries: map<DeliveryId, Delivery>
    var silent: multiset<(InvoiceId, string)>
    var calls: seq<Call>

    function Tables(): Db
      reads this
    {
      Store(rows, invoices, counters, logs, nextRow, nextInvoice)
    }

    function State(): System
      reads this
    {
      System(Tables(), workers, transmissions, deliveries, silent, calls)
    }

    constructor ()
      ensures State() == Initial()
    {
      rows, invoices, counters, logs, nextRow, nextInvoice := map[], map[], map[], map[], 0, 0;
      workers, transmissions, deliveries, silent, calls := map[], [], map[], multiset{}, [];
    }

    method RefreshBatchCounters(b: BatchId)
      modifies this`counters
      ensures Tables() == Refreshed(old(Tables()), b)
    {
      counters := counters[b := CountersOf(RowsOf(Tables(), b))];
    }

    // --- Staging ------------------------------------------------------------

    /** Re-parsing replaces the batch, unless rows of it are already invoices. */
    method ParseBatchJob(b: BatchId, parsed: seq<Invoice>, synthetic: seq<Invoice>, base: Context) returns (refused: bool)
      modifies this
      ensures State() == Next(old(State()), ParseBatch(b, parsed, synthetic, base))
      ensures refused <==> Promoted(RowsOf(old(Tables()), b))
    {
      hide NewRow, NewRows, Logged, UploadCounts, CountersOf, Findings, Submittable, RecalcInvoice;
      refused := Promoted(RowsOf(Tables(), b));
      if refused {
        return;
      }
      var counts := CountUpload(parsed);
      var ctx := base.(filed := FiledNumbers(invoices, NumbersOf(parsed)), batch := counts);
      ParseIs(Tables(), b, parsed, synthetic, base, ctx);
      var inserted, log := InsertAll(nextRow, parsed + synthetic, ctx, logs - IdsOf(RowsOf(Tables(), b)));
      rows, logs, nextRow := rows[b := inserted], log, nextRow + |inserted|;
      RefreshBatchCounters(b);
    }

    /** An inline edit: refused on a promoted row, recalculated and judged on any other. */
    method PatchRow(b: BatchId, id: RowId, p: Patch, base: Context)
      modifies this
      ensures State() == Next(old(State()), EditRow(b, id, p, base))
    {
      hide Patches.Changes, Patched, Judged, EditContext, CountersOf, RecalcInvoice;
      if b !in rows {
        return;
      }
      var i := Position(rows[b], id);
      if i == |rows[b]| || rows[b][i].invoiceId.Some? {
        return;
      }
      var next, changed := ApplyPatch(rows[b][i].payload, p);
      if !changed {
        return;
      }
      var invoice := RecalcInvoice(next);
      var row := Judged(rows[b][i], invoice, EditContext(Tables(), b, id, invoice, base));
      rows, logs := rows[b := rows[b][i := row]], logs[row.id := row.findings];
      RefreshBatchCounters(b);
    }

    /** Every open row of the batch judged again under one context. */
    method RevalidateRows(b: BatchId, base: Context) returns (checked: nat, valid: nat)
      modifies this
      ensures State() == Next(old(State()), RevalidateBatch(b, base))
      ensures checked == |IdsWhere(RowsOf(old(Tables()), b), Open)|
      ensures valid == |IdsWhere(RowsOf(Tables(), b), OpenValid)|
    {
      hide BatchContext, RevalidatedRows, Relogged, CountersOf;
      if b !in rows {
        return 0, 0;
      }
      var after, log;
      after, log, checked, valid := JudgeAll(rows[b], logs, BatchContext(Tables(), b, base));
      rows, logs := rows[b := after], log;
      RefreshBatchCounters(b);
    }

    /** Auto-fix over the open rows: only those it changes are judged again and stored. */
    method AutoFixOpenRows(b: BatchId, base: Context) returns (touched: nat)
      modifies this
      ensures State() == Next(old(State()), Event.AutoFixBatch(b, base))
      ensures touched == |IdsWhere(RowsOf(old(Tables()), b), Fixable)|
    {
      hide BatchContext, FixedRows, Relogged, CountersOf;
      if b !in rows {
        return 0;
      }
      var after, log;
      after, log, touched := FixAll(rows[b], logs, BatchContext(Tables(), b, base));
      rows, logs := rows[b := after], log;
      RefreshBatchCounters(b);
    }

    method DeleteStagedRow(b: BatchId, id: RowId)
      modifies this
      ensures State() == Next(old(State()), DeleteRow(b, id))
    {
      hide CountersOf;
      if b !in rows {
        return;
      }
      var i := Position(rows[b], id);
      if i == |rows[b]| || rows[b][i].invoiceId.Some? {
        return;
      }
      rows, logs := rows[b := rows[b][..i] + rows[b][i + 1..]], logs - {id};
      RefreshBatchCounters(b);
    }

    /**
     * Promotes the chosen rows in row order; an insert the database refuses rolls the whole submission back.
     * Jobs are queued for the new invoices only when the caller may file; selected rows with errors are reported.
     */
    method SubmitRows(b: BatchId, d: Submission) returns (promoted: seq<InvoiceId>, queued: seq<InvoiceId>, reasons: seq<RowId>)
      modifies this
      ensures State() == Next(old(State()), SubmitBatch(b, d))
      ensures |promoted| == nextInvoice - old(nextInvoice) && forall i :: 0 <= i < |promoted| ==> promoted[i] == old(nextInvoice) + i
      ensures queued == if d.files then promoted else []
      ensures reasons ==
        if b in old(rows) && PromoteUpTo(old(Tables()), b, |old(rows)[b]|, d).Some? then IdsWhere(old(rows)[b], HeldBack(d)) else []
      ensures (forall v :: v in old(invoices) ==> v < old(nextInvoice)) ==>
        forall v :: v in invoices && v !in old(invoices) ==>
          if d.files then invoices[v].status == Validated && invoices[v].approver == Some(d.user)
          else invoices[v].status == PendingApproval && invoices[v].approver == None
    {
      hide PromoteUpTo, CountersOf, IdsWhere, Next, Submit;
      if Approvals.BelowNext(Tables()) {
        Approvals.SubmissionIsGated(Tables(), b, d);
      }
      NextIsSubmit(State(), b, d);
      SubmitMeans(Tables(), b, d);
      if b !in rows {
        return [], [], [];
      }
      var stage;
      stage, promoted, reasons := PromoteAll(Tables(), b, d);
      queued := if d.files then promoted else [];
      if stage.None? {
        return;
      }
      rows, invoices, nextInvoice := stage.value.rows, stage.value.invoices, stage.value.nextInvoice;
      RefreshBatchCounters(b);
    }

    // --- Approvals ----------------------------------------------------------

    /** Releases the waiting invoices among those named, oldest first. */
    method ApproveQueue(ids: Option<set<InvoiceId>>, user: UserId) returns (approved: seq<InvoiceId>)
      modifies this
      ensures State() == Next(old(State()), ApproveInvoices(ids, user))
      ensures forall v: InvoiceId :: v in approved <==> v < old(nextInvoice) && Decidable(old(Tables()), ids, v)
    {
      approved := [];
      ghost var before := Tables();
      for v := 0 to nextInvoice
        invariant nextInvoice == before.nextInvoice
        invariant Tables() == ApproveUpTo(before, ids, v, user)
        invariant State() == old(State()).(db := Tables())
        invariant forall w :: w >= v ==> (w in invoices <==> w in before.invoices)
        invariant forall w :: w >= v && w in invoices ==> invoices[w] == before.invoices[w]
        invariant forall w: InvoiceId :: w in approved <==> w < v && Decidable(before, ids, w)
      {
        if v in invoices && Named(ids, v) && invoices[v].status == PendingApproval {
          invoices := invoices[v := invoices[v].(status := Validated, approver := Some(user))];
          approved := approved + [v];
        }
      }
    }

    /** Withdraws one invoice, if it is named and waits: its row opens again and the invoice is gone. */
    method WithdrawOne(ids: Option<set<InvoiceId>>, v: InvoiceId) returns (gone: bool)
      modifies this`rows, this`invoices
      ensures Tables() == RejectOne(old(Tables()), ids, v)
      ensures invoices == if gone then old(invoices) - {v} else old(invoices)
      ensures gone <==> Decidable(old(Tables()), ids, v)
    {
      hide ReopenedRows;
      gone := v in invoices && Named(ids, v) && invoices[v].status == PendingApproval;
      if gone {
        var id := invoices[v].row;
        rows := map b | b in rows :: ReopenedRows(rows[b], id);
        invoices := invoices - {v};
      }
    }

    /** Withdraws the waiting invoices among those named: each reopens its row and is deleted. */
    method RejectQueue(ids: Option<set<InvoiceId>>) returns (rejected: seq<InvoiceId>)
      modifies this
      ensures State() == Next(old(State()), RejectInvoices(ids))
      ensures forall v: InvoiceId :: v in rejected <==> v < old(nextInvoice) && Decidable(old(Tables()), ids, v)
      ensures forall v :: v in rejected ==> v !in invoices
    {
      hide RejectOne;
      rejected := [];
      ghost var before := Tables();
      for v := 0 to nextInvoice
        invariant nextInvoice == before.nextInvoice
        invariant Tables() == RejectUpTo(before, ids, v)
        invariant State() == old(State()).(db := Tables())
        invariant forall w :: w >= v ==> (w in invoices <==> w in before.invoices)
        invariant forall w :: w >= v && w in invoices ==> invoices[w] == before.invoices[w]
        invariant forall w: InvoiceId :: w in rejected <==> w < v && Decidable(before, ids, w)
        invariant forall w :: w in rejected ==> w !in invoices
      {
        var gone := WithdrawOne(ids, v);
        if gone {
          rejected := rejected + [v];
        }
      }
    }

    // --- Retries ------------------------------------------------------------

    method RetryFiling(v: InvoiceId, user: UserId) returns (queued: bool)
      modifies this
      ensures State() == Next(old(State()), RetryInvoice(v, user))
      ensures queued <==> v in old(invoices) && old(invoices)[v].status in {Validated, RejectedByFta, ValidationFailed}
    {
      queued := false;
      if v !in invoices {
        return;
      }
      var status := invoices[v].status;
      if status == AcceptedByFta || status == SubmittedToAsp || status == PendingApproval {
        return;
      }
      if status != Validated && status != RejectedByFta && status != ValidationFailed {
        return;
      }
      invoices := invoices[v := invoices[v].(status := Validated, approver := Some(user))];
      queued := true;
    }

    method PlatformRetryFiling(v: InvoiceId) returns (queued: bool)
      modifies this
      ensures State() == Next(old(State()), PlatformRetryInvoice(v))
      ensures queued <==> v in old(invoices) && old(invoices)[v].status != AcceptedByFta
    {
      queued := v in invoices && invoices[v].status != AcceptedByFta;
      if queued {
        invoices := invoices[v := invoices[v].(status := Validated)];
      }
    }

    // --- The submission job -------------------------------------------------

    /** Reads the invoice and applies the guard. */
    method ReadAndGuard(w: WorkerId, v: InvoiceId) returns (goes: bool)
      requires w !in workers
      modifies this`workers
      ensures State() == Next(old(State()), StartJob(w, v))
      ensures goes <==> w in workers
      ensures goes <==> v in old(invoices) && old(invoices)[v].status !in {AcceptedByFta, SubmittedToAsp, PendingApproval}
    {
      goes := false;
      if v !in invoices {
        return;
      }
      var invoice := invoices[v];
      if invoice.status == AcceptedByFta || invoice.status == SubmittedToAsp {
        return;
      }
      if invoice.status == PendingApproval {
        return;
      }
      workers := workers[w := Worker(v, invoice, Checked)];
      goes := true;
    }

    /** Writes the document to the archive before anything is transmitted. */
    method Archive(w: WorkerId, seller: Seller)
      requires w in workers && workers[w].phase == Checked
      modifies this`workers, this`invoices
      ensures State() == Next(old(State()), ArchiveXml(w, seller))
      ensures w in workers && workers[w].phase == Stored && workers[w].invoice == old(workers)[w].invoice
    {
      hide ArchiveOf;
      var job := workers[w];
      if job.read.archive.None? {
        var archive := ArchiveOf(job.read, seller);
        if job.invoice in invoices {
          invoices := invoices[job.invoice := invoices[job.invoice].(archive := Some(archive))];
        }
      }
      workers := workers[w := job.(phase := Stored)];
    }

    method CallDriver(w: WorkerId, outcome: Outcome)
      requires w in workers && workers[w].phase == Stored
      modifies this`workers, this`calls
      ensures State() == Next(old(State()), CallProvider(w, outcome))
      ensures w in workers && workers[w].phase == Answered(outcome)
    {
      calls := calls + [CallOf(State(), w)];
      workers := workers[w := workers[w].(phase := Answered(outcome))];
    }

    /** Logs the attempt and writes the status; a retryable answer leaves the status and fails the job. */
    method ClosingWrite(w: WorkerId) returns (again: bool)
      requires w in workers && workers[w].phase.Answered?
      modifies this`workers, this`invoices, this`transmissions
      ensures State() == Next(old(State()), CloseJob(w))
      ensures again <==> old(workers)[w].phase.outcome.Retryable?
    {
      var v, outcome := workers[w].invoice, workers[w].phase.outcome;
      transmissions := transmissions + [OutcomeLog(v, outcome)];
      if v in invoices {
        match outcome
        case Accepted(_) => invoices := invoices[v := invoices[v].(status := SubmittedToAsp)];
        case Rejected => invoices := invoices[v := invoices[v].(status := RejectedByFta)];
        case Retryable =>
      }
      workers := workers - {w};
      again := outcome.Retryable?;
    }

    /** The whole job, undisturbed: its four steps in a row, or nothing at all when the guard stops it. */
    method SubmitInvoiceJob(w: WorkerId, v: InvoiceId, seller: Seller, outcome: Outcome) returns (again: bool, ghost events: seq<Event>)
      requires w !in workers
      modifies this
      ensures State() == Run(old(State()), events)
      ensures events == [StartJob(w, v)] || events == [StartJob(w, v), ArchiveXml(w, seller), CallProvider(w, outcome), CloseJob(w)]
      ensures |events| == 4 <==> v in old(invoices) && old(invoices)[v].status !in {AcceptedByFta, SubmittedToAsp, PendingApproval}
      ensures again <==> |events| == 4 && outcome.Retryable?
    {
      hide Next, Run;
      ghost var s := State();
      var goes := ReadAndGuard(w, v);
      events := [StartJob(w, v)];
      again := false;
      assert State() == Run(s, events) by { OneMoreEvent(s, [], StartJob(w, v)); NoEvents(s); assert [] + [StartJob(w, v)] == events; }
      if goes {
        assert workers[w].phase == Checked by { StartedChecked(s, w, v); }
        Archive(w, seller);
        OneMoreEvent(s, events, ArchiveXml(w, seller));
        events := events + [ArchiveXml(w, seller)];
        CallDriver(w, outcome);
        OneMoreEvent(s, events, CallProvider(w, outcome));
        events := events + [CallProvider(w, outcome)];
        again := ClosingWrite(w);
        OneMoreEvent(s, events, CloseJob(w));
        events := events + [CloseJob(w)];
      }
    }

    // --- Verdicts -----------------------------------------------------------

    /** Applies a verdict to the invoice the lookup found, under its row lock. */
    method ApplyStatusUpdate(u: Update, target: Option<InvoiceId>) returns (applied: bool)
      requires Located(State(), u, target)
      modifies this`invoices, this`transmissions
      ensures State() == Apply(old(State()), u, target)
      ensures applied <==> target.Some? && Applies(old(invoices)[target.value].status, u.verdict)
    {
      applied := false;
      if u.verdict == StillPending || target.None? {
        return;
      }
      var v := target.value;
      var status := invoices[v].status;
      if status == AcceptedByFta || status == Archived {
        return;
      }
      var nextStatus := if u.verdict == Clears then AcceptedByFta else RejectedByFta;
      if status == nextStatus {
        return;
      }
      invoices := invoices[v := invoices[v].(status := nextStatus)];
      transmissions := SettledAll(transmissions, v, u);
      applied := true;
    }

    /** A webhook delivery: recorded first, applied once, its result noted. */
    method ReceiveDelivery(d: DeliveryId, u: Update, target: Option<InvoiceId>) returns (duplicate: bool)
      requires d !in deliveries ==> Located(State(), u, target)
      modifies this
      ensures duplicate <==> d in old(deliveries)
      ensures duplicate ==> State() == old(State())
      ensures !duplicate ==> State() == Next(Next(old(State()), ReceiveWebhook(d, u)), ProcessWebhook(d, target))
    {
      duplicate := d in deliveries;
      if duplicate {
        return;
      }
      LocatedIgnoresDeliveries(State(), State().(deliveries := deliveries[d := Received(u)]), u, target);
      deliveries := deliveries[d := Received(u)];
      hide Located;
      var applied := ApplyStatusUpdate(u, target);
      deliveries := deliveries[d := Processed(applied)];
    }

    /** The rows of one sweep: a hundred at most, and those with no reference count too. */
    method SelectSilentRows(quiet: InvoiceId -> bool) returns (pending: seq<SilentRow>)
      ensures pending == SilentRows(State(), quiet)
    {
      hide LastReference;
      pending := [];
      for v := 0 to nextInvoice
        invariant pending == SilentUpTo(State(), quiet, v)
      {
        if |pending| < BATCH_LIMIT && v in invoices && invoices[v].status == SubmittedToAsp && quiet(v) {
          var reference := LatestReference(v);
          pending := pending + [SilentRow(v, reference)];
        }
      }
    }

    /** Asks the provider about one selected row; an answer but a pending one is applied. */
    method AskAbout(row: SilentRow, answer: string -> Verdict) returns (decided: bool)
      requires StillSilent(State(), [row]) && row.reference.Some?
      modifies this
      ensures State() == Next(old(State()), PollOf(row, answer))
      ensures decided <==> answer(row.reference.value) != StillPending
    {
      assert [row][0] == row;
      var verdict := answer(row.reference.value);
      PollIs(State(), row, answer);
      hide Next, Located, Apply;
      silent := silent - multiset{(row.invoice, row.reference.value)};
      decided := false;
      if verdict != StillPending {
        decided := ApplyStatusUpdate(PollUpdate(row.invoice, row.reference.value, verdict), Some(row.invoice));
      }
    }

    /**
     * One undisturbed sweep: the silent invoices are selected, the provider is asked about each that has a
     * reference, and every answer but a pending one is applied.
     */
    method PollStatus(quiet: InvoiceId -> bool, answer: string -> Verdict) returns (checked: nat, resolved: nat)
      modifies this
      ensures var pending := SilentRows(old(State()), quiet);
        && State() == Run(old(State()), SelectEvents(pending) + PollEvents(pending, answer))
        && checked == |pending| && resolved == |Decided(pending, answer)|
    {
      hide Next, Run, Located, SilentUpTo, SelectEvents, PollEvents, Decided, Pairs, Apply;
      ghost var s := State();
      var pending := SelectSilentRows(quiet);
      QueriedUpTo(s, quiet, nextInvoice);
      AllSelected(s, pending);
      SelectedAreSilent(s, pending);
      silent := silent + Pairs(pending);
      checked, resolved := |pending|, 0;
      NothingPolled(SelectEvents(pending), pending, answer);
      assert pending[0..] == pending;
      for n := 0 to |pending|
        invariant State() == Run(s, SelectEvents(pending) + PollEvents(pending[..n], answer))
        invariant resolved == |Decided(pending[..n], answer)|
        invariant StillSilent(State(), pending[n..])
      {
        var row := pending[n];
        assert pending[n..][0] == row && pending[n..][1..] == pending[n + 1..];
        PollStep(s, SelectEvents(pending), pending, answer, n);
        OthersStaySilent(State(), pending[n..], answer);
        assert StillSilent(State(), [row]);
        if row.reference.Some? {
          var decided := AskAbout(row, answer);
          resolved := resolved + if decided then 1 else 0;
        }
      }
      assert pending[..|pending|] == pending;
    }

    /** The latest reference logged for an invoice. */
    method LatestReference(v: InvoiceId) returns (reference: Option<string>)
      ensures reference == LastReference(transmissions, v)
    {
      reference := None;
      for n := 0 to |transmissions|
        invariant reference == LastReference(transmissions[..n], v)
      {
        assert transmissions[..n + 1][..n] == transmissions[..n];
        if transmissions[n].invoice == v && transmissions[n].reference.Some? {
          reference := transmissions[n].reference;
        }
      }
      assert transmissions[..|transmissions|] == transmissions;
    }
  }

  // --- Facts the methods use ------------------------------------------------

  lemma StartEmpty(first: RowId, ctx: Context, logs: map<RowId, seq<Finding>>)
    ensures NewRows(first, [], ctx) == [] && Logged(logs, []) == logs
  {
  }

  lemma ParseIs(db: Db, b: BatchId, parsed: seq<Invoice>, synthetic: seq<Invoice>, base: Context, ctx: Context)
    requires !Promoted(RowsOf(db, b))
    requires ctx == base.(filed := FiledNumbers(db.invoices, NumbersOf(parsed)), batch := UploadCounts(parsed))
    ensures var rows := NewRows(db.nextRow, parsed + synthetic, ctx);
      Parse(db, b, parsed, synthetic, base)
        == Refreshed(db.(rows := db.rows[b := rows], logs := Logged(db.logs - IdsOf(RowsOf(db, b)), rows), nextRow := db.nextRow + |rows|), b)
  {
    hide UploadCounts, FiledNumbers, NumbersOf, NewRows, Logged, Refreshed, Promoted;
  }

  lemma NewRowFields(id: RowId, x: Invoice, ctx: Context)
    ensures NewRow(id, x, ctx) == Row(id, x.invoiceNumber, RecalcInvoice(x), Findings(x, ctx), Submittable(x, ctx), None)
  {
    hide Findings, Submittable, RecalcInvoice;
  }

  lemma NothingRelogged(logs: map<RowId, seq<Finding>>, touched: Row -> bool)
    ensures Relogged(logs, [], [], touched) == logs
  {
  }

  lemma RevalidatedMeans(row: Row, ctx: Context)
    ensures RevalidatedRow(row, ctx) == if row.invoiceId.None? then Judged(row, RecalcInvoice(row.payload), ctx) else row
    ensures Open(row) <==> row.invoiceId.None?
  {
    hide Judged, RecalcInvoice;
  }

  lemma FixedMeans(row: Row, ctx: Context)
    ensures Fixable(row) <==> row.invoiceId.None? && AutoFix.Changes(row.payload) != []
    ensures FixedRow(row, ctx) == if Fixable(row) then Judged(row, Fix(row.payload), ctx) else row
  {
    hide Judged, Fix, AutoFix.Changes;
  }

  lemma PromoteMeans(s: Db, b: BatchId, n: nat, d: Submission, t: Db)
    requires b in s.rows && n < |s.rows[b]| && PromoteUpTo(s, b, n, d) == Some(t)
    ensures b in t.rows && n < |t.rows[b]|
    ensures PromoteUpTo(s, b, n + 1, d) == PromoteRow(t, b, n, d)
    ensures var row := t.rows[b][n];
      PromoteRow(t, b, n, d) ==
        if !Chosen(row, d) then Some(t)
        else if Taken(t.invoices, RecalcInvoice(row.payload).invoiceNumber) || !Insertable(RecalcInvoice(row.payload), d) then None
        else Some(t.(
          invoices := t.invoices[t.nextInvoice := NewInvoice(b, row, d)],
          rows := t.rows[b := t.rows[b][n := row.(invoiceId := Some(t.nextInvoice))]],
          nextInvoice := t.nextInvoice + 1))
  {
    hide Chosen, Taken, Insertable, NewInvoice, RecalcInvoice;
  }

  lemma {:induction false} AbortStays(s: Db, b: BatchId, k: nat, n: nat, d: Submission)
    requires b in s.rows && k <= n <= |s.rows[b]| && PromoteUpTo(s, b, k, d).None?
    ensures PromoteUpTo(s, b, n, d).None?
    decreases n
  {
    hide PromoteRow;
    if k < n {
      AbortStays(s, b, k, n - 1, d);
    }
  }

  lemma {:induction false} PromoteKeeps(s: Db, b: BatchId, n: nat, d: Submission)
    requires b in s.rows && n <= |s.rows[b]| && PromoteUpTo(s, b, n, d).Some?
    ensures var t := PromoteUpTo(s, b, n, d).value;
      t == s.(rows := t.rows, invoices := t.invoices, nextInvoice := t.nextInvoice)
  {
    hide Chosen, Refused, NewInvoice;
    if n > 0 {
      PromoteKeeps(s, b, n - 1, d);
    }
  }

  lemma SubmitMeans(s: Db, b: BatchId, d: Submission)
    ensures b !in s.rows ==> Submit(s, b, d) == s
    ensures b in s.rows ==>
      match PromoteUpTo(s, b, |s.rows[b]|, d)
      case None => Submit(s, b, d) == s
      case Some(t) => Submit(s, b, d) == Refreshed(s.(rows := t.rows, invoices := t.invoices, nextInvoice := t.nextInvoice), b)
  {
    hide PromoteUpTo, CountersOf;
    if b in s.rows && PromoteUpTo(s, b, |s.rows[b]|, d).Some? {
      PromoteKeeps(s, b, |s.rows[b]|, d);
    }
  }

  lemma NextIsSubmit(s: System, b: BatchId, d: Submission)
    ensures Next(s, SubmitBatch(b, d)) == s.(db := Submit(s.db, b, d))
  {
    hide Submit;
  }

  lemma OneMoreEvent(s: System, events: seq<Event>, e: Event)
    ensures Run(s, events + [e]) == Next(Run(s, events), e)
  {
    hide Next;
    assert (events + [e])[..|events|] == events;
  }

  lemma NoEvents(s: System)
    ensures Run(s, []) == s
  {
  }

  lemma StartedChecked(s: System, w: WorkerId, v: InvoiceId)
    requires w !in s.workers && w in Next(s, StartJob(w, v)).workers
    ensures Next(s, StartJob(w, v)).workers[w].phase == Checked
  {
  }

  lemma LocatedIgnoresDeliveries(s: System, t: System, u: Update, target: Option<InvoiceId>)
    requires t == s.(deliveries := t.deliveries)
    ensures Located(t, u, target) == Located(s, u, target)
  {
  }
}
