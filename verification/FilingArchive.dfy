/** What is filed is what the grid showed: invoice row, UBL document and QR payload carry the staged payload's totals. */
module FilingArchive {
  import opened Text
  import opened Calc
  import opened Columns
  import Subtotals
  import opened Validate
  import opened RecalcFindings
  import opened StagedPayload
  import opened Patches
  import opened Staging
  import opened StagingRules
  import opened PromotionRules
  import opened Filing
  import opened FilingRules
  import opened FilingRuns
  import Ubl
  import UblTotals
  import UblReadBack
  import Qr
  import Utf8
  import Base64

  // --- Archives are made from the invoice's own payload ---------------------

  ghost predicate FromOwnPayload(f: FiledInvoice) {
    f.archive.Some? ==> exists seller :: f.archive.value == ArchiveOf(f, seller)
  }

  ghost predicate ArchivesOk(s: System) {
    forall v :: v in s.db.invoices ==> FromOwnPayload(s.db.invoices[v])
  }

  lemma SameSource(a: FiledInvoice, b: FiledInvoice, seller: Seller)
    requires SameFiling(a, b)
    ensures ArchiveOf(a, seller) == ArchiveOf(b, seller)
  {
    hide Ubl.Document, Qr.BuildPayload;
  }

  lemma KeptArchive(before: FiledInvoice, after: FiledInvoice)
    requires FromOwnPayload(before) && SameFiling(before, after) && after.archive == before.archive
    ensures FromOwnPayload(after)
  {
    if after.archive.Some? {
      var seller :| before.archive.value == ArchiveOf(before, seller);
      SameSource(before, after, seller);
    }
    hide ArchiveOf;
  }

  /** Only archiving changes what is archived, and it archives what the job read. */
  predicate ArchiveMove(s: System, e: Event, v: InvoiceId, after: FiledInvoice)
    requires v in s.db.invoices
  {
    || after.archive == s.db.invoices[v].archive
    || (e.ArchiveXml? && e.worker in s.workers && s.workers[e.worker].invoice == v
        && after.archive == Some(ArchiveOf(s.workers[e.worker].read, e.seller)))
  }

  lemma ApplyKeepsArchives(s: System, u: Update, target: Option<InvoiceId>, v: InvoiceId)
    requires v in s.db.invoices
    ensures v in Apply(s, u, target).db.invoices && Apply(s, u, target).db.invoices[v].archive == s.db.invoices[v].archive
  {
    hide SettledAll, Applies;
  }

  lemma OtherArchives(s: System, e: Event, v: InvoiceId)
    requires !OnStore(e) && v in s.db.invoices && v in Next(s, e).db.invoices
    ensures ArchiveMove(s, e, v, Next(s, e).db.invoices[v])
  {
    hide ArchiveOf, SettledAll, Located, Apply, OutcomeStatus, OutcomeLog, CallOf, MayFile;
    if e.ProcessWebhook? && e.delivery in s.deliveries && s.deliveries[e.delivery].Received? {
      ApplyKeepsArchives(s, s.deliveries[e.delivery].update, e.target, v);
    }
    if e.PollProvider? {
      ApplyKeepsArchives(s, PollUpdate(e.invoice, e.reference, e.verdict), e.target, v);
    }
  }

  lemma ArchiveStepOne(s: System, e: Event, v: InvoiceId)
    requires InvoicesHeld(s.db) && JobsOk(s) && ArchivesOk(s) && v in Next(s, e).db.invoices
    ensures FromOwnPayload(Next(s, e).db.invoices[v])
  {
    hide ArchiveOf;
    var t := Next(s, e);
    if OnStore(e) {
      NextMoves(s.db, e);
      hide NextStore, InvoicesHeld, JobsOk;
      if v in s.db.invoices {
        KeptArchive(s.db.invoices[v], t.db.invoices[v]);
      }
    } else {
      OtherStepMoves(s, e);
      OtherArchives(s, e, v);
      hide Next, InvoicesHeld, StatusAfter, ApproverAfter;
      var before, after := s.db.invoices[v], t.db.invoices[v];
      assert Moved(s, e, v, after);
      if after.archive == before.archive {
        KeptArchive(before, after);
      } else {
        SameSource(s.workers[e.worker].read, after, e.seller);
      }
    }
  }

  lemma ArchiveStep(s: System, e: Event)
    requires InvoicesHeld(s.db) && JobsOk(s) && ArchivesOk(s)
    ensures ArchivesOk(Next(s, e))
  {
    hide Next, InvoicesHeld, JobsOk, ArchivesOk, FromOwnPayload;
    var t := Next(s, e);
    forall v | v in t.db.invoices
      ensures FromOwnPayload(t.db.invoices[v])
    {
      ArchiveStepOne(s, e, v);
    }
    AllFromOwn(t);
  }

  lemma AllFromOwn(t: System)
    requires forall v :: v in t.db.invoices ==> FromOwnPayload(t.db.invoices[v])
    ensures ArchivesOk(t)
  {
    hide FromOwnPayload;
  }

  lemma {:induction false} ArchivesInRuns(events: seq<Event>)
    requires PlausibleRun(Initial(), events)
    ensures JobsOk(Run(Initial(), events)) && ArchivesOk(Run(Initial(), events))
  {
    if events != [] {
      hide Next, Plausible, InvoicesHeld, JobsOk, ArchivesOk;
      var front, last := events[..|events| - 1], events[|events| - 1];
      ArchivesInRuns(front);
      HeldInRuns(front);
      JobsStep(Run(Initial(), front), last);
      ArchiveStep(Run(Initial(), front), last);
    }
  }

  // --- What the documents show ----------------------------------------------

  /** Each total of the document, read back from its elements, is the one given. */
  predicate XmlShows(xml: Ubl.Xml, a: Amounts) {
    && UblTotals.Select(xml, "cac:TaxTotal", "cbc:TaxAmount") == [a.vatTotal]
    && UblTotals.Select(xml, "cac:LegalMonetaryTotal", "cbc:LineExtensionAmount") == [a.lineExtension]
    && UblTotals.Select(xml, "cac:LegalMonetaryTotal", "cbc:TaxExclusiveAmount") == [a.taxExclusive]
    && UblTotals.Select(xml, "cac:LegalMonetaryTotal", "cbc:TaxInclusiveAmount") == [a.taxInclusive]
    && UblTotals.Select(xml, "cac:LegalMonetaryTotal", "cbc:PayableAmount") == [a.payable]
  }

  /** The QR payload, decoded, holds the totals given. */
  predicate QrShows(qr: string, a: Amounts) {
    var read := Qr.Fields(Base64.Decode64(qr), map[]);
    && Qr.INVOICE_TOTAL in read && read[Qr.INVOICE_TOTAL] == a.payable
    && Qr.VAT_TOTAL in read && read[Qr.VAT_TOTAL] == a.vatTotal
  }

  /** Amounts that fit their columns are far below the width of a QR field. */
  lemma TotalsUncut(x: Invoice)
    requires AmountsFit(RecalcInvoice(x))
    ensures var r := RecalcInvoice(x);
      && Utf8.Truncate(r.payableAmount, Qr.MAX_VALUE_BYTES) == r.payableAmount
      && Utf8.Truncate(r.vatTotalAmount, Qr.MAX_VALUE_BYTES) == r.vatTotalAmount
  {
    var r := RecalcInvoice(x);
    Subtotals.RecalcDerives(x.lines);
    hide Subtotals.Derived;
    Subtotals.SumsOfDerived(r.lines);
    hide Cents, Takes, Print, Utf8.Encode, Utf8.Truncate, RecalcLines, NetSum, VatSum;
    CentsAdd(NetSum(r.lines), VatSum(r.lines));
    AmountBytes(VatSum(r.lines));
    AmountBytes(NetSum(r.lines) + VatSum(r.lines));
    Utf8.TruncateKeeps(r.payableAmount, Qr.MAX_VALUE_BYTES);
    Utf8.TruncateKeeps(r.vatTotalAmount, Qr.MAX_VALUE_BYTES);
  }

  lemma ArchiveShows(f: FiledInvoice, seller: Seller)
    requires RecalcInvoice(f.raw) == f.raw && AmountsFit(f.raw)
    ensures XmlShows(ArchiveOf(f, seller).xml, AmountsOf(f.raw)) && QrShows(ArchiveOf(f, seller).qr, AmountsOf(f.raw))
  {
    hide RecalcInvoice, AmountsFit, Ubl.Document, UblTotals.Select, Qr.BuildPayload, Qr.Fields, Base64.Decode64, Utf8.Truncate,
      Qr.Timestamp;
    TotalsUncut(f.raw);
    UblTotals.TotalsInDocument(Ubl.Options(f.raw, seller.party, f.uuid, seller.customization, seller.profile));
    Qr.PayloadRoundTrip(f.raw, seller.legalName, seller.party.trn, None);
  }

  lemma LinkedAmounts(row: Row, b: BatchId, f: FiledInvoice)
    requires Sound(row) && Linked(row, b, f)
    ensures AmountsOf(f.raw) == AmountsOf(row.payload) && f.amounts == AmountsOf(row.payload)
    ensures f.number == row.payload.invoiceNumber && Agrees(f.raw, row.payload)
    ensures RecalcInvoice(f.raw) == f.raw && AmountsFit(f.raw)
  {
    hide UniqueLineIds, StableInvoice, RecalcInvoice, LineAgrees;
    RecalcInvoiceSettles(row.payload);
  }

  /**
   * What is filed is what the grid showed. In every reachable state, for every promoted row: the amounts of
   * its invoice, the totals in the archived UBL document and the totals in the archived QR payload are the
   * totals of the row's payload, and the filed payload differs from it in no amount.
   */
  lemma FiledAsShown(events: seq<Event>, b: BatchId, i: nat)
    requires PlausibleRun(Initial(), events)
    requires var db := Run(Initial(), events).db;
      b in db.rows && i < |db.rows[b]| && db.rows[b][i].invoiceId.Some?
    ensures var db := Run(Initial(), events).db;
      var row := db.rows[b][i];
      && row.invoiceId.value in db.invoices
      && var f := db.invoices[row.invoiceId.value];
      && f.row == row.id && f.number == row.payload.invoiceNumber && Agrees(f.raw, row.payload)
      && f.amounts == AmountsOf(row.payload)
      && (f.archive.Some? ==>
           XmlShows(f.archive.value.xml, AmountsOf(row.payload)) && QrShows(f.archive.value.qr, AmountsOf(row.payload)))
  {
    RunsStayConsistent(events);
    ArchivesInRuns(events);
    var s := Run(Initial(), events);
    hide Run, PlausibleRun, Initial;
    FiledInState(s, b, i);
  }

  lemma FiledInState(s: System, b: BatchId, i: nat)
    requires Consistent(s.db) && ArchivesOk(s)
    requires b in s.db.rows && i < |s.db.rows[b]| && s.db.rows[b][i].invoiceId.Some?
    ensures var row := s.db.rows[b][i];
      && row.invoiceId.value in s.db.invoices
      && var f := s.db.invoices[row.invoiceId.value];
      && f.row == row.id && f.number == row.payload.invoiceNumber && Agrees(f.raw, row.payload)
      && f.amounts == AmountsOf(row.payload)
      && (f.archive.Some? ==>
           XmlShows(f.archive.value.xml, AmountsOf(row.payload)) && QrShows(f.archive.value.qr, AmountsOf(row.payload)))
  {
    var row := s.db.rows[b][i];
    hide Sound, OnePerNumber, IdsDistinct, InvoicesHeld, NumbersUnique, Linked, Agrees, XmlShows, QrShows, ArchiveOf;
    assert RowOk(row, b, s.db.invoices, s.db.nextRow);
    var f := s.db.invoices[row.invoiceId.value];
    LinkedAmounts(row, b, f);
    LinkedRow(row, b, f);
    assert FromOwnPayload(f);
    if f.archive.Some? {
      var seller :| f.archive.value == ArchiveOf(f, seller);
      ArchiveShows(f, seller);
    }
  }

  lemma LinkedRow(row: Row, b: BatchId, f: FiledInvoice)
    requires Linked(row, b, f)
    ensures f.row == row.id
  {
    hide RecalcInvoice;
  }

  /** The document and the QR payload are this invoice's: its number and UUID, its buyer, and one and the same seller. */
  predicate IssuedBy(a: Archive, f: FiledInvoice, seller: Seller) {
    var read := Qr.Fields(Base64.Decode64(a.qr), map[]);
    && UblReadBack.Says(a.xml, "cbc:ID", f.number) && UblReadBack.Says(a.xml, "cbc:UUID", f.uuid)
    && UblReadBack.SupplierShown(a.xml, seller.party) && UblReadBack.BuyerShown(a.xml, f.raw)
    && read.Keys == {1, 2, 3, 4, 5}
    && read[1] == Utf8.Truncate(seller.legalName, 255) && read[2] == Utf8.Truncate(seller.party.trn, 255)
  }

  lemma ArchiveIssues(f: FiledInvoice, seller: Seller)
    requires f.number == f.raw.invoiceNumber
    ensures IssuedBy(ArchiveOf(f, seller), f, seller)
  {
    var o := Ubl.Options(f.raw, seller.party, f.uuid, seller.customization, seller.profile);
    DocumentIssues(o);
    PayloadIssues(f.raw, seller);
    hide Ubl.Document, UblReadBack.Says, UblReadBack.SupplierShown, UblReadBack.BuyerShown, Qr.BuildPayload, Qr.Fields,
      Base64.Decode64, Utf8.Truncate;
  }

  lemma DocumentIssues(o: Ubl.Options)
    ensures var doc := Ubl.Document(o);
      && UblReadBack.Says(doc, "cbc:ID", o.invoice.invoiceNumber) && UblReadBack.Says(doc, "cbc:UUID", o.uuid)
      && UblReadBack.SupplierShown(doc, o.supplier) && UblReadBack.BuyerShown(doc, o.invoice)
  {
    hide *;
    UblReadBack.DocumentReadsBack(o);
    HeadNames(Ubl.Document(o), o);
  }

  lemma HeadNames(doc: Ubl.Xml, o: Ubl.Options)
    requires UblReadBack.HeadShown(doc, o)
    ensures UblReadBack.Says(doc, "cbc:ID", o.invoice.invoiceNumber) && UblReadBack.Says(doc, "cbc:UUID", o.uuid)
  {
    hide UblReadBack.Says;
  }

  lemma PayloadIssues(x: Invoice, seller: Seller)
    ensures var read := Qr.Fields(Base64.Decode64(Qr.BuildPayload(x, seller.legalName, seller.party.trn, None)), map[]);
      && read.Keys == {1, 2, 3, 4, 5}
      && read[1] == Utf8.Truncate(seller.legalName, 255) && read[2] == Utf8.Truncate(seller.party.trn, 255)
  {
    Qr.PayloadRoundTrip(x, seller.legalName, seller.party.trn, None);
    hide RecalcInvoice, Qr.BuildPayload, Qr.Fields, Base64.Decode64, Utf8.Truncate, Qr.Timestamp;
  }

  /** In every reachable state, whatever is archived for an invoice carries that invoice's own number, UUID and parties. */
  lemma FiledUnderItsOwnName(events: seq<Event>, v: InvoiceId)
    requires PlausibleRun(Initial(), events)
    requires v in Run(Initial(), events).db.invoices && Run(Initial(), events).db.invoices[v].archive.Some?
    ensures var f := Run(Initial(), events).db.invoices[v];
      exists seller :: IssuedBy(f.archive.value, f, seller)
  {
    RunsStayConsistent(events);
    ArchivesInRuns(events);
    var s := Run(Initial(), events);
    hide Run, PlausibleRun, Initial, Consistent, ArchiveOf, IssuedBy;
    var f := s.db.invoices[v];
    var i := RowOfInvoice(s.db, v);
    LinkedNumber(s.db.rows[f.batch][i], f.batch, f);
    assert FromOwnPayload(f);
    var seller :| f.archive.value == ArchiveOf(f, seller);
    ArchiveIssues(f, seller);
  }

  lemma LinkedNumber(row: Row, b: BatchId, f: FiledInvoice)
    requires Linked(row, b, f)
    ensures f.number == f.raw.invoiceNumber
  {
    hide RecalcInvoice;
  }
}
