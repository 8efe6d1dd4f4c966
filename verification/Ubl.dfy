/** The UBL invoice document, as the tree of elements the builder appends. */
module Ubl {
  import opened Text
  import opened Money
  import opened Calc
  import opened Codes
  import opened Subtotals

  datatype Xml =
    | Element(name: string, attributes: seq<(string, string)>, children: seq<Xml>)
    | Content(text: string)

  datatype Supplier = Supplier(
    trn: string,
    legalName: string,
    street: Option<string>,
    city: Option<string>,
    emirate: Option<string>,
    postalCode: Option<string>,
    countryCode: Option<string>
  )

  const TRN_SCHEME := "0201"

  // --- Pieces ---------------------------------------------------------------

  function Leaf(name: string, text: string): Xml {
    Element(name, [], [Content(text)])
  }

  function Node(name: string, children: seq<Xml>): Xml {
    Element(name, [], children)
  }

  function AmountLeaf(name: string, currency: string, text: string): Xml {
    Element(name, [("currencyID", currency)], [Content(text)])
  }

  function If(condition: bool, node: Xml): seq<Xml> {
    if condition then [node] else []
  }

  predicate Filled(text: Option<string>) {
    text.Some? && text.value != ""
  }

  function TextOr(text: Option<string>, other: string): string {
    match text
    case Some(t) => t
    case None => other
  }

  function VatScheme(): Xml {
    Node("cac:TaxScheme", [Leaf("cbc:ID", "VAT")])
  }

  function Endpoint(trn: string): Xml {
    Element("cbc:EndpointID", [("schemeID", TRN_SCHEME)], [Content(trn)])
  }

  function PartyTax(trn: string): Xml {
    Node("cac:PartyTaxScheme", [Leaf("cbc:CompanyID", trn), VatScheme()])
  }

  function Country(code: string): Xml {
    Node("cac:Country", [Leaf("cbc:IdentificationCode", code)])
  }

  function SupplierAddress(s: Supplier): Xml {
    Node("cac:PostalAddress",
      If(Filled(s.street), Leaf("cbc:StreetName", TextOr(s.street, "")))
      + [Leaf("cbc:CityName", TextOr(s.city, TextOr(s.emirate, "")))]
      + If(Filled(s.postalCode), Leaf("cbc:PostalZone", TextOr(s.postalCode, "")))
      + If(Filled(s.emirate), Leaf("cbc:CountrySubentity", TextOr(s.emirate, "")))
      + [Country(TextOr(s.countryCode, "AE"))])
  }

  function SupplierParty(s: Supplier): Xml {
    Node("cac:AccountingSupplierParty", [Node("cac:Party", [
      Endpoint(s.trn),
      SupplierAddress(s),
      PartyTax(s.trn),
      Node("cac:PartyLegalEntity", [Leaf("cbc:RegistrationName", s.legalName), Leaf("cbc:CompanyID", s.trn)])
    ])])
  }

  predicate Given(text: string) {
    Trim(text) != ""
  }

  function BuyerParty(invoice: Invoice): Xml {
    Node("cac:AccountingCustomerParty", [Node("cac:Party",
      If(Given(invoice.buyerTrn), Endpoint(invoice.buyerTrn))
      + [Node("cac:PostalAddress", [
          Leaf("cbc:CityName", invoice.buyerEmirate),
          Leaf("cbc:CountrySubentity", invoice.buyerEmirate),
          Country("AE")
        ])]
      + If(Given(invoice.buyerTrn), PartyTax(invoice.buyerTrn))
      + [Node("cac:PartyLegalEntity", [Leaf("cbc:RegistrationName", invoice.buyerName)])])])
  }

  // --- Before the totals ----------------------------------------------------

  function DocumentCurrency(invoice: Invoice): string {
    if invoice.currency == "" then "AED" else invoice.currency
  }

  /** The type code is looked up as it stands: with stray spaces it is no known type. */
  predicate RefersBack(invoice: Invoice) {
    var spec := TypeSpec(invoice.invoiceType);
    spec.Some? && spec.value.requiresPrecedingInvoice && Given(invoice.precedingInvoiceId)
  }

  function BillingReference(invoice: Invoice): Xml {
    Node("cac:BillingReference", [Node("cac:InvoiceDocumentReference", [Leaf("cbc:ID", invoice.precedingInvoiceId)])])
  }

  function ExchangeRate(invoice: Invoice): Xml {
    Node("cac:TaxExchangeRate", [
      Leaf("cbc:SourceCurrencyCode", DocumentCurrency(invoice)),
      Leaf("cbc:TargetCurrencyCode", "AED"),
      Leaf("cbc:CalculationRate", if invoice.fxRate == "" then "1.000000" else invoice.fxRate)
    ])
  }

  datatype Options = Options(invoice: Invoice, supplier: Supplier, uuid: string, customization: string, profile: string)

  function Head(o: Options, invoice: Invoice): seq<Xml> {
    [
      Leaf("cbc:CustomizationID", o.customization),
      Leaf("cbc:ProfileID", o.profile),
      Leaf("cbc:ID", invoice.invoiceNumber),
      Leaf("cbc:UUID", o.uuid),
      Leaf("cbc:IssueDate", invoice.issueDate),
      Leaf("cbc:IssueTime", invoice.issueTime),
      Leaf("cbc:InvoiceTypeCode", invoice.invoiceType),
      Leaf("cbc:DocumentCurrencyCode", DocumentCurrency(invoice)),
      Leaf("cbc:TaxCurrencyCode", "AED")
    ]
  }

  function Parties(o: Options, invoice: Invoice): seq<Xml> {
    If(Given(invoice.poReference), Node("cac:OrderReference", [Leaf("cbc:ID", invoice.poReference)]))
    + If(RefersBack(invoice), BillingReference(invoice))
    + [SupplierParty(o.supplier), BuyerParty(invoice)]
    + If(invoice.paymentMeans in PAYMENT_MEANS, Node("cac:PaymentMeans", [Leaf("cbc:PaymentMeansCode", invoice.paymentMeans)]))
    + If(DocumentCurrency(invoice) != "AED", ExchangeRate(invoice))
  }

  // --- Totals ---------------------------------------------------------------

  function SubtotalNode(t: TaxSubtotal, currency: string): Xml {
    Node("cac:TaxSubtotal", [
      AmountLeaf("cbc:TaxableAmount", currency, t.taxableAmount),
      AmountLeaf("cbc:TaxAmount", currency, t.taxAmount),
      Node("cac:TaxCategory",
        [Leaf("cbc:ID", t.category), Leaf("cbc:Percent", t.rate)]
        + If(t.exemptionReason.Some?, Leaf("cbc:TaxExemptionReason", TextOr(t.exemptionReason, "")))
        + [VatScheme()])
    ])
  }

  function SubtotalNodes(subtotals: seq<TaxSubtotal>, currency: string): (r: seq<Xml>)
    ensures |r| == |subtotals| && forall i :: 0 <= i < |r| ==> r[i] == SubtotalNode(subtotals[i], currency)
  {
    seq(|subtotals|, i requires 0 <= i < |subtotals| => SubtotalNode(subtotals[i], currency))
  }

  function InvoiceSubtotals(invoice: Invoice): seq<TaxSubtotal> {
    SubtotalsOf(invoice.lines, Categories(invoice.lines))
  }

  function TaxTotalNode(invoice: Invoice, currency: string): Xml {
    Node("cac:TaxTotal",
      [AmountLeaf("cbc:TaxAmount", currency, invoice.vatTotalAmount)] + SubtotalNodes(InvoiceSubtotals(invoice), currency))
  }

  function TotalsNode(invoice: Invoice, currency: string): Xml {
    Node("cac:LegalMonetaryTotal", [
      AmountLeaf("cbc:LineExtensionAmount", currency, invoice.lineExtensionAmount),
      AmountLeaf("cbc:TaxExclusiveAmount", currency, invoice.taxExclusiveAmount),
      AmountLeaf("cbc:TaxInclusiveAmount", currency, invoice.taxInclusiveAmount),
      AmountLeaf("cbc:PayableAmount", currency, invoice.payableAmount)
    ])
  }

  // --- Lines ----------------------------------------------------------------

  predicate Discounted(line: Line) {
    ToDecimal(line.lineDiscount).Some? && ToDecimal(line.lineDiscount).value > 0.0
  }

  function Allowance(line: Line, currency: string): Xml {
    Node("cac:AllowanceCharge", [
      Leaf("cbc:ChargeIndicator", "false"),
      Leaf("cbc:AllowanceChargeReason", "Discount"),
      AmountLeaf("cbc:Amount", currency, Round(line.lineDiscount, AMOUNT_DP))
    ])
  }

  function ItemNode(line: Line): Xml {
    Node("cac:Item",
      [Leaf("cbc:Name", line.description)]
      + If(Given(line.hsCode), Node("cac:CommodityClassification",
          [Element("cbc:ItemClassificationCode", [("listID", "HS")], [Content(line.hsCode)])]))
      + [Node("cac:ClassifiedTaxCategory",
          [Leaf("cbc:ID", line.vatCategory), Leaf("cbc:Percent", line.vatRate)]
          + If(ExemptionReason(line.vatCategory).Some?,
               Leaf("cbc:TaxExemptionReason", TextOr(ExemptionReason(line.vatCategory), "")))
          + [VatScheme()])])
  }

  function LineNode(line: Line, currency: string): Xml {
    Node("cac:InvoiceLine",
      [
        Leaf("cbc:ID", line.lineNumber),
        Element("cbc:InvoicedQuantity", [("unitCode", if line.uom == "" then "PCE" else line.uom)], [Content(line.quantity)]),
        AmountLeaf("cbc:LineExtensionAmount", currency, line.netAmount)
      ]
      + If(Discounted(line), Allowance(line, currency))
      + [
        Node("cac:TaxTotal", [AmountLeaf("cbc:TaxAmount", currency, line.vatAmount)]),
        ItemNode(line),
        Node("cac:Price", [AmountLeaf("cbc:PriceAmount", currency, Round(line.unitPrice, UNIT_PRICE_DP))])
      ])
  }

  function LineNodes(lines: seq<Line>, currency: string): (r: seq<Xml>)
    ensures |r| == |lines| && forall i :: 0 <= i < |r| ==> r[i] == LineNode(lines[i], currency)
  {
    seq(|lines|, i requires 0 <= i < |lines| => LineNode(lines[i], currency))
  }

  // --- The document ---------------------------------------------------------

  function DocumentOf(o: Options, invoice: Invoice): Xml {
    var currency := DocumentCurrency(invoice);
    Node("Invoice",
      Head(o, invoice) + Parties(o, invoice)
      + [TaxTotalNode(invoice, currency), TotalsNode(invoice, currency)]
      + LineNodes(invoice.lines, currency))
  }

  /** The document of the recalculated invoice. */
  function Document(o: Options): Xml {
    DocumentOf(o, RecalcInvoice(o.invoice))
  }

  /** Appends one line with its allowance, tax, item and price. */
  method AppendLine(line: Line, currency: string) returns (node: Xml)
    ensures node == LineNode(line, currency)
  {
    hide ToDecimal, Round, Trim;
    var children := [Leaf("cbc:ID", line.lineNumber)];
    children := children + [Element("cbc:InvoicedQuantity", [("unitCode", if line.uom == "" then "PCE" else line.uom)],
                                    [Content(line.quantity)])];
    children := children + [AmountLeaf("cbc:LineExtensionAmount", currency, line.netAmount)];
    var discount := ToDecimal(line.lineDiscount);
    if discount.Some? && discount.value > 0.0 {
      children := children + [Allowance(line, currency)];
    }
    var lineTax := Node("cac:TaxTotal", [AmountLeaf("cbc:TaxAmount", currency, line.vatAmount)]);
    children := children + [lineTax];
    children := children + [ItemNode(line)];
    children := children + [Node("cac:Price", [AmountLeaf("cbc:PriceAmount", currency, Round(line.unitPrice, UNIT_PRICE_DP))])];
    node := Node("cac:InvoiceLine", children);
    hide ItemNode, Allowance;
    LineChildren(line, currency, node);
  }

  lemma LineChildren(line: Line, currency: string, node: Xml)
    requires node.Element? && node == Node("cac:InvoiceLine", node.children)
    requires node.children == LineNode(line, currency).children
    ensures node == LineNode(line, currency)
  {
    hide Discounted, ItemNode, Allowance;
  }

  method AppendSubtotals(invoice: Invoice, currency: string) returns (taxTotal: Xml)
    ensures taxTotal == TaxTotalNode(invoice, currency)
  {
    hide SubtotalOf, Categories, SubtotalNode;
    var children := [AmountLeaf("cbc:TaxAmount", currency, invoice.vatTotalAmount)];
    var subtotals := TaxSubtotals(invoice);
    assert subtotals == InvoiceSubtotals(invoice);
    for n := 0 to |subtotals|
      invariant children == [AmountLeaf("cbc:TaxAmount", currency, invoice.vatTotalAmount)] + SubtotalNodes(subtotals, currency)[..n]
    {
      children := children + [SubtotalNode(subtotals[n], currency)];
    }
    taxTotal := Node("cac:TaxTotal", children);
  }

  method AppendParties(o: Options, invoice: Invoice) returns (children: seq<Xml>)
    ensures children == Parties(o, invoice)
  {
    hide Trim, SupplierParty, BuyerParty, ExchangeRate, BillingReference, TypeSpec;
    children := [];
    if Given(invoice.poReference) {
      children := children + [Node("cac:OrderReference", [Leaf("cbc:ID", invoice.poReference)])];
    }
    var spec := TypeSpec(invoice.invoiceType);
    if spec.Some? && spec.value.requiresPrecedingInvoice && Given(invoice.precedingInvoiceId) {
      children := children + [BillingReference(invoice)];
    }
    children := children + [SupplierParty(o.supplier)];
    children := children + [BuyerParty(invoice)];
    if invoice.paymentMeans in PAYMENT_MEANS {
      children := children + [Node("cac:PaymentMeans", [Leaf("cbc:PaymentMeansCode", invoice.paymentMeans)])];
    }
    if DocumentCurrency(invoice) != "AED" {
      children := children + [ExchangeRate(invoice)];
    }
  }

  /** Appends section after section, looping over the subtotals and the lines. */
  method BuildInvoiceXml(o: Options) returns (doc: Xml)
    ensures doc == Document(o)
  {
    hide RecalcInvoice, Parties, TaxTotalNode, TotalsNode, LineNode;
    var invoice := RecalcInvoice(o.invoice);
    var currency := DocumentCurrency(invoice);
    var children := Head(o, invoice);
    var parties := AppendParties(o, invoice);
    children := children + parties;
    var taxTotal := AppendSubtotals(invoice, currency);
    children := children + [taxTotal];
    children := children + [TotalsNode(invoice, currency)];
    ghost var before := children;
    for n := 0 to |invoice.lines|
      invariant children == before + LineNodes(invoice.lines, currency)[..n]
    {
      var node := AppendLine(invoice.lines[n], currency);
      children := children + [node];
    }
    doc := Node("Invoice", children);
    assert before == Head(o, invoice) + Parties(o, invoice) + [TaxTotalNode(invoice, currency), TotalsNode(invoice, currency)];
  }
}
