/** Reading a built document back: every element holds the value it stands for, and nothing else. */
module UblReadBack {
  import opened Text
  import opened Money
  import opened Calc
  import opened Codes
  import opened Subtotals
  import opened Ubl
  import opened UblTotals
  import AutoFix
  import AutoFixSettles

  // --- Reading --------------------------------------------------------------

  function Sub(x: Xml, name: string): seq<Xml> {
    Named(Children(x), name)
  }

  /** The child with this name, when there is exactly one. */
  function The(x: Xml, name: string): Xml {
    if |Sub(x, name)| == 1 then Sub(x, name)[0] else Content("")
  }

  /** One child of this name, holding this text. */
  predicate Says(x: Xml, name: string, text: string) {
    Sub(x, name) == [Element(name, [], [Content(text)])]
  }

  predicate SaysIf(x: Xml, name: string, condition: bool, text: string) {
    if condition then Says(x, name, text) else Sub(x, name) == []
  }

  /** One child of this name, with one attribute, holding this text. */
  predicate SaysWith(x: Xml, name: string, attribute: string, value: string, text: string) {
    Sub(x, name) == [Element(name, [(attribute, value)], [Content(text)])]
  }

  predicate Amounts(x: Xml, name: string, currency: string, text: string) {
    SaysWith(x, name, "currencyID", currency, text)
  }

  // --- Short lists of children ----------------------------------------------

  function Pick(x: Xml, name: string): seq<Xml> {
    If(x.Element? && x.name == name, x)
  }

  function PickWhen(condition: bool, x: Xml, name: string): seq<Xml> {
    if condition then Pick(x, name) else []
  }

  lemma PickIf(condition: bool, x: Xml, name: string)
    ensures Named(If(condition, x), name) == PickWhen(condition, x, name)
  {
    NamedOne(x, name);
    assert Named([], name) == [];
    hide Named;
  }

  lemma Two(a: Xml, b: Xml)
    ensures forall name :: Named([a, b], name) == Pick(a, name) + Pick(b, name)
  {
    hide Named;
    forall name: string
      ensures Named([a, b], name) == Pick(a, name) + Pick(b, name)
    {
      NamedFront(a, [b], name);
      NamedOne(b, name);
      assert [a] + [b] == [a, b];
    }
  }

  lemma Three(a: Xml, b: Xml, c: Xml)
    ensures forall name :: Named([a, b, c], name) == Pick(a, name) + Pick(b, name) + Pick(c, name)
  {
    hide Named;
    Two(a, b);
    forall name: string
      ensures Named([a, b, c], name) == Pick(a, name) + Pick(b, name) + Pick(c, name)
    {
      NamedConcat([a, b], [c], name);
      NamedOne(c, name);
      assert [a, b] + [c] == [a, b, c];
    }
  }

  lemma Four(a: Xml, b: Xml, c: Xml, d: Xml)
    ensures forall name :: Named([a, b, c, d], name) == Pick(a, name) + Pick(b, name) + Pick(c, name) + Pick(d, name)
  {
    hide Named;
    Three(a, b, c);
    forall name: string
      ensures Named([a, b, c, d], name) == Pick(a, name) + Pick(b, name) + Pick(c, name) + Pick(d, name)
    {
      NamedConcat([a, b, c], [d], name);
      NamedOne(d, name);
      assert [a, b, c] + [d] == [a, b, c, d];
    }
  }

  /** Children with an optional one among them. */
  lemma Around(a: seq<Xml>, condition: bool, x: Xml, b: seq<Xml>)
    ensures forall name :: Named(a + If(condition, x) + b, name) == Named(a, name) + PickWhen(condition, x, name) + Named(b, name)
  {
    hide Named;
    forall name: string
      ensures Named(a + If(condition, x) + b, name) == Named(a, name) + PickWhen(condition, x, name) + Named(b, name)
    {
      NamedConcat(a + If(condition, x), b, name);
      NamedConcat(a, If(condition, x), name);
      PickIf(condition, x, name);
    }
  }

  // --- Head -----------------------------------------------------------------

  lemma Before(o: Options, invoice: Invoice, name: string)
    requires 1 <= Rank(name) <= 9
    ensures Sub(DocumentOf(o, invoice), name) == Named(Head(o, invoice), name)
  {
    hide Head, Parties, TaxTotalNode, TotalsNode, LineNode, LineNodes, InOrder, DocumentCurrency, Named, Rank;
    var currency := DocumentCurrency(invoice);
    var middle := [TaxTotalNode(invoice, currency), TotalsNode(invoice, currency)];
    PartiesInOrder(o, invoice);
    RanksDiffer(Parties(o, invoice), 10, 15, name);
    AfterParties(invoice, currency);
    RanksDiffer(middle + LineNodes(invoice.lines, currency), 16, 18, name);
    NamedConcat(Head(o, invoice), Parties(o, invoice), name);
    NamedConcat(Head(o, invoice) + Parties(o, invoice), middle + LineNodes(invoice.lines, currency), name);
    assert Head(o, invoice) + Parties(o, invoice) + middle + LineNodes(invoice.lines, currency)
        == Head(o, invoice) + Parties(o, invoice) + (middle + LineNodes(invoice.lines, currency));
  }

  lemma HeadNamed(o: Options, invoice: Invoice, i: nat)
    requires i < 9
    ensures var h := Head(o, invoice); h[i].Element? && Named(h, h[i].name) == [h[i]] && 1 <= Rank(h[i].name) <= 9
  {
    var h := Head(o, invoice);
    hide Head, Named, Rank;
    forall j | 0 <= j < |h|
      ensures h[j].Element? && Rank(h[j].name) == j + 1
    {
      HeadSize(o, invoice);
      HeadRank(o, invoice, j);
    }
    HeadSize(o, invoice);
    OnlyAt(h, i);
  }

  lemma HeadSize(o: Options, invoice: Invoice)
    ensures |Head(o, invoice)| == 9
  {
  }

  lemma {:induction false} OnlyAt(xs: seq<Xml>, i: nat)
    requires i < |xs| && xs[i].Element?
    requires forall j :: 0 <= j < |xs| ==> xs[j].Element? && (j != i ==> xs[j].name != xs[i].name)
    ensures Named(xs, xs[i].name) == [xs[i]]
  {
    if i > 0 {
      assert xs[1..][i - 1] == xs[i];
      OnlyAt(xs[1..], i - 1);
    } else {
      NoneNamed(xs[1..], xs[0].name);
    }
  }

  /** The invoice with its amounts and its lines recalculated. */
  predicate SameEntered(y: Invoice, x: Invoice) {
    y == x.(lines := y.lines, lineExtensionAmount := y.lineExtensionAmount, taxExclusiveAmount := y.taxExclusiveAmount,
            vatTotalAmount := y.vatTotalAmount, taxInclusiveAmount := y.taxInclusiveAmount,
            payableAmount := y.payableAmount, payableAmountAed := y.payableAmountAed)
  }

  /** What identifies the document. */
  predicate HeadShown(doc: Xml, o: Options) {
    var x := o.invoice;
    && Says(doc, "cbc:CustomizationID", o.customization)
    && Says(doc, "cbc:ProfileID", o.profile)
    && Says(doc, "cbc:ID", x.invoiceNumber)
    && Says(doc, "cbc:UUID", o.uuid)
    && Says(doc, "cbc:IssueDate", x.issueDate)
    && Says(doc, "cbc:IssueTime", x.issueTime)
    && Says(doc, "cbc:InvoiceTypeCode", x.invoiceType)
    && Says(doc, "cbc:DocumentCurrencyCode", if x.currency == "" then "AED" else x.currency)
    && Says(doc, "cbc:TaxCurrencyCode", "AED")
  }

  lemma HeadReads(o: Options, invoice: Invoice)
    requires SameEntered(invoice, o.invoice)
    ensures HeadShown(DocumentOf(o, invoice), o)
  {
    hide DocumentOf, Rank, Named, Sub;
    forall i | 0 <= i < 9
      ensures Sub(DocumentOf(o, invoice), Head(o, invoice)[i].name) == [Head(o, invoice)[i]]
    {
      HeadNamed(o, invoice, i);
      Before(o, invoice, Head(o, invoice)[i].name);
    }
    HeadElements(o, invoice, DocumentOf(o, invoice));
  }

  lemma HeadElements(o: Options, invoice: Invoice, doc: Xml)
    requires SameEntered(invoice, o.invoice)
    requires forall i :: 0 <= i < 9 ==> Sub(doc, Head(o, invoice)[i].name) == [Head(o, invoice)[i]]
    ensures HeadShown(doc, o)
  {
    hide Sub;
    var h := Head(o, invoice);
    assert Sub(doc, h[0].name) == [h[0]] && Sub(doc, h[1].name) == [h[1]] && Sub(doc, h[2].name) == [h[2]];
    assert Sub(doc, h[3].name) == [h[3]] && Sub(doc, h[4].name) == [h[4]] && Sub(doc, h[5].name) == [h[5]];
    assert Sub(doc, h[6].name) == [h[6]] && Sub(doc, h[7].name) == [h[7]] && Sub(doc, h[8].name) == [h[8]];
  }

  // --- Parties and references -----------------------------------------------

  lemma Between(o: Options, invoice: Invoice, name: string)
    requires 10 <= Rank(name) <= 15
    ensures Sub(DocumentOf(o, invoice), name) == Named(Parties(o, invoice), name)
  {
    hide Head, Parties, TaxTotalNode, TotalsNode, LineNode, LineNodes, InOrder, DocumentCurrency, Named, Rank;
    var currency := DocumentCurrency(invoice);
    var middle := [TaxTotalNode(invoice, currency), TotalsNode(invoice, currency)];
    HeadInOrder(o, invoice);
    RanksDiffer(Head(o, invoice), 1, 9, name);
    AfterParties(invoice, currency);
    RanksDiffer(middle + LineNodes(invoice.lines, currency), 16, 18, name);
    NamedConcat(Head(o, invoice), Parties(o, invoice), name);
    NamedConcat(Head(o, invoice) + Parties(o, invoice), middle + LineNodes(invoice.lines, currency), name);
    assert Head(o, invoice) + Parties(o, invoice) + middle + LineNodes(invoice.lines, currency)
        == Head(o, invoice) + Parties(o, invoice) + (middle + LineNodes(invoice.lines, currency));
  }

  /** The children between head and totals, picked by name. */
  lemma PartiesNamed(o: Options, x: Invoice, order: Xml, means: Xml, name: string)
    requires order == Node("cac:OrderReference", [Leaf("cbc:ID", x.poReference)])
    requires means == Node("cac:PaymentMeans", [Leaf("cbc:PaymentMeansCode", x.paymentMeans)])
    ensures Named(Parties(o, x), name)
         == PickWhen(Given(x.poReference), order, name) + PickWhen(RefersBack(x), BillingReference(x), name)
          + (Pick(SupplierParty(o.supplier), name) + Pick(BuyerParty(x), name))
          + PickWhen(x.paymentMeans in PAYMENT_MEANS, means, name) + PickWhen(DocumentCurrency(x) != "AED", ExchangeRate(x), name)
  {
    PartiesParts(o, x, order, means);
    hide Given, RefersBack, SupplierParty, BuyerParty, BillingReference, ExchangeRate, DocumentCurrency, Named, Pick, Parties;
    var a, b := If(Given(x.poReference), order), If(RefersBack(x), BillingReference(x));
    var c := [SupplierParty(o.supplier), BuyerParty(x)];
    var d, e := If(x.paymentMeans in PAYMENT_MEANS, means), If(DocumentCurrency(x) != "AED", ExchangeRate(x));
    NamedConcat(a + b + c + d, e, name);
    NamedConcat(a + b + c, d, name);
    NamedConcat(a + b, c, name);
    NamedConcat(a, b, name);
    Two(SupplierParty(o.supplier), BuyerParty(x));
    PickIf(Given(x.poReference), order, name);
    PickIf(RefersBack(x), BillingReference(x), name);
    PickIf(x.paymentMeans in PAYMENT_MEANS, means, name);
    PickIf(DocumentCurrency(x) != "AED", ExchangeRate(x), name);
  }

  /** The sections between head and totals are these, each exactly when the invoice calls for it. */
  lemma PartySections(o: Options, x: Invoice)
    ensures var doc := DocumentOf(o, x);
      && Sub(doc, "cac:OrderReference") == If(Given(x.poReference), Node("cac:OrderReference", [Leaf("cbc:ID", x.poReference)]))
      && Sub(doc, "cac:BillingReference") == If(RefersBack(x), BillingReference(x))
      && Sub(doc, "cac:AccountingSupplierParty") == [SupplierParty(o.supplier)]
      && Sub(doc, "cac:AccountingCustomerParty") == [BuyerParty(x)]
      && Sub(doc, "cac:PaymentMeans")
         == If(x.paymentMeans in PAYMENT_MEANS, Node("cac:PaymentMeans", [Leaf("cbc:PaymentMeansCode", x.paymentMeans)]))
      && Sub(doc, "cac:TaxExchangeRate") == If(DocumentCurrency(x) != "AED", ExchangeRate(x))
  {
    var order := Node("cac:OrderReference", [Leaf("cbc:ID", x.poReference)]);
    var means := Node("cac:PaymentMeans", [Leaf("cbc:PaymentMeansCode", x.paymentMeans)]);
    PartyNames(o, x);
    PartyNameRanks();
    hide DocumentOf, Sub, Given, RefersBack, SupplierParty, BuyerParty, BillingReference, ExchangeRate, DocumentCurrency, Named, Rank, Parties;
    forall name: string | 10 <= Rank(name) <= 15
      ensures Sub(DocumentOf(o, x), name)
         == PickWhen(Given(x.poReference), order, name) + PickWhen(RefersBack(x), BillingReference(x), name)
          + (Pick(SupplierParty(o.supplier), name) + Pick(BuyerParty(x), name))
          + PickWhen(x.paymentMeans in PAYMENT_MEANS, means, name) + PickWhen(DocumentCurrency(x) != "AED", ExchangeRate(x), name)
    {
      Between(o, x, name);
      PartiesNamed(o, x, order, means, name);
    }
  }

  lemma PartyNames(o: Options, x: Invoice)
    ensures SupplierParty(o.supplier).Element? && SupplierParty(o.supplier).name == "cac:AccountingSupplierParty"
    ensures BuyerParty(x).Element? && BuyerParty(x).name == "cac:AccountingCustomerParty"
    ensures BillingReference(x).Element? && BillingReference(x).name == "cac:BillingReference"
    ensures ExchangeRate(x).Element? && ExchangeRate(x).name == "cac:TaxExchangeRate"
  {
    hide SupplierAddress, Given, DocumentCurrency;
  }

  lemma PartyNameRanks()
    ensures Rank("cac:OrderReference") == 10 && Rank("cac:BillingReference") == 11 && Rank("cac:AccountingSupplierParty") == 12
    ensures Rank("cac:AccountingCustomerParty") == 13 && Rank("cac:PaymentMeans") == 14 && Rank("cac:TaxExchangeRate") == 15
  {
  }

  predicate AddressShown(address: Xml, s: Supplier) {
    && SaysIf(address, "cbc:StreetName", s.street.Some? && s.street.value != "", if s.street.Some? then s.street.value else "")
    && Says(address, "cbc:CityName", if s.city.Some? then s.city.value else if s.emirate.Some? then s.emirate.value else "")
    && SaysIf(address, "cbc:PostalZone", s.postalCode.Some? && s.postalCode.value != "",
              if s.postalCode.Some? then s.postalCode.value else "")
    && SaysIf(address, "cbc:CountrySubentity", s.emirate.Some? && s.emirate.value != "",
              if s.emirate.Some? then s.emirate.value else "")
    && Says(The(address, "cac:Country"), "cbc:IdentificationCode", if s.countryCode.Some? then s.countryCode.value else "AE")
  }

  /** A tax registration: the number under the VAT scheme. */
  predicate RegisteredAs(scheme: Xml, trn: string) {
    Says(scheme, "cbc:CompanyID", trn) && Says(The(scheme, "cac:TaxScheme"), "cbc:ID", "VAT")
  }

  predicate SupplierShown(doc: Xml, s: Supplier) {
    var party := The(The(doc, "cac:AccountingSupplierParty"), "cac:Party");
    && SaysWith(party, "cbc:EndpointID", "schemeID", "0201", s.trn)
    && AddressShown(The(party, "cac:PostalAddress"), s)
    && RegisteredAs(The(party, "cac:PartyTaxScheme"), s.trn)
    && Says(The(party, "cac:PartyLegalEntity"), "cbc:RegistrationName", s.legalName)
    && Says(The(party, "cac:PartyLegalEntity"), "cbc:CompanyID", s.trn)
  }

  predicate BuyerShown(doc: Xml, x: Invoice) {
    var party := The(The(doc, "cac:AccountingCustomerParty"), "cac:Party");
    var address, given := The(party, "cac:PostalAddress"), Trim(x.buyerTrn) != "";
    && (if given then SaysWith(party, "cbc:EndpointID", "schemeID", "0201", x.buyerTrn) else Sub(party, "cbc:EndpointID") == [])
    && Says(address, "cbc:CityName", x.buyerEmirate) && Says(address, "cbc:CountrySubentity", x.buyerEmirate)
    && Says(The(address, "cac:Country"), "cbc:IdentificationCode", "AE")
    && (if given then RegisteredAs(The(party, "cac:PartyTaxScheme"), x.buyerTrn) else Sub(party, "cac:PartyTaxScheme") == [])
    && Says(The(party, "cac:PartyLegalEntity"), "cbc:RegistrationName", x.buyerName)
  }

  lemma OneChild(x: Xml, child: Xml)
    requires x.Element? && x.children == [child] && child.Element?
    ensures Sub(x, child.name) == [child] && The(x, child.name) == child
  {
    NamedOne(child, child.name);
    hide Named;
  }

  lemma RegistrationReads(trn: string)
    ensures RegisteredAs(PartyTax(trn), trn)
  {
    hide Named;
    Two(Leaf("cbc:CompanyID", trn), VatScheme());
    OneChild(VatScheme(), Leaf("cbc:ID", "VAT"));
  }

  lemma AddressReads(s: Supplier)
    ensures AddressShown(SupplierAddress(s), s)
  {
    hide Named;
    var street, city := Leaf("cbc:StreetName", TextOr(s.street, "")), Leaf("cbc:CityName", TextOr(s.city, TextOr(s.emirate, "")));
    var zone, emirate := Leaf("cbc:PostalZone", TextOr(s.postalCode, "")), Leaf("cbc:CountrySubentity", TextOr(s.emirate, ""));
    var country := Country(TextOr(s.countryCode, "AE"));
    var a, b, c := If(Filled(s.street), street), If(Filled(s.postalCode), zone), If(Filled(s.emirate), emirate);
    assert Children(SupplierAddress(s)) == a + [city] + b + c + [country];
    forall name: string
      ensures Sub(SupplierAddress(s), name)
        == PickWhen(Filled(s.street), street, name) + Pick(city, name) + PickWhen(Filled(s.postalCode), zone, name)
           + PickWhen(Filled(s.emirate), emirate, name) + Pick(country, name)
    {
      NamedConcat(a + [city] + b + c, [country], name);
      NamedConcat(a + [city] + b, c, name);
      NamedConcat(a + [city], b, name);
      NamedConcat(a, [city], name);
      NamedOne(city, name);
      NamedOne(country, name);
      PickIf(Filled(s.street), street, name);
      PickIf(Filled(s.postalCode), zone, name);
      PickIf(Filled(s.emirate), emirate, name);
    }
    OneChild(country, Leaf("cbc:IdentificationCode", TextOr(s.countryCode, "AE")));
    hide Sub;
  }

  lemma SupplierReads(o: Options, x: Invoice)
    ensures SupplierShown(DocumentOf(o, x), o.supplier)
  {
    PartySections(o, x);
    RegistrationReads(o.supplier.trn);
    AddressReads(o.supplier);
    hide Named, DocumentOf, AddressShown, RegisteredAs, SupplierAddress, PartyTax, Given, RefersBack, BillingReference, ExchangeRate, BuyerParty;
    SupplierPartyReads(o.supplier);
    hide SupplierParty, Sub;
  }

  lemma SupplierPartyReads(s: Supplier)
    ensures var party := The(SupplierParty(s), "cac:Party");
      && SaysWith(party, "cbc:EndpointID", "schemeID", "0201", s.trn)
      && The(party, "cac:PostalAddress") == SupplierAddress(s)
      && The(party, "cac:PartyTaxScheme") == PartyTax(s.trn)
      && Says(The(party, "cac:PartyLegalEntity"), "cbc:RegistrationName", s.legalName)
      && Says(The(party, "cac:PartyLegalEntity"), "cbc:CompanyID", s.trn)
  {
    var address, tax := SupplierAddress(s), PartyTax(s.trn);
    AddressName(s);
    hide Named, SupplierAddress;
    var legal := Node("cac:PartyLegalEntity", [Leaf("cbc:RegistrationName", s.legalName), Leaf("cbc:CompanyID", s.trn)]);
    var party := Node("cac:Party", [Endpoint(s.trn), address, tax, legal]);
    OneChild(SupplierParty(s), party);
    Four(Endpoint(s.trn), address, tax, legal);
    Two(Leaf("cbc:RegistrationName", s.legalName), Leaf("cbc:CompanyID", s.trn));
  }

  lemma AddressName(s: Supplier)
    ensures SupplierAddress(s).Element? && SupplierAddress(s).name == "cac:PostalAddress"
  {
  }

  lemma BuyerReads(o: Options, x: Invoice)
    ensures BuyerShown(DocumentOf(o, x), x)
  {
    PartySections(o, x);
    RegistrationReads(x.buyerTrn);
    hide Named, DocumentOf, RegisteredAs, PartyTax, RefersBack, BillingReference, ExchangeRate, SupplierParty, Trim;
    BuyerPartyReads(x);
    hide BuyerParty, Sub;
  }

  lemma BuyerPartyReads(x: Invoice)
    ensures var party := The(BuyerParty(x), "cac:Party");
      var address := The(party, "cac:PostalAddress");
      && (if Given(x.buyerTrn) then SaysWith(party, "cbc:EndpointID", "schemeID", "0201", x.buyerTrn)
          else Sub(party, "cbc:EndpointID") == [])
      && Says(address, "cbc:CityName", x.buyerEmirate) && Says(address, "cbc:CountrySubentity", x.buyerEmirate)
      && Says(The(address, "cac:Country"), "cbc:IdentificationCode", "AE")
      && (if Given(x.buyerTrn) then Sub(party, "cac:PartyTaxScheme") == [PartyTax(x.buyerTrn)]
          else Sub(party, "cac:PartyTaxScheme") == [])
      && Says(The(party, "cac:PartyLegalEntity"), "cbc:RegistrationName", x.buyerName)
  {
    hide Named, Trim;
    var city, emirate := Leaf("cbc:CityName", x.buyerEmirate), Leaf("cbc:CountrySubentity", x.buyerEmirate);
    var address := Node("cac:PostalAddress", [city, emirate, Country("AE")]);
    var legal := Node("cac:PartyLegalEntity", [Leaf("cbc:RegistrationName", x.buyerName)]);
    var endpoint, tax, given := Endpoint(x.buyerTrn), PartyTax(x.buyerTrn), Given(x.buyerTrn);
    var party := Node("cac:Party", If(given, endpoint) + [address] + If(given, tax) + [legal]);
    OneChild(BuyerParty(x), party);
    forall name: string
      ensures Sub(party, name) == PickWhen(given, endpoint, name) + Pick(address, name) + PickWhen(given, tax, name) + Pick(legal, name)
    {
      NamedConcat(If(given, endpoint) + [address] + If(given, tax), [legal], name);
      NamedConcat(If(given, endpoint) + [address], If(given, tax), name);
      NamedConcat(If(given, endpoint), [address], name);
      NamedOne(address, name);
      NamedOne(legal, name);
      PickIf(given, endpoint, name);
      PickIf(given, tax, name);
    }
    Three(city, emirate, Country("AE"));
    OneChild(Country("AE"), Leaf("cbc:IdentificationCode", "AE"));
    OneChild(legal, Leaf("cbc:RegistrationName", x.buyerName));
  }

  /** The optional sections, each exactly when the invoice calls for it. */
  predicate ReferencesShown(doc: Xml, x: Invoice) {
    var currency := if x.currency == "" then "AED" else x.currency;
    && (if Trim(x.poReference) != "" then Says(The(doc, "cac:OrderReference"), "cbc:ID", x.poReference)
        else Sub(doc, "cac:OrderReference") == [])
    && (if x.invoiceType in {"381", "383"} && Trim(x.precedingInvoiceId) != "" then
          Says(The(The(doc, "cac:BillingReference"), "cac:InvoiceDocumentReference"), "cbc:ID", x.precedingInvoiceId)
        else Sub(doc, "cac:BillingReference") == [])
    && (if x.paymentMeans in {"10", "30", "42", "48"} then
          Says(The(doc, "cac:PaymentMeans"), "cbc:PaymentMeansCode", x.paymentMeans)
        else Sub(doc, "cac:PaymentMeans") == [])
    && (if currency != "AED" then
          var rate := The(doc, "cac:TaxExchangeRate");
          && Says(rate, "cbc:SourceCurrencyCode", currency) && Says(rate, "cbc:TargetCurrencyCode", "AED")
          && Says(rate, "cbc:CalculationRate", if x.fxRate == "" then "1.000000" else x.fxRate)
        else Sub(doc, "cac:TaxExchangeRate") == [])
  }

  lemma RefersBackMeans(x: Invoice)
    ensures RefersBack(x) <==> x.invoiceType in {"381", "383"} && Trim(x.precedingInvoiceId) != ""
  {
    hide Trim;
  }

  lemma ReferencesRead(o: Options, x: Invoice)
    ensures ReferencesShown(DocumentOf(o, x), x)
  {
    PartySections(o, x);
    RefersBackMeans(x);
    hide Named, DocumentOf, SupplierParty, BuyerParty, RefersBack, Trim;
    OneChild(Node("cac:OrderReference", [Leaf("cbc:ID", x.poReference)]), Leaf("cbc:ID", x.poReference));
    var inner := Node("cac:InvoiceDocumentReference", [Leaf("cbc:ID", x.precedingInvoiceId)]);
    OneChild(BillingReference(x), inner);
    OneChild(inner, Leaf("cbc:ID", x.precedingInvoiceId));
    OneChild(Node("cac:PaymentMeans", [Leaf("cbc:PaymentMeansCode", x.paymentMeans)]), Leaf("cbc:PaymentMeansCode", x.paymentMeans));
    Three(Leaf("cbc:SourceCurrencyCode", DocumentCurrency(x)), Leaf("cbc:TargetCurrencyCode", "AED"),
          Leaf("cbc:CalculationRate", if x.fxRate == "" then "1.000000" else x.fxRate));
  }

  // --- Totals and lines -----------------------------------------------------

  /** A tax category: its code, its rate, why it is exempt if it is, and the VAT scheme. */
  predicate CategoryShown(node: Xml, category: string, rate: string) {
    && Says(node, "cbc:ID", category) && Says(node, "cbc:Percent", rate)
    && SaysIf(node, "cbc:TaxExemptionReason", category in {"E", "O"},
              if category == "E" then "Exempt supply under UAE VAT law" else "Outside the scope of UAE VAT")
    && Says(The(node, "cac:TaxScheme"), "cbc:ID", "VAT")
  }

  function CategoryNode(name: string, category: string, rate: string): Xml {
    Node(name, [Leaf("cbc:ID", category), Leaf("cbc:Percent", rate)]
               + If(ExemptionReason(category).Some?, Leaf("cbc:TaxExemptionReason", TextOr(ExemptionReason(category), "")))
               + [VatScheme()])
  }

  lemma CategoryReads(name: string, category: string, rate: string)
    ensures CategoryShown(CategoryNode(name, category, rate), category, rate)
  {
    hide Named;
    var id, percent := Leaf("cbc:ID", category), Leaf("cbc:Percent", rate);
    var reason := Leaf("cbc:TaxExemptionReason", TextOr(ExemptionReason(category), ""));
    Around([id, percent], ExemptionReason(category).Some?, reason, [VatScheme()]);
    Two(id, percent);
    forall name: string
      ensures Named([VatScheme()], name) == Pick(VatScheme(), name)
    {
      NamedOne(VatScheme(), name);
    }
    OneChild(VatScheme(), Leaf("cbc:ID", "VAT"));
  }

  predicate SubtotalShown(node: Xml, lines: seq<Line>, category: string, currency: string) {
    && Amounts(node, "cbc:TaxableAmount", currency, ToFixed(RoundTo(CategoryNet(lines, category), 2), 2))
    && Amounts(node, "cbc:TaxAmount", currency, ToFixed(RoundTo(CategoryVat(lines, category), 2), 2))
    && CategoryShown(The(node, "cac:TaxCategory"), category, if category == "S" then "5.00" else "0.00")
  }

  lemma SubtotalReads(lines: seq<Line>, category: string, currency: string)
    requires KnownCategory(category)
    ensures SubtotalShown(SubtotalNode(SubtotalOf(lines, category), currency), lines, category, currency)
  {
    AutoFixSettles.RequiredIsPrint(category);
    SubtotalNodeReads(lines, category, currency);
    hide *;
    RequiredIs(category);
    ShownAt(SubtotalNode(SubtotalOf(lines, category), currency), lines, category, currency);
  }

  lemma RequiredIs(category: string)
    ensures AutoFix.RequiredRate(category) == if category == "S" then "5.00" else "0.00"
  {
  }

  lemma ShownAt(node: Xml, lines: seq<Line>, category: string, currency: string)
    requires Amounts(node, "cbc:TaxableAmount", currency, ToFixed(RoundTo(CategoryNet(lines, category), 2), 2))
    requires Amounts(node, "cbc:TaxAmount", currency, ToFixed(RoundTo(CategoryVat(lines, category), 2), 2))
    requires CategoryShown(The(node, "cac:TaxCategory"), category, if category == "S" then "5.00" else "0.00")
    ensures SubtotalShown(node, lines, category, currency)
  {
    hide Amounts, ToFixed, RoundTo, CategoryShown, The;
  }

  lemma SubtotalNodeReads(lines: seq<Line>, category: string, currency: string)
    ensures var node := SubtotalNode(SubtotalOf(lines, category), currency);
      && Amounts(node, "cbc:TaxableAmount", currency, ToFixed(RoundTo(CategoryNet(lines, category), 2), 2))
      && Amounts(node, "cbc:TaxAmount", currency, ToFixed(RoundTo(CategoryVat(lines, category), 2), 2))
      && CategoryShown(The(node, "cac:TaxCategory"), category, ToFixed(ExpectedRate(category), 2))
  {
    hide ToFixed, RoundTo;
    var t := SubtotalOf(lines, category);
    CategoryReads("cac:TaxCategory", category, t.rate);
    hide Named, CategoryShown, CategoryNet, CategoryVat;
    Three(AmountLeaf("cbc:TaxableAmount", currency, t.taxableAmount), AmountLeaf("cbc:TaxAmount", currency, t.taxAmount),
          CategoryNode("cac:TaxCategory", category, t.rate));
    hide ExemptionReason;
    assert SubtotalNode(t, currency).children[2] == CategoryNode("cac:TaxCategory", category, t.rate);
  }

  /** An invoice line: every cell of it in its own element. */
  predicate LineShown(node: Xml, line: Line, currency: string) {
    var item, discount := The(node, "cac:Item"), ToDecimal(line.lineDiscount);
    && Says(node, "cbc:ID", line.lineNumber)
    && SaysWith(node, "cbc:InvoicedQuantity", "unitCode", if line.uom == "" then "PCE" else line.uom, line.quantity)
    && Amounts(node, "cbc:LineExtensionAmount", currency, line.netAmount)
    && (if discount.Some? && discount.value > 0.0 then
          var charge := The(node, "cac:AllowanceCharge");
          && Says(charge, "cbc:ChargeIndicator", "false") && Says(charge, "cbc:AllowanceChargeReason", "Discount")
          && Amounts(charge, "cbc:Amount", currency, Round(line.lineDiscount, 2))
        else Sub(node, "cac:AllowanceCharge") == [])
    && Amounts(The(node, "cac:TaxTotal"), "cbc:TaxAmount", currency, line.vatAmount)
    && Says(item, "cbc:Name", line.description)
    && (if Trim(line.hsCode) != "" then
          SaysWith(The(item, "cac:CommodityClassification"), "cbc:ItemClassificationCode", "listID", "HS", line.hsCode)
        else Sub(item, "cac:CommodityClassification") == [])
    && CategoryShown(The(item, "cac:ClassifiedTaxCategory"), line.vatCategory, line.vatRate)
    && Amounts(The(node, "cac:Price"), "cbc:PriceAmount", currency, Round(line.unitPrice, 4))
  }

  lemma ItemReads(line: Line)
    ensures var item := ItemNode(line);
      && Says(item, "cbc:Name", line.description)
      && (if Given(line.hsCode) then
            SaysWith(The(item, "cac:CommodityClassification"), "cbc:ItemClassificationCode", "listID", "HS", line.hsCode)
          else Sub(item, "cac:CommodityClassification") == [])
      && CategoryShown(The(item, "cac:ClassifiedTaxCategory"), line.vatCategory, line.vatRate)
  {
    CategoryReads("cac:ClassifiedTaxCategory", line.vatCategory, line.vatRate);
    hide Named, CategoryShown, Trim, ExemptionReason;
    var name := Leaf("cbc:Name", line.description);
    var code := Element("cbc:ItemClassificationCode", [("listID", "HS")], [Content(line.hsCode)]);
    var commodity := Node("cac:CommodityClassification", [code]);
    var category := CategoryNode("cac:ClassifiedTaxCategory", line.vatCategory, line.vatRate);
    Around([name], Given(line.hsCode), commodity, [category]);
    forall n: string
      ensures Named([name], n) == Pick(name, n) && Named([category], n) == Pick(category, n)
    {
      NamedOne(name, n);
      NamedOne(category, n);
    }
    OneChild(commodity, code);
    hide Given;
    assert ItemNode(line).children == [name] + If(Given(line.hsCode), commodity) + [category];
  }

  /** The children of a line, picked by name. */
  lemma LineNamed(line: Line, currency: string, id: Xml, quantity: Xml, net: Xml, tax: Xml, price: Xml)
    requires id == Leaf("cbc:ID", line.lineNumber)
    requires quantity == Element("cbc:InvoicedQuantity", [("unitCode", if line.uom == "" then "PCE" else line.uom)], [Content(line.quantity)])
    requires net == AmountLeaf("cbc:LineExtensionAmount", currency, line.netAmount)
    requires tax == Node("cac:TaxTotal", [AmountLeaf("cbc:TaxAmount", currency, line.vatAmount)])
    requires price == Node("cac:Price", [AmountLeaf("cbc:PriceAmount", currency, Round(line.unitPrice, UNIT_PRICE_DP))])
    ensures forall name ::
      (Sub(LineNode(line, currency), name)
       == Pick(id, name) + Pick(quantity, name) + Pick(net, name) + PickWhen(Discounted(line), Allowance(line, currency), name)
          + (Pick(tax, name) + Pick(ItemNode(line), name) + Pick(price, name)))
  {
    hide Named, Round, ItemNode, Allowance, Discounted, Pick;
    Three(id, quantity, net);
    Three(tax, ItemNode(line), price);
    Around([id, quantity, net], Discounted(line), Allowance(line, currency), [tax, ItemNode(line), price]);
    assert LineNode(line, currency).children
      == [id, quantity, net] + If(Discounted(line), Allowance(line, currency)) + [tax, ItemNode(line), price];
  }

  lemma AllowanceReads(line: Line, currency: string)
    ensures var charge := Allowance(line, currency);
      && charge.Element? && charge.name == "cac:AllowanceCharge"
      && Says(charge, "cbc:ChargeIndicator", "false") && Says(charge, "cbc:AllowanceChargeReason", "Discount")
      && Amounts(charge, "cbc:Amount", currency, Round(line.lineDiscount, 2))
  {
    hide Named, Round;
    Three(Leaf("cbc:ChargeIndicator", "false"), Leaf("cbc:AllowanceChargeReason", "Discount"),
          AmountLeaf("cbc:Amount", currency, Round(line.lineDiscount, AMOUNT_DP)));
  }

  lemma LineSubs(line: Line, currency: string, id: Xml, quantity: Xml, net: Xml, tax: Xml, price: Xml)
    requires id == Leaf("cbc:ID", line.lineNumber)
    requires quantity == Element("cbc:InvoicedQuantity", [("unitCode", if line.uom == "" then "PCE" else line.uom)], [Content(line.quantity)])
    requires net == AmountLeaf("cbc:LineExtensionAmount", currency, line.netAmount)
    requires tax == Node("cac:TaxTotal", [AmountLeaf("cbc:TaxAmount", currency, line.vatAmount)])
    requires price == Node("cac:Price", [AmountLeaf("cbc:PriceAmount", currency, Round(line.unitPrice, UNIT_PRICE_DP))])
    ensures var node := LineNode(line, currency);
      && Sub(node, "cbc:ID") == [id] && Sub(node, "cbc:InvoicedQuantity") == [quantity] && Sub(node, "cbc:LineExtensionAmount") == [net]
      && Sub(node, "cac:AllowanceCharge") == If(Discounted(line), Allowance(line, currency))
      && Sub(node, "cac:TaxTotal") == [tax] && Sub(node, "cac:Item") == [ItemNode(line)] && Sub(node, "cac:Price") == [price]
  {
    hide Named, Sub, Round, Discounted, LineNode;
    ItemName(line);
    AllowanceReads(line, currency);
    hide ItemNode, Allowance;
    LineNamed(line, currency, id, quantity, net, tax, price);
  }

  lemma LineNodeReads(line: Line, currency: string)
    ensures LineShown(LineNode(line, currency), line, currency)
  {
    hide Named, Round, Allowance, CategoryShown, Trim, ToDecimal, LineNode, ItemNode, Sub;
    var id, net := Leaf("cbc:ID", line.lineNumber), AmountLeaf("cbc:LineExtensionAmount", currency, line.netAmount);
    var quantity := Element("cbc:InvoicedQuantity", [("unitCode", if line.uom == "" then "PCE" else line.uom)], [Content(line.quantity)]);
    var taxAmount := AmountLeaf("cbc:TaxAmount", currency, line.vatAmount);
    var priceAmount := AmountLeaf("cbc:PriceAmount", currency, Round(line.unitPrice, UNIT_PRICE_DP));
    var tax, price := Node("cac:TaxTotal", [taxAmount]), Node("cac:Price", [priceAmount]);
    ItemReads(line);
    AllowanceReads(line, currency);
    OneChild(tax, taxAmount);
    OneChild(price, priceAmount);
    LineSubs(line, currency, id, quantity, net, tax, price);
  }

  lemma ItemName(line: Line)
    ensures ItemNode(line).Element? && ItemNode(line).name == "cac:Item"
  {
  }

  predicate LinesShown(doc: Xml, lines: seq<Line>, currency: string) {
    var nodes := Sub(doc, "cac:InvoiceLine");
    |nodes| == |lines| && forall i :: 0 <= i < |lines| ==> LineShown(nodes[i], lines[i], currency)
  }

  /** One subtotal for each category of the lines, in order of first appearance. */
  predicate SubtotalsShown(doc: Xml, lines: seq<Line>, currency: string) {
    var nodes, categories := Sub(The(doc, "cac:TaxTotal"), "cac:TaxSubtotal"), Categories(lines);
    && |nodes| == |categories|
    && forall i :: 0 <= i < |nodes| ==> SubtotalShown(nodes[i], lines, categories[i], currency)
  }

  /** The header amounts, in the document's currency, each once. */
  predicate TotalsShown(doc: Xml, y: Invoice, currency: string) {
    var totals := The(doc, "cac:LegalMonetaryTotal");
    && Amounts(The(doc, "cac:TaxTotal"), "cbc:TaxAmount", currency, y.vatTotalAmount)
    && Amounts(totals, "cbc:LineExtensionAmount", currency, y.lineExtensionAmount)
    && Amounts(totals, "cbc:TaxExclusiveAmount", currency, y.taxExclusiveAmount)
    && Amounts(totals, "cbc:TaxInclusiveAmount", currency, y.taxInclusiveAmount)
    && Amounts(totals, "cbc:PayableAmount", currency, y.payableAmount)
  }

  lemma TotalsReadBack(o: Options, y: Invoice)
    ensures TotalsShown(DocumentOf(o, y), y, DocumentCurrency(y))
  {
    hide DocumentOf, Named, Sub, LineNodes, Amounts;
    var currency := DocumentCurrency(y);
    SectionsOf(o, y);
    TotalsNodeReads(y, currency);
    TaxTotalNodeReads(y, currency);
    hide TaxTotalNode, TotalsNode, DocumentCurrency;
  }

  lemma SubtotalsReadBack(o: Options, y: Invoice)
    ensures SubtotalsShown(DocumentOf(o, y), y.lines, DocumentCurrency(y))
  {
    hide DocumentOf, Named, Sub, SubtotalNode, SubtotalOf, Categories, SubtotalShown, LineNodes, InvoiceSubtotals, Amounts;
    var currency := DocumentCurrency(y);
    SectionsOf(o, y);
    TaxTotalNodeReads(y, currency);
    SubtotalsAre(y);
    hide TaxTotalNode, TotalsNode, DocumentCurrency;
    forall i | 0 <= i < |Categories(y.lines)|
      ensures SubtotalShown(SubtotalNode(SubtotalOf(y.lines, Categories(y.lines)[i]), currency), y.lines, Categories(y.lines)[i], currency)
    {
      SubtotalReads(y.lines, Categories(y.lines)[i], currency);
    }
  }

  lemma SubtotalsAre(y: Invoice)
    ensures |InvoiceSubtotals(y)| == |Categories(y.lines)|
    ensures forall i :: 0 <= i < |Categories(y.lines)| ==> InvoiceSubtotals(y)[i] == SubtotalOf(y.lines, Categories(y.lines)[i])
  {
    hide SubtotalOf, Categories;
  }

  lemma SectionsOf(o: Options, y: Invoice)
    ensures var doc, currency := DocumentOf(o, y), DocumentCurrency(y);
      && Sub(doc, "cac:TaxTotal") == [TaxTotalNode(y, currency)]
      && Sub(doc, "cac:LegalMonetaryTotal") == [TotalsNode(y, currency)]
      && Sub(doc, "cac:InvoiceLine") == LineNodes(y.lines, currency)
  {
    hide DocumentOf, Named, TaxTotalNode, TotalsNode, LineNodes, DocumentCurrency;
    Sections(o, y);
  }

  lemma TotalsNodeReads(y: Invoice, currency: string)
    ensures var totals := TotalsNode(y, currency);
      && Amounts(totals, "cbc:LineExtensionAmount", currency, y.lineExtensionAmount)
      && Amounts(totals, "cbc:TaxExclusiveAmount", currency, y.taxExclusiveAmount)
      && Amounts(totals, "cbc:TaxInclusiveAmount", currency, y.taxInclusiveAmount)
      && Amounts(totals, "cbc:PayableAmount", currency, y.payableAmount)
  {
    hide Named;
    Four(AmountLeaf("cbc:LineExtensionAmount", currency, y.lineExtensionAmount),
         AmountLeaf("cbc:TaxExclusiveAmount", currency, y.taxExclusiveAmount),
         AmountLeaf("cbc:TaxInclusiveAmount", currency, y.taxInclusiveAmount),
         AmountLeaf("cbc:PayableAmount", currency, y.payableAmount));
  }

  lemma TaxTotalNodeReads(y: Invoice, currency: string)
    ensures Amounts(TaxTotalNode(y, currency), "cbc:TaxAmount", currency, y.vatTotalAmount)
    ensures Sub(TaxTotalNode(y, currency), "cac:TaxSubtotal") == SubtotalNodes(InvoiceSubtotals(y), currency)
  {
    var first, subtotals := AmountLeaf("cbc:TaxAmount", currency, y.vatTotalAmount), SubtotalNodes(InvoiceSubtotals(y), currency);
    SubtotalNames(InvoiceSubtotals(y), currency);
    hide Named, InvoiceSubtotals, SubtotalNodes;
    NoneNamed(subtotals, "cbc:TaxAmount");
    AllNamed(subtotals, "cac:TaxSubtotal");
    NamedFront(first, subtotals, "cbc:TaxAmount");
    NamedFront(first, subtotals, "cac:TaxSubtotal");
  }

  lemma SubtotalNames(subtotals: seq<TaxSubtotal>, currency: string)
    ensures forall x :: x in SubtotalNodes(subtotals, currency) ==> x.Element? && x.name == "cac:TaxSubtotal"
  {
  }

  lemma LinesReadBack(o: Options, y: Invoice)
    ensures LinesShown(DocumentOf(o, y), y.lines, DocumentCurrency(y))
  {
    hide DocumentOf, Named, Sub, LineNode, LineShown, TaxTotalNode, TotalsNode;
    SectionsOf(o, y);
    forall i | 0 <= i < |y.lines|
      ensures LineShown(LineNode(y.lines[i], DocumentCurrency(y)), y.lines[i], DocumentCurrency(y))
    {
      LineNodeReads(y.lines[i], DocumentCurrency(y));
    }
  }

  // --- The document ---------------------------------------------------------

  lemma RecalcKeepsEntered(x: Invoice)
    ensures SameEntered(RecalcInvoice(x), x)
  {
    hide RecalcLines, NetSum, VatSum, Print, RoundTo, FxFactor, Times;
  }

  /**
   * A built document, read back, says exactly what it was built from: number, UUID, dates, type and currency;
   * supplier and buyer each under their own party; references, means and exchange rate exactly when called
   * for; the recalculated totals and subtotals; and every cell of every recalculated line in its own element.
   */
  lemma DocumentReadsBack(o: Options)
    ensures var doc, y := Document(o), RecalcInvoice(o.invoice);
      var currency := if o.invoice.currency == "" then "AED" else o.invoice.currency;
      && HeadShown(doc, o)
      && SupplierShown(doc, o.supplier) && BuyerShown(doc, o.invoice) && ReferencesShown(doc, o.invoice)
      && TotalsShown(doc, y, currency) && SubtotalsShown(doc, y.lines, currency) && LinesShown(doc, y.lines, currency)
  {
    var y := RecalcInvoice(o.invoice);
    RecalcKeepsEntered(o.invoice);
    hide RecalcInvoice, DocumentOf, HeadShown, SupplierShown, BuyerShown, ReferencesShown, TotalsShown, SubtotalsShown, LinesShown;
    HeadReads(o, y);
    SupplierReads(o, y);
    BuyerReads(o, y);
    ReferencesRead(o, y);
    TotalsReadBack(o, y);
    SubtotalsReadBack(o, y);
    LinesReadBack(o, y);
    EnteredShown(DocumentOf(o, y), y, o.invoice);
  }

  lemma EnteredShown(doc: Xml, y: Invoice, x: Invoice)
    requires SameEntered(y, x)
    ensures BuyerShown(doc, y) ==> BuyerShown(doc, x)
    ensures ReferencesShown(doc, y) ==> ReferencesShown(doc, x)
  {
    hide Says, SaysWith, Sub, The, RegisteredAs, Trim;
  }
}
