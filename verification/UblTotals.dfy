/** What the UBL document says: its amounts are the invoice's, they add up, and its sections are in schema order. */
module UblTotals {
  import opened Text
  import opened Money
  import opened Calc
  import opened Codes
  import opened Subtotals
  import opened Ubl
  import opened Validate
  import opened RecalcFindings

  // --- Reading a tree -------------------------------------------------------

  /** The child elements with this name, in order. */
  function Named(children: seq<Xml>, name: string): seq<Xml> {
    if children == [] then []
    else (if children[0].Element? && children[0].name == name then [children[0]] else []) + Named(children[1..], name)
  }

  function Children(node: Xml): seq<Xml> {
    if node.Element? then node.children else []
  }

  /** The children with this name of all the nodes, in order. */
  function Under(nodes: seq<Xml>, name: string): seq<Xml> {
    if nodes == [] then [] else
      Under(nodes[..|nodes| - 1], name) + Named(Children(nodes[|nodes| - 1]), name)
  }

  function TextOf(node: Xml): string {
    if node.Element? && |node.children| == 1 && node.children[0].Content? then node.children[0].text else ""
  }

  function Texts(nodes: seq<Xml>): (r: seq<string>)
    ensures |r| == |nodes| && forall i :: 0 <= i < |r| ==> r[i] == TextOf(nodes[i])
  {
    seq(|nodes|, i requires 0 <= i < |nodes| => TextOf(nodes[i]))
  }

  /** The texts a two-step path selects in a document. */
  function Select(doc: Xml, section: string, leaf: string): seq<string> {
    Texts(Under(Named(Children(doc), section), leaf))
  }

  function SumOf(texts: seq<string>): real {
    if texts == [] then 0.0 else SumOf(texts[..|texts| - 1]) + Amount(texts[|texts| - 1])
  }

  lemma {:induction false} NamedConcat(a: seq<Xml>, b: seq<Xml>, name: string)
    ensures Named(a + b, name) == Named(a, name) + Named(b, name)
  {
    if a == [] {
      assert a + b == b;
    } else {
      assert (a + b)[1..] == a[1..] + b;
      NamedConcat(a[1..], b, name);
    }
  }

  lemma {:induction false} NoneNamed(a: seq<Xml>, name: string)
    requires forall x :: x in a ==> x.Element? && x.name != name
    ensures Named(a, name) == []
  {
    if a != [] {
      NoneNamed(a[1..], name);
    }
  }

  lemma {:induction false} AllNamed(a: seq<Xml>, name: string)
    requires forall x :: x in a ==> x.Element? && x.name == name
    ensures Named(a, name) == a
  {
    if a != [] {
      AllNamed(a[1..], name);
    }
  }

  lemma NamedOne(x: Xml, name: string)
    ensures Named([x], name) == If(x.Element? && x.name == name, x)
  {
    assert [x][1..] == [];
    assert Named([], name) == [];
  }

  lemma NamedFront(x: Xml, rest: seq<Xml>, name: string)
    ensures Named([x] + rest, name) == If(x.Element? && x.name == name, x) + Named(rest, name)
  {
    NamedOne(x, name);
    NamedConcat([x], rest, name);
    hide Named;
  }

  lemma TextsConcat(a: seq<Xml>, b: seq<Xml>)
    ensures Texts(a + b) == Texts(a) + Texts(b)
  {
    hide TextOf;
  }

  /** One leaf of that name in every node: the texts line up with the nodes. */
  lemma {:induction false} OneUnderEach(nodes: seq<Xml>, name: string, texts: seq<string>)
    requires |texts| == |nodes|
    requires forall i :: 0 <= i < |nodes| ==> Texts(Named(Children(nodes[i]), name)) == [texts[i]]
    ensures Texts(Under(nodes, name)) == texts
  {
    if nodes != [] {
      var n := |nodes| - 1;
      OneUnderEach(nodes[..n], name, texts[..n]);
      TextsConcat(Under(nodes[..n], name), Named(Children(nodes[n]), name));
      hide Named, Children, Texts;
      assert Texts(Named(Children(nodes[n]), name)) == [texts[n]];
    }
  }

  lemma Single(node: Xml, name: string)
    ensures Under([node], name) == Named(Children(node), name)
  {
    assert [node][..0] == [];
    assert Under([], name) + Named(Children(node), name) == Named(Children(node), name);
  }

  // --- Sections of the document ---------------------------------------------

  /** The sections of UBL 2.1 Invoice-2 the builder uses, in the order the schema prescribes. */
  function Rank(name: string): nat {
    match name
    case "cbc:CustomizationID" => 1
    case "cbc:ProfileID" => 2
    case "cbc:ID" => 3
    case "cbc:UUID" => 4
    case "cbc:IssueDate" => 5
    case "cbc:IssueTime" => 6
    case "cbc:InvoiceTypeCode" => 7
    case "cbc:DocumentCurrencyCode" => 8
    case "cbc:TaxCurrencyCode" => 9
    case "cac:OrderReference" => 10
    case "cac:BillingReference" => 11
    case "cac:AccountingSupplierParty" => 12
    case "cac:AccountingCustomerParty" => 13
    case "cac:PaymentMeans" => 14
    case "cac:TaxExchangeRate" => 15
    case "cac:TaxTotal" => 16
    case "cac:LegalMonetaryTotal" => 17
    case "cac:InvoiceLine" => 18
    case _ => 0
  }

  /** Known elements in schema order, all ranked within the bounds. */
  predicate InOrder(nodes: seq<Xml>, low: nat, high: nat) {
    && (forall x :: x in nodes ==> x.Element? && low <= Rank(x.name) <= high)
    && (forall i, j :: 0 <= i < j < |nodes| ==> Rank(nodes[i].name) <= Rank(nodes[j].name))
  }

  lemma InOrderConcat(a: seq<Xml>, b: seq<Xml>, low: nat, middle: nat, high: nat)
    requires InOrder(a, low, middle) && InOrder(b, middle, high) && low <= middle <= high
    ensures InOrder(a + b, low, high)
  {
    hide Rank;
    forall i, j | 0 <= i < j < |a + b|
      ensures Rank((a + b)[i].name) <= Rank((a + b)[j].name)
    {
      if i < |a| <= j {
        assert a[i] in a && b[j - |a|] in b;
      }
    }
  }

  lemma OneInOrder(condition: bool, node: Xml)
    requires node.Element? && Rank(node.name) > 0
    ensures InOrder(If(condition, node), Rank(node.name), Rank(node.name)) && InOrder([node], Rank(node.name), Rank(node.name))
  {
    hide Rank;
  }

  lemma Wider(a: seq<Xml>, low: nat, high: nat, low': nat, high': nat)
    requires InOrder(a, low, high) && low' <= low && high <= high'
    ensures InOrder(a, low', high')
  {
    hide Rank;
  }

  lemma HeadInOrder(o: Options, invoice: Invoice)
    ensures InOrder(Head(o, invoice), 1, 9)
  {
    hide Rank;
    var h := Head(o, invoice);
    forall i | 0 <= i < |h|
      ensures h[i].Element? && Rank(h[i].name) == i + 1
    {
      HeadRank(o, invoice, i);
    }
  }

  lemma HeadRank(o: Options, invoice: Invoice, i: nat)
    requires i < 9
    ensures var h := Head(o, invoice); h[i].Element? && Rank(h[i].name) == i + 1
  {
  }

  lemma PartiesInOrder(o: Options, invoice: Invoice)
    ensures InOrder(Parties(o, invoice), 10, 15)
  {
    hide Given, RefersBack, SupplierAddress, BuyerParty, InOrder, Rank;
    var order := Node("cac:OrderReference", [Leaf("cbc:ID", invoice.poReference)]);
    var means := Node("cac:PaymentMeans", [Leaf("cbc:PaymentMeansCode", invoice.paymentMeans)]);
    PartyRanks(o, invoice, order, means);
    hide SupplierParty, BillingReference, ExchangeRate, Node;
    var a := If(Given(invoice.poReference), order);
    var b := If(RefersBack(invoice), BillingReference(invoice));
    var c := [SupplierParty(o.supplier)] + [BuyerParty(invoice)];
    var d := If(invoice.paymentMeans in PAYMENT_MEANS, means);
    var e := If(DocumentCurrency(invoice) != "AED", ExchangeRate(invoice));
    OneInOrder(Given(invoice.poReference), order);
    OneInOrder(RefersBack(invoice), BillingReference(invoice));
    OneInOrder(true, SupplierParty(o.supplier));
    OneInOrder(true, BuyerParty(invoice));
    OneInOrder(invoice.paymentMeans in PAYMENT_MEANS, means);
    OneInOrder(DocumentCurrency(invoice) != "AED", ExchangeRate(invoice));
    Wider([SupplierParty(o.supplier)], 12, 12, 12, 13);
    InOrderConcat([SupplierParty(o.supplier)], [BuyerParty(invoice)], 12, 13, 13);
    Wider(a, 10, 10, 10, 11);
    InOrderConcat(a, b, 10, 11, 11);
    Wider(a + b, 10, 11, 10, 12);
    InOrderConcat(a + b, c, 10, 12, 13);
    Wider(a + b + c, 10, 13, 10, 14);
    InOrderConcat(a + b + c, d, 10, 14, 14);
    Wider(a + b + c + d, 10, 14, 10, 15);
    InOrderConcat(a + b + c + d, e, 10, 15, 15);
    assert c == [SupplierParty(o.supplier), BuyerParty(invoice)];
    PartiesParts(o, invoice, order, means);
  }

  lemma PartiesParts(o: Options, invoice: Invoice, order: Xml, means: Xml)
    requires order == Node("cac:OrderReference", [Leaf("cbc:ID", invoice.poReference)])
    requires means == Node("cac:PaymentMeans", [Leaf("cbc:PaymentMeansCode", invoice.paymentMeans)])
    ensures Parties(o, invoice)
         == If(Given(invoice.poReference), order) + If(RefersBack(invoice), BillingReference(invoice))
          + [SupplierParty(o.supplier), BuyerParty(invoice)]
          + If(invoice.paymentMeans in PAYMENT_MEANS, means) + If(DocumentCurrency(invoice) != "AED", ExchangeRate(invoice))
  {
    hide SupplierParty, BuyerParty, BillingReference, ExchangeRate, Given, RefersBack;
  }

  lemma PartyRanks(o: Options, invoice: Invoice, order: Xml, means: Xml)
    requires order == Node("cac:OrderReference", [Leaf("cbc:ID", invoice.poReference)])
    requires means == Node("cac:PaymentMeans", [Leaf("cbc:PaymentMeansCode", invoice.paymentMeans)])
    ensures order.Element? && Rank(order.name) == 10
    ensures BillingReference(invoice).Element? && Rank(BillingReference(invoice).name) == 11
    ensures SupplierParty(o.supplier).Element? && Rank(SupplierParty(o.supplier).name) == 12
    ensures BuyerParty(invoice).Element? && Rank(BuyerParty(invoice).name) == 13
    ensures means.Element? && Rank(means.name) == 14
    ensures ExchangeRate(invoice).Element? && Rank(ExchangeRate(invoice).name) == 15
  {
    hide SupplierAddress, Given;
  }

  /** Every section of the document is one the schema knows, and they come in schema order. */
  lemma DocumentInOrder(o: Options)
    ensures InOrder(Children(Document(o)), 1, 18)
  {
    hide RecalcInvoice, Head, Parties, Rank, InOrder, TaxTotalNode, TotalsNode, LineNode;
    var invoice := RecalcInvoice(o.invoice);
    var currency := DocumentCurrency(invoice);
    var taxTotal, totals := TaxTotalNode(invoice, currency), TotalsNode(invoice, currency);
    var lines := LineNodes(invoice.lines, currency);
    HeadInOrder(o, invoice);
    PartiesInOrder(o, invoice);
    TotalRanks(invoice, currency);
    LinesInOrder(invoice.lines, currency);
    OneInOrder(true, taxTotal);
    OneInOrder(true, totals);
    Wider(Head(o, invoice), 1, 9, 1, 10);
    InOrderConcat(Head(o, invoice), Parties(o, invoice), 1, 10, 15);
    Wider(Head(o, invoice) + Parties(o, invoice), 1, 15, 1, 16);
    Wider([taxTotal], 16, 16, 16, 17);
    InOrderConcat([taxTotal], [totals], 16, 17, 17);
    InOrderConcat(Head(o, invoice) + Parties(o, invoice), [taxTotal] + [totals], 1, 16, 17);
    assert [taxTotal] + [totals] == [taxTotal, totals];
    Wider(Head(o, invoice) + Parties(o, invoice) + [taxTotal, totals], 1, 17, 1, 18);
    InOrderConcat(Head(o, invoice) + Parties(o, invoice) + [taxTotal, totals], lines, 1, 18, 18);
  }

  lemma TotalRanks(invoice: Invoice, currency: string)
    ensures TaxTotalNode(invoice, currency).Element? && Rank(TaxTotalNode(invoice, currency).name) == 16
    ensures TotalsNode(invoice, currency).Element? && Rank(TotalsNode(invoice, currency).name) == 17
  {
  }

  lemma LinesInOrder(lines: seq<Line>, currency: string)
    ensures InOrder(LineNodes(lines, currency), 18, 18)
    ensures forall x :: x in LineNodes(lines, currency) ==> x.Element? && x.name == "cac:InvoiceLine"
  {
    hide LineNode, Rank;
    forall i | 0 <= i < |lines|
      ensures LineNode(lines[i], currency).Element? && LineNode(lines[i], currency).name == "cac:InvoiceLine"
    {
      LineName(lines[i], currency);
    }
    LineRank();
  }

  lemma LineName(line: Line, currency: string)
    ensures LineNode(line, currency).Element? && LineNode(line, currency).name == "cac:InvoiceLine"
  {
    hide ItemNode, Allowance, Discounted, Round;
  }

  lemma LineRank()
    ensures Rank("cac:InvoiceLine") == 18
  {
  }

  // --- Selecting the amounts ------------------------------------------------

  lemma RanksDiffer(nodes: seq<Xml>, low: nat, high: nat, name: string)
    requires InOrder(nodes, low, high) && !(low <= Rank(name) <= high)
    ensures Named(nodes, name) == []
  {
    hide Rank;
    NoneNamed(nodes, name);
  }

  lemma Sections(o: Options, invoice: Invoice)
    ensures var doc := DocumentOf(o, invoice);
      var currency := DocumentCurrency(invoice);
      && Named(Children(doc), "cac:TaxTotal") == [TaxTotalNode(invoice, currency)]
      && Named(Children(doc), "cac:LegalMonetaryTotal") == [TotalsNode(invoice, currency)]
      && Named(Children(doc), "cac:InvoiceLine") == LineNodes(invoice.lines, currency)
  {
    hide Head, Parties, TaxTotalNode, TotalsNode, LineNode, InOrder, DocumentCurrency, Named;
    var currency := DocumentCurrency(invoice);
    SectionNamed(o, invoice, "cac:TaxTotal", 16);
    SectionNamed(o, invoice, "cac:LegalMonetaryTotal", 17);
    SectionNamed(o, invoice, "cac:InvoiceLine", 18);
    MiddleNamed(invoice, currency);
    LinesInOrder(invoice.lines, currency);
    RanksDiffer(LineNodes(invoice.lines, currency), 18, 18, "cac:TaxTotal");
    RanksDiffer(LineNodes(invoice.lines, currency), 18, 18, "cac:LegalMonetaryTotal");
    AllNamed(LineNodes(invoice.lines, currency), "cac:InvoiceLine");
    hide *;
  }

  lemma SectionNamed(o: Options, invoice: Invoice, name: string, rank: nat)
    requires rank >= 16 && Rank(name) == rank
    ensures var currency := DocumentCurrency(invoice);
      Named(Children(DocumentOf(o, invoice)), name)
        == Named([TaxTotalNode(invoice, currency), TotalsNode(invoice, currency)], name) + Named(LineNodes(invoice.lines, currency), name)
  {
    hide Head, Parties, TaxTotalNode, TotalsNode, LineNode, InOrder, DocumentCurrency, Named, Rank;
    var currency := DocumentCurrency(invoice);
    var middle := [TaxTotalNode(invoice, currency), TotalsNode(invoice, currency)];
    HeadInOrder(o, invoice);
    PartiesInOrder(o, invoice);
    RanksDiffer(Head(o, invoice), 1, 9, name);
    RanksDiffer(Parties(o, invoice), 10, 15, name);
    NamedConcat(Head(o, invoice), Parties(o, invoice), name);
    NamedConcat(Head(o, invoice) + Parties(o, invoice), middle, name);
    NamedConcat(Head(o, invoice) + Parties(o, invoice) + middle, LineNodes(invoice.lines, currency), name);
  }

  lemma MiddleNamed(invoice: Invoice, currency: string)
    ensures var t, m := TaxTotalNode(invoice, currency), TotalsNode(invoice, currency);
      && Named([t, m], "cac:TaxTotal") == [t]
      && Named([t, m], "cac:LegalMonetaryTotal") == [m]
      && Named([t, m], "cac:InvoiceLine") == []
  {
    hide SubtotalNodes, Named;
    var t, m := TaxTotalNode(invoice, currency), TotalsNode(invoice, currency);
    assert [t, m] == [t] + [m];
    NamedFront(t, [m], "cac:TaxTotal");
    NamedFront(t, [m], "cac:LegalMonetaryTotal");
    NamedFront(t, [m], "cac:InvoiceLine");
    NamedOne(m, "cac:TaxTotal");
    NamedOne(m, "cac:LegalMonetaryTotal");
    NamedOne(m, "cac:InvoiceLine");
  }

  /** The header amounts in the document are those of the recalculated invoice, each exactly once. */
  lemma TotalsInDocument(o: Options)
    ensures var doc, y := Document(o), RecalcInvoice(o.invoice);
      && Select(doc, "cac:TaxTotal", "cbc:TaxAmount") == [y.vatTotalAmount]
      && Select(doc, "cac:LegalMonetaryTotal", "cbc:LineExtensionAmount") == [y.lineExtensionAmount]
      && Select(doc, "cac:LegalMonetaryTotal", "cbc:TaxExclusiveAmount") == [y.taxExclusiveAmount]
      && Select(doc, "cac:LegalMonetaryTotal", "cbc:TaxInclusiveAmount") == [y.taxInclusiveAmount]
      && Select(doc, "cac:LegalMonetaryTotal", "cbc:PayableAmount") == [y.payableAmount]
  {
    hide RecalcInvoice, DocumentOf, TaxTotalNode, TotalsNode, Named, Under;
    var y := RecalcInvoice(o.invoice);
    var currency := DocumentCurrency(y);
    Sections(o, y);
    TaxTotalReads(y, currency);
    TotalsRead(y, currency);
    Single(TaxTotalNode(y, currency), "cbc:TaxAmount");
    Single(TotalsNode(y, currency), "cbc:LineExtensionAmount");
    Single(TotalsNode(y, currency), "cbc:TaxExclusiveAmount");
    Single(TotalsNode(y, currency), "cbc:TaxInclusiveAmount");
    Single(TotalsNode(y, currency), "cbc:PayableAmount");
    hide Texts, DocumentCurrency, Children;
  }

  lemma TaxTotalReads(invoice: Invoice, currency: string)
    ensures Texts(Named(Children(TaxTotalNode(invoice, currency)), "cbc:TaxAmount")) == [invoice.vatTotalAmount]
    ensures Named(Children(TaxTotalNode(invoice, currency)), "cac:TaxSubtotal")
         == SubtotalNodes(InvoiceSubtotals(invoice), currency)
  {
    var first := AmountLeaf("cbc:TaxAmount", currency, invoice.vatTotalAmount);
    var subtotals := SubtotalNodes(InvoiceSubtotals(invoice), currency);
    hide InvoiceSubtotals;
    forall x | x in subtotals
      ensures x.Element? && x.name == "cac:TaxSubtotal"
    {
    }
    hide SubtotalNode;
    NoneNamed(subtotals, "cbc:TaxAmount");
    AllNamed(subtotals, "cac:TaxSubtotal");
    hide SubtotalNodes;
    hide Named;
    NamedFront(first, subtotals, "cbc:TaxAmount");
    NamedFront(first, subtotals, "cac:TaxSubtotal");
  }

  lemma TotalsRead(invoice: Invoice, currency: string)
    ensures var c := Children(TotalsNode(invoice, currency));
      && Texts(Named(c, "cbc:LineExtensionAmount")) == [invoice.lineExtensionAmount]
      && Texts(Named(c, "cbc:TaxExclusiveAmount")) == [invoice.taxExclusiveAmount]
      && Texts(Named(c, "cbc:TaxInclusiveAmount")) == [invoice.taxInclusiveAmount]
      && Texts(Named(c, "cbc:PayableAmount")) == [invoice.payableAmount]
  {
    var a := AmountLeaf("cbc:LineExtensionAmount", currency, invoice.lineExtensionAmount);
    var b := AmountLeaf("cbc:TaxExclusiveAmount", currency, invoice.taxExclusiveAmount);
    var c := AmountLeaf("cbc:TaxInclusiveAmount", currency, invoice.taxInclusiveAmount);
    var d := AmountLeaf("cbc:PayableAmount", currency, invoice.payableAmount);
    FourNames(a, b, c, d, "cbc:LineExtensionAmount");
    FourNames(a, b, c, d, "cbc:TaxExclusiveAmount");
    FourNames(a, b, c, d, "cbc:TaxInclusiveAmount");
    FourNames(a, b, c, d, "cbc:PayableAmount");
    hide Named;
  }

  lemma FourNames(a: Xml, b: Xml, c: Xml, d: Xml, name: string)
    requires a.Element? && b.Element? && c.Element? && d.Element?
    ensures Named([a, b, c, d], name)
         == (if a.name == name then [a] else []) + (if b.name == name then [b] else [])
          + (if c.name == name then [c] else []) + (if d.name == name then [d] else [])
  {
    hide Named;
    assert [a, b, c, d] == [a] + ([b] + ([c] + [d]));
    NamedFront(a, [b] + ([c] + [d]), name);
    NamedFront(b, [c] + [d], name);
    NamedFront(c, [d], name);
    NamedOne(d, name);
  }

  // --- Lines and subtotals --------------------------------------------------

  function NetTexts(lines: seq<Line>): (r: seq<string>)
    ensures |r| == |lines| && forall i :: 0 <= i < |r| ==> r[i] == lines[i].netAmount
  {
    seq(|lines|, i requires 0 <= i < |lines| => lines[i].netAmount)
  }

  /** A line's children after its net amount. */
  function LineTail(line: Line, currency: string): seq<Xml> {
    If(Discounted(line), Allowance(line, currency)) + [
      Node("cac:TaxTotal", [AmountLeaf("cbc:TaxAmount", currency, line.vatAmount)]),
      ItemNode(line),
      Node("cac:Price", [AmountLeaf("cbc:PriceAmount", currency, Round(line.unitPrice, UNIT_PRICE_DP))])
    ]
  }

  lemma LineTailNames(line: Line, currency: string)
    ensures Named(LineTail(line, currency), "cbc:LineExtensionAmount") == []
  {
    TailNames(line, currency);
    hide LineTail, Named;
    NoneNamed(LineTail(line, currency), "cbc:LineExtensionAmount");
  }

  lemma TailNames(line: Line, currency: string)
    ensures forall x :: x in LineTail(line, currency) ==> x.Element? && x.name != "cbc:LineExtensionAmount"
  {
    hide Discounted, Round, Given;
  }

  lemma LineReads(line: Line, currency: string)
    ensures Texts(Named(Children(LineNode(line, currency)), "cbc:LineExtensionAmount")) == [line.netAmount]
  {
    var name := "cbc:LineExtensionAmount";
    var id := Leaf("cbc:ID", line.lineNumber);
    var quantity := Element("cbc:InvoicedQuantity", [("unitCode", if line.uom == "" then "PCE" else line.uom)], [Content(line.quantity)]);
    var net := AmountLeaf(name, currency, line.netAmount);
    LineParts(line, currency, id, quantity, net);
    LineTailNames(line, currency);
    hide LineNode, LineTail, Named;
    NamedFront(id, [quantity] + ([net] + LineTail(line, currency)), name);
    NamedFront(quantity, [net] + LineTail(line, currency), name);
    NamedFront(net, LineTail(line, currency), name);
  }

  lemma LineParts(line: Line, currency: string, id: Xml, quantity: Xml, net: Xml)
    requires id == Leaf("cbc:ID", line.lineNumber)
    requires quantity == Element("cbc:InvoicedQuantity", [("unitCode", if line.uom == "" then "PCE" else line.uom)], [Content(line.quantity)])
    requires net == AmountLeaf("cbc:LineExtensionAmount", currency, line.netAmount)
    ensures Children(LineNode(line, currency)) == [id] + ([quantity] + ([net] + LineTail(line, currency)))
  {
    hide Round, ItemNode, Allowance, Discounted;
  }

  /** Line net amounts appear in line order. */
  lemma LinesInDocument(o: Options)
    ensures Select(Document(o), "cac:InvoiceLine", "cbc:LineExtensionAmount") == NetTexts(RecalcInvoice(o.invoice).lines)
  {
    hide RecalcInvoice, DocumentOf, LineNode, Named, Under, Texts;
    var y := RecalcInvoice(o.invoice);
    var currency := DocumentCurrency(y);
    Sections(o, y);
    forall i | 0 <= i < |y.lines|
      ensures Texts(Named(Children(LineNodes(y.lines, currency)[i]), "cbc:LineExtensionAmount")) == [NetTexts(y.lines)[i]]
    {
      LineReads(y.lines[i], currency);
    }
    OneUnderEach(LineNodes(y.lines, currency), "cbc:LineExtensionAmount", NetTexts(y.lines));
  }

  lemma {:induction false} NetTextsSum(lines: seq<Line>)
    ensures SumOf(NetTexts(lines)) == NetSum(lines)
  {
    hide Amount;
    if lines != [] {
      NetTextsSum(lines[..|lines| - 1]);
      assert NetTexts(lines)[..|lines| - 1] == NetTexts(lines[..|lines| - 1]);
    }
  }

  /** The texts of one leaf of every tax subtotal of the document. */
  function SubtotalTexts(doc: Xml, leaf: string): seq<string> {
    Texts(Under(Under(Named(Children(doc), "cac:TaxTotal"), "cac:TaxSubtotal"), leaf))
  }

  function TaxableTexts(subtotals: seq<TaxSubtotal>): (r: seq<string>)
    ensures |r| == |subtotals| && forall i :: 0 <= i < |r| ==> r[i] == subtotals[i].taxableAmount
  {
    seq(|subtotals|, i requires 0 <= i < |subtotals| => subtotals[i].taxableAmount)
  }

  function TaxTexts(subtotals: seq<TaxSubtotal>): (r: seq<string>)
    ensures |r| == |subtotals| && forall i :: 0 <= i < |r| ==> r[i] == subtotals[i].taxAmount
  {
    seq(|subtotals|, i requires 0 <= i < |subtotals| => subtotals[i].taxAmount)
  }

  lemma {:induction false} SubtotalTextsSum(subtotals: seq<TaxSubtotal>)
    ensures SumOf(TaxableTexts(subtotals)) == TaxableTotal(subtotals)
    ensures SumOf(TaxTexts(subtotals)) == TaxTotal(subtotals)
  {
    hide Amount;
    if subtotals != [] {
      var front := subtotals[..|subtotals| - 1];
      SubtotalTextsSum(front);
      assert TaxableTexts(subtotals)[..|front|] == TaxableTexts(front);
      assert TaxTexts(subtotals)[..|front|] == TaxTexts(front);
    }
  }

  lemma SubtotalNodeReads(t: TaxSubtotal, currency: string)
    ensures Texts(Named(Children(SubtotalNode(t, currency)), "cbc:TaxableAmount")) == [t.taxableAmount]
    ensures Texts(Named(Children(SubtotalNode(t, currency)), "cbc:TaxAmount")) == [t.taxAmount]
  {
    var a := AmountLeaf("cbc:TaxableAmount", currency, t.taxableAmount);
    var b := AmountLeaf("cbc:TaxAmount", currency, t.taxAmount);
    var c := Children(SubtotalNode(t, currency))[2];
    assert Children(SubtotalNode(t, currency)) == [a, b, c];
    assert c.Element? && c.name == "cac:TaxCategory";
    hide SubtotalNode;
    hide Named;
    assert [a, b, c] == [a] + ([b] + [c]);
    NamedFront(a, [b] + [c], "cbc:TaxableAmount");
    NamedFront(a, [b] + [c], "cbc:TaxAmount");
    NamedFront(b, [c], "cbc:TaxableAmount");
    NamedFront(b, [c], "cbc:TaxAmount");
    NamedOne(c, "cbc:TaxableAmount");
    NamedOne(c, "cbc:TaxAmount");
  }

  lemma SubtotalsInDocument(o: Options)
    ensures var subtotals := InvoiceSubtotals(RecalcInvoice(o.invoice));
      && SubtotalTexts(Document(o), "cbc:TaxableAmount") == TaxableTexts(subtotals)
      && SubtotalTexts(Document(o), "cbc:TaxAmount") == TaxTexts(subtotals)
  {
    hide RecalcInvoice, DocumentOf, TaxTotalNode, Named, Under, Texts, SubtotalNode, InvoiceSubtotals;
    var y := RecalcInvoice(o.invoice);
    var currency := DocumentCurrency(y);
    var subtotals := InvoiceSubtotals(y);
    Sections(o, y);
    TaxTotalReads(y, currency);
    Single(TaxTotalNode(y, currency), "cac:TaxSubtotal");
    forall i | 0 <= i < |subtotals|
      ensures Texts(Named(Children(SubtotalNodes(subtotals, currency)[i]), "cbc:TaxableAmount")) == [TaxableTexts(subtotals)[i]]
      ensures Texts(Named(Children(SubtotalNodes(subtotals, currency)[i]), "cbc:TaxAmount")) == [TaxTexts(subtotals)[i]]
    {
      SubtotalNodeReads(subtotals[i], currency);
    }
    OneUnderEach(SubtotalNodes(subtotals, currency), "cbc:TaxableAmount", TaxableTexts(subtotals));
    OneUnderEach(SubtotalNodes(subtotals, currency), "cbc:TaxAmount", TaxTexts(subtotals));
  }

  /**
   * The document adds up. Its line amounts sum to its LineExtensionAmount, and, when every category is a
   * known code, its subtotals sum to its TaxExclusiveAmount and its TaxAmount; the payable is their sum.
   */
  lemma DocumentAddsUp(o: Options)
    requires forall l :: l in o.invoice.lines ==> KnownCategory(l.vatCategory)
    ensures var doc := Document(o);
      var net := SumOf(Select(doc, "cac:LegalMonetaryTotal", "cbc:LineExtensionAmount"));
      var vat := SumOf(Select(doc, "cac:TaxTotal", "cbc:TaxAmount"));
      && SumOf(Select(doc, "cac:InvoiceLine", "cbc:LineExtensionAmount")) == net
      && SumOf(SubtotalTexts(doc, "cbc:TaxableAmount")) == SumOf(Select(doc, "cac:LegalMonetaryTotal", "cbc:TaxExclusiveAmount"))
      && SumOf(SubtotalTexts(doc, "cbc:TaxAmount")) == vat
      && SumOf(Select(doc, "cac:LegalMonetaryTotal", "cbc:PayableAmount")) == net + vat
  {
    hide RecalcInvoice, Document, Select, SubtotalTexts, SumOf, Amount, KnownCategory, TaxableTotal, TaxTotal, TotalSum, NetSum, VatSum;
    var y := RecalcInvoice(o.invoice);
    TotalsInDocument(o);
    LinesInDocument(o);
    SubtotalsInDocument(o);
    NetTextsSum(y.lines);
    SubtotalTextsSum(InvoiceSubtotals(y));
    VatConserved(o.invoice, InvoiceSubtotals(y));
    HeaderReads(o.invoice);
    SumOfOne(y.lineExtensionAmount);
    SumOfOne(y.taxExclusiveAmount);
    SumOfOne(y.vatTotalAmount);
    SumOfOne(y.payableAmount);
  }

  lemma SumOfOne(text: string)
    ensures SumOf([text]) == Amount(text)
  {
    hide Amount;
    assert [text][..0] == [];
  }

  // --- What stray spaces cost -----------------------------------------------

  predicate HasSection(doc: Xml, name: string) {
    Named(Children(doc), name) != []
  }

  /**
   * A credit or debit note the rules accept refers back to the document it adjusts if and only if its
   * type code is written without stray spaces: the rules trim the code, the builder does not.
   */
  lemma AdjustmentsReferBack(o: Options, ctx: Context)
    requires Submittable(o.invoice, ctx)
    requires TypeSpec(Trim(o.invoice.invoiceType)).Some? && TypeSpec(Trim(o.invoice.invoiceType)).value.requiresPrecedingInvoice
    ensures HasSection(Document(o), "cac:BillingReference") <==> Trim(o.invoice.invoiceType) == o.invoice.invoiceType
  {
    hide RecalcInvoice, DocumentOf, HasSection, Submittable, Trim, TypeSpec;
    SubmittableReferences(o.invoice, ctx);
    ReferenceSection(o, RecalcInvoice(o.invoice));
    if TypeSpec(o.invoice.invoiceType).Some? {
      TypeIsTrimmed(o.invoice.invoiceType);
    }
  }

  /** The rules read the type code trimmed, and nothing else of it. */
  lemma TypeCountsTrimmed(x: Invoice, code: string, ctx: Context)
    requires Trim(code) == Trim(x.invoiceType)
    ensures Submittable(x.(invoiceType := code), ctx) <==> Submittable(x, ctx)
  {
    var other := x.(invoiceType := code);
    SameAmounts(x, code);
    hide Findings, RecalcInvoice;
    SameHeaderRules(RecalcInvoice(x), code, ctx);
    SameLineRules(RecalcInvoice(x), x, code, |x.lines|);
    assert Submittable(x, ctx) <==> InvoiceOk(x, ctx);
    assert Submittable(other, ctx) <==> InvoiceOk(other, ctx);
    hide HeaderOk, AllAccepted, Uncomputable;
  }

  lemma SameAmounts(x: Invoice, code: string)
    ensures RecalcInvoice(x.(invoiceType := code)) == RecalcInvoice(x).(invoiceType := code)
    ensures |RecalcInvoice(x).lines| == |x.lines| && RecalcInvoice(x).invoiceType == x.invoiceType
  {
    hide RecalcLine, NetSum, VatSum, Print, RoundTo, Times, FxFactor;
  }

  lemma SameHeaderRules(y: Invoice, code: string, ctx: Context)
    requires Trim(code) == Trim(y.invoiceType)
    ensures HeaderOk(y.(invoiceType := code), ctx) <==> HeaderOk(y, ctx)
  {
    hide Trim, TypeSpec, NumberFormat, DateShape, TimeShape, IsValidTrn, Blank, ToDecimal;
  }

  lemma SameLineRules(y: Invoice, x: Invoice, code: string, n: nat)
    requires n == |x.lines| == |y.lines|
    ensures AllAccepted(y.(invoiceType := code), n, x.(invoiceType := code)) <==> AllAccepted(y, n, x)
    ensures TotalsAgree(y.(invoiceType := code), x.(invoiceType := code)) <==> TotalsAgree(y, x)
  {
    hide LineOk, SuppliedOr, Repeated, ToDecimal;
    var a, b := y.(invoiceType := code), x.(invoiceType := code);
    forall i | 0 <= i < n
      ensures LineAccepted(a, i, b) <==> LineAccepted(y, i, x)
    {
      assert a.lines == y.lines && b.lines == x.lines;
    }
    hide LineAccepted;
  }

  /** Any accepted note can be made to lose its reference: a space after its type code, and it is still accepted. */
  lemma SpacedNoteLosesReference(o: Options, ctx: Context)
    requires Submittable(o.invoice, ctx)
    requires TypeSpec(Trim(o.invoice.invoiceType)).Some? && TypeSpec(Trim(o.invoice.invoiceType)).value.requiresPrecedingInvoice
    ensures var spaced := o.invoice.(invoiceType := Trim(o.invoice.invoiceType) + " ");
      Submittable(spaced, ctx) && !HasSection(Document(o.(invoice := spaced)), "cac:BillingReference")
  {
    var code := Trim(o.invoice.invoiceType);
    TrimIsTrimmed(o.invoice.invoiceType);
    TrailingSpaceTrims(code);
    hide Submittable, Document, HasSection, Trim, TypeSpec;
    TypeCountsTrimmed(o.invoice, code + " ", ctx);
    AdjustmentsReferBack(o.(invoice := o.invoice.(invoiceType := code + " ")), ctx);
  }

  lemma TypeIsTrimmed(code: string)
    requires TypeSpec(code).Some?
    ensures Trim(code) == code
  {
    TrimIsTrimmed(code);
  }

  lemma SubmittableReferences(x: Invoice, ctx: Context)
    requires Submittable(x, ctx)
    ensures var y := RecalcInvoice(x);
      && y.invoiceType == x.invoiceType && y.precedingInvoiceId == x.precedingInvoiceId
      && ReferencesOk(x) && TypeSpec(Trim(x.invoiceType)).Some?
  {
    hide RecalcLines, Print, NetSum, VatSum, RoundTo, FxFactor, Times, LineAccepted, Uncomputable, TotalsAgree, Findings, Trim,
      NumberOk, DateOk, CurrencyOk, SupplierOk, BuyerOk, TimeShape, TypeSpec;
    assert InvoiceOk(x, ctx);
  }

  lemma ReferenceSection(o: Options, invoice: Invoice)
    ensures HasSection(DocumentOf(o, invoice), "cac:BillingReference") <==> RefersBack(invoice)
  {
    hide Head, Parties, TaxTotalNode, TotalsNode, LineNode, InOrder, DocumentCurrency, Named, Rank, RefersBack, LineNodes;
    var currency := DocumentCurrency(invoice);
    var name := "cac:BillingReference";
    var middle := [TaxTotalNode(invoice, currency), TotalsNode(invoice, currency)];
    assert Rank(name) == 11 by { ReferenceRank(); }
    HeadInOrder(o, invoice);
    RanksDiffer(Head(o, invoice), 1, 9, name);
    AfterParties(invoice, currency);
    RanksDiffer(middle + LineNodes(invoice.lines, currency), 16, 18, name);
    PartiesReference(o, invoice);
    NamedConcat(Head(o, invoice), Parties(o, invoice), name);
    NamedConcat(Head(o, invoice) + Parties(o, invoice), middle + LineNodes(invoice.lines, currency), name);
    assert Head(o, invoice) + Parties(o, invoice) + middle + LineNodes(invoice.lines, currency)
        == Head(o, invoice) + Parties(o, invoice) + (middle + LineNodes(invoice.lines, currency));
  }

  lemma ReferenceRank()
    ensures Rank("cac:BillingReference") == 11
  {
  }

  lemma AfterParties(invoice: Invoice, currency: string)
    ensures InOrder([TaxTotalNode(invoice, currency), TotalsNode(invoice, currency)] + LineNodes(invoice.lines, currency), 16, 18)
  {
    hide TaxTotalNode, TotalsNode, LineNode, InOrder, Rank;
    var t, m := TaxTotalNode(invoice, currency), TotalsNode(invoice, currency);
    TotalRanks(invoice, currency);
    OneInOrder(true, t);
    OneInOrder(true, m);
    Wider([t], 16, 16, 16, 17);
    InOrderConcat([t], [m], 16, 17, 17);
    assert [t] + [m] == [t, m];
    LinesInOrder(invoice.lines, currency);
    Wider([t, m], 16, 17, 16, 18);
    InOrderConcat([t, m], LineNodes(invoice.lines, currency), 16, 18, 18);
  }

  lemma PartiesReference(o: Options, invoice: Invoice)
    ensures Named(Parties(o, invoice), "cac:BillingReference") != [] <==> RefersBack(invoice)
  {
    hide Given, RefersBack, SupplierParty, BuyerParty, ExchangeRate, Named, Rank, DocumentCurrency;
    var name := "cac:BillingReference";
    var order := Node("cac:OrderReference", [Leaf("cbc:ID", invoice.poReference)]);
    var means := Node("cac:PaymentMeans", [Leaf("cbc:PaymentMeansCode", invoice.paymentMeans)]);
    PartyRanks(o, invoice, order, means);
    ReferenceRank();
    PartiesParts(o, invoice, order, means);
    var a := If(Given(invoice.poReference), order);
    var b := If(RefersBack(invoice), BillingReference(invoice));
    var c := [SupplierParty(o.supplier), BuyerParty(invoice)]
           + If(invoice.paymentMeans in PAYMENT_MEANS, means) + If(DocumentCurrency(invoice) != "AED", ExchangeRate(invoice));
    hide Parties;
    assert Parties(o, invoice) == (a + b) + c;
    NoneNamed(a, name);
    NoneNamed(c, name);
    NamedConcat(a + b, c, name);
    NamedConcat(a, b, name);
    if RefersBack(invoice) {
      AllNamed(b, name);
    }
    assert Named([], name) == [] by { NoneNamed([], name); }
  }
}
