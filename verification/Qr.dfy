/** The invoice QR payload: five tag-length-value fields, base64-encoded. */
module Qr {
  import opened Text
  import opened Calc
  import opened Utf8
  import opened Base64

  const SELLER_NAME: byte := 1
  const SELLER_TRN: byte := 2
  const TIMESTAMP: byte := 3
  const INVOICE_TOTAL: byte := 4
  const VAT_TOTAL: byte := 5
  const MAX_VALUE_BYTES: nat := 255

  // --- Building -------------------------------------------------------------

  /** A tag, one length byte, and the value cut to what one length byte can count. */
  function Tlv(tag: byte, value: string): seq<byte> {
    var payload := Encode(Truncate(value, MAX_VALUE_BYTES));
    [tag, |payload|] + payload
  }

  function Timestamp(invoice: Invoice, supplied: Option<string>): string {
    match supplied
    case Some(text) => text
    case None => invoice.issueDate + "T" + (if invoice.issueTime == "" then "00:00:00" else invoice.issueTime) + "Z"
  }

  function PayloadBytes(invoice: Invoice, sellerName: string, sellerTrn: string, timestamp: Option<string>): seq<byte> {
    var recalculated := RecalcInvoice(invoice);
    Tlv(SELLER_NAME, sellerName)
    + (Tlv(SELLER_TRN, sellerTrn)
    + (Tlv(TIMESTAMP, Timestamp(recalculated, timestamp))
    + (Tlv(INVOICE_TOTAL, recalculated.payableAmount)
    + Tlv(VAT_TOTAL, recalculated.vatTotalAmount))))
  }

  function BuildPayload(invoice: Invoice, sellerName: string, sellerTrn: string, timestamp: Option<string>): string {
    Encode64(PayloadBytes(invoice, sellerName, sellerTrn, timestamp))
  }

  // --- Reading --------------------------------------------------------------

  /** The fields of a buffer, added to those found before it; a field cut short ends the reading. */
  function Fields(buf: seq<byte>, found: map<byte, string>): map<byte, string> {
    if |buf| < 2 || 2 + buf[1] > |buf| then found
    else Fields(buf[2 + buf[1]..], found[buf[0] := Decode(buf[2..2 + buf[1]])])
  }

  /** Walks the buffer field by field; every index stays inside it, whatever the text holds. */
  method DecodePayload(base64: string) returns (out: map<byte, string>)
    ensures out == Fields(Decode64(base64), map[])
  {
    hide Decode, Decode64;
    var buf := Decode64(base64);
    out := map[];
    var i: nat := 0;
    assert buf[0..] == buf;
    while i + 2 <= |buf|
      invariant i <= |buf|
      invariant Fields(buf, map[]) == Fields(buf[i..], out)
    {
      var tag, len := buf[i], buf[i + 1];
      var start := i + 2;
      if start + len > |buf| {
        return;
      }
      assert buf[i..][2..2 + len] == buf[start..start + len];
      assert buf[i..][2 + len..] == buf[start + len..];
      out := out[tag := Decode(buf[start..start + len])];
      i := start + len;
    }
  }

  // --- Round trip -----------------------------------------------------------

  /** Reading one field off the front gives back its value, cut to whole characters that fit. */
  lemma FieldReads(tag: byte, value: string, rest: seq<byte>, found: map<byte, string>)
    ensures Fields(Tlv(tag, value) + rest, found) == Fields(rest, found[tag := Truncate(value, MAX_VALUE_BYTES)])
  {
    var payload := Encode(Truncate(value, MAX_VALUE_BYTES));
    RoundTrip(Truncate(value, MAX_VALUE_BYTES));
    hide Encode, Decode, Truncate;
    var buf := Tlv(tag, value) + rest;
    assert buf[0] == tag && buf[1] == |payload|;
    assert buf[2..2 + |payload|] == payload;
    assert buf[2 + |payload|..] == rest;
  }

  /** What a reader of the payload sees. */
  function Expected(invoice: Invoice, sellerName: string, sellerTrn: string, timestamp: Option<string>): map<byte, string> {
    var recalculated := RecalcInvoice(invoice);
    map[
      SELLER_NAME := Truncate(sellerName, MAX_VALUE_BYTES),
      SELLER_TRN := Truncate(sellerTrn, MAX_VALUE_BYTES),
      TIMESTAMP := Truncate(Timestamp(recalculated, timestamp), MAX_VALUE_BYTES),
      INVOICE_TOTAL := Truncate(recalculated.payableAmount, MAX_VALUE_BYTES),
      VAT_TOTAL := Truncate(recalculated.vatTotalAmount, MAX_VALUE_BYTES)
    ]
  }

  /** Decoding a built payload gives back the five fields, whatever characters they hold. */
  lemma PayloadRoundTrip(invoice: Invoice, sellerName: string, sellerTrn: string, timestamp: Option<string>)
    ensures Fields(Decode64(BuildPayload(invoice, sellerName, sellerTrn, timestamp)), map[])
         == Expected(invoice, sellerName, sellerTrn, timestamp)
  {
    hide Tlv, Truncate, Encode64, Decode64, Fields, RecalcInvoice, Timestamp;
    var x := RecalcInvoice(invoice);
    RoundTrip64(PayloadBytes(invoice, sellerName, sellerTrn, timestamp));
    FiveFields(sellerName, sellerTrn, Timestamp(x, timestamp), x.payableAmount, x.vatTotalAmount);
  }

  lemma FiveFields(a: string, b: string, c: string, d: string, e: string)
    ensures Fields(Tlv(1, a) + (Tlv(2, b) + (Tlv(3, c) + (Tlv(4, d) + Tlv(5, e)))), map[])
         == map[1 := Truncate(a, 255), 2 := Truncate(b, 255), 3 := Truncate(c, 255), 4 := Truncate(d, 255), 5 := Truncate(e, 255)]
  {
    hide Truncate, Tlv, Fields;
    var t5 := Tlv(5, e);
    var t4 := Tlv(4, d) + t5;
    var t3 := Tlv(3, c) + t4;
    var t2 := Tlv(2, b) + t3;
    var m1 := map[1 := Truncate(a, 255)];
    var m2 := m1[2 := Truncate(b, 255)];
    var m3 := m2[3 := Truncate(c, 255)];
    var m4 := m3[4 := Truncate(d, 255)];
    FieldReads(1, a, t2, map[]);
    FieldReads(2, b, t3, m1);
    FieldReads(3, c, t4, m2);
    FieldReads(4, d, t5, m3);
    assert t5 + [] == t5;
    FieldReads(5, e, [], m4);
    NothingLeft(m4[5 := Truncate(e, 255)]);
  }

  lemma NothingLeft(found: map<byte, string>)
    ensures Fields([], found) == found
  {
  }

  /**
   * The five values of a payload, by tag: the seller's name and TRN, the moment supplied or else that of the
   * uploaded date and time (midnight when there is no time), and the recalculated payable and tax amounts.
   */
  function Given(invoice: Invoice, sellerName: string, sellerTrn: string, timestamp: Option<string>): map<byte, string> {
    var time := if invoice.issueTime == "" then "00:00:00" else invoice.issueTime;
    var moment := if timestamp.Some? then timestamp.value else invoice.issueDate + "T" + time + "Z";
    map[1 := sellerName, 2 := sellerTrn, 3 := moment, 4 := RecalcInvoice(invoice).payableAmount, 5 := RecalcInvoice(invoice).vatTotalAmount]
  }

  lemma ExpectedIsGivenCut(invoice: Invoice, sellerName: string, sellerTrn: string, timestamp: Option<string>)
    ensures var given := Given(invoice, sellerName, sellerTrn, timestamp);
      var expected := Expected(invoice, sellerName, sellerTrn, timestamp);
      expected.Keys == given.Keys && forall tag :: tag in given ==> expected[tag] == Truncate(given[tag], 255)
  {
    SameDates(invoice);
    hide Truncate, RecalcInvoice;
  }

  lemma SameDates(invoice: Invoice)
    ensures RecalcInvoice(invoice).issueDate == invoice.issueDate && RecalcInvoice(invoice).issueTime == invoice.issueTime
  {
  }

  /** Exactly five fields come back; each exactly as given if it has at most 255 bytes, and never if it has more. */
  lemma FieldIsExact(invoice: Invoice, sellerName: string, sellerTrn: string, timestamp: Option<string>)
    ensures var read := Fields(Decode64(BuildPayload(invoice, sellerName, sellerTrn, timestamp)), map[]);
      var given := Given(invoice, sellerName, sellerTrn, timestamp);
      && read.Keys == given.Keys
      && forall tag :: tag in given ==> (read[tag] == given[tag] <==> |Encode(given[tag])| <= 255)
  {
    hide Truncate, Encode, BuildPayload, Decode64, Fields, Expected, Given;
    PayloadRoundTrip(invoice, sellerName, sellerTrn, timestamp);
    ExpectedIsGivenCut(invoice, sellerName, sellerTrn, timestamp);
    var given := Given(invoice, sellerName, sellerTrn, timestamp);
    forall tag | tag in given
      ensures Truncate(given[tag], 255) == given[tag] <==> |Encode(given[tag])| <= 255
    {
      TruncateKeeps(given[tag], 255);
    }
  }
}
