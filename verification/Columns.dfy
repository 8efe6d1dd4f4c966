/** What the columns of the invoice tables take, and which line numbers the insert of an invoice's lines clashes on. */
module Columns {
  import opened Text
  import opened Money
  import opened Calc
  import Utf8

  // --- NUMERIC columns ------------------------------------------------------

  /** A column's digits before and after the point. */
  datatype Width = Width(whole: nat, decimals: nat)

  const QUANTITY := Width(8, 4)
  const UNIT_PRICE := Width(11, 4)
  const AMOUNT := Width(13, 2)
  const RATE := Width(3, 2)
  const EXCHANGE_RATE := Width(6, 6)

  /** A readable cell fits when, rounded to the column's decimals, it has no more digits before the point. */
  predicate Takes(text: string, column: Width) {
    ToDecimal(text).Some? ==> Abs(RoundTo(ToDecimal(text).value, column.decimals)) < Pow10(column.whole) as real
  }

  /** The six header amounts. */
  predicate AmountsFit(x: Invoice) {
    && Takes(x.lineExtensionAmount, AMOUNT) && Takes(x.taxExclusiveAmount, AMOUNT) && Takes(x.taxInclusiveAmount, AMOUNT)
    && Takes(x.vatTotalAmount, AMOUNT) && Takes(x.payableAmount, AMOUNT) && Takes(x.payableAmountAed, AMOUNT)
  }

  predicate CellsFit(line: Line) {
    && Takes(line.quantity, QUANTITY) && Takes(line.unitPrice, UNIT_PRICE) && Takes(line.lineDiscount, AMOUNT) && Takes(line.vatRate, RATE)
    && Takes(line.netAmount, AMOUNT) && Takes(line.vatAmount, AMOUNT) && Takes(line.lineTotal, AMOUNT)
  }

  /** The largest values the columns take, in figures. */
  lemma ColumnLimits(text: string)
    requires ToDecimal(text).Some?
    ensures var v := ToDecimal(text).value;
      && (Takes(text, QUANTITY) <==> -100_000_000.0 < RoundTo(v, 4) < 100_000_000.0)
      && (Takes(text, UNIT_PRICE) <==> -100_000_000_000.0 < RoundTo(v, 4) < 100_000_000_000.0)
      && (Takes(text, AMOUNT) <==> -10_000_000_000_000.0 < RoundTo(v, 2) < 10_000_000_000_000.0)
      && (Takes(text, RATE) <==> -1_000.0 < RoundTo(v, 2) < 1_000.0)
      && (Takes(text, EXCHANGE_RATE) <==> -1_000_000.0 < RoundTo(v, 6) < 1_000_000.0)
  {
    assert Pow10(13) == 10_000_000_000_000 && Pow10(11) == 100_000_000_000 && Pow10(8) == 100_000_000;
    hide RoundTo, ToDecimal;
  }

  // --- Line numbers ---------------------------------------------------------

  const MAX_INT4 := 2147483647

  /**
   * The number a line is stored under: what its text spells, or its place in the invoice when that is zero or
   * no number. `num` reads text as JavaScript's Number does, to none when that is not finite.
   */
  function StoredNumber(text: string, place: nat, num: string -> Option<real>): real {
    match num(text)
    case None => place as real
    case Some(x) => if x == 0.0 then place as real else x
  }

  /** A line that spells no number but zero is stored under its place; any other under the number it spells. */
  lemma StoredUnderItsPlace(text: string, place: nat, num: string -> Option<real>)
    ensures num(text) == None || num(text) == Some(0.0) ==> StoredNumber(text, place, num) == place as real
    ensures forall x :: num(text) == Some(x) && x != 0.0 ==> StoredNumber(text, place, num) == x
  {
  }

  predicate IsInt4(x: real) {
    x == x.Floor as real && -MAX_INT4 - 1 <= x.Floor <= MAX_INT4
  }

  /** Every line number is an integer of four bytes, and no two lines share one. */
  predicate NumbersFit(lines: seq<Line>, num: string -> Option<real>) {
    && (forall i :: 0 <= i < |lines| ==> IsInt4(StoredNumber(lines[i].lineNumber, i + 1, num)))
    && (forall i, j :: 0 <= i < j < |lines| ==>
         StoredNumber(lines[i].lineNumber, i + 1, num) != StoredNumber(lines[j].lineNumber, j + 1, num))
  }

  predicate Storable(x: Invoice, num: string -> Option<real>) {
    AmountsFit(x) && Takes(x.fxRate, EXCHANGE_RATE) && (forall l :: l in x.lines ==> CellsFit(l)) && NumbersFit(x.lines, num)
  }

  /** Digits read as the number they spell. */
  ghost predicate ReadsDigits(num: string -> Option<real>) {
    forall text: string :: text != "" && AllDigits(text) ==> num(text) == Some(NatOf(text) as real)
  }

  predicate PositiveDigits(text: string) {
    text != "" && AllDigits(text) && 1 <= NatOf(text) <= MAX_INT4
  }

  predicate DifferentNumbers(lines: seq<Line>) {
    forall i, j ::
      (0 <= i < j < |lines| && PositiveDigits(lines[i].lineNumber) && PositiveDigits(lines[j].lineNumber))
      ==> NatOf(lines[i].lineNumber) != NatOf(lines[j].lineNumber)
  }

  /** Among positive numbers written in digits, the insert clashes exactly on two that spell the same number. */
  lemma DigitNumbersFit(lines: seq<Line>, num: string -> Option<real>)
    requires ReadsDigits(num) && forall i :: 0 <= i < |lines| ==> PositiveDigits(lines[i].lineNumber)
    ensures NumbersFit(lines, num) <==> DifferentNumbers(lines)
  {
    hide NatOf;
    forall i | 0 <= i < |lines|
      ensures StoredNumber(lines[i].lineNumber, i + 1, num) == NatOf(lines[i].lineNumber) as real
      ensures IsInt4(StoredNumber(lines[i].lineNumber, i + 1, num))
    {
    }
  }

  /** A number written without leading zeros. */
  predicate Canonical(text: string) {
    PositiveDigits(text) && text == Digits(NatOf(text))
  }

  /** Numbers written without leading zeros clash only when the texts are equal, which the rules refuse. */
  lemma CanonicalNumbersFit(lines: seq<Line>, num: string -> Option<real>)
    requires ReadsDigits(num) && forall i :: 0 <= i < |lines| ==> Canonical(lines[i].lineNumber)
    requires forall i, j :: 0 <= i < j < |lines| ==> lines[i].lineNumber != lines[j].lineNumber
    ensures NumbersFit(lines, num)
  {
    DigitNumbersFit(lines, num);
    hide NumbersFit, NatOf, Digits, AllDigits;
  }

  // --- The width of a printed amount ----------------------------------------

  lemma {:induction false} DigitsWidth(n: nat, k: nat)
    requires k >= 1 && n < Pow10(k)
    ensures |Digits(n)| <= k
  {
    if n >= 10 {
      DigitsWidth(n / 10, k - 1);
    }
  }

  lemma WholeBound(n: nat)
    requires n < Pow10(15)
    ensures Whole(n, 2) < Pow10(13)
  {
    assert Pow10(15) == 100 * Pow10(13) by { assert Pow10(14) == 10 * Pow10(13); }
    assert Pow10(2) == 100;
  }

  lemma FixedPointWidth(n: nat)
    requires n < Pow10(15)
    ensures |FixedPoint(n, 2)| <= 16
  {
    WholeBound(n);
    hide Pow10, Whole, Fraction;
    DigitsWidth(Whole(n, 2), 13);
  }

  lemma UnitsBound(x: real)
    requires Cents(x) && Abs(x) < Pow10(13) as real
    ensures -Pow10(15) < Units(x, 2) < Pow10(15)
  {
    CentsForm(x);
    assert Pow10(15) == 100 * Pow10(13) by { assert Pow10(14) == 10 * Pow10(13); }
    hide Units, Cents, Pow10;
  }

  /** An amount that fits its column prints in at most seventeen characters, all digits, point and sign. */
  lemma PrintWidth(x: real)
    requires Cents(x) && Takes(Print(x), AMOUNT)
    ensures |Print(x)| <= 17 && NumberChars(Print(x))
  {
    PrintReads(x);
    assert RoundTo(x, 2) == x;
    UnitsBound(x);
    UnitsSign(x, 2);
    var k := Units(x, 2);
    ParseSigned(k, x < 0.0, 2);
    FixedPointWidth(if k < 0 then -k else k);
    hide Units, FixedPoint, Cents, ToDecimal, RoundTo, Pow10;
  }

  lemma {:induction false} PlainText(s: string)
    requires forall c :: c in s ==> c as int < 0x80
    ensures |Utf8.Encode(s)| == |s|
  {
    if s != "" {
      assert s[0] in s && forall c :: c in s[1..] ==> c in s;
      Utf8.CharBytesAscii(s[0]);
      hide Utf8.CharBytes;
      PlainText(s[1..]);
    }
  }

  /** So it is well within any field of the QR payload. */
  lemma AmountBytes(x: real)
    requires Cents(x) && Takes(Print(x), AMOUNT)
    ensures |Utf8.Encode(Print(x))| <= 17
  {
    PrintWidth(x);
    PlainText(Print(x));
  }
}
