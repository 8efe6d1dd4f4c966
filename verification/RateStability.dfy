/** Which rate texts make recalculation settle: exactly those with at most two decimals. */
module RateStability {
  import opened Text
  import opened Money
  import opened Calc

  ghost predicate SettlesForEveryLine(rateText: string) {
    forall line: Line :: line.vatRate == rateText && !KnownCategory(line.vatCategory) ==>
      RecalcLine(RecalcLine(line)) == RecalcLine(line)
  }

  /** A line of `n` pieces at 1.00 with no discount and an unknown category. */
  function Probe(rateText: string, n: nat): Line {
    Line("", "1", "", "", Digits(n), "PCE", "1", "", "", rateText, "", "", "", None)
  }

  lemma WholeIsCents(n: nat)
    ensures RoundTo(n as real, 2) == n as real
  {
    assert Pow10(2) == 100;
    CentsOf(100 * n);
  }

  lemma ProbeNet(rateText: string, n: nat)
    ensures Computable(Probe(rateText, n)) && LineNet(Probe(rateText, n)) == n as real
    ensures LineRate(Probe(rateText, n)) == OrElse(ToDecimal(rateText), 0.0)
  {
    hide RoundTo, ParseDecimal, Digits, ToDecimal;
    ParseDigits(n);
    ParseOne();
    WholeIsCents(n);
    BlankIsNoNumber();
  }

  lemma ParseOne()
    ensures ToDecimal("1") == Some(1.0)
  {
    ParseDigits(1);
    assert Digits(1) == "1";
    hide ToDecimal;
  }

  /** Two rates that differ give VAT amounts that differ once the net amount is large enough. */
  lemma RatesSeparate(n: nat, a: real, b: real)
    requires Times(n as real, Abs(a - b)) >= 2.0
    ensures VatOn(n as real, a) != VatOn(n as real, b)
  {
    var x, y := Times(n as real, a) / 100.0, Times(n as real, b) / 100.0;
    assert Abs(x - y) >= 0.02 by {
      assert n as real * (a - b) == n as real * a - n as real * b;
    }
    RoundingError(x);
    RoundingError(y);
    hide RoundTo;
  }

  lemma ReadRate(rateText: string, n: nat)
    requires ToDecimal(rateText).Some?
    ensures LineRate(RecalcLine(Probe(rateText, n))) == RoundTo(ToDecimal(rateText).value, 2)
  {
    ProbeNet(rateText, n);
    hide RoundTo, ToDecimal, ToFixed, Computable;
    ParsePrint(ToDecimal(rateText).value, 2);
  }

  lemma PrintDiffers(x: real, y: real)
    requires Cents(x) && Cents(y) && x != y
    ensures Print(x) != Print(y)
  {
    hide Print, Cents, ToDecimal;
    PrintReads(x);
    PrintReads(y);
  }

  lemma ProbeFails(rateText: string, n: nat)
    requires ToDecimal(rateText).Some?
    requires var r := ToDecimal(rateText).value; Times(n as real, Abs(r - RoundTo(r, 2))) >= 2.0
    ensures var line := Probe(rateText, n); RecalcLine(RecalcLine(line)) != RecalcLine(line)
  {
    hide Times, RecalcLine, Print, Probe, VatOn, LineNet, LineRate, RoundTo, ToDecimal, Computable;
    var line := Probe(rateText, n);
    var r := ToDecimal(rateText).value;
    ProbeNet(rateText, n);
    ReadRate(rateText, n);
    SameInputs(line);
    SameComputation(RecalcLine(line), line);
    RatesSeparate(n, r, RoundTo(r, 2));
    VatCents(n as real, r);
    VatCents(n as real, RoundTo(r, 2));
    PrintDiffers(VatOn(n as real, r), VatOn(n as real, RoundTo(r, 2)));
    VatCell(line);
    VatCell(RecalcLine(line));
    hide *;
  }

  lemma SameInputs(line: Line)
    ensures var r := RecalcLine(line);
      r.quantity == line.quantity && r.unitPrice == line.unitPrice && r.lineDiscount == line.lineDiscount
  {
  }

  lemma VatCell(line: Line)
    requires Computable(line)
    ensures RecalcLine(line).vatAmount == Print(VatOn(LineNet(line), LineRate(line)))
  {
    hide Computable, LineNet, LineRate, VatOn, Print;
  }

  function LargeEnough(d: real): (n: nat)
    requires d > 0.0
    ensures Times(n as real, d) >= 2.0
  {
    var n := (2.0 / d).Floor + 1;
    assert (2.0 / d) * d == 2.0;
    n
  }

  /** The side condition of RecalcLineSettles is exact: no longer rate text is safe on every line. */
  lemma SettlesExactlyForShortRates(rateText: string)
    ensures SettlesForEveryLine(rateText) <==> RateText(rateText)
  {
    if RateText(rateText) {
      forall line: Line | line.vatRate == rateText && !KnownCategory(line.vatCategory)
        ensures RecalcLine(RecalcLine(line)) == RecalcLine(line)
      {
        hide RecalcLine, RateText, KnownCategory, Computable;
        RecalcLineSettles(line);
      }
    } else {
      hide RecalcLine, KnownCategory, RoundTo, ToDecimal;
      var r := ToDecimal(rateText).value;
      var n := LargeEnough(Abs(r - RoundTo(r, 2)));
      ProbeFails(rateText, n);
      ProbeCategory(rateText, n);
    }
  }

  lemma ProbeCategory(rateText: string, n: nat)
    ensures !KnownCategory(Probe(rateText, n).vatCategory) && Probe(rateText, n).vatRate == rateText
  {
  }
}
