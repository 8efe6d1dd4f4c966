/** Auto-fix settles: a second run over its own output reports nothing and rewrites nothing. */
module AutoFixSettles {
  import opened Text
  import opened Money
  import opened Calc
  import opened Codes
  import opened AutoFix

  // --- Field by field -------------------------------------------------------

  lemma CurrencySettles(text: string)
    ensures FixedCurrency(FixedCurrency(text)) == FixedCurrency(text)
  {
    UpperOfTrimIsStable(text);
    TrimIsTrimmed("AED");
    assert ToUpper("AED") == "AED";
    hide Trim, ToUpper;
  }

  lemma OneIsUsable()
    ensures Trim("1.000000") == "1.000000"
  {
    TrimIsTrimmed("1.000000");
  }

  lemma FxSettles(invoice: Invoice)
    ensures !NeedsFx(FixFx(invoice))
  {
    hide Trim;
    OneIsUsable();
  }

  lemma TimeSettles(text: string)
    ensures !NeedsTime(FixedTime(text)) && FixedTime(FixedTime(text)) == FixedTime(text)
  {
    var t := Trim(text);
    TrimIsTrimmed("00:00:00");
    if ClockShape(t) {
      var padded := t + ":00";
      assert padded[|padded| - 1] == '0' && padded[0] == t[0];
      TrimIsTrimmed(padded);
      assert |padded| == 8;
    }
    hide Trim;
  }

  lemma TrnSettles(raw: string)
    ensures StrippedTrn(StrippedTrn(raw)) == StrippedTrn(raw)
  {
    hide Filter;
    FilterKeepsAll(StrippedTrn(raw), KeptInTrn);
  }

  /** Text whose only white space is single blanks. */
  predicate SingleSpaced(s: string) {
    forall i :: 0 <= i < |s| && IsSpace(s[i]) ==> s[i] == ' ' && (i + 1 < |s| ==> !IsSpace(s[i + 1]))
  }

  lemma {:induction false} CollapseKeeps(s: string)
    requires SingleSpaced(s)
    ensures Collapse(s) == s
  {
    if s != "" {
      forall i | 0 <= i < |s[1..]| && IsSpace(s[1..][i])
        ensures s[1..][i] == ' ' && (i + 1 < |s[1..]| ==> !IsSpace(s[1..][i + 1]))
      {
        assert s[1..][i] == s[i + 1];
      }
      CollapseKeeps(s[1..]);
    }
  }

  lemma EmirateNormalises(name: string, lowered: string)
    requires name != "" && Trimmed(name) && |lowered| == |name| && SingleSpaced(lowered)
    requires forall i :: 0 <= i < |name| ==> lowered[i] == LowerChar(name[i])
    ensures TitleCaseEmirate(name) == EmirateAlias(lowered)
    ensures Trim(name) == name
  {
    TrimIsTrimmed(name);
    assert ToLower(name) == lowered;
    CollapseKeeps(lowered);
    hide Collapse, EmirateAlias, ToLower, Trim;
  }

  /** Every emirate is its own canonical spelling. */
  lemma EmirateIsCanonical(name: string)
    requires name in EMIRATES
    ensures TitleCaseEmirate(name) == Some(name) && Trim(name) == name && name != ""
  {
    EmirateShape(name);
    hide Trim, Collapse, TitleCaseEmirate, ToLower, EmirateAlias, Trimmed, SingleSpaced, LowerChar;
    EmirateNormalises(name, Lowered(name));
  }

  /** The emirates in small letters. */
  function Lowered(name: string): string {
    match name
    case "Dubai" => "dubai"
    case "Abu Dhabi" => "abu dhabi"
    case "Sharjah" => "sharjah"
    case "Ajman" => "ajman"
    case "Ras Al Khaimah" => "ras al khaimah"
    case "Fujairah" => "fujairah"
    case _ => "umm al quwain"
  }

  predicate IsLowered(name: string, lowered: string) {
    && name != "" && Trimmed(name) && |lowered| == |name| && SingleSpaced(lowered)
    && (forall i :: 0 <= i < |name| ==> lowered[i] == LowerChar(name[i]))
  }

  lemma EmirateShape(name: string)
    requires name in EMIRATES
    ensures IsLowered(name, Lowered(name)) && EmirateAlias(Lowered(name)) == Some(name)
  {
    EmiratesLowered(name);
    assert EmirateAlias(Lowered(name)) == Some(name);
    hide IsLowered, EmirateAlias, Lowered;
  }

  lemma EmiratesLowered(name: string)
    requires name in EMIRATES
    ensures IsLowered(name, Lowered(name))
  {
    hide IsLowered;
    Dubai();
    AbuDhabi();
    Sharjah();
    Ajman();
    RasAlKhaimah();
    Fujairah();
    UmmAlQuwain();
  }

  lemma Dubai()
    ensures IsLowered("Dubai", "dubai")
  {
  }

  lemma AbuDhabi()
    ensures IsLowered("Abu Dhabi", "abu dhabi")
  {
  }

  lemma Sharjah()
    ensures IsLowered("Sharjah", "sharjah")
  {
  }

  lemma Ajman()
    ensures IsLowered("Ajman", "ajman")
  {
  }

  lemma RasAlKhaimah()
    ensures IsLowered("Ras Al Khaimah", "ras al khaimah")
  {
  }

  lemma Fujairah()
    ensures IsLowered("Fujairah", "fujairah")
  {
  }

  lemma UmmAlQuwain()
    ensures IsLowered("Umm Al Quwain", "umm al quwain")
  {
  }

  lemma AliasIsEmirate(normalised: string)
    requires EmirateAlias(normalised).Some?
    ensures EmirateAlias(normalised).value in EMIRATES
  {
  }

  lemma EmirateSettles(text: string)
    ensures FixedEmirate(FixedEmirate(text)) == FixedEmirate(text)
  {
    if TitleCaseEmirate(text).Some? {
      AliasIsEmirate(Collapse(ToLower(Trim(text))));
      hide EmirateAlias, Collapse, ToLower, Trim;
      EmirateIsCanonical(TitleCaseEmirate(text).value);
    }
  }

  lemma CodeIsNoAlias(code: string)
    requires TypeSpec(code).Some?
    ensures AliasOf(code) == None && Trim(code) == code
  {
    TrimIsTrimmed(code);
    hide Trim;
    assert ToLower(code) == code;
  }

  lemma AliasIsCode(text: string)
    requires AliasOf(text).Some?
    ensures TypeSpec(AliasOf(text).value).Some?
  {
    hide Trim, ToLower;
  }

  lemma TypeSettles(next: Invoice)
    ensures AliasOf(FixType(next).invoiceType) == None
  {
    if AliasOf(next.invoiceType).Some? {
      AliasIsCode(next.invoiceType);
      hide AliasOf, TypeSpec;
      CodeIsNoAlias(AliasOf(next.invoiceType).value);
    }
  }

  // --- Lines ----------------------------------------------------------------

  lemma UomSettles(text: string)
    ensures FixedUom(FixedUom(text)) == FixedUom(text) && Trim(FixedUom(text)) != ""
  {
    UpperOfTrimIsStable(text);
    TrimIsTrimmed("PCE");
    assert ToUpper("PCE") == "PCE";
    hide Trim, ToUpper;
  }

  lemma CategorySettles(text: string)
    ensures FixedCategory(FixedCategory(text)) == FixedCategory(text)
  {
    UpperOfTrimIsStable(text);
    hide Trim, ToUpper;
  }

  lemma RequiredIsPrint(category: string)
    requires KnownCategory(category)
    ensures ToFixed(ExpectedRate(category), 2) == RequiredRate(category)
    ensures Trim(RequiredRate(category)) == RequiredRate(category)
  {
    hide ToFixed, Trim;
    WholePrint(5);
    WholePrint(0);
    PrintsAreTrimmed();
    OneDigit();
  }

  lemma PrintsAreTrimmed()
    ensures Trim("5.00") == "5.00" && Trim("0.00") == "0.00"
  {
    TrimIsTrimmed("5.00");
    TrimIsTrimmed("0.00");
    hide Trim;
  }

  lemma OneDigit()
    ensures [DigitChar(5)] == "5" && [DigitChar(0)] == "0"
  {
  }

  lemma WholePrint(n: nat)
    requires n < 10
    ensures ToFixed(n as real, 2) == [DigitChar(n)] + ".00"
  {
    assert Pow10(2) == 100;
    assert Units(n as real, 2) == 100 * n;
    PointPrint(n);
    hide Units, FixedPoint;
  }

  lemma PointPrint(n: nat)
    requires n < 10
    ensures FixedPoint(100 * n, 2) == [DigitChar(n)] + ".00"
  {
    assert Pow10(2) == 100;
    assert Whole(100 * n, 2) == n && Fraction(100 * n, 2) == 0;
    assert FixedDigits(0, 1) == "0";
    assert FixedDigits(0, 2) == "00";
    hide Whole, Fraction, FixedDigits, Pow10;
  }

  /** The rate a fixed and recalculated line carries is the one its category asks for. */
  lemma RateSettles(line: Line)
    requires KnownCategory(line.vatCategory) ==> !NeedsRate(line.vatCategory, line.vatRate)
    ensures !NeedsRate(line.vatCategory, RecalcLine(line).vatRate)
    ensures RecalcLine(line).vatCategory == line.vatCategory
  {
    hide ToFixed, RequiredRate, LineNet, VatOn, Trim, Computable, Print;
    if KnownCategory(line.vatCategory) {
      RequiredIsPrint(line.vatCategory);
    }
  }

  lemma FixedRateFits(category: string, rateText: string)
    ensures !NeedsRate(category, FixedRate(category, rateText))
  {
    if KnownCategory(category) {
      RequiredIsPrint(category);
    }
    hide Trim, KnownCategory, RequiredRate;
  }

  /** A line as it comes out of auto-fix and recalculation. */
  predicate Settled(line: Line) {
    && FixedUom(line.uom) == line.uom && Trim(line.uom) != ""
    && FixedCategory(line.vatCategory) == line.vatCategory
    && !NeedsRate(line.vatCategory, line.vatRate)
    && Trim(line.lineDiscount) != ""
  }

  lemma LineSettles(line: Line, number: string)
    ensures Settled(RecalcLine(FixLine(line).(lineNumber := number)))
  {
    hide FixedUom, FixedCategory, FixedRate, NeedsRate, Trim, Computable, LineNet, VatOn, LineRate, Print, ToFixed;
    var f := FixLine(line).(lineNumber := number);
    UomSettles(line.uom);
    CategorySettles(line.vatCategory);
    FixedRateFits(FixedCategory(line.vatCategory), line.vatRate);
    RateSettles(f);
    DiscountSettles(line.lineDiscount);
    UntouchedByRecalc(f);
  }

  lemma DiscountSettles(text: string)
    ensures Trim(FixedDiscount(text)) != ""
  {
    TrimIsTrimmed("0.00");
  }

  lemma UntouchedByRecalc(line: Line)
    ensures var r := RecalcLine(line);
      && r.uom == line.uom && r.lineDiscount == line.lineDiscount && r.lineNumber == line.lineNumber
      && r.vatCategory == line.vatCategory
  {
  }

  lemma SettledIsFixed(line: Line, invoiceId: string)
    requires Settled(line)
    ensures FixLine(line) == line && LineChanges(line, invoiceId) == []
  {
    hide Trim, ToUpper, KnownCategory, RequiredRate;
    assert FixedRate(line.vatCategory, line.vatRate) == line.vatRate;
  }

  lemma {:induction false} SettledLinesAreFixed(lines: seq<Line>, invoiceId: string)
    requires forall l :: l in lines ==> Settled(l)
    ensures FixLines(lines) == lines && LinesChanges(lines, invoiceId) == []
  {
    hide FixLine, LineChanges, Settled;
    if lines != [] {
      var front, last := lines[..|lines| - 1], lines[|lines| - 1];
      assert last in lines;
      SettledLinesAreFixed(front, invoiceId);
      SettledIsFixed(last, invoiceId);
      assert forall i :: 0 <= i < |front| ==> FixLines(lines)[i] == FixLines(front)[i];
    }
  }

  lemma DigitsTrimmed(n: nat)
    ensures Trim(Digits(n)) == Digits(n)
  {
    var d := Digits(n);
    assert d[0] in d && d[|d| - 1] in d;
    TrimIsTrimmed(d);
  }

  lemma NumberingSettles(lines: seq<Line>, recalculated: seq<Line>)
    requires |recalculated| == |lines|
    requires forall i :: 0 <= i < |lines| ==> recalculated[i].lineNumber == FixNumbering(lines)[i].lineNumber
    ensures !NumberingBroken(recalculated)
  {
    hide Trim, Digits;
    if NumberingBroken(lines) {
      RenumberedIsSound(recalculated);
    } else {
      SameNumbersSound(lines, recalculated);
    }
  }

  lemma SameNumbersSound(lines: seq<Line>, recalculated: seq<Line>)
    requires |recalculated| == |lines| && forall i :: 0 <= i < |lines| ==> recalculated[i].lineNumber == lines[i].lineNumber
    requires !NumberingBroken(lines)
    ensures !NumberingBroken(recalculated)
  {
    hide Trim;
    forall l | l in recalculated
      ensures Trim(l.lineNumber) != ""
    {
      var i :| 0 <= i < |recalculated| && recalculated[i] == l;
      assert lines[i] in lines;
    }
  }

  lemma RenumberedIsSound(recalculated: seq<Line>)
    requires forall i :: 0 <= i < |recalculated| ==> recalculated[i].lineNumber == Digits(i + 1)
    ensures !NumberingBroken(recalculated)
  {
    hide Trim, Digits;
    forall l | l in recalculated
      ensures Trim(l.lineNumber) != ""
    {
      var i :| 0 <= i < |recalculated| && recalculated[i] == l;
      DigitsTrimmed(i + 1);
    }
    forall i, j | 0 <= i < j < |recalculated|
      ensures Trim(recalculated[i].lineNumber) != Trim(recalculated[j].lineNumber)
    {
      DigitsTrimmed(i + 1);
      DigitsTrimmed(j + 1);
      if Digits(i + 1) == Digits(j + 1) {
        DigitsInjective(i + 1, j + 1);
      }
    }
  }

  // --- The invoice ----------------------------------------------------------

  /** Header fields of the result, each in terms of the original. */
  lemma HeaderFields(invoice: Invoice)
    ensures var h := FixHeader(invoice);
      && h.currency == FixedCurrency(invoice.currency)
      && h.fxRate == FixFx(FixCurrency(invoice)).fxRate
      && h.issueTime == FixedTime(invoice.issueTime)
      && h.supplierTrn == StrippedTrn(invoice.supplierTrn)
      && h.buyerTrn == StrippedTrn(invoice.buyerTrn)
      && h.buyerEmirate == FixedEmirate(invoice.buyerEmirate)
      && h.invoiceType == FixType(invoice).invoiceType
      && h.(currency := invoice.currency, fxRate := invoice.fxRate, issueTime := invoice.issueTime,
            supplierTrn := invoice.supplierTrn, buyerTrn := invoice.buyerTrn, buyerEmirate := invoice.buyerEmirate,
            invoiceType := invoice.invoiceType) == invoice
  {
    hide FixedCurrency, FixedTime, StrippedTrn, FixedEmirate, NeedsFx, AliasOf;
  }

  predicate HeaderSettled(z: Invoice) {
    && FixedCurrency(z.currency) == z.currency
    && !NeedsFx(z)
    && !NeedsTime(z.issueTime) && FixedTime(z.issueTime) == z.issueTime
    && StrippedTrn(z.supplierTrn) == z.supplierTrn
    && StrippedTrn(z.buyerTrn) == z.buyerTrn
    && FixedEmirate(z.buyerEmirate) == z.buyerEmirate
    && AliasOf(z.invoiceType) == None
  }

  lemma HeaderSettles(invoice: Invoice)
    ensures HeaderSettled(FixHeader(invoice))
  {
    hide FixedCurrency, FixedTime, StrippedTrn, FixedEmirate, AliasOf, FixHeader, NeedsTime, Trim;
    HeaderFields(invoice);
    CurrencySettles(invoice.currency);
    FxSettles(FixCurrency(invoice));
    TimeSettles(invoice.issueTime);
    TrnSettles(invoice.supplierTrn);
    TrnSettles(invoice.buyerTrn);
    EmirateSettles(invoice.buyerEmirate);
    TypeSettles(invoice);
  }

  lemma SettledHeaderIsFixed(z: Invoice)
    requires HeaderSettled(z)
    ensures FixHeader(z) == z && HeaderChanges(z) == []
  {
    hide FixedCurrency, FixedTime, StrippedTrn, FixedEmirate, NeedsFx, NeedsTime, AliasOf, Trim;
  }

  /** Only header amounts and lines change when an invoice is recalculated. */
  lemma RecalcKeepsHeader(invoice: Invoice)
    requires HeaderSettled(invoice)
    ensures HeaderSettled(RecalcInvoice(invoice))
  {
    hide FixedCurrency, FixedTime, StrippedTrn, FixedEmirate, NeedsTime, AliasOf, Trim, RecalcLines, Print, NetSum, VatSum, RoundTo, FxFactor, Times;
  }

  lemma FixedLinesSettle(invoice: Invoice)
    ensures forall l :: l in Fix(invoice).lines ==> Settled(l)
    ensures !NumberingBroken(Fix(invoice).lines)
  {
    hide FixHeader, RecalcLine, FixLine, NumberingBroken, Print, NetSum, VatSum, RoundTo, FxFactor, Times, Settled, Digits;
    HeaderKeepsLines(invoice);
    var fixed := FixLines(invoice.lines);
    var numbered := FixNumbering(fixed);
    var z := Fix(invoice);
    forall i | 0 <= i < |z.lines|
      ensures Settled(z.lines[i]) && z.lines[i].lineNumber == numbered[i].lineNumber
    {
      OneLineSettles(invoice.lines[i], numbered[i]);
    }
    NumberingSettles(fixed, z.lines);
  }

  lemma OneLineSettles(line: Line, numbered: Line)
    requires numbered == FixLine(line).(lineNumber := numbered.lineNumber)
    ensures Settled(RecalcLine(numbered)) && RecalcLine(numbered).lineNumber == numbered.lineNumber
  {
    hide Settled, FixLine, RecalcLine;
    LineSettles(line, numbered.lineNumber);
    UntouchedByRecalc(numbered);
  }

  /** A second run reports no change and rewrites no field. */
  lemma SecondRunIsQuiet(invoice: Invoice)
    ensures var z := Fix(invoice); Changes(z) == [] && FixFields(z) == z && Fix(z) == RecalcInvoice(z)
  {
    hide RecalcInvoice, FixHeader, HeaderChanges, LinesChanges, RenumberChanges, FixLine, Settled, HeaderSettled, NumberingBroken;
    var z := Fix(invoice);
    HeaderSettles(invoice);
    LinesDoNotMatter(FixHeader(invoice), FixNumbering(FixLines(FixHeader(invoice).lines)));
    RecalcKeepsHeader(FixFields(invoice));
    SettledHeaderIsFixed(z);
    FixedLinesSettle(invoice);
    SettledLinesAreFixed(z.lines, z.id);
    assert z.(lines := z.lines) == z;
  }

  lemma LinesDoNotMatter(z: Invoice, lines: seq<Line>)
    requires HeaderSettled(z)
    ensures HeaderSettled(z.(lines := lines))
  {
    hide FixedCurrency, FixedTime, StrippedTrn, FixedEmirate, NeedsTime, AliasOf, Trim;
  }

  /** With stable rates the second run returns its input unchanged. */
  lemma SecondRunIsIdentity(invoice: Invoice)
    requires StableInvoice(FixFields(invoice))
    ensures Fix(Fix(invoice)) == Fix(invoice)
  {
    hide RecalcInvoice, FixFields, Changes, StableInvoice;
    SecondRunIsQuiet(invoice);
    RecalcInvoiceSettles(FixFields(invoice));
  }
}
