/**
 * Money: parsing spreadsheet cells into decimals, rounding half-up, printing.
 *
 * An amount is an exact decimal, held as a real; every rounding step is written out. `Precision`
 * shows where the source's 34-digit decimals compute the same values.
 */
module Money {
  import opened Text

  const AMOUNT_DP: nat := 2
  const UNIT_PRICE_DP: nat := 4

  // --- Parsing --------------------------------------------------------------

  /** A parsed number: `coefficient` divided by ten to the power `scale`. */
  datatype Decimal = Decimal(coefficient: int, scale: nat) {
    function Value(): real {
      coefficient as real / Pow10(scale) as real
    }
  }

  predicate IsSeparator(c: char) {
    c == ',' || IsSpace(c)
  }

  function StripCurrency(s: string): string {
    if |s| >= 3 && ToUpper(s[..3]) in {"AED", "USD", "EUR", "GBP", "SAR"} then s[3..] else s
  }

  function Clean(raw: string): string {
    StripCurrency(Filter(raw, c => !IsSeparator(c)))
  }

  /** Position of the first '.', or the length when there is none. */
  function Dot(s: string): (i: nat)
    ensures i <= |s| && '.' !in s[..i] && (i < |s| ==> s[i] == '.')
  {
    if s == [] || s[0] == '.' then 0 else 1 + Dot(s[1..])
  }

  lemma {:induction false} DotAt(s: string, i: nat)
    requires i < |s| && s[i] == '.' && '.' !in s[..i]
    ensures Dot(s) == i
  {
    if i > 0 {
      assert s[0] in s[..i];
      assert s[1..][..i - 1] == s[..i][1..];
      DotAt(s[1..], i - 1);
    }
  }

  /** Digits, or optional digits, a point and digits. */
  function ParseUnsigned(s: string): Option<Decimal> {
    var i := Dot(s);
    if !AllDigits(s[..i]) then None
    else if i == |s| then (if s == [] then None else Some(Decimal(NatOf(s[..i]), 0)))
    else if s[i + 1..] == [] || !AllDigits(s[i + 1..]) then None
    else Some(Decimal(NatOf(s[..i] + s[i + 1..]), |s| - i - 1))
  }

  function ParseCleaned(s: string): Option<Decimal> {
    if s != [] && s[0] == '-' then
      match ParseUnsigned(s[1..])
      case None => None
      case Some(d) => Some(Decimal(-d.coefficient, d.scale))
    else
      ParseUnsigned(s)
  }

  /** A blank or non-numeric cell is no number at all, never zero. */
  function ParseDecimal(value: string): Option<Decimal> {
    if Trim(value) == [] then None else ParseCleaned(Clean(Trim(value)))
  }

  function ToDecimal(value: string): Option<real> {
    match ParseDecimal(value)
    case None => None
    case Some(d) => Some(d.Value())
  }

  function OrElse(d: Option<real>, default: real): real {
    match d
    case None => default
    case Some(x) => x
  }

  lemma BlankIsNoNumber()
    ensures ParseDecimal("") == None && ToDecimal("") == None
  {
  }

  // --- Rounding -------------------------------------------------------------

  function Abs(x: real): (r: real)
    ensures r >= 0.0
  {
    if x < 0.0 then -x else x
  }

  /** Half-up means half away from zero. */
  function RoundHalfUp(x: real): (k: int)
    ensures Abs(k as real - x) <= 0.5
    ensures x >= 0.0 ==> k >= 0 && (k as real - x == -0.5 ==> false)
    ensures x <= 0.0 ==> k <= 0 && (k as real - x == 0.5 ==> false)
  {
    if x < 0.0 then -((-x + 0.5).Floor) else (x + 0.5).Floor
  }

  function Units(x: real, dp: nat): int {
    RoundHalfUp(x * Pow10(dp) as real)
  }

  function RoundTo(x: real, dp: nat): real {
    Units(x, dp) as real / Pow10(dp) as real
  }

  predicate HasDecimals(x: real, dp: nat) {
    RoundTo(x, dp) == x
  }

  lemma ScaleUp(k: int, p: int)
    requires p >= 1
    ensures (k as real / p as real) * p as real == k as real
  {
  }

  lemma WholeUnits(k: int, dp: nat)
    ensures Units(k as real / Pow10(dp) as real, dp) == k
    ensures HasDecimals(k as real / Pow10(dp) as real, dp)
  {
    ScaleUp(k, Pow10(dp));
  }

  /** Rounding lands on the grid, so rounding twice is rounding once. */
  lemma RoundingSettles(x: real, dp: nat)
    ensures HasDecimals(RoundTo(x, dp), dp)
  {
    WholeUnits(Units(x, dp), dp);
  }

  lemma RoundingError(x: real)
    ensures -0.005 <= RoundTo(x, 2) - x <= 0.005
  {
    assert Pow10(2) == 100;
  }

  // --- Printing -------------------------------------------------------------

  function PointDigits(whole: nat, frac: nat, dp: nat): string {
    Digits(whole) + if dp == 0 then [] else "." + FixedDigits(frac, dp)
  }

  lemma QuotientIsNat(n: nat, p: int)
    requires p >= 1
    ensures n / p >= 0
  {
  }

  function Whole(n: nat, dp: nat): nat {
    QuotientIsNat(n, Pow10(dp));
    n / Pow10(dp)
  }

  function Fraction(n: nat, dp: nat): (f: nat)
    ensures f < Pow10(dp) && Whole(n, dp) * Pow10(dp) + f == n
  {
    n % Pow10(dp)
  }

  function FixedPoint(n: nat, dp: nat): string {
    PointDigits(Whole(n, dp), Fraction(n, dp), dp)
  }

  /** Fixed-point print; the sign is taken before rounding, so a tiny negative prints as -0.00. */
  function ToFixed(x: real, dp: nat): string {
    var k := Units(x, dp);
    if x < 0.0 then "-" + FixedPoint(if k < 0 then -k else 0, dp) else FixedPoint(if k < 0 then 0 else k, dp)
  }

  function Round(value: string, dp: nat): string {
    ToFixed(RoundTo(OrElse(ToDecimal(value), 0.0), dp), dp)
  }

  predicate AmountsEqual(a: Option<real>, b: Option<real>) {
    a.Some? && b.Some? && RoundTo(a.value, AMOUNT_DP) == RoundTo(b.value, AMOUNT_DP)
  }

  predicate NumberChars(s: string) {
    s != [] && forall c :: c in s ==> IsDigit(c) || c == '.' || c == '-'
  }

  lemma ParsePointDigits(whole: nat, frac: nat, dp: nat)
    requires frac < Pow10(dp)
    ensures var s := PointDigits(whole, frac, dp);
      && ParseUnsigned(s) == Some(Decimal(whole * Pow10(dp) + frac, dp))
      && NumberChars(s) && s[0] != '-'
  {
    var w := Digits(whole);
    NatOfDigits(whole);
    assert w[0] in w && PointDigits(whole, frac, dp)[0] == w[0];
    if dp == 0 {
      assert w + [] == w;
      assert !IsDigit('.');
      assert w[..|w|] == w;
      assert Dot(w) == |w|;
    } else {
      ParseWithPoint(w, FixedDigits(frac, dp));
      NatOfFixedDigits(frac, dp);
      NatOfConcat(w, FixedDigits(frac, dp));
    }
  }

  lemma ParseWithPoint(whole: string, frac: string)
    requires whole != [] && frac != [] && AllDigits(whole) && AllDigits(frac)
    ensures AllDigits(whole + frac)
    ensures ParseUnsigned(whole + ("." + frac)) == Some(Decimal(NatOf(whole + frac), |frac|))
  {
    var s := whole + ("." + frac);
    assert s[..|whole|] == whole && s[|whole| + 1..] == frac;
    assert !IsDigit('.');
    DotAt(s, |whole|);
  }

  lemma ParseFixedPoint(n: nat, dp: nat)
    ensures ParseUnsigned(FixedPoint(n, dp)) == Some(Decimal(n, dp))
    ensures NumberChars(FixedPoint(n, dp)) && FixedPoint(n, dp)[0] != '-'
  {
    ParsePointDigits(Whole(n, dp), Fraction(n, dp), dp);
  }

  lemma CleanKeepsNumber(s: string)
    requires NumberChars(s)
    ensures Trim(s) == s
    ensures Clean(s) == s
  {
    assert s[0] in s && s[|s| - 1] in s;
    TrimIsTrimmed(s);
    FilterKeepsAll(s, c => !IsSeparator(c));
    if |s| >= 3 {
      assert ToUpper(s[..3])[0] == s[0];
    }
  }

  /** A number written with its sign parses to that number of units. */
  lemma ParseSigned(k: int, negative: bool, dp: nat)
    requires if negative then k <= 0 else k >= 0
    ensures var s := if negative then "-" + FixedPoint(-k, dp) else FixedPoint(k, dp);
      && NumberChars(s)
      && ParseDecimal(s) == Some(Decimal(k, dp))
  {
    hide Trim, Clean, ParseUnsigned, FixedPoint;
    var n: nat := if negative then -k else k;
    ParseFixedPoint(n, dp);
    var s := if negative then "-" + FixedPoint(n, dp) else FixedPoint(n, dp);
    CleanKeepsNumber(s);
    if negative {
      assert s[1..] == FixedPoint(n, dp);
    }
  }

  /** Reading back a fixed-point print gives the value rounded to the printed places. */
  lemma ParsePrint(x: real, dp: nat)
    ensures ToFixed(x, dp) != []
    ensures ToDecimal(ToFixed(x, dp)) == Some(RoundTo(x, dp))
  {
    hide Units, FixedPoint, ParseDecimal, Pow10;
    UnitsSign(x, dp);
    ParseSigned(Units(x, dp), x < 0.0, dp);
  }

  lemma UnitsSign(x: real, dp: nat)
    ensures x < 0.0 ==> Units(x, dp) <= 0
    ensures x >= 0.0 ==> Units(x, dp) >= 0
  {
    if x >= 0.0 {
      assert x * Pow10(dp) as real >= 0.0;
    } else {
      assert x * Pow10(dp) as real <= 0.0;
    }
  }

  /** Parsing a whole number written out in digits. */
  lemma ParseDigits(n: nat)
    ensures ToDecimal(Digits(n)) == Some(n as real)
  {
    hide ParseDecimal, Digits;
    ParseSigned(n, false, 0);
    assert Whole(n, 0) == n / 1 == n;
    assert FixedPoint(n, 0) == Digits(n) + [] == Digits(n);
  }

  // --- Display --------------------------------------------------------------

  /** A comma before every group of three digits, counted from the right. */
  function GroupThousands(digits: string): string {
    if |digits| <= 3 then digits else GroupThousands(digits[..|digits| - 3]) + "," + digits[|digits| - 3..]
  }

  function GroupedPoint(whole: nat, frac: nat, dp: nat): string {
    GroupThousands(Digits(whole)) + if dp == 0 then [] else "." + FixedDigits(frac, dp)
  }

  function FormatAmount(value: string, dp: nat): string {
    match ToDecimal(value)
    case None => ""
    case Some(d) =>
      var k := Units(d, dp);
      var n := if k < 0 then -k else k;
      (if k < 0 then "-" else "") + GroupedPoint(Whole(n, dp), Fraction(n, dp), dp)
  }

  lemma FilterDropsComma(front: string, last: string)
    requires AllDigits(last)
    ensures Filter(front + "," + last, c => !IsSeparator(c)) == Filter(front, c => !IsSeparator(c)) + last
  {
    var keep := (c: char) => !IsSeparator(c);
    assert Filter(",", keep) == [] by { assert ","[1..] == []; }
    hide Filter;
    FilterConcat(front + ",", last, keep);
    FilterConcat(front, ",", keep);
    FilterKeepsAll(last, keep);
    assert Filter(front, keep) + [] == Filter(front, keep);
  }

  /** Taking the commas out gives the digits back. */
  lemma {:induction false} GroupsKeepDigits(digits: string)
    requires AllDigits(digits)
    ensures Filter(GroupThousands(digits), c => !IsSeparator(c)) == digits
    ensures digits != [] ==> GroupThousands(digits) != [] && IsDigit(GroupThousands(digits)[0])
  {
    var keep := (c: char) => !IsSeparator(c);
    if |digits| <= 3 {
      FilterKeepsAll(digits, keep);
    } else {
      var front, last := digits[..|digits| - 3], digits[|digits| - 3..];
      var h := GroupThousands(front);
      GroupsKeepDigits(front);
      assert forall c :: c in last ==> c in digits;
      hide Filter;
      FilterDropsComma(h, last);
      assert front + last == digits;
    }
  }

  /** Commas stand exactly at every fourth place from the right. */
  lemma {:induction false} GroupsOfThree(digits: string, i: nat)
    requires AllDigits(digits) && i < |GroupThousands(digits)|
    ensures GroupThousands(digits)[|GroupThousands(digits)| - 1 - i] == ',' <==> i % 4 == 3
  {
    var g := GroupThousands(digits);
    if |digits| <= 3 {
      assert g[|g| - 1 - i] in digits;
    } else {
      var front, last := digits[..|digits| - 3], digits[|digits| - 3..];
      var h := GroupThousands(front);
      assert g == h + ("," + last);
      if i >= 4 {
        GroupsOfThree(front, i - 4);
      } else if i < 3 {
        assert g[|g| - 1 - i] == last[2 - i] == digits[|digits| - 1 - i];
        assert digits[|digits| - 1 - i] in digits;
      }
    }
  }

  lemma GroupedPointCleans(whole: nat, frac: nat, dp: nat)
    ensures var g := GroupedPoint(whole, frac, dp);
      && Filter(g, c => !IsSeparator(c)) == PointDigits(whole, frac, dp)
      && g != [] && IsDigit(g[0]) && IsDigit(g[|g| - 1])
  {
    hide Filter, FixedDigits, Digits, GroupThousands;
    var keep := (c: char) => !IsSeparator(c);
    var tail := if dp == 0 then [] else "." + FixedDigits(frac, dp);
    var g := GroupThousands(Digits(whole));
    GroupsKeepDigits(Digits(whole));
    FilterConcat(g, tail, keep);
    FilterKeepsAll(tail, keep);
    if dp == 0 {
      assert g + [] == g && Digits(whole) + [] == Digits(whole);
      GroupsEndInDigit(Digits(whole));
    } else {
      assert (g + tail)[|g + tail| - 1] == FixedDigits(frac, dp)[dp - 1];
    }
  }

  lemma GroupsEndInDigit(digits: string)
    requires digits != [] && AllDigits(digits)
    ensures GroupThousands(digits) != []
    ensures IsDigit(GroupThousands(digits)[|GroupThousands(digits)| - 1])
  {
    assert digits[|digits| - 1] in digits;
  }

  /** The portal's display form reads back as the amount it shows. */
  lemma FormatParses(value: string, dp: nat)
    requires ToDecimal(value).Some?
    ensures ToDecimal(FormatAmount(value, dp)) == Some(RoundTo(ToDecimal(value).value, dp))
  {
    hide Units, ParseDecimal, Pow10, GroupedPoint;
    var k := Units(ToDecimal(value).value, dp);
    ShownParses(k, dp);
  }

  lemma ShownParses(k: int, dp: nat)
    ensures var n: nat := if k < 0 then -k else k;
      ParseDecimal((if k < 0 then "-" else "") + GroupedPoint(Whole(n, dp), Fraction(n, dp), dp)) == Some(Decimal(k, dp))
  {
    hide *;
    var n: nat := if k < 0 then -k else k;
    GroupedPointCleans(Whole(n, dp), Fraction(n, dp), dp);
    FixedPointIs(n, dp);
    ParseFixedPoint(n, dp);
    SignedCleans(k < 0, GroupedPoint(Whole(n, dp), Fraction(n, dp), dp), FixedPoint(n, dp));
    ParseSigned(k, k < 0, dp);
    assert "" + FixedPoint(n, dp) == FixedPoint(n, dp);
  }

  lemma FixedPointIs(n: nat, dp: nat)
    ensures FixedPoint(n, dp) == PointDigits(Whole(n, dp), Fraction(n, dp), dp)
  {
  }

  lemma SignedCleans(negative: bool, shown: string, plain: string)
    requires shown != [] && IsDigit(shown[0]) && IsDigit(shown[|shown| - 1])
    requires Filter(shown, c => !IsSeparator(c)) == plain
    requires NumberChars(plain)
    ensures var sign := if negative then "-" else "";
      ParseDecimal(sign + shown) == ParseDecimal(sign + plain)
  {
    hide Filter, Trim, ParseCleaned, StripCurrency;
    var sign := if negative then "-" else "";
    var keep := (c: char) => !IsSeparator(c);
    FilterConcat(sign, shown, keep);
    FilterKeepsAll(sign, keep);
    assert (sign + shown)[|sign + shown| - 1] == shown[|shown| - 1];
    TrimIsTrimmed(sign + shown);
    CleanKeepsNumber(sign + plain);
    FilterKeepsAll(sign + plain, keep);
  }
}
