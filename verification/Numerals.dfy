/** How cells spell numbers and how amounts are spelled: which texts are numbers, and which number each is. */
module Numerals {
  import opened Text
  import opened Money

  /** The number a digit string spells, place by place from the left. */
  function Places(s: string): int
    requires AllDigits(s)
  {
    if s == "" then 0 else (s[0] as int - 48) * Pow10(|s| - 1) + Places(s[1..])
  }

  lemma {:induction false} PlacesAreRead(s: string)
    requires AllDigits(s)
    ensures NatOf(s) == Places(s)
  {
    if s != "" {
      PlacesAreRead(s[1..]);
      assert [s[0]] + s[1..] == s;
      NatOfConcat([s[0]], s[1..]);
      assert NatOf([s[0]]) == DigitValue(s[0]) by { assert [s[0]][..0] == []; }
    }
  }

  /** A cell without its commas and white space. */
  function Bare(s: string): string {
    if s == "" then "" else if s[0] == ',' || IsSpace(s[0]) then Bare(s[1..]) else [s[0]] + Bare(s[1..])
  }

  lemma {:induction false} BareIsFiltered(s: string)
    ensures Filter(s, c => !IsSeparator(c)) == Bare(s)
  {
    if s != "" {
      BareIsFiltered(s[1..]);
    }
  }

  /** Perhaps a minus, digits, and perhaps a point with digits after it. */
  function Numeral(sign: string, whole: string, frac: string): string {
    sign + (whole + if frac == "" then "" else "." + frac)
  }

  predicate IsNumeral(sign: string, whole: string, frac: string) {
    sign in {"", "-"} && AllDigits(whole) && AllDigits(frac) && (whole != "" || frac != "")
  }

  predicate IsCurrency(code: string) {
    code == "" || ToUpper(code) in {"AED", "USD", "EUR", "GBP", "SAR"}
  }

  /** A bare text that spells a number: perhaps a currency code in any case, then a numeral. */
  predicate Spells(bare: string, code: string, sign: string, whole: string, frac: string) {
    bare == code + Numeral(sign, whole, frac) && IsCurrency(code) && IsNumeral(sign, whole, frac)
  }

  function Worth(sign: string, whole: string, frac: string): real {
    if !AllDigits(whole + frac) then 0.0
    else
      var size := Places(whole + frac) as real / Pow10(|frac|) as real;
      if sign == "-" then -size else size
  }

  function Signed(sign: string, n: int): int {
    if sign == "-" then -n else n
  }

  lemma UnsignedReads(whole: string, frac: string)
    requires AllDigits(whole) && AllDigits(frac) && (whole != "" || frac != "")
    ensures AllDigits(whole + frac)
    ensures ParseUnsigned(whole + (if frac == "" then "" else "." + frac)) == Some(Decimal(NatOf(whole + frac), |frac|))
  {
    assert !IsDigit('.');
    if frac == "" {
      assert whole + "" == whole;
      assert Dot(whole) == |whole| && whole[..|whole|] == whole;
    } else {
      var s := whole + ("." + frac);
      DotAt(s, |whole|) by { assert s[..|whole|] == whole; }
      assert s[..|whole|] == whole && s[|whole| + 1..] == frac;
    }
  }

  lemma SignedReads(sign: string, whole: string, frac: string)
    requires IsNumeral(sign, whole, frac)
    ensures AllDigits(whole + frac)
    ensures ParseCleaned(Numeral(sign, whole, frac)) == Some(Decimal(Signed(sign, NatOf(whole + frac)), |frac|))
  {
    var tail := whole + if frac == "" then "" else "." + frac;
    UnsignedReads(whole, frac);
    assert tail[0] != '-' by {
      assert whole != "" ==> whole[0] in whole;
    }
    SignDecides(sign, tail);
    hide ParseUnsigned, ParseCleaned, NatOf;
  }

  lemma SignDecides(sign: string, tail: string)
    requires sign in {"", "-"} && tail != "" && tail[0] != '-'
    ensures ParseCleaned(sign + tail)
         == if ParseUnsigned(tail).None? then None
            else Some(ParseUnsigned(tail).value.(coefficient := Signed(sign, ParseUnsigned(tail).value.coefficient)))
  {
    hide ParseUnsigned;
    if sign == "-" {
      assert (sign + tail)[1..] == tail;
    } else {
      assert sign + tail == tail;
    }
  }

  lemma CodeStripped(code: string, sign: string, whole: string, frac: string)
    requires IsCurrency(code) && IsNumeral(sign, whole, frac)
    ensures StripCurrency(code + Numeral(sign, whole, frac)) == Numeral(sign, whole, frac)
  {
    var tail := Numeral(sign, whole, frac);
    if code == "" {
      assert code + tail == tail;
      NoLetters(sign, whole, frac);
      hide Numeral;
      if |tail| >= 3 {
        assert tail[0] in tail;
        assert ToUpper(tail[..3])[0] == tail[0];
      }
    } else {
      hide Numeral;
      assert |code| == |ToUpper(code)| == 3;
      assert (code + tail)[..3] == code && (code + tail)[3..] == tail;
    }
  }

  lemma NoLetters(sign: string, whole: string, frac: string)
    requires IsNumeral(sign, whole, frac)
    ensures Numeral(sign, whole, frac) != ""
    ensures forall c :: c in Numeral(sign, whole, frac) ==> IsDigit(c) || c == '-' || c == '.'
  {
  }

  lemma NumeralParses(cell: string, code: string, sign: string, whole: string, frac: string)
    requires Spells(Bare(cell), code, sign, whole, frac)
    ensures AllDigits(whole + frac) && ParseDecimal(cell) == Some(Decimal(Signed(sign, NatOf(whole + frac)), |frac|))
  {
    CodeStripped(code, sign, whole, frac);
    SignedReads(sign, whole, frac);
    NoLetters(sign, whole, frac);
    hide Numeral, IsNumeral, IsCurrency, ParseCleaned, StripCurrency;
    CleanedIs(cell);
  }

  lemma CleanedIs(cell: string)
    ensures Clean(Trim(cell)) == StripCurrency(Bare(cell)) && (Bare(cell) != "" ==> Trim(cell) != "")
  {
    var keep := (c: char) => !IsSeparator(c);
    BareIsFiltered(cell);
    FilterIgnoresTrim(cell, keep);
    assert Filter("", keep) == "";
    hide Filter, Trim, Bare, StripCurrency;
  }

  lemma WorthReads(sign: string, whole: string, frac: string)
    requires AllDigits(whole + frac)
    ensures Decimal(Signed(sign, NatOf(whole + frac)), |frac|).Value() == Worth(sign, whole, frac)
  {
    hide NatOf, Places, Pow10;
    PlacesAreRead(whole + frac);
    Negated(Places(whole + frac), Pow10(|frac|));
  }

  lemma Negated(n: int, p: int)
    requires p >= 1
    ensures (-n) as real / p as real == -(n as real / p as real)
  {
  }

  /** Every cell that spells a number, with commas and white space anywhere in it, reads as that number. */
  lemma CellReadsAs(cell: string, code: string, sign: string, whole: string, frac: string)
    requires Spells(Bare(cell), code, sign, whole, frac)
    ensures AllDigits(whole + frac) && ToDecimal(cell) == Some(Worth(sign, whole, frac))
  {
    hide *;
    NumeralParses(cell, code, sign, whole, frac);
    WorthReads(sign, whole, frac);
    Reads(cell);
  }

  lemma Reads(cell: string)
    ensures ToDecimal(cell) == if ParseDecimal(cell).None? then None else Some(ParseDecimal(cell).value.Value())
  {
    hide ParseDecimal;
  }

  /** No other cell is a number. */
  lemma OnlySpelledCellsRead(cell: string) returns (code: string, sign: string, whole: string, frac: string)
    requires ToDecimal(cell).Some?
    ensures Spells(Bare(cell), code, sign, whole, frac)
  {
    var bare, clean := Bare(cell), StripCurrency(Bare(cell));
    CleanedIs(cell);
    assert ParseCleaned(clean).Some? by { hide ParseCleaned, StripCurrency, Bare, Trim; }
    sign, whole, frac := CleanedParts(clean);
    hide ParseCleaned, Trim, Bare, ParseDecimal, IsNumeral, Numeral;
    code := bare[..|bare| - |clean|];
    assert bare == code + clean;
  }

  lemma CleanedParts(clean: string) returns (sign: string, whole: string, frac: string)
    requires ParseCleaned(clean).Some?
    ensures clean == Numeral(sign, whole, frac) && IsNumeral(sign, whole, frac)
  {
    sign := if clean != "" && clean[0] == '-' then "-" else "";
    var tail := if sign == "-" then clean[1..] else clean;
    assert clean == sign + tail;
    assert ParseUnsigned(tail).Some? by { hide ParseUnsigned; }
    hide ParseCleaned;
    whole, frac := UnsignedParts(tail);
  }

  lemma UnsignedParts(tail: string) returns (whole: string, frac: string)
    requires ParseUnsigned(tail).Some?
    ensures tail == whole + (if frac == "" then "" else "." + frac)
    ensures AllDigits(whole) && AllDigits(frac) && (whole != "" || frac != "")
  {
    var i := Dot(tail);
    if i == |tail| {
      whole, frac := tail, "";
      assert tail[..i] == tail;
    } else {
      whole, frac := tail[..i], tail[i + 1..];
      assert tail == whole + ("." + frac);
    }
  }

  lemma {:induction false} NoLeadingZero(n: nat)
    ensures |Digits(n)| > 1 ==> Digits(n)[0] != '0'
    ensures n > 0 ==> Digits(n)[0] != '0'
  {
    if n >= 10 {
      NoLeadingZero(n / 10);
    }
  }

  /**
   * A printed amount: the value rounded to its places, with exactly that many digits after the point, no idle
   * leading zero, no currency and no separators, and a minus exactly when the value is below zero.
   */
  lemma PrintedAs(x: real, dp: nat) returns (sign: string, whole: string, frac: string)
    ensures ToFixed(x, dp) == Numeral(sign, whole, frac) && IsNumeral(sign, whole, frac)
    ensures |frac| == dp && (sign == "-" <==> x < 0.0) && whole != "" && (|whole| > 1 ==> whole[0] != '0')
    ensures Worth(sign, whole, frac) == RoundTo(x, dp)
  {
    UnitsSign(x, dp);
    hide Units, Pow10, Digits, FixedDigits, RoundTo, Worth;
    var k := Units(x, dp);
    var n: nat := if k < 0 then -k else k;
    sign, whole, frac := if x < 0.0 then "-" else "", Digits(Whole(n, dp)), FixedDigits(Fraction(n, dp), dp);
    NoLeadingZero(Whole(n, dp));
    assert ToFixed(x, dp) == sign + FixedPoint(n, dp) by {
      assert "" + FixedPoint(n, dp) == FixedPoint(n, dp);
      hide FixedPoint;
    }
    hide ToFixed;
    NumeralIs(sign, Whole(n, dp), Fraction(n, dp), dp);
    PrintReads(x, dp, sign, whole, frac);
  }

  lemma NumeralIs(sign: string, w: nat, f: nat, dp: nat)
    ensures sign + PointDigits(w, f, dp) == Numeral(sign, Digits(w), FixedDigits(f, dp))
  {
    hide Digits, FixedDigits;
  }

  lemma PrintReads(x: real, dp: nat, sign: string, whole: string, frac: string)
    requires ToFixed(x, dp) == Numeral(sign, whole, frac) && IsNumeral(sign, whole, frac)
    ensures Worth(sign, whole, frac) == RoundTo(x, dp)
  {
    hide *;
    ParsePrint(x, dp);
    NumeralIsBare(sign, whole, frac);
    PlainNumeral(sign, whole, frac);
    CellReadsAs(ToFixed(x, dp), "", sign, whole, frac);
  }

  lemma PlainNumeral(sign: string, whole: string, frac: string)
    requires IsNumeral(sign, whole, frac)
    ensures Spells(Numeral(sign, whole, frac), "", sign, whole, frac)
  {
    hide Numeral;
    assert "" + Numeral(sign, whole, frac) == Numeral(sign, whole, frac);
  }

  lemma NumeralIsBare(sign: string, whole: string, frac: string)
    requires IsNumeral(sign, whole, frac)
    ensures Bare(Numeral(sign, whole, frac)) == Numeral(sign, whole, frac)
  {
    NoLetters(sign, whole, frac);
    hide Numeral;
    NothingToDrop(Numeral(sign, whole, frac));
  }

  lemma {:induction false} NothingToDrop(s: string)
    requires forall c :: c in s ==> IsDigit(c) || c == '.' || c == '-'
    ensures Bare(s) == s
  {
    if s != "" {
      assert s[0] in s;
      NothingToDrop(s[1..]);
    }
  }
}
