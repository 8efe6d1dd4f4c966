/** VAT by category, and what the recalculated totals conserve. */
module Subtotals {
  import opened Text
  import opened Money
  import opened Calc

  datatype TaxSubtotal = TaxSubtotal(
    category: string,
    rate: string,
    taxableAmount: string,
    taxAmount: string,
    exemptionReason: Option<string>
  )

  datatype Bucket = Bucket(taxable: real, tax: real, rate: real)

  function MoneyText(x: real): string {
    ToFixed(RoundTo(x, AMOUNT_DP), AMOUNT_DP)
  }

  // --- What the grouping must produce ---------------------------------------

  /** Known categories in the order their first line appears. */
  function Categories(lines: seq<Line>): (r: seq<string>)
    ensures forall c :: c in r <==> KnownCategory(c) && exists l :: l in lines && l.vatCategory == c
    ensures forall i, j :: 0 <= i < j < |r| ==> r[i] != r[j]
  {
    if lines == [] then [] else
      var front, last := Categories(lines[..|lines| - 1]), lines[|lines| - 1].vatCategory;
      assert forall l :: l in lines <==> l in lines[..|lines| - 1] || l == lines[|lines| - 1];
      if KnownCategory(last) && last !in front then front + [last] else front
  }

  function CategoryNet(lines: seq<Line>, category: string): real {
    if lines == [] then 0.0 else
      var l := lines[|lines| - 1];
      CategoryNet(lines[..|lines| - 1], category) + if l.vatCategory == category then Amount(l.netAmount) else 0.0
  }

  function CategoryVat(lines: seq<Line>, category: string): real {
    if lines == [] then 0.0 else
      var l := lines[|lines| - 1];
      CategoryVat(lines[..|lines| - 1], category) + if l.vatCategory == category then Amount(l.vatAmount) else 0.0
  }

  function CategoryCount(lines: seq<Line>, category: string): nat {
    if lines == [] then 0 else
      CategoryCount(lines[..|lines| - 1], category) + if lines[|lines| - 1].vatCategory == category then 1 else 0
  }

  function SubtotalOf(lines: seq<Line>, category: string): TaxSubtotal {
    TaxSubtotal(category, ToFixed(ExpectedRate(category), 2),
                MoneyText(CategoryNet(lines, category)), MoneyText(CategoryVat(lines, category)),
                ExemptionReason(category))
  }

  /** One pass over the lines, keyed by category and rate, keeping first-seen order. */
  method TaxSubtotals(invoice: Invoice) returns (out: seq<TaxSubtotal>)
    ensures |out| == |Categories(invoice.lines)|
    ensures forall i :: 0 <= i < |out| ==> out[i] == SubtotalOf(invoice.lines, Categories(invoice.lines)[i])
  {
    hide ToFixed, MoneyText, Categories, CategoryNet, CategoryVat;
    var lines := invoice.lines;
    var keys, buckets := CollectBuckets(lines);
    out := [];
    for n := 0 to |keys|
      invariant |out| == n
      invariant forall i :: 0 <= i < n ==> out[i] == SubtotalOf(lines, Categories(lines)[i])
    {
      var b := buckets[keys[n]];
      out := out + [TaxSubtotal(keys[n].0, ToFixed(b.rate, 2), MoneyText(b.taxable), MoneyText(b.tax), ExemptionReason(keys[n].0))];
    }
  }

  method CollectBuckets(lines: seq<Line>) returns (keys: seq<(string, string)>, buckets: map<(string, string), Bucket>)
    ensures |keys| == |Categories(lines)|
    ensures forall i :: 0 <= i < |keys| ==>
      keys[i] == KeyOf(Categories(lines)[i]) && keys[i] in buckets && buckets[keys[i]] == BucketOf(lines, keys[i].0)
  {
    hide ToFixed, Amount, KnownCategory, ExpectedRate, Categories, CategoryNet, CategoryVat;
    keys, buckets := [], map[];
    CategoriesStart();
    for n := 0 to |lines|
      invariant |keys| == |Categories(lines[..n])|
      invariant forall i :: 0 <= i < |keys| ==> keys[i] == KeyOf(Categories(lines[..n])[i])
      invariant forall k :: k in buckets ==> k in keys
      invariant forall i :: 0 <= i < |keys| ==> keys[i] in buckets && buckets[keys[i]] == BucketOf(lines[..n], keys[i].0)
    {
      CategoryStep(lines, n);
      var line := lines[n];
      var category := line.vatCategory;
      if KnownCategory(category) {
        var key := KeyOf(category);
        if key !in buckets {
          CategoryUnseen(lines[..n], category);
          keys := keys + [key];
          buckets := buckets[key := Bucket(0.0, 0.0, ExpectedRate(category))];
        }
        var bucket := buckets[key];
        buckets := buckets[key := Bucket(bucket.taxable + Amount(line.netAmount),
                                         bucket.tax + Amount(line.vatAmount), bucket.rate)];
      }
    }
    assert lines[..|lines|] == lines;
  }

  lemma CategoriesStart()
    ensures Categories([]) == []
  {
  }

  lemma CategoryStep(lines: seq<Line>, n: nat)
    requires n < |lines|
    ensures var before, after, line := lines[..n], lines[..n + 1], lines[n];
      && Categories(after) == Categories(before)
           + (if KnownCategory(line.vatCategory) && line.vatCategory !in Categories(before) then [line.vatCategory] else [])
      && (forall c :: CategoryNet(after, c) == CategoryNet(before, c) + if line.vatCategory == c then Amount(line.netAmount) else 0.0)
      && (forall c :: CategoryVat(after, c) == CategoryVat(before, c) + if line.vatCategory == c then Amount(line.vatAmount) else 0.0)
  {
    hide KnownCategory, Amount;
    assert lines[..n + 1][..n] == lines[..n];
    assert Categories(lines[..n]) + [] == Categories(lines[..n]);
  }

  function KeyOf(category: string): (string, string) {
    (category, ToFixed(ExpectedRate(category), 2))
  }

  function BucketOf(lines: seq<Line>, category: string): Bucket {
    Bucket(CategoryNet(lines, category), CategoryVat(lines, category), ExpectedRate(category))
  }

  lemma {:induction false} CategoryUnseen(lines: seq<Line>, category: string)
    requires forall l :: l in lines ==> l.vatCategory != category
    ensures CategoryNet(lines, category) == 0.0 && CategoryVat(lines, category) == 0.0
    ensures CategoryCount(lines, category) == 0
  {
    if lines != [] {
      assert lines[|lines| - 1] in lines;
      CategoryUnseen(lines[..|lines| - 1], category);
    }
  }

  // --- Conservation ---------------------------------------------------------

  /** Derived cells as recalculation leaves them: two decimals, and net plus VAT is the total. */
  predicate Derived(line: Line) {
    && Cents(Amount(line.netAmount)) && Cents(Amount(line.vatAmount)) && Cents(Amount(line.lineTotal))
    && Amount(line.lineTotal) == Amount(line.netAmount) + Amount(line.vatAmount)
  }

  lemma RecalcDerives(lines: seq<Line>)
    ensures forall l :: l in RecalcLines(lines) ==> Derived(l)
  {
    hide RecalcLine, Derived;
    forall l | l in RecalcLines(lines)
      ensures Derived(l)
    {
      var i :| 0 <= i < |lines| && l == RecalcLine(lines[i]);
      DerivedLine(lines[i]);
    }
  }

  lemma DerivedLine(line: Line)
    ensures Derived(RecalcLine(line))
  {
    hide RecalcLine, Cents, Amount;
    RecalcLineReads(line);
  }

  lemma {:induction false} SumsOfDerived(lines: seq<Line>)
    requires forall l :: l in lines ==> Derived(l)
    ensures Cents(NetSum(lines)) && Cents(VatSum(lines)) && Cents(TotalSum(lines))
    ensures TotalSum(lines) == NetSum(lines) + VatSum(lines)
  {
    hide Cents, Amount;
    if lines == [] {
      CentsOf(0);
    } else {
      var front, last := lines[..|lines| - 1], lines[|lines| - 1];
      assert last in lines;
      SumsOfDerived(front);
      CentsAdd(NetSum(front), Amount(last.netAmount));
      CentsAdd(VatSum(front), Amount(last.vatAmount));
      CentsAdd(TotalSum(front), Amount(last.lineTotal));
    }
  }

  lemma {:induction false} CategorySumsOfDerived(lines: seq<Line>, category: string)
    requires forall l :: l in lines ==> Derived(l)
    ensures Cents(CategoryNet(lines, category)) && Cents(CategoryVat(lines, category))
  {
    hide Cents, Amount;
    CentsOf(0);
    if lines != [] {
      var front, last := lines[..|lines| - 1], lines[|lines| - 1];
      assert last in lines;
      CategorySumsOfDerived(front, category);
      CentsAdd(CategoryNet(front, category), if last.vatCategory == category then Amount(last.netAmount) else 0.0);
      CentsAdd(CategoryVat(front, category), if last.vatCategory == category then Amount(last.vatAmount) else 0.0);
    }
  }

  /** The header amounts of a recalculated invoice, read back from their text. */
  lemma HeaderReads(invoice: Invoice)
    ensures var y := RecalcInvoice(invoice);
      && Amount(y.lineExtensionAmount) == NetSum(y.lines) == Amount(y.taxExclusiveAmount)
      && Amount(y.vatTotalAmount) == VatSum(y.lines)
      && Amount(y.payableAmount) == TotalSum(y.lines) == Amount(y.taxInclusiveAmount)
      && TotalSum(y.lines) == NetSum(y.lines) + VatSum(y.lines)
      && ToDecimal(y.payableAmount) == Some(TotalSum(y.lines))
  {
    hide Print, ToDecimal, Amount, Derived, Cents, NetSum, VatSum, TotalSum;
    var lines := RecalcLines(invoice.lines);
    RecalcDerives(invoice.lines);
    SumsOfDerived(lines);
    PrintReads(NetSum(lines));
    PrintReads(VatSum(lines));
    PrintReads(NetSum(lines) + VatSum(lines));
  }

  function NetOver(lines: seq<Line>, categories: seq<string>): real {
    if categories == [] then 0.0 else
      NetOver(lines, categories[..|categories| - 1]) + CategoryNet(lines, categories[|categories| - 1])
  }

  function VatOver(lines: seq<Line>, categories: seq<string>): real {
    if categories == [] then 0.0 else
      VatOver(lines, categories[..|categories| - 1]) + CategoryVat(lines, categories[|categories| - 1])
  }

  /** Adding one line moves the sum over distinct categories by that line alone. */
  lemma {:induction false} OverOneMore(lines: seq<Line>, n: nat, categories: seq<string>)
    requires n < |lines|
    requires forall i, j :: 0 <= i < j < |categories| ==> categories[i] != categories[j]
    ensures var line := lines[n];
      && NetOver(lines[..n + 1], categories) == NetOver(lines[..n], categories)
           + (if line.vatCategory in categories then Amount(line.netAmount) else 0.0)
      && VatOver(lines[..n + 1], categories) == VatOver(lines[..n], categories)
           + (if line.vatCategory in categories then Amount(line.vatAmount) else 0.0)
  {
    hide Amount, CategoryNet, CategoryVat;
    if categories != [] {
      var front, last := categories[..|categories| - 1], categories[|categories| - 1];
      assert forall c :: c in categories <==> c in front || c == last;
      CategoryStep(lines, n);
      OverOneMore(lines, n, front);
    }
  }

  lemma OverAppend(lines: seq<Line>, categories: seq<string>, category: string)
    ensures NetOver(lines, categories + [category]) == NetOver(lines, categories) + CategoryNet(lines, category)
    ensures VatOver(lines, categories + [category]) == VatOver(lines, categories) + CategoryVat(lines, category)
  {
    hide CategoryNet, CategoryVat;
    assert (categories + [category])[..|categories|] == categories;
  }

  /** Lines of known categories are conserved: category sums over all categories give the header sums. */
  lemma {:induction false} CategoriesCover(lines: seq<Line>)
    requires forall l :: l in lines ==> KnownCategory(l.vatCategory)
    ensures NetOver(lines, Categories(lines)) == NetSum(lines)
    ensures VatOver(lines, Categories(lines)) == VatSum(lines)
  {
    if lines == [] {
      CategoriesStart();
    } else {
      var n := |lines| - 1;
      assert lines[n] in lines && lines[..n + 1] == lines;
      CategoriesCover(lines[..n]);
      CategoryStep(lines, n);
      hide Amount, KnownCategory, CategoryNet, CategoryVat, Categories, NetOver, VatOver;
      var before := Categories(lines[..n]);
      OverOneMore(lines, n, before);
      if lines[n].vatCategory !in before {
        OverAppend(lines, before, lines[n].vatCategory);
        CategoryUnseen(lines[..n], lines[n].vatCategory);
      } else {
        assert before + [] == before;
      }
    }
  }

  function TaxableTotal(subtotals: seq<TaxSubtotal>): real {
    if subtotals == [] then 0.0 else
      TaxableTotal(subtotals[..|subtotals| - 1]) + Amount(subtotals[|subtotals| - 1].taxableAmount)
  }

  function TaxTotal(subtotals: seq<TaxSubtotal>): real {
    if subtotals == [] then 0.0 else
      TaxTotal(subtotals[..|subtotals| - 1]) + Amount(subtotals[|subtotals| - 1].taxAmount)
  }

  function SubtotalsOf(lines: seq<Line>, categories: seq<string>): (r: seq<TaxSubtotal>)
    ensures |r| == |categories| && forall i :: 0 <= i < |r| ==> r[i] == SubtotalOf(lines, categories[i])
  {
    seq(|categories|, i requires 0 <= i < |categories| => SubtotalOf(lines, categories[i]))
  }

  /** The printed subtotal of a category reads back as the exact category sums. */
  lemma SubtotalReads(lines: seq<Line>, category: string)
    requires forall l :: l in lines ==> Derived(l)
    ensures Amount(SubtotalOf(lines, category).taxableAmount) == CategoryNet(lines, category)
    ensures Amount(SubtotalOf(lines, category).taxAmount) == CategoryVat(lines, category)
  {
    hide RoundTo, ToFixed, ToDecimal, CategoryNet, CategoryVat, Derived, Amount;
    CategorySumsOfDerived(lines, category);
    PrintReads(CategoryNet(lines, category));
    PrintReads(CategoryVat(lines, category));
  }

  lemma {:induction false} SubtotalSums(lines: seq<Line>, categories: seq<string>)
    requires forall l :: l in lines ==> Derived(l)
    ensures TaxableTotal(SubtotalsOf(lines, categories)) == NetOver(lines, categories)
    ensures TaxTotal(SubtotalsOf(lines, categories)) == VatOver(lines, categories)
  {
    hide Amount, CategoryNet, CategoryVat, Derived, SubtotalOf;
    if categories != [] {
      var front, last := categories[..|categories| - 1], categories[|categories| - 1];
      SubtotalSums(lines, front);
      SubtotalReads(lines, last);
      assert SubtotalsOf(lines, categories)[..|front|] == SubtotalsOf(lines, front);
    }
  }

  /**
   * VAT is conserved. When every category is a known code, the printed subtotals have distinct
   * categories and add up, exactly, to the printed header totals; and line totals add up to the payable.
   */
  lemma VatConserved(invoice: Invoice, subtotals: seq<TaxSubtotal>)
    requires forall l :: l in invoice.lines ==> KnownCategory(l.vatCategory)
    requires subtotals == SubtotalsOf(RecalcInvoice(invoice).lines, Categories(RecalcInvoice(invoice).lines))
    ensures var y := RecalcInvoice(invoice);
      && TaxableTotal(subtotals) == Amount(y.lineExtensionAmount)
      && TaxTotal(subtotals) == Amount(y.vatTotalAmount)
      && TotalSum(y.lines) == Amount(y.payableAmount)
      && (forall i, j :: 0 <= i < j < |subtotals| ==> subtotals[i].category != subtotals[j].category)
  {
    var lines := RecalcInvoice(invoice).lines;
    RecalcDerives(invoice.lines);
    SameCategories(invoice.lines);
    hide *;
    LinesOfRecalc(invoice);
    HeaderReads(invoice);
    SubtotalSums(lines, Categories(lines));
    CategoriesCover(lines);
    forall i, j | 0 <= i < j < |subtotals|
      ensures subtotals[i].category != subtotals[j].category
    {
      SubtotalCategory(lines, Categories(lines)[i]);
      SubtotalCategory(lines, Categories(lines)[j]);
    }
  }

  lemma LinesOfRecalc(invoice: Invoice)
    ensures RecalcInvoice(invoice).lines == RecalcLines(invoice.lines)
  {
  }

  lemma SubtotalCategory(lines: seq<Line>, category: string)
    ensures SubtotalOf(lines, category).category == category
  {
  }

  lemma SameCategories(lines: seq<Line>)
    requires forall l :: l in lines ==> KnownCategory(l.vatCategory)
    ensures forall l :: l in RecalcLines(lines) ==> KnownCategory(l.vatCategory)
  {
    hide RecalcLine, KnownCategory;
    forall l | l in RecalcLines(lines)
      ensures KnownCategory(l.vatCategory)
    {
      var i :| 0 <= i < |lines| && l == RecalcLine(lines[i]);
      assert lines[i] in lines;
      SameCategory(lines[i]);
    }
  }

  lemma SameCategory(line: Line)
    ensures RecalcLine(line).vatCategory == line.vatCategory
  {
  }

  // --- Drift ----------------------------------------------------------------

  /** A line's VAT is off the exact rate by at most half a cent, and not at all when the rate is zero. */
  predicate VatFollowsRate(line: Line) {
    KnownCategory(line.vatCategory) ==>
      var exact := Times(Amount(line.netAmount), ExpectedRate(line.vatCategory)) / 100.0;
      && -0.005 <= Amount(line.vatAmount) - exact <= 0.005
      && (line.vatCategory != "S" ==> Amount(line.vatAmount) == 0.0)
  }

  lemma LineVatFollowsRate(line: Line)
    ensures VatFollowsRate(RecalcLine(line))
  {
    SameCategory(line);
    if KnownCategory(line.vatCategory) {
      if Computable(line) {
        ComputedVat(line);
        VatError(LineNet(line), ExpectedRate(line.vatCategory));
        hide RecalcLine, VatOn, LineNet, Amount, KnownCategory, ExpectedRate, Computable, Times;
      } else {
        hide ToDecimal, RoundTo, Computable;
        BlankIsNoNumber();
      }
    }
  }

  lemma ComputedVat(line: Line)
    requires Computable(line) && KnownCategory(line.vatCategory)
    ensures Amount(RecalcLine(line).netAmount) == LineNet(line)
    ensures Amount(RecalcLine(line).vatAmount) == VatOn(LineNet(line), ExpectedRate(line.vatCategory))
  {
    RecalcLineReads(line);
    hide RecalcLine, VatOn, LineNet, ToDecimal, ExpectedRate, Computable, KnownCategory;
  }

  lemma VatError(net: real, rate: real)
    ensures -0.005 <= VatOn(net, rate) - Times(net, rate) / 100.0 <= 0.005
    ensures rate == 0.0 ==> VatOn(net, rate) == 0.0
  {
    hide RoundTo;
    RoundingError(Times(net, rate) / 100.0);
    ZeroRounds();
  }

  lemma ZeroRounds()
    ensures RoundTo(0.0, 2) == 0.0
  {
  }

  /** Rounding per line drifts by at most half a cent a line, and a zero-rated category carries no tax at all. */
  lemma {:induction false} CategoryDrift(lines: seq<Line>, category: string)
    requires KnownCategory(category)
    requires forall l :: l in lines ==> VatFollowsRate(l)
    ensures var exact := CategoryNet(lines, category) * ExpectedRate(category) / 100.0;
      && -0.005 * CategoryCount(lines, category) as real <= CategoryVat(lines, category) - exact
      && CategoryVat(lines, category) - exact <= 0.005 * CategoryCount(lines, category) as real
      && (category != "S" ==> CategoryVat(lines, category) == 0.0)
  {
    hide Amount;
    if lines != [] {
      var front, last := lines[..|lines| - 1], lines[|lines| - 1];
      assert last in lines;
      CategoryDrift(front, category);
    }
  }

  lemma SubtotalDrift(invoice: Invoice, category: string)
    requires KnownCategory(category)
    ensures var lines := RecalcInvoice(invoice).lines;
      var t := SubtotalOf(lines, category);
      var exact := Amount(t.taxableAmount) * ExpectedRate(category) / 100.0;
      && -0.005 * CategoryCount(lines, category) as real <= Amount(t.taxAmount) - exact
      && Amount(t.taxAmount) - exact <= 0.005 * CategoryCount(lines, category) as real
      && (category != "S" ==> Amount(t.taxAmount) == 0.0)
  {
    hide Amount, RecalcLine, VatFollowsRate, Derived, CategoryNet, CategoryVat, CategoryCount, Print, RoundTo, SubtotalOf;
    var lines := RecalcInvoice(invoice).lines;
    RecalcDerives(invoice.lines);
    SubtotalReads(lines, category);
    forall l | l in lines
      ensures VatFollowsRate(l)
    {
      var i :| 0 <= i < |invoice.lines| && l == RecalcLine(invoice.lines[i]);
      LineVatFollowsRate(invoice.lines[i]);
    }
    CategoryDrift(lines, category);
  }
}
