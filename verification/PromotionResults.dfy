/** What promotion guarantees: when a submission aborts, what stays frozen, and where the number checks disagree. */
module PromotionResults {
  import opened Text
  import opened Calc
  import opened Codes
  import opened Validate
  import opened RecalcFindings
  import AutoFix
  import opened StagedPayload
  import opened Patches
  import opened Staging
  import opened StagingRules
  import opened PromotionRules

  // --- When a submission aborts ---------------------------------------------

  /** One of the first `n` rows is chosen and carries this number. */
  predicate AnyChosen(rows: seq<Row>, n: nat, number: string, d: Submission)
    requires n <= |rows|
  {
    exists j :: 0 <= j < n && Chosen(rows[j], d) && rows[j].number == number
  }

  lemma AnyChosenStep(rows: seq<Row>, n: nat, number: string, d: Submission)
    requires n < |rows|
    ensures AnyChosen(rows, n + 1, number, d) <==> AnyChosen(rows, n, number, d) || (Chosen(rows[n], d) && rows[n].number == number)
  {
    hide Chosen;
  }

  lemma RowNumber<A>(s: Store<A>, b: BatchId, k: nat)
    requires Consistent(s) && b in s.rows && k < |s.rows[b]|
    ensures RecalcInvoice(s.rows[b][k].payload).invoiceNumber == s.rows[b][k].number
  {
    assert RowOk(s.rows[b][k], b, s.invoices, s.nextRow);
    KeepsNumber(s.rows[b][k].payload);
    hide RecalcInvoice;
  }

  /** After the first `n` rows: the numbers taken are those taken before and those just promoted. */
  predicate TakenBy<A>(s: Store<A>, b: BatchId, n: nat, d: Submission, number: string, t: Store<A>)
    requires b in s.rows && n <= |s.rows[b]|
  {
    && b in t.rows && |t.rows[b]| == |s.rows[b]|
    && (Taken(t.invoices, number) <==> Taken(s.invoices, number) || AnyChosen(s.rows[b], n, number, d))
    && (forall k :: n <= k < |s.rows[b]| ==> t.rows[b][k] == s.rows[b][k])
  }

  lemma {:induction false} TakenSoFar<A>(s: Store<A>, b: BatchId, n: nat, d: Submission, number: string)
    requires Consistent(s) && b in s.rows && n <= |s.rows[b]| && PromoteUpTo(s, b, n, d).Some?
    ensures TakenBy(s, b, n, d, number, PromoteUpTo(s, b, n, d).value)
  {
    hide Consistent, PromoteRow;
    if n == 0 {
      NoneChosenYet(s.rows[b], number, d);
      hide AnyChosen;
    } else {
      hide TakenBy;
      TakenSoFar(s, b, n - 1, d, number);
      var t := PromoteUpTo(s, b, n - 1, d).value;
      PromoteUpToConsistent(s, b, n - 1, d);
      PromotedNext(s, b, n, d, t);
      hide *;
      TakenNext(s, b, n - 1, d, number, t);
    }
  }

  lemma TakenNext<A>(s: Store<A>, b: BatchId, k: nat, d: Submission, number: string, t: Store<A>)
    requires Consistent(s) && Consistent(t) && b in s.rows && k < |s.rows[b]|
    requires TakenBy(s, b, k, d, number, t) && PromoteRow(t, b, k, d).Some?
    ensures TakenBy(s, b, k + 1, d, number, PromoteRow(t, b, k, d).value)
  {
    HeldOf(t);
    RowNumber(s, b, k);
    AnyChosenStep(s.rows[b], k, number, d);
    hide Consistent, PromoteRow, Taken, AnyChosen, Chosen, RecalcInvoice, InvoicesHeld;
    TakenAfterRow(t, b, k, d, number);
  }

  lemma NoneChosenYet(rows: seq<Row>, number: string, d: Submission)
    ensures !AnyChosen(rows, 0, number, d)
  {
  }

  lemma HeldOf<A>(t: Store<A>)
    requires Consistent(t)
    ensures InvoicesHeld(t)
  {
    hide RowsOk, IdsDistinct, InvoicesHeld, NumbersUnique, OnePerNumber;
  }

  lemma PromotedNext<A>(s: Store<A>, b: BatchId, n: nat, d: Submission, t: Store<A>)
    requires b in s.rows && 0 < n <= |s.rows[b]| && PromoteUpTo(s, b, n - 1, d) == Some(t)
    ensures PromoteUpTo(s, b, n, d) == PromoteRow(t, b, n - 1, d)
  {
    hide PromoteRow;
  }

  lemma TakenAfterRow<A>(t: Store<A>, b: BatchId, k: nat, d: Submission, number: string)
    requires InvoicesHeld(t) && b in t.rows && k < |t.rows[b]| && PromoteRow(t, b, k, d).Some?
    requires RecalcInvoice(t.rows[b][k].payload).invoiceNumber == t.rows[b][k].number
    ensures var u := PromoteRow(t, b, k, d).value;
      && b in u.rows && |u.rows[b]| == |t.rows[b]|
      && (Taken(u.invoices, number) <==> Taken(t.invoices, number) || (Chosen(t.rows[b][k], d) && t.rows[b][k].number == number))
      && (forall j :: k < j < |t.rows[b]| ==> u.rows[b][j] == t.rows[b][j])
  {
    hide RecalcInvoice, Holds;
    var u := PromoteRow(t, b, k, d).value;
    if Chosen(t.rows[b][k], d) {
      assert t.nextInvoice !in t.invoices;
      assert u.invoices[t.nextInvoice].number == t.rows[b][k].number;
      forall v | v in t.invoices
        ensures u.invoices[v] == t.invoices[v]
      {
      }
    }
  }

  predicate Collides<A>(s: Store<A>, b: BatchId, k: nat, d: Submission) {
    && b in s.rows && k < |s.rows[b]| && Chosen(s.rows[b][k], d)
    && (|| Taken(s.invoices, s.rows[b][k].number)
        || AnyChosen(s.rows[b], k, s.rows[b][k].number, d)
        || !Insertable(RecalcInvoice(s.rows[b][k].payload), d))
  }

  predicate AnyCollides<A>(s: Store<A>, b: BatchId, n: nat, d: Submission) {
    exists k :: 0 <= k < n && Collides(s, b, k, d)
  }

  /**
   * A submission aborts exactly when the tables refuse a chosen row, or its number is taken, by an
   * invoice or by an earlier chosen row.
   */
  lemma {:induction false} AbortsWhenTaken<A>(s: Store<A>, b: BatchId, n: nat, d: Submission)
    requires Consistent(s) && b in s.rows && n <= |s.rows[b]|
    ensures PromoteUpTo(s, b, n, d).None? <==> AnyCollides(s, b, n, d)
  {
    hide Consistent, Collides, PromoteRow;
    if n > 0 {
      hide AnyCollides;
      AbortsWhenTaken(s, b, n - 1, d);
      AnyCollidesStep(s, b, n - 1, d);
      if PromoteUpTo(s, b, n - 1, d).Some? {
        RowAborts(s, b, n - 1, d);
        PromotedNext(s, b, n, d, PromoteUpTo(s, b, n - 1, d).value);
      }
    }
  }

  lemma AnyCollidesStep<A>(s: Store<A>, b: BatchId, n: nat, d: Submission)
    ensures AnyCollides(s, b, n + 1, d) <==> AnyCollides(s, b, n, d) || Collides(s, b, n, d)
  {
    hide Collides;
  }

  lemma RowAborts<A>(s: Store<A>, b: BatchId, k: nat, d: Submission)
    requires Consistent(s) && b in s.rows && k < |s.rows[b]| && PromoteUpTo(s, b, k, d).Some?
    ensures PromoteRow(PromoteUpTo(s, b, k, d).value, b, k, d).None? <==> Collides(s, b, k, d)
  {
    hide Consistent, PromoteUpTo, Taken, AnyChosen, Chosen, RecalcInvoice;
    RowNumber(s, b, k);
    TakenSoFar(s, b, k, d, s.rows[b][k].number);
  }

  /**
   * A batch never collides with itself: when the chosen numbers carry no surrounding spaces and the chosen
   * rows fit the tables, a submission aborts if and only if one of the numbers is already on an invoice.
   */
  lemma NeverCollidesWithItself<A>(s: Store<A>, b: BatchId, d: Submission)
    requires Consistent(s) && b in s.rows
    requires forall k :: 0 <= k < |s.rows[b]| && Chosen(s.rows[b][k], d) ==>
      Trimmed(s.rows[b][k].number) && Insertable(RecalcInvoice(s.rows[b][k].payload), d)
    ensures PromoteUpTo(s, b, |s.rows[b]|, d).None? <==>
      exists k :: 0 <= k < |s.rows[b]| && Chosen(s.rows[b][k], d) && Taken(s.invoices, s.rows[b][k].number)
  {
    AbortsWhenTaken(s, b, |s.rows[b]|, d);
    RowsSound(s, b);
    hide Consistent, Taken, Trimmed, Sound, PromoteUpTo;
    forall k | 0 <= k < |s.rows[b]|
      ensures Collides(s, b, k, d) <==> Chosen(s.rows[b][k], d) && Taken(s.invoices, s.rows[b][k].number)
    {
      assert Chosen(s.rows[b][k], d) ==> !AnyChosen(s.rows[b], k, s.rows[b][k].number, d);
    }
    hide Collides, Chosen;
  }

  /**
   * Re-filing a rejected number: the rules let it pass, because a rejected invoice does not block its
   * number, but the number is still taken, so any submission that chooses the corrected row aborts.
   */
  lemma RejectedNumberBlocksSubmission<A>(s: Store<A>, b: BatchId, k: nat, d: Submission, v: InvoiceId, candidates: set<string>)
    requires Consistent(s) && b in s.rows && k < |s.rows[b]| && Chosen(s.rows[b][k], d)
    requires v in s.invoices && s.invoices[v].status == RejectedByFta && s.invoices[v].number == s.rows[b][k].number
    ensures s.rows[b][k].number !in FiledNumbers(s.invoices, candidates)
    ensures Submit(s, b, d) == s
  {
    assert NumbersUnique(s.invoices);
    AbortsWhenTaken(s, b, |s.rows[b]|, d);
    assert Taken(s.invoices, s.rows[b][k].number);
    hide Consistent, Chosen, PromoteUpTo;
    assert Collides(s, b, k, d);
    hide Collides, Taken;
    assert AnyCollides(s, b, |s.rows[b]|, d);
  }

  // --- The number rule on an edited row -------------------------------------

  /** The number is on an invoice that is not rejected. */
  predicate Live<A>(invoices: map<InvoiceId, Filed<A>>, number: string) {
    exists v :: v in invoices && invoices[v].status != RejectedByFta && invoices[v].number == number
  }

  lemma {:induction false} CountedInColumn(rows: seq<Row>, number: string)
    requires number != ""
    ensures number in ColumnOf(rows) <==> CountColumn(rows, number) > 0
  {
    if rows != [] {
      var front := rows[..|rows| - 1];
      CountedInColumn(front, number);
      assert forall r :: r in rows <==> r in front || r == rows[|rows| - 1];
    }
  }

  /**
   * Exactly what the duplicate rules say of an edited row. Others are counted as they spell their numbers and
   * looked up trimmed; the row's own number counts, and is looked up among live invoices, only when it carries
   * no stray spaces. So a trimmed number must be on no other row and no live invoice, while the same number
   * with a stray space passes as long as at most one other row spells it without.
   */
  lemma EditedNumberRule<A>(s: Store<A>, b: BatchId, id: RowId, x: Invoice, ctx: Context)
    ensures var n := Trim(x.invoiceNumber);
      NumberOk(x, EditContext(s, b, id, x, ctx)) <==>
        && NumberFormat(n)
        && (Trimmed(x.invoiceNumber) ==> !Live(s.invoices, n))
        && CountColumn(Without(RowsOf(s, b), id), n) + (if Trimmed(x.invoiceNumber) then 1 else 0) <= 1
  {
    var n := Trim(x.invoiceNumber);
    var others := Without(RowsOf(s, b), id);
    TrimIsTrimmed(x.invoiceNumber);
    assert Trimmed(x.invoiceNumber) <==> n == x.invoiceNumber;
    hide Trim, Trimmed, NumberFormat, CountColumn, Without;
    if n != "" {
      CountedInColumn(others, n);
      assert n in FiledNumbers(s.invoices, NumbersOf([x])) <==> n == x.invoiceNumber && Live(s.invoices, n) by {
        FiledMeans(s.invoices, x, n);
      }
      CountMeans(others, RowsOf(s, b), id, x.invoiceNumber, n);
    } else {
      assert !NumberFormat("") by { BlankHasNoFormat(); }
    }
    hide FiledNumbers, NumbersOf, CountsWithOwn, Live, ColumnOf;
  }

  lemma BlankHasNoFormat()
    ensures !NumberFormat("")
  {
  }

  lemma FiledMeans<A>(invoices: map<InvoiceId, Filed<A>>, x: Invoice, n: string)
    requires n != ""
    ensures n in FiledNumbers(invoices, NumbersOf([x])) <==> n == x.invoiceNumber && Live(invoices, n)
  {
  }

  lemma CountMeans(others: seq<Row>, rows: seq<Row>, id: RowId, number: string, n: string)
    requires others == Without(rows, id) && n != ""
    requires n in ColumnOf(others) <==> CountColumn(others, n) > 0
    ensures var counts := CountsWithOwn(rows, id, number);
      n in counts && counts[n] > 1 <==> CountColumn(others, n) + (if number == n then 1 else 0) > 1
  {
    hide CountColumn, Without, ColumnOf;
  }

  // --- Frozen rows ----------------------------------------------------------

  /** Every promoted row of the batch is still there, unchanged. */
  predicate PromotedKept(before: seq<Row>, after: seq<Row>) {
    forall i :: 0 <= i < |before| && before[i].invoiceId.Some? ==> before[i] in after
  }

  lemma ParseFreezes<A>(s: Store<A>, b: BatchId, c: BatchId, parsed: seq<Invoice>, synthetic: seq<Invoice>, ctx: Context)
    requires c in s.rows
    ensures c in Parse(s, b, parsed, synthetic, ctx).rows && PromotedKept(s.rows[c], Parse(s, b, parsed, synthetic, ctx).rows[c])
  {
    hide NewRows, ParseContext, Logged, CountersOf;
  }

  lemma EditFreezes<A>(s: Store<A>, b: BatchId, c: BatchId, id: RowId, p: Patch, ctx: Context)
    requires b in s.rows && c in s.rows
    ensures c in Edit(s, b, id, p, ctx).rows && PromotedKept(s.rows[c], Edit(s, b, id, p, ctx).rows[c])
  {
    hide Patches.Changes, Patched, RecalcInvoice, Judged, EditContext, CountersOf, Position;
    var i := Position(s.rows[b], id);
    var t := Edit(s, b, id, p, ctx);
    forall k | 0 <= k < |s.rows[c]| && s.rows[c][k].invoiceId.Some?
      ensures s.rows[c][k] in t.rows[c]
    {
      assert t.rows[c][k] == s.rows[c][k];
    }
  }

  lemma RewritesFreeze<A>(s: Store<A>, b: BatchId, c: BatchId, ctx: Context)
    requires b in s.rows && c in s.rows
    ensures c in Revalidate(s, b, ctx).rows && PromotedKept(s.rows[c], Revalidate(s, b, ctx).rows[c])
    ensures c in AutoFixRows(s, b, ctx).rows && PromotedKept(s.rows[c], AutoFixRows(s, b, ctx).rows[c])
  {
    hide BatchContext, Relogged, CountersOf, Judged, RecalcInvoice, AutoFix.Fix, AutoFix.Changes;
    var t, u := Revalidate(s, b, ctx), AutoFixRows(s, b, ctx);
    forall k | 0 <= k < |s.rows[c]| && s.rows[c][k].invoiceId.Some?
      ensures s.rows[c][k] in t.rows[c] && s.rows[c][k] in u.rows[c]
    {
      assert t.rows[c][k] == s.rows[c][k] && u.rows[c][k] == s.rows[c][k];
    }
  }

  lemma DeleteFreezes<A>(s: Store<A>, b: BatchId, c: BatchId, id: RowId)
    requires b in s.rows && c in s.rows
    ensures c in Delete(s, b, id).rows && PromotedKept(s.rows[c], Delete(s, b, id).rows[c])
  {
    DeleteIs(s, b, id);
    hide Delete, Position;
    var i, t := Position(s.rows[b], id), Delete(s, b, id);
    forall k | 0 <= k < |s.rows[c]| && s.rows[c][k].invoiceId.Some?
      ensures s.rows[c][k] in t.rows[c]
    {
      if c == b && i < |s.rows[b]| && s.rows[b][i].invoiceId.None? {
        assert t.rows[c][if k < i then k else k - 1] == s.rows[c][k];
      }
    }
  }

  lemma {:induction false} PromotionFreezes<A>(s: Store<A>, b: BatchId, n: nat, d: Submission, c: BatchId, k: nat)
    requires b in s.rows && n <= |s.rows[b]| && PromoteUpTo(s, b, n, d).Some?
    requires c in s.rows && k < |s.rows[c]| && s.rows[c][k].invoiceId.Some?
    ensures var t := PromoteUpTo(s, b, n, d).value;
      c in t.rows && |t.rows[c]| == |s.rows[c]| && t.rows[c][k] == s.rows[c][k]
  {
    if n > 0 {
      PromotionFreezes(s, b, n - 1, d, c, k);
      RowFreezes(PromoteUpTo(s, b, n - 1, d).value, b, n - 1, d, c, k);
      hide PromoteRow;
    }
  }

  lemma RowFreezes<A>(t: Store<A>, b: BatchId, i: nat, d: Submission, c: BatchId, k: nat)
    requires b in t.rows && i < |t.rows[b]| && PromoteRow(t, b, i, d).Some?
    requires c in t.rows && k < |t.rows[c]| && t.rows[c][k].invoiceId.Some?
    ensures var u := PromoteRow(t, b, i, d).value;
      c in u.rows && |u.rows[c]| == |t.rows[c]| && u.rows[c][k] == t.rows[c][k]
  {
    hide Refused, NewInvoice;
  }

  /** Submitting never touches a row promoted before. */
  lemma SubmitFreezes<A>(s: Store<A>, b: BatchId, d: Submission, c: BatchId, k: nat)
    requires c in s.rows && k < |s.rows[c]| && s.rows[c][k].invoiceId.Some?
    ensures var t := Submit(s, b, d);
      c in t.rows && k < |t.rows[c]| && t.rows[c][k] == s.rows[c][k]
  {
    hide PromoteUpTo, CountersOf;
    if b in s.rows && PromoteUpTo(s, b, |s.rows[b]|, d).Some? {
      PromotionFreezes(s, b, |s.rows[b]|, d, c, k);
    }
  }

  /** A row promoted in `s` reads the same in `t`, or has been reopened because its own invoice was withdrawn. */
  ghost predicate FrozenOrWithdrawn<A>(s: Store<A>, t: Store<A>, ids: Option<set<InvoiceId>>, c: BatchId, k: nat)
    requires c in s.rows && k < |s.rows[c]| && s.rows[c][k].invoiceId.Some?
  {
    var v := s.rows[c][k].invoiceId.value;
    && c in t.rows && k < |t.rows[c]|
    && t.rows[c][k] == (if v in t.invoices then s.rows[c][k] else s.rows[c][k].(invoiceId := None))
    && (v !in t.invoices ==> Decidable(s, ids, v))
    && (v in t.invoices ==> v in s.invoices && t.invoices[v] == s.invoices[v])
  }

  /** Only withdrawing its own invoice, and only while that awaits approval, reopens a promoted row; its payload stays. */
  lemma {:induction false} RejectFreezes<A>(s: Store<A>, ids: Option<set<InvoiceId>>, n: nat, c: BatchId, k: nat)
    requires Consistent(s) && c in s.rows && k < |s.rows[c]| && s.rows[c][k].invoiceId.Some?
    ensures FrozenOrWithdrawn(s, RejectUpTo(s, ids, n), ids, c, k)
  {
    hide Consistent, FrozenOrWithdrawn, RejectOne, RowsOk, IdsDistinct, InvoicesHeld, NumbersUnique, OnePerNumber;
    FrozenAtFirst(s, ids, c, k);
    if n > 0 {
      var t := RejectUpTo(s, ids, n - 1);
      RejectFreezes(s, ids, n - 1, c, k);
      RejectConsistent(s, ids, n - 1);
      RejectNext(s, ids, n);
      hide RejectUpTo;
      RejectStep(s, t, ids, n - 1, c, k);
    }
  }

  lemma FrozenAtFirst<A>(s: Store<A>, ids: Option<set<InvoiceId>>, c: BatchId, k: nat)
    requires Consistent(s) && c in s.rows && k < |s.rows[c]| && s.rows[c][k].invoiceId.Some?
    ensures FrozenOrWithdrawn(s, s, ids, c, k)
  {
    hide Sound, Linked, OnePerNumber, IdsDistinct, InvoicesHeld, NumbersUnique;
    assert RowOk(s.rows[c][k], c, s.invoices, s.nextRow);
  }

  lemma RejectStep<A>(s: Store<A>, t: Store<A>, ids: Option<set<InvoiceId>>, w: InvoiceId, c: BatchId, k: nat)
    requires Consistent(t) && c in s.rows && k < |s.rows[c]| && s.rows[c][k].invoiceId.Some?
    requires FrozenOrWithdrawn(s, t, ids, c, k)
    ensures FrozenOrWithdrawn(s, RejectOne(t, ids, w), ids, c, k)
  {
    if Decidable(t, ids, w) {
      RejectedRows(t, ids, w);
      hide Consistent, RowsOk, IdsDistinct, OnePerNumber;
      var u := RejectOne(t, ids, w);
      assert u.invoices == t.invoices - {w};
      hide RejectOne;
    }
  }

  /** Withdrawing an invoice frees its number. */
  lemma WithdrawFreesNumber<A>(s: Store<A>, ids: Option<set<InvoiceId>>, v: InvoiceId)
    requires Consistent(s) && Decidable(s, ids, v)
    ensures !Taken(RejectOne(s, ids, v).invoices, s.invoices[v].number)
  {
    hide RowsOk, IdsDistinct, InvoicesHeld, OnePerNumber;
    assert NumbersUnique(s.invoices);
  }
}
