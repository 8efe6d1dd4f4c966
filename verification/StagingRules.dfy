/** What every staging step keeps: rows and invoices point at each other, payloads are frozen, numbers are held once. */
module StagingRules {
  import opened Text
  import opened Calc
  import opened Codes
  import opened Validate
  import opened RecalcFindings
  import opened AutoFix
  import opened AutoFixLog
  import opened StagedPayload
  import opened Patches
  import opened Columns
  import opened Staging

  // --- The invariant --------------------------------------------------------

  /**
   * A stored payload: unique line ids, a stable form, and, once accepted, a number without a colon and the
   * amounts every recalculation shows.
   */
  predicate Sound(row: Row) {
    && row.number == row.payload.invoiceNumber
    && UniqueLineIds(row.payload)
    && StableInvoice(row.payload)
    && (row.submittable ==> Agrees(RecalcInvoice(row.payload), row.payload) && ':' !in row.number)
  }

  /** The invoice was made from this row, and still carries the row's payload. */
  predicate Linked<A>(row: Row, b: BatchId, f: Filed<A>) {
    && f.batch == b && f.row == row.id && row.submittable
    && f.raw == RecalcInvoice(row.payload) && AmountsFit(f.raw)
    && f.number == f.raw.invoiceNumber
    && f.amounts == AmountsOf(f.raw)
  }

  predicate RowOk<A>(row: Row, b: BatchId, invoices: map<InvoiceId, Filed<A>>, nextRow: RowId) {
    && row.id < nextRow
    && Sound(row)
    && (row.invoiceId.Some? ==> row.invoiceId.value in invoices && Linked(row, b, invoices[row.invoiceId.value]))
  }

  predicate Holds(rows: seq<Row>, v: InvoiceId) {
    exists i :: 0 <= i < |rows| && rows[i].invoiceId == Some(v)
  }

  ghost predicate RowsOk<A>(s: Store<A>) {
    forall b, i :: b in s.rows && 0 <= i < |s.rows[b]| ==> RowOk(s.rows[b][i], b, s.invoices, s.nextRow)
  }

  ghost predicate IdsDistinct<A>(s: Store<A>) {
    forall b, i, c, j ::
      (b in s.rows && 0 <= i < |s.rows[b]| && c in s.rows && 0 <= j < |s.rows[c]| && s.rows[b][i].id == s.rows[c][j].id)
      ==> b == c && i == j
  }

  predicate InvoicesHeld<A>(s: Store<A>) {
    forall v :: v in s.invoices ==>
      v < s.nextInvoice && s.invoices[v].batch in s.rows && Holds(s.rows[s.invoices[v].batch], v)
  }

  predicate NumbersUnique<A>(invoices: map<InvoiceId, Filed<A>>) {
    forall v, w :: v in invoices && w in invoices && v != w ==> invoices[v].number != invoices[w].number
  }

  /** Among the submittable rows of a batch, a number without surrounding spaces occurs once. */
  predicate OnePerNumber(rows: seq<Row>) {
    forall i, j ::
      (0 <= i < j < |rows| && rows[i].submittable && rows[j].submittable && Trimmed(rows[i].number) && Trimmed(rows[j].number))
      ==> rows[i].number != rows[j].number
  }

  ghost predicate Consistent<A>(s: Store<A>) {
    && RowsOk(s) && IdsDistinct(s) && InvoicesHeld(s) && NumbersUnique(s.invoices)
    && forall b :: b in s.rows ==> OnePerNumber(s.rows[b])
  }

  // --- Payloads -------------------------------------------------------------

  lemma KeepsNumber(x: Invoice)
    ensures RecalcInvoice(x).invoiceNumber == x.invoiceNumber
    ensures Fix(x).invoiceNumber == x.invoiceNumber
  {
    SameShape(x);
    NeverTouched(x);
    hide *;
  }

  lemma {:induction false} TrimKeeps(s: string, c: char)
    requires c in s && !IsSpace(c)
    ensures c in Trim(s)
  {
    TrimStartKeeps(s, c);
    TrimEndKeeps(TrimStart(s), c);
  }

  lemma {:induction false} TrimStartKeeps(s: string, c: char)
    requires c in s && !IsSpace(c)
    ensures c in TrimStart(s)
  {
    if IsSpace(s[0]) {
      TrimStartKeeps(s[1..], c);
    }
  }

  lemma {:induction false} TrimEndKeeps(s: string, c: char)
    requires c in s && !IsSpace(c)
    ensures c in TrimEnd(s)
  {
    if IsSpace(s[|s| - 1]) {
      TrimEndKeeps(s[..|s| - 1], c);
    }
  }

  /** A number that passes the format rule contains no colon, stray spaces or not. */
  lemma NoColon(x: Invoice, ctx: Context)
    requires Submittable(x, ctx)
    ensures ':' !in x.invoiceNumber
  {
    SubmittableNumber(x, ctx);
    hide Submittable, Trim;
    FormatHasNoColon(x.invoiceNumber);
  }

  lemma FormatHasNoColon(number: string)
    requires NumberFormat(Trim(number))
    ensures ':' !in number
  {
    if ':' in number {
      TrimKeeps(number, ':');
      hide Trim;
    }
  }

  /** What a judged recalculation is, whatever the context. */
  lemma JudgedIsSound(row: Row, x: Invoice, ctx: Context)
    requires UniqueLineIds(x)
    ensures Sound(Judged(row, RecalcInvoice(x), ctx))
  {
    var y := RecalcInvoice(x);
    SameIds(x);
    TwiceIsEnough(x);
    hide *;
    if Submittable(y, ctx) {
      JudgedAgrees(x, ctx);
      NoColon(y, ctx);
    }
    SoundParts(Judged(row, y, ctx), row, y, ctx);
  }

  lemma SoundParts(r: Row, row: Row, y: Invoice, ctx: Context)
    requires r == Judged(row, y, ctx)
    requires UniqueLineIds(y) && StableInvoice(y)
    requires Submittable(y, ctx) ==> Agrees(RecalcInvoice(y), y) && ':' !in y.invoiceNumber
    ensures Sound(r)
  {
    hide UniqueLineIds, StableInvoice, Submittable, RecalcInvoice, Agrees, Findings;
  }

  lemma FixedIsSound(row: Row, x: Invoice, ctx: Context)
    requires UniqueLineIds(x)
    ensures Sound(Judged(row, Fix(x), ctx))
  {
    FieldsKeepIds(x);
    hide *;
    FixIsRecalc(x);
    JudgedIsSound(row, FixFields(x), ctx);
  }

  lemma FixIsRecalc(x: Invoice)
    ensures Fix(x) == RecalcInvoice(FixFields(x))
  {
    hide RecalcInvoice, FixFields;
  }

  lemma FieldsKeepIds(x: Invoice)
    requires UniqueLineIds(x)
    ensures UniqueLineIds(FixFields(x))
  {
    HeaderKeepsLines(x);
    hide FixHeader, NumberingBroken, FixLine, Digits;
    var lines := FixFields(x).lines;
    forall i, j | 0 <= i < j < |lines|
      ensures lines[i].id != lines[j].id
    {
      SameLineId(x.lines[i]);
      SameLineId(x.lines[j]);
    }
  }

  lemma NewRowIsSound(id: RowId, x: Invoice, ctx: Context)
    requires UniqueLineIds(x)
    ensures Sound(NewRow(id, x, ctx))
  {
    SameIds(x);
    TwiceIsEnough(x);
    KeepsNumber(x);
    hide *;
    if Submittable(x, ctx) {
      UploadSettles(x, ctx);
      SelfAgrees(RecalcInvoice(x));
      NoColon(x, ctx);
    }
    NewParts(id, x, ctx);
  }

  lemma NewParts(id: RowId, x: Invoice, ctx: Context)
    requires UniqueLineIds(RecalcInvoice(x)) && StableInvoice(RecalcInvoice(x)) && RecalcInvoice(x).invoiceNumber == x.invoiceNumber
    requires Submittable(x, ctx) ==> Agrees(RecalcInvoice(RecalcInvoice(x)), RecalcInvoice(x)) && ':' !in x.invoiceNumber
    ensures Sound(NewRow(id, x, ctx))
  {
    hide UniqueLineIds, StableInvoice, Submittable, RecalcInvoice, Agrees, Findings;
  }

  // --- Numbers --------------------------------------------------------------

  /** A submittable row's number is neither blank nor counted twice. */
  lemma CountedOnce(x: Invoice, ctx: Context)
    requires Submittable(x, ctx) && Trimmed(x.invoiceNumber)
    ensures x.invoiceNumber != "" && !(x.invoiceNumber in ctx.batch && ctx.batch[x.invoiceNumber] > 1)
  {
    SubmittableNumber(x, ctx);
    TrimIsTrimmed(x.invoiceNumber);
    hide Submittable, Trim;
  }

  lemma {:induction false} ColumnAtLeast(rows: seq<Row>, i: nat)
    requires i < |rows|
    ensures CountColumn(rows, rows[i].number) >= 1
  {
    if i < |rows| - 1 {
      ColumnAtLeast(rows[..|rows| - 1], i);
    }
  }

  lemma {:induction false} ColumnTwice(rows: seq<Row>, i: nat, j: nat)
    requires i < j < |rows| && rows[i].number == rows[j].number
    ensures CountColumn(rows, rows[i].number) >= 2
  {
    var front := rows[..|rows| - 1];
    if j < |front| {
      ColumnTwice(front, i, j);
    } else {
      ColumnAtLeast(front, i);
    }
  }

  lemma CountsShowTwins(rows: seq<Row>, i: nat, j: nat)
    requires i < j < |rows| && rows[i].number == rows[j].number && rows[i].number != ""
    ensures var counts := BatchCounts(rows);
      && rows[i].number in counts && counts[rows[i].number] > 1
  {
    ColumnTwice(rows, i, j);
    assert rows[i] in rows;
    hide CountColumn;
  }

  lemma {:induction false} WithoutKeeps(rows: seq<Row>, id: RowId, j: nat)
    requires j < |rows| && rows[j].id != id
    ensures rows[j] in Without(rows, id)
  {
    if j < |rows| - 1 {
      WithoutKeeps(rows[..|rows| - 1], id, j);
    }
  }

  /** The counts an edit is judged by see every other row of the batch. */
  lemma OwnCountShowsTwin(rows: seq<Row>, id: RowId, j: nat)
    requires j < |rows| && rows[j].id != id && rows[j].number != ""
    ensures var counts := CountsWithOwn(rows, id, rows[j].number);
      && rows[j].number in counts && counts[rows[j].number] > 1
  {
    WithoutKeeps(rows, id, j);
    var others := Without(rows, id);
    var k :| 0 <= k < |others| && others[k] == rows[j];
    ColumnAtLeast(others, k);
    hide CountColumn, Without;
  }

  /** Rows judged by the counts of their own column never share a number. */
  lemma JudgedByColumn(rows: seq<Row>, i: nat, j: nat, x: Invoice, ctx: Context)
    requires i < |rows| && j < |rows| && i != j
    requires ctx.batch == BatchCounts(rows) && x.invoiceNumber == rows[i].number
    requires Submittable(x, ctx) && Trimmed(rows[i].number)
    ensures rows[j].number != rows[i].number
  {
    CountedOnce(x, ctx);
    hide Submittable, BatchCounts;
    if rows[j].number == rows[i].number {
      if i < j {
        CountsShowTwins(rows, i, j);
      } else {
        CountsShowTwins(rows, j, i);
      }
    }
  }

  // --- Replacing the rows of one batch --------------------------------------

  /** Same rows in the same places: ids and links untouched, promoted rows unchanged, the rest sound. */
  predicate Rewritten(before: seq<Row>, after: seq<Row>) {
    && |after| == |before|
    && forall i :: 0 <= i < |before| ==>
      && after[i].id == before[i].id && after[i].invoiceId == before[i].invoiceId
      && Sound(after[i])
      && (before[i].invoiceId.Some? ==> after[i] == before[i])
  }

  lemma RewriteKeeps<A>(s: Store<A>, t: Store<A>, b: BatchId)
    requires Consistent(s) && b in s.rows && b in t.rows
    requires t.rows == s.rows[b := t.rows[b]] && t.invoices == s.invoices && t.nextRow == s.nextRow && t.nextInvoice == s.nextInvoice
    requires Rewritten(s.rows[b], t.rows[b]) && OnePerNumber(t.rows[b])
    ensures Consistent(t)
  {
    hide Sound, Linked, OnePerNumber;
    forall c, i | c in t.rows && 0 <= i < |t.rows[c]|
      ensures RowOk(t.rows[c][i], c, t.invoices, t.nextRow)
    {
      assert RowOk(s.rows[c][i], c, s.invoices, s.nextRow);
    }
    forall v | v in t.invoices
      ensures v < t.nextInvoice && t.invoices[v].batch in t.rows && Holds(t.rows[t.invoices[v].batch], v)
    {
      var rows := s.rows[t.invoices[v].batch];
      assert Holds(rows, v);
      var i :| 0 <= i < |rows| && rows[i].invoiceId == Some(v);
      assert t.rows[t.invoices[v].batch][i].invoiceId == Some(v);
    }
  }

  // --- Edit, revalidate, auto-fix -------------------------------------------

  lemma RevalidatedIsSound(row: Row, ctx: Context)
    requires Sound(row)
    ensures Sound(RevalidatedRow(row, ctx)) && RevalidatedRow(row, ctx).number == row.number
    ensures RevalidatedRow(row, ctx).id == row.id && RevalidatedRow(row, ctx).invoiceId == row.invoiceId
    ensures row.invoiceId.Some? ==> RevalidatedRow(row, ctx) == row
    ensures row.invoiceId.None? ==> RevalidatedRow(row, ctx).submittable == Submittable(RecalcInvoice(row.payload), ctx)
  {
    KeepsNumber(row.payload);
    SoundIds(row);
    JudgedIsSound(row, row.payload, ctx);
    hide Sound, Submittable, RecalcInvoice, Findings;
  }

  lemma SoundIds(row: Row)
    requires Sound(row)
    ensures UniqueLineIds(row.payload) && row.number == row.payload.invoiceNumber
  {
  }

  lemma FixedRowIsSound(row: Row, ctx: Context)
    requires Sound(row)
    ensures Sound(FixedRow(row, ctx)) && FixedRow(row, ctx).number == row.number
    ensures FixedRow(row, ctx).id == row.id && FixedRow(row, ctx).invoiceId == row.invoiceId
    ensures row.invoiceId.Some? ==> FixedRow(row, ctx) == row
    ensures FixedRow(row, ctx) == row || (FixedRow(row, ctx).submittable == Submittable(Fix(row.payload), ctx) && row.invoiceId.None?)
  {
    KeepsNumber(row.payload);
    SoundIds(row);
    FixedIsSound(row, row.payload, ctx);
    hide Sound, Submittable, Fix, Findings, AutoFix.Changes;
  }

  /** Each new verdict sees the whole column, so no rewritten row shares its number with another row. */
  lemma JudgedKeepsOnePerNumber(rows: seq<Row>, after: seq<Row>)
    requires OnePerNumber(rows) && |after| == |rows|
    requires forall i :: 0 <= i < |rows| ==> after[i].number == rows[i].number
    requires forall i, j ::
      (0 <= i < |rows| && 0 <= j < |rows| && i != j && after[i].submittable && !rows[i].submittable && Trimmed(rows[i].number))
      ==> rows[j].number != rows[i].number
    ensures OnePerNumber(after)
  {
    hide Trimmed;
  }

  lemma RevalidateKeepsOne<A>(rows: seq<Row>, ctx: Context)
    requires OnePerNumber(rows) && ctx.batch == BatchCounts(rows)
    requires forall i :: 0 <= i < |rows| ==> Sound(rows[i])
    ensures OnePerNumber(RevalidatedRows(rows, ctx)) && Rewritten(rows, RevalidatedRows(rows, ctx))
  {
    hide Sound, OnePerNumber, RevalidatedRow, BatchCounts, Submittable, RecalcInvoice, Trimmed;
    var after := RevalidatedRows(rows, ctx);
    forall i | 0 <= i < |rows|
      ensures after[i].number == rows[i].number && Sound(after[i])
      ensures after[i].id == rows[i].id && after[i].invoiceId == rows[i].invoiceId
      ensures rows[i].invoiceId.Some? ==> after[i] == rows[i]
    {
      RevalidatedIsSound(rows[i], ctx);
    }
    forall i, j | 0 <= i < |rows| && 0 <= j < |rows| && i != j && after[i].submittable && !rows[i].submittable && Trimmed(rows[i].number)
      ensures rows[j].number != rows[i].number
    {
      RevalidatedIsSound(rows[i], ctx);
      KeepsNumber(rows[i].payload);
      SoundIds(rows[i]);
      JudgedByColumn(rows, i, j, RecalcInvoice(rows[i].payload), ctx);
    }
    JudgedKeepsOnePerNumber(rows, after);
  }

  lemma FixKeepsOne(rows: seq<Row>, ctx: Context)
    requires OnePerNumber(rows) && ctx.batch == BatchCounts(rows)
    requires forall i :: 0 <= i < |rows| ==> Sound(rows[i])
    ensures OnePerNumber(FixedRows(rows, ctx)) && Rewritten(rows, FixedRows(rows, ctx))
  {
    hide Sound, OnePerNumber, FixedRow, BatchCounts, Submittable, Fix, Trimmed;
    var after := FixedRows(rows, ctx);
    forall i | 0 <= i < |rows|
      ensures after[i].number == rows[i].number && Sound(after[i])
      ensures after[i].id == rows[i].id && after[i].invoiceId == rows[i].invoiceId
      ensures rows[i].invoiceId.Some? ==> after[i] == rows[i]
    {
      FixedRowIsSound(rows[i], ctx);
    }
    forall i, j | 0 <= i < |rows| && 0 <= j < |rows| && i != j && after[i].submittable && !rows[i].submittable && Trimmed(rows[i].number)
      ensures rows[j].number != rows[i].number
    {
      FixedRowIsSound(rows[i], ctx);
      KeepsNumber(rows[i].payload);
      SoundIds(rows[i]);
      JudgedByColumn(rows, i, j, Fix(rows[i].payload), ctx);
    }
    JudgedKeepsOnePerNumber(rows, after);
  }

  lemma RowsSound<A>(s: Store<A>, b: BatchId)
    requires Consistent(s) && b in s.rows
    ensures forall i :: 0 <= i < |s.rows[b]| ==> Sound(s.rows[b][i])
    ensures OnePerNumber(s.rows[b])
  {
    hide Sound, Linked, OnePerNumber, IdsDistinct, InvoicesHeld, NumbersUnique;
    forall i | 0 <= i < |s.rows[b]|
      ensures Sound(s.rows[b][i])
    {
      assert RowOk(s.rows[b][i], b, s.invoices, s.nextRow);
    }
  }

  lemma CountersDoNotMatter<A>(s: Store<A>, t: Store<A>)
    requires Consistent(s) && t == s.(counters := t.counters, logs := t.logs)
    ensures Consistent(t)
  {
    hide RowOk, OnePerNumber, Holds;
  }

  lemma RevalidateConsistent<A>(s: Store<A>, b: BatchId, ctx: Context)
    requires Consistent(s) && b in s.rows
    ensures Consistent(Revalidate(s, b, ctx))
  {
    var c := BatchContext(s, b, ctx);
    assert c.batch == BatchCounts(s.rows[b]) by { hide BatchCounts, FiledNumbers, OpenPayloads, NumbersOf; }
    RowsSound(s, b);
    var rows := s.rows[b];
    hide BatchContext, Consistent, Sound, BatchCounts, RevalidatedRow, Relogged, CountersOf, OnePerNumber, Rewritten;
    RevalidateKeepsOne<A>(rows, c);
    RewriteKeeps(s, Revalidate(s, b, ctx), b);
  }

  lemma AutoFixConsistent<A>(s: Store<A>, b: BatchId, ctx: Context)
    requires Consistent(s) && b in s.rows
    ensures Consistent(AutoFixRows(s, b, ctx))
  {
    var c := BatchContext(s, b, ctx);
    assert c.batch == BatchCounts(s.rows[b]) by { hide BatchCounts, FiledNumbers, OpenPayloads, NumbersOf; }
    RowsSound(s, b);
    var rows := s.rows[b];
    hide BatchContext, Consistent, Sound, BatchCounts, FixedRow, Relogged, CountersOf, OnePerNumber, Rewritten;
    FixKeepsOne(rows, c);
    RewriteKeeps(s, AutoFixRows(s, b, ctx), b);
  }

  /** Only the edited row is judged again, yet its number stays its own. */
  lemma EditKeepsOne(rows: seq<Row>, i: nat, row: Row, x: Invoice, ctx: Context)
    requires OnePerNumber(rows) && i < |rows| && row == Judged(rows[i], x, ctx)
    requires forall j :: 0 <= j < |rows| && j != i ==> rows[j].id != rows[i].id
    requires ctx.batch == CountsWithOwn(rows, rows[i].id, x.invoiceNumber)
    ensures OnePerNumber(rows[i := row])
  {
    hide CountsWithOwn, Trimmed, Findings, Submittable;
    forall j | 0 <= j < |rows| && j != i && row.submittable && Trimmed(row.number)
      ensures rows[j].number != row.number
    {
      CountedOnce(x, ctx);
      if rows[j].number == x.invoiceNumber {
        OwnCountShowsTwin(rows, rows[i].id, j);
      }
    }
    hide Judged;
    OneReplaced(rows, i, row);
  }

  lemma OneReplaced(rows: seq<Row>, i: nat, row: Row)
    requires OnePerNumber(rows) && i < |rows|
    requires forall j :: 0 <= j < |rows| && j != i && row.submittable && Trimmed(row.number) ==> rows[j].number != row.number
    ensures OnePerNumber(rows[i := row])
  {
    hide Trimmed;
  }

  lemma EditConsistent<A>(s: Store<A>, b: BatchId, id: RowId, p: Patch, ctx: Context)
    requires Consistent(s) && b in s.rows
    requires forall i :: 0 <= i < |s.rows[b]| ==> Fresh(s.rows[b][i].payload, p)
    ensures Consistent(Edit(s, b, id, p, ctx))
  {
    var i := Position(s.rows[b], id);
    if i < |s.rows[b]| && s.rows[b][i].invoiceId.None? && Patches.Changes(s.rows[b][i].payload, p) {
      var rows, row := s.rows[b], s.rows[b][i];
      var next := Patched(row.payload, p);
      var y := RecalcInvoice(next);
      var c := EditContext(s, b, id, y, ctx);
      assert c.batch == CountsWithOwn(rows, id, y.invoiceNumber) by { hide CountsWithOwn, FiledNumbers, NumbersOf; }
      RowsSound(s, b);
      SoundIds(row);
      PatchKeepsIds(row.payload, p);
      JudgedIsSound(row, next, c);
      EditStep(s, b, i, id, y, c, ctx, p);
    }
  }

  lemma EditStep<A>(s: Store<A>, b: BatchId, i: nat, id: RowId, y: Invoice, c: Context, ctx: Context, p: Patch)
    requires Consistent(s) && b in s.rows && i < |s.rows[b]| && i == Position(s.rows[b], id) && s.rows[b][i].invoiceId.None?
    requires y == RecalcInvoice(Patched(s.rows[b][i].payload, p)) && c == EditContext(s, b, id, y, ctx)
    requires Patches.Changes(s.rows[b][i].payload, p)
    requires c.batch == CountsWithOwn(s.rows[b], id, y.invoiceNumber)
    requires Sound(Judged(s.rows[b][i], y, c))
    ensures Consistent(Edit(s, b, id, p, ctx))
  {
    var rows := s.rows[b];
    var row := Judged(rows[i], y, c);
    RowsSound(s, b);
    OtherIds(s, b, i);
    hide Consistent;
    EditKeepsOne(rows, i, row, y, c);
    JudgedLinks(rows[i], y, c);
    hide *;
    EditIs(s, b, id, p, ctx);
    EditRows(s, b, i, row);
    RewriteKeeps(s, Edit(s, b, id, p, ctx), b);
  }

  /** An edit that goes through rewrites one row. */
  lemma EditIs<A>(s: Store<A>, b: BatchId, id: RowId, p: Patch, ctx: Context)
    requires b in s.rows
    ensures var i := Position(s.rows[b], id);
      i < |s.rows[b]| && s.rows[b][i].invoiceId.None? && Patches.Changes(s.rows[b][i].payload, p) ==>
        var y := RecalcInvoice(Patched(s.rows[b][i].payload, p));
        Edit(s, b, id, p, ctx) == Refreshed(Replaced(s, b, i, Judged(s.rows[b][i], y, EditContext(s, b, id, y, ctx))), b)
  {
    hide Patches.Changes, Patched, RecalcInvoice, Judged, EditContext, Refreshed, Replaced;
  }

  lemma EditRows<A>(s: Store<A>, b: BatchId, i: nat, row: Row)
    requires Consistent(s) && b in s.rows && i < |s.rows[b]| && s.rows[b][i].invoiceId.None?
    requires row.id == s.rows[b][i].id && row.invoiceId == None && Sound(row)
    ensures var t := Refreshed(Replaced(s, b, i, row), b);
      && t.rows == s.rows[b := s.rows[b][i := row]]
      && t.invoices == s.invoices && t.nextRow == s.nextRow && t.nextInvoice == s.nextInvoice
      && Rewritten(s.rows[b], t.rows[b])
  {
    RowsSound(s, b);
    hide Consistent, Sound, CountersOf;
  }

  lemma JudgedLinks(row: Row, y: Invoice, c: Context)
    ensures Judged(row, y, c).id == row.id && Judged(row, y, c).invoiceId == row.invoiceId
  {
    hide Findings, Submittable;
  }

  lemma OtherIds<A>(s: Store<A>, b: BatchId, i: nat)
    requires Consistent(s) && b in s.rows && i < |s.rows[b]|
    ensures forall j :: 0 <= j < |s.rows[b]| && j != i ==> s.rows[b][j].id != s.rows[b][i].id
  {
    hide RowsOk, InvoicesHeld, NumbersUnique, OnePerNumber;
  }
}
