/** The simulated service provider: idempotency by key, verdicts decided by a hash of the key. */
module Provider {
  import opened Text

  // --- The hash -------------------------------------------------------------

  type codeunit = x: int | 0 <= x < 0x1_0000

  /** UTF-16 code units of a character. */
  function CodeUnits(c: char): seq<codeunit> {
    var n := c as int;
    if n < 0x1_0000 then [n] else [0xD800 + (n - 0x1_0000) / 0x400, 0xDC00 + (n - 0x1_0000) % 0x400]
  }

  function AllUnits(s: string): seq<codeunit> {
    if s == "" then [] else AllUnits(s[..|s| - 1]) + CodeUnits(s[|s| - 1])
  }

  /** One round of 32-bit FNV-1a. */
  function Mix(hash: bv32, u: codeunit): bv32 {
    (hash ^ (u as bv32)) * 16777619
  }

  function Fnv(units: seq<codeunit>): bv32 {
    if units == [] then 2166136261 else Mix(Fnv(units[..|units| - 1]), units[|units| - 1])
  }

  /** The key's place in the unit interval. */
  function Roll(key: string): real {
    Fnv(AllUnits(key)) as int as real / 4294967295.0
  }

  /** Mixes the key unit by unit. */
  method HashToUnitInterval(key: string) returns (r: real)
    ensures r == Roll(key)
  {
    hide Mix;
    var units := AllUnits(key);
    var hash: bv32 := 2166136261;
    for i := 0 to |units|
      invariant hash == Fnv(units[..i])
    {
      assert units[..i + 1][..i] == units[..i];
      hash := Mix(hash, units[i]);
    }
    assert units[..|units|] == units;
    r := hash as int as real / 4294967295.0;
  }

  // --- State ----------------------------------------------------------------

  type CallId = nat

  datatype Record = Record(key: string, cleared: bool, scenario: nat, availableAt: int)

  /** What the provider holds: submissions by reference, references by key, and calls waiting out their latency. */
  datatype Book = Book(
    submissions: map<string, Record>,
    byKey: map<string, string>,
    waiting: map<CallId, string>,
    rejectRate: real
  )

  datatype Answer = AcceptedAs(reference: string) | TryAgain

  datatype StatusAnswer = NoRecord | NotYet | HasCleared | HasRefused(scenario: nat)

  /** A known key is answered at once with its reference; any other call starts waiting. */
  function Begun(b: Book, call: CallId, key: string): Book {
    if key in b.byKey || call in b.waiting then b else b.(waiting := b.waiting[call := key])
  }

  predicate Fails(key: string) {
    Roll(key) > 0.97
  }

  predicate ClearsKey(b: Book, key: string) {
    !(Roll(key) < b.rejectRate)
  }

  function RecordFor(b: Book, key: string, due: int): Record {
    Record(key, ClearsKey(b, key), (Roll(key) * 1000.0).Floor % 4, due)
  }

  /** The waiting call ends: some keys always fail, any other is recorded under a fresh reference, its verdict due later. */
  function Ended(b: Book, call: CallId, reference: string, due: int): Book {
    if call !in b.waiting then b
    else
      var key := b.waiting[call];
      var t := b.(waiting := b.waiting - {call});
      if Fails(key) then t
      else t.(submissions := b.submissions[reference := RecordFor(b, key, due)], byKey := b.byKey[key := reference])
  }

  function AnswerTo(b: Book, call: CallId, reference: string): Answer
    requires call in b.waiting
  {
    if Fails(b.waiting[call]) then TryAgain else AcceptedAs(reference)
  }

  /** The published test values of the 32-bit FNV-1a hash. */
  lemma FnvExamples()
    ensures Fnv(AllUnits("")) == 0x811C9DC5
    ensures Fnv(AllUnits("a")) == 0xE40C292C
    ensures Fnv(AllUnits("fo")) == 0x6222E842
  {
    hide *;
    NoUnits();
    Rounds();
    NextUnit("", 'a');
    NextUnit("", 'f');
    NextUnit("f", 'o');
    assert "" + "a" == "a" && "" + "f" == "f" && "f" + "o" == "fo";
  }

  lemma NoUnits()
    ensures Fnv(AllUnits("")) == 0x811C9DC5
  {
  }

  lemma Rounds()
    ensures Mix(0x811C9DC5, 97) == 0xE40C292C && Mix(0x811C9DC5, 102) == 0xE30C2799 && Mix(0xE30C2799, 111) == 0x6222E842
  {
  }

  lemma NextUnit(front: string, last: char)
    requires last < '\U{80}'
    ensures Fnv(AllUnits(front + [last])) == Mix(Fnv(AllUnits(front)), last as int)
  {
    hide Mix;
    assert (front + [last])[..|front|] == front;
    var units := AllUnits(front + [last]);
    assert units == AllUnits(front) + [last as int];
    assert units[..|units| - 1] == AllUnits(front);
  }

  /**
   * What a call leaves once its latency is over. A key that rolls above 0.97 is asked to try again and leaves no
   * trace; any other is answered with its reference and recorded under it, refused exactly when it rolls below
   * the rejection rate, and then for one of four reasons picked by the roll.
   */
  lemma EndingMeans(b: Book, call: CallId, reference: string, due: int)
    requires call in b.waiting
    ensures var key, t := b.waiting[call], Ended(b, call, reference, due);
      && t.waiting == b.waiting - {call} && t.rejectRate == b.rejectRate
      && if Roll(key) > 0.97 then
           AnswerTo(b, call, reference) == TryAgain && t.submissions == b.submissions && t.byKey == b.byKey
         else
           && AnswerTo(b, call, reference) == AcceptedAs(reference) && t.byKey == b.byKey[key := reference]
           && t.submissions.Keys == b.submissions.Keys + {reference}
           && (forall r :: r in b.submissions && r != reference ==> t.submissions[r] == b.submissions[r])
           && var record := t.submissions[reference];
           && record.key == key && record.availableAt == due
           && (record.cleared <==> Roll(key) >= b.rejectRate) && record.scenario == (Roll(key) * 1000.0).Floor % 4
  {
    hide Roll;
  }

  // --- The driver -----------------------------------------------------------

  class MockDriver {
    var submissions: map<string, Record>
    var byKey: map<string, string>
    var waiting: map<CallId, string>
    const rejectRate: real

    function Contents(): Book
      reads this
    {
      Book(submissions, byKey, waiting, rejectRate)
    }

    constructor (rate: real)
      ensures Contents() == Book(map[], map[], map[], rate)
    {
      submissions, byKey, waiting := map[], map[], map[];
      rejectRate := rate;
    }

    /** The part of a submission before the latency: the idempotency check. */
    method Begin(call: CallId, key: string) returns (known: Option<Answer>)
      requires call !in waiting
      modifies this`waiting
      ensures Contents() == Begun(old(Contents()), call, key)
      ensures known == if key in byKey then Some(AcceptedAs(byKey[key])) else None
    {
      if key in byKey {
        return Some(AcceptedAs(byKey[key]));
      }
      waiting := waiting[call := key];
      known := None;
    }

    /** The part after it: decide by the hash, record, answer. */
    method Finish(call: CallId, reference: string, due: int) returns (answer: Answer)
      requires call in waiting
      modifies this
      ensures Contents() == Ended(old(Contents()), call, reference, due)
      ensures answer == AnswerTo(old(Contents()), call, reference)
    {
      var key := waiting[call];
      var roll := HashToUnitInterval(key);
      waiting := waiting - {call};
      if roll > 0.97 {
        return TryAgain;
      }
      var rejected := roll < rejectRate;
      submissions := submissions[reference := Record(key, !rejected, (roll * 1000.0).Floor % 4, due)];
      byKey := byKey[key := reference];
      answer := AcceptedAs(reference);
    }

    /** The verdict shows once its time has come. */
    method GetStatus(reference: string, now: int) returns (answer: StatusAnswer)
      ensures answer == NoRecord <==> reference !in submissions
      ensures answer == NotYet <==> reference in submissions && now < submissions[reference].availableAt
      ensures answer == HasCleared <==>
        reference in submissions && now >= submissions[reference].availableAt && submissions[reference].cleared
      ensures answer.HasRefused? ==> answer.scenario == submissions[reference].scenario
    {
      if reference !in submissions {
        return NoRecord;
      }
      var record := submissions[reference];
      if now < record.availableAt {
        return NotYet;
      }
      answer := if record.cleared then HasCleared else HasRefused(record.scenario);
    }
  }

  // --- Runs of calls --------------------------------------------------------

  datatype Step = Begins(call: CallId, key: string) | Ends(call: CallId, reference: string, due: int)

  function NextBook(b: Book, e: Step): Book {
    match e
    case Begins(call, key) => Begun(b, call, key)
    case Ends(call, reference, due) => Ended(b, call, reference, due)
  }

  function Serve(b: Book, steps: seq<Step>): Book {
    if steps == [] then b else NextBook(Serve(b, steps[..|steps| - 1]), steps[|steps| - 1])
  }

  /** References are drawn at random, and no call begins for a key while another call waits with it. */
  predicate Orderly(b: Book, e: Step) {
    && (e.Ends? ==> e.reference !in b.submissions)
    && (e.Begins? ==> forall c :: c in b.waiting ==> b.waiting[c] != e.key)
  }

  ghost predicate OrderlyRun(b: Book, steps: seq<Step>) {
    steps != [] ==> OrderlyRun(b, steps[..|steps| - 1]) && Orderly(Serve(b, steps[..|steps| - 1]), steps[|steps| - 1])
  }

  /** One record a key: each submission is the one its key points at, and no waiting key is known yet. */
  predicate OneRecordEach(b: Book) {
    && (forall r :: r in b.submissions ==> b.submissions[r].key in b.byKey && b.byKey[b.submissions[r].key] == r)
    && (forall k :: k in b.byKey ==> b.byKey[k] in b.submissions && b.submissions[b.byKey[k]].key == k)
    && (forall c :: c in b.waiting ==> b.waiting[c] !in b.byKey)
    && (forall c, d :: c in b.waiting && d in b.waiting && c != d ==> b.waiting[c] != b.waiting[d])
  }

  lemma OrderlyStep(b: Book, e: Step)
    requires OneRecordEach(b) && Orderly(b, e)
    ensures OneRecordEach(NextBook(b, e))
    ensures forall k :: k in b.byKey ==> k in NextBook(b, e).byKey && NextBook(b, e).byKey[k] == b.byKey[k]
  {
    hide Roll;
  }

  lemma {:induction false} OrderlyRuns(b: Book, steps: seq<Step>)
    requires OneRecordEach(b) && OrderlyRun(b, steps)
    ensures OneRecordEach(Serve(b, steps))
  {
    hide OneRecordEach, NextBook, Orderly;
    if steps != [] {
      OrderlyRuns(b, steps[..|steps| - 1]);
      OrderlyStep(Serve(b, steps[..|steps| - 1]), steps[|steps| - 1]);
    }
  }

  /** Calls that do not overlap: two records never share a key. */
  lemma OneFilingPerKey(b: Book, steps: seq<Step>, r: string, q: string)
    requires OneRecordEach(b) && OrderlyRun(b, steps)
    requires var t := Serve(b, steps);
      r in t.submissions && q in t.submissions && t.submissions[r].key == t.submissions[q].key
    ensures r == q
  {
    OrderlyRuns(b, steps);
    hide Serve, OrderlyRun;
  }

  /** A reference once given for a key is the only one ever given for it. */
  lemma {:induction false} SameReferenceForGood(b: Book, steps: seq<Step>, key: string)
    requires OneRecordEach(b) && OrderlyRun(b, steps) && key in b.byKey
    ensures key in Serve(b, steps).byKey && Serve(b, steps).byKey[key] == b.byKey[key]
  {
    hide OneRecordEach, NextBook, Orderly;
    if steps != [] {
      SameReferenceForGood(b, steps[..|steps| - 1], key);
      OrderlyRuns(b, steps[..|steps| - 1]);
      OrderlyStep(Serve(b, steps[..|steps| - 1]), steps[|steps| - 1]);
    }
  }

  /** The reference a step hands out for a key, if it hands one out. */
  function GivenFor(b: Book, e: Step, key: string): Option<string> {
    match e
    case Begins(_, k) => if k == key && key in b.byKey then Some(b.byKey[key]) else None
    case Ends(call, reference, _) =>
      if call in b.waiting && b.waiting[call] == key && !Fails(key) then Some(reference) else None
  }

  /** Every accepted attempt for a key is given the same reference, however many attempts lie between. */
  lemma AttemptsAgree(b: Book, e: Step, between: seq<Step>, f: Step, key: string)
    requires OneRecordEach(b) && Orderly(b, e) && OrderlyRun(NextBook(b, e), between)
    requires GivenFor(b, e, key).Some? && GivenFor(Serve(NextBook(b, e), between), f, key).Some?
    ensures GivenFor(Serve(NextBook(b, e), between), f, key) == GivenFor(b, e, key)
  {
    var after := NextBook(b, e);
    OrderlyStep(b, e);
    assert key in after.byKey && after.byKey[key] == GivenFor(b, e, key).value by { hide Roll; }
    hide NextBook, OneRecordEach, Roll;
    SameReferenceForGood(after, between, key);
    OrderlyRuns(after, between);
    KnownKeysDoNotWait(Serve(after, between), f, key);
    hide Serve, OrderlyRun;
  }

  lemma KnownKeysDoNotWait(b: Book, f: Step, key: string)
    requires OneRecordEach(b) && key in b.byKey && GivenFor(b, f, key).Some?
    ensures GivenFor(b, f, key).value == b.byKey[key]
  {
    hide Roll;
  }

  // --- Verdicts are decided by the key --------------------------------------

  /** Whatever overlaps, a record's verdict is the one its key rolls, and a failing key is never recorded. */
  predicate DecidedByKey(b: Book) {
    && (forall r :: r in b.submissions ==>
         var k := b.submissions[r].key; b.submissions[r].cleared == ClearsKey(b, k) && !Fails(k))
    && (forall k :: k in b.byKey ==> !Fails(k))
  }

  lemma {:induction false} VerdictsDecidedByKey(b: Book, steps: seq<Step>)
    requires DecidedByKey(b)
    ensures DecidedByKey(Serve(b, steps)) && Serve(b, steps).rejectRate == b.rejectRate
  {
    hide Roll;
    if steps != [] {
      VerdictsDecidedByKey(b, steps[..|steps| - 1]);
    }
  }

  /** Records of one key agree on the verdict even when the calls that made them overlapped. */
  lemma SameKeySameVerdict(b: Book, steps: seq<Step>, r: string, q: string)
    requires DecidedByKey(b)
    requires var t := Serve(b, steps);
      r in t.submissions && q in t.submissions && t.submissions[r].key == t.submissions[q].key
    ensures Serve(b, steps).submissions[r].cleared == Serve(b, steps).submissions[q].cleared
  {
    VerdictsDecidedByKey(b, steps);
    hide Serve, Fails, ClearsKey;
  }

  /**
   * The failures are not transient: a key either fails at every attempt or at none, so retrying an invoice
   * whose key fails never gets it recorded.
   */
  lemma FailingKeyNeverRecorded(b: Book, steps: seq<Step>, key: string)
    requires DecidedByKey(b) && Fails(key)
    ensures key !in Serve(b, steps).byKey
    ensures forall r :: r in Serve(b, steps).submissions ==> Serve(b, steps).submissions[r].key != key
  {
    VerdictsDecidedByKey(b, steps);
    hide Serve, Fails, ClearsKey;
  }

  /** Without the hypothesis a key is filed twice: both calls pass the check before either is recorded. */
  lemma OverlapFilesTwice(b: Book, c: CallId, d: CallId, key: string, r: string, q: string, due: int)
    requires c != d && c !in b.waiting && d !in b.waiting && key !in b.byKey && !Fails(key)
    requires r != q && r !in b.submissions && q !in b.submissions
    ensures var t := NextBook(NextBook(NextBook(NextBook(b, Begins(c, key)), Begins(d, key)), Ends(c, r, due)), Ends(d, q, due));
      r in t.submissions && q in t.submissions && t.submissions[r].key == key && t.submissions[q].key == key
  {
    hide Roll;
  }

  // --- Keys -----------------------------------------------------------------

  function KeyOf(tenant: string, number: string, uuid: string): string {
    tenant + ":" + number + ":" + uuid
  }

  /** Text up to the first colon. */
  function Head(s: string): string {
    if s == "" || s[0] == ':' then "" else [s[0]] + Head(s[1..])
  }

  lemma {:induction false} HeadOf(a: string, rest: string)
    requires ':' !in a
    ensures Head(a + ":" + rest) == a
  {
    if a == "" {
      assert (a + ":" + rest)[0] == ':';
    } else {
      assert (a + ":" + rest)[0] == a[0] && (a + ":" + rest)[1..] == a[1..] + ":" + rest;
      HeadOf(a[1..], rest);
    }
  }

  /** Equal keys mean equal numbers and UUIDs, as long as neither tenant ids nor numbers contain a colon. */
  lemma KeysAreInjective(tenant: string, a: string, b: string, u: string, w: string)
    requires ':' !in tenant && ':' !in a && ':' !in b
    requires KeyOf(tenant, a, u) == KeyOf(tenant, b, w)
    ensures a == b && u == w
  {
    hide Head;
    var left, right := a + ":" + u, b + ":" + w;
    assert KeyOf(tenant, a, u) == tenant + ":" + left && KeyOf(tenant, b, w) == tenant + ":" + right;
    assert left == (tenant + ":" + left)[|tenant| + 1..] && right == (tenant + ":" + right)[|tenant| + 1..];
    HeadOf(a, u);
    HeadOf(b, w);
    assert u == left[|a| + 1..] && w == right[|b| + 1..];
  }
}
