/** UTF-8 (section 3 of RFC 3629): encoding, a total decoder with replacement, and whole-character truncation. */
module Utf8 {

  type byte = x: int | 0 <= x < 256

  // --- Encoding -------------------------------------------------------------

  /** A continuation byte carrying six bits. */
  function Tail(bits: int): byte {
    0x80 + bits % 64
  }

  function CharBytes(c: char): (r: seq<byte>)
    ensures 1 <= |r| <= 4
  {
    var n := c as int;
    if n < 0x80 then [n]
    else if n < 0x800 then [0xC0 + n / 64, Tail(n)]
    else if n < 0x1_0000 then [0xE0 + n / 4096, Tail(n / 64), Tail(n)]
    else [0xF0 + n / 262144, Tail(n / 4096), Tail(n / 64), Tail(n)]
  }

  function Encode(s: string): seq<byte> {
    if s == "" then [] else CharBytes(s[0]) + Encode(s[1..])
  }

  // --- Decoding -------------------------------------------------------------

  const REPLACEMENT: char := '\U{FFFD}'

  /** How many continuation bytes a lead byte announces; none for a byte that cannot lead. */
  function TailLength(lead: byte): nat {
    if 0xC2 <= lead <= 0xDF then 1 else if 0xE0 <= lead <= 0xEF then 2 else if 0xF0 <= lead <= 0xF4 then 3 else 0
  }

  /** Whether `b` may be the k-th byte after `lead`; the first one is narrower after some leads. */
  predicate MayFollow(lead: byte, k: nat, b: byte) {
    if k != 1 then 0x80 <= b <= 0xBF
    else if lead == 0xE0 then 0xA0 <= b <= 0xBF
    else if lead == 0xED then 0x80 <= b <= 0x9F
    else if lead == 0xF0 then 0x90 <= b <= 0xBF
    else if lead == 0xF4 then 0x80 <= b <= 0x8F
    else 0x80 <= b <= 0xBF
  }

  /** How many of the announced continuation bytes are really there, from position `k` on. */
  function Present(b: seq<byte>, k: nat): (n: nat)
    requires b != [] && 1 <= k <= TailLength(b[0]) + 1 && k <= |b|
    ensures k - 1 <= n <= TailLength(b[0]) && n < |b|
    ensures forall j :: k <= j <= n ==> j < |b| && MayFollow(b[0], j, b[j])
    decreases TailLength(b[0]) + 1 - k
  {
    if k > TailLength(b[0]) || k >= |b| || !MayFollow(b[0], k, b[k]) then k - 1 else Present(b, k + 1)
  }

  function ScalarValue(b: seq<byte>): int
    requires b != [] && |b| == TailLength(b[0]) + 1
  {
    var lead: int := b[0];
    match |b|
    case 1 => lead
    case 2 => (lead - 0xC0) * 64 + Bits(b[1])
    case 3 => (lead - 0xE0) * 4096 + Bits(b[1]) * 64 + Bits(b[2])
    case _ => (lead - 0xF0) * 262144 + Bits(b[1]) * 4096 + Bits(b[2]) * 64 + Bits(b[3])
  }

  function Bits(tail: byte): int {
    tail - 0x80
  }

  datatype Step = Step(c: char, used: nat)

  /** The next character; a broken sequence is replaced as one unit, up to the byte that breaks it. */
  function DecodeStep(b: seq<byte>): (r: Step)
    requires b != []
    ensures 1 <= r.used <= |b|
  {
    if b[0] < 0x80 then Step(b[0] as char, 1)
    else if TailLength(b[0]) == 0 then Step(REPLACEMENT, 1)
    else
      var n := Present(b, 1);
      if n < TailLength(b[0]) then Step(REPLACEMENT, n + 1)
      else
        ScalarInRange(b[..n + 1]);
        Step(ScalarValue(b[..n + 1]) as char, n + 1)
  }

  /** A complete sequence denotes a Unicode scalar value: never a surrogate, never out of range. */
  lemma ScalarInRange(b: seq<byte>)
    requires b != [] && TailLength(b[0]) > 0 && |b| == TailLength(b[0]) + 1
    requires forall j :: 1 <= j < |b| ==> MayFollow(b[0], j, b[j])
    ensures var n := ScalarValue(b); 0 <= n < 0xD800 || 0xE000 <= n < 0x11_0000
  {
    assert MayFollow(b[0], 1, b[1]);
    if |b| > 2 {
      assert MayFollow(b[0], 2, b[2]);
    }
    if |b| > 3 {
      assert MayFollow(b[0], 3, b[3]);
    }
  }

  function Decode(b: seq<byte>): string {
    if b == [] then "" else
      var step := DecodeStep(b);
      [step.c] + Decode(b[step.used..])
  }

  // --- Round trip -----------------------------------------------------------

  /** What the decoder relies on in the bytes of a character past ASCII. */
  predicate Readable(b: seq<byte>, n: int) {
    && |b| >= 2 && TailLength(b[0]) + 1 == |b| && ScalarValue(b) == n
    && forall j :: 1 <= j < |b| ==> MayFollow(b[0], j, b[j])
  }

  lemma TwoBytes(n: int)
    requires 0x80 <= n < 0x800
    ensures Readable([0xC0 + n / 64, Tail(n)], n)
  {
  }

  lemma ThreeBytes(n: int)
    requires 0x800 <= n < 0xD800 || 0xE000 <= n < 0x1_0000
    ensures Readable([0xE0 + n / 4096, Tail(n / 64), Tail(n)], n)
  {
    var m := n / 64;
    assert n == m * 64 + n % 64 && n / 4096 == m / 64;
    var b: seq<byte> := [0xE0 + m / 64, Tail(m), Tail(n)];
    assert m == (m / 64) * 64 + m % 64;
    assert MayFollow(b[0], 1, b[1]) && MayFollow(b[0], 2, b[2]);
    assert ScalarValue(b) == n;
    hide MayFollow, ScalarValue, Tail;
  }

  lemma FourBytes(n: int)
    requires 0x1_0000 <= n < 0x11_0000
    ensures Readable([0xF0 + n / 262144, Tail(n / 4096), Tail(n / 64), Tail(n)], n)
  {
    var l := n / 64;
    var m := l / 64;
    assert n == l * 64 + n % 64 && l == m * 64 + l % 64 && m == m / 64 * 64 + m % 64;
    assert n / 4096 == m && n / 262144 == m / 64;
    FourParts(m / 64, m, l, n);
  }

  lemma FourParts(h: int, m: int, l: int, n: int)
    requires h == m / 64 && m == l / 64 && l == n / 64 && 0x1_0000 <= n < 0x11_0000
    ensures Readable([0xF0 + h, Tail(m), Tail(l), Tail(n)], n)
  {
    assert 0x10 <= m < 0x110 && 0 <= h <= 4;
    var b: seq<byte> := [0xF0 + h, Tail(m), Tail(l), Tail(n)];
    assert TailLength(b[0]) == 3;
    assert ScalarValue(b) == n;
    hide ScalarValue;
  }

  lemma CharBytesRead(c: char)
    requires c as int >= 0x80
    ensures Readable(CharBytes(c), c as int)
  {
    var n := c as int;
    hide Readable, Tail;
    if n < 0x800 {
      TwoBytes(n);
    } else if n < 0x1_0000 {
      ThreeBytes(n);
    } else {
      FourBytes(n);
    }
  }

  predicate IsTail(b: int) {
    0x80 <= b < 0xC0
  }

  /** The standard's table: how many bytes a character takes, how its first byte starts, and where its bits are. */
  predicate AsInTable(b: seq<int>, n: int) {
    if n < 0x80 then b == [n]
    else if n < 0x800 then
      |b| == 2 && 0xC0 <= b[0] < 0xE0 && IsTail(b[1]) && n == (b[0] - 0xC0) * 64 + (b[1] - 0x80)
    else if n < 0x1_0000 then
      && |b| == 3 && 0xE0 <= b[0] < 0xF0 && IsTail(b[1]) && IsTail(b[2])
      && n == ((b[0] - 0xE0) * 64 + (b[1] - 0x80)) * 64 + (b[2] - 0x80)
    else
      && |b| == 4 && 0xF0 <= b[0] < 0xF8 && IsTail(b[1]) && IsTail(b[2]) && IsTail(b[3])
      && n == (((b[0] - 0xF0) * 64 + (b[1] - 0x80)) * 64 + (b[2] - 0x80)) * 64 + (b[3] - 0x80)
  }

  /** The bytes of every character are those of the table. */
  lemma BytesAreTheTables(c: char)
    ensures AsInTable(CharBytes(c), c as int)
  {
    var n := c as int;
    if n >= 0x80 {
      CharBytesRead(c);
      var b := CharBytes(c);
      assert ScalarValue(b) == n;
      assert forall j :: 1 <= j < |b| ==> MayFollow(b[0], j, b[j]);
    }
  }

  lemma AllPresent(b: seq<byte>, k: nat)
    requires b != [] && 1 <= k <= TailLength(b[0]) + 1 && TailLength(b[0]) < |b|
    requires forall j :: 1 <= j <= TailLength(b[0]) ==> MayFollow(b[0], j, b[j])
    ensures Present(b, k) == TailLength(b[0])
    decreases TailLength(b[0]) + 1 - k
  {
    hide MayFollow, TailLength;
    if k <= TailLength(b[0]) {
      AllPresent(b, k + 1);
    }
  }

  lemma StepReads(c: char, rest: seq<byte>)
    ensures DecodeStep(CharBytes(c) + rest) == Step(c, |CharBytes(c)|)
  {
    var b := CharBytes(c);
    hide CharBytes, MayFollow, TailLength, ScalarValue;
    var whole := b + rest;
    assert whole[0] == b[0];
    if c as int >= 0x80 {
      CharBytesRead(c);
      NotAscii(b[0]);
      AllPresent(whole, 1);
      assert whole[..|b|] == b;
    } else {
      assert b == [c as int] by { CharBytesAscii(c); }
    }
  }

  lemma NotAscii(lead: byte)
    requires TailLength(lead) > 0
    ensures lead >= 0x80
  {
  }

  lemma CharBytesAscii(c: char)
    requires c as int < 0x80
    ensures CharBytes(c) == [c as int]
  {
  }

  /** Decoding undoes encoding, for every string. */
  lemma {:induction false} RoundTrip(s: string)
    ensures Decode(Encode(s)) == s
  {
    hide CharBytes, DecodeStep;
    if s != "" {
      StepReads(s[0], Encode(s[1..]));
      assert Encode(s)[|CharBytes(s[0])|..] == Encode(s[1..]);
      RoundTrip(s[1..]);
    }
  }

  // --- Truncation -----------------------------------------------------------

  /** Whole characters, as many as fit in `room` bytes. */
  function Truncate(s: string, room: nat): (r: string)
    ensures r <= s && |Encode(r)| <= room
  {
    if s == "" || |CharBytes(s[0])| > room then ""
    else
      var rest := Truncate(s[1..], room - |CharBytes(s[0])|);
      assert ([s[0]] + rest)[1..] == rest;
      [s[0]] + rest
  }

  /** Nothing longer fits: every prefix within the limit is a prefix of the truncation. */
  lemma {:induction false} TruncateIsLongest(s: string, room: nat, k: nat)
    requires k <= |s| && |Encode(s[..k])| <= room
    ensures k <= |Truncate(s, room)|
  {
    hide CharBytes;
    if k > 0 {
      assert s[..k][1..] == s[1..][..k - 1] && s[..k][0] == s[0];
      TruncateIsLongest(s[1..], room - |CharBytes(s[0])|, k - 1);
    }
  }

  /** Text within the limit is left alone. */
  lemma TruncateKeeps(s: string, room: nat)
    ensures Truncate(s, room) == s <==> |Encode(s)| <= room
  {
    if |Encode(s)| <= room {
      assert s[..|s|] == s;
      TruncateIsLongest(s, room, |s|);
      hide Encode, Truncate;
      assert Truncate(s, room) <= s;
    }
  }

  /** Adds characters one by one until the next would not fit. */
  method TruncateUtf8(value: string, maxBytes: nat) returns (out: string)
    ensures out == Truncate(value, maxBytes)
  {
    hide CharBytes, Encode, Truncate;
    if |Encode(value)| <= maxBytes {
      TruncateKeeps(value, maxBytes);
      return value;
    }
    var used := 0;
    out := "";
    assert value[0..] == value;
    for i := 0 to |value|
      invariant out == value[..i]
      invariant used <= maxBytes
      invariant Truncate(value, maxBytes) == out + Truncate(value[i..], maxBytes - used)
    {
      var size := |CharBytes(value[i])|;
      OneMoreChar(value, i, maxBytes - used);
      if used + size > maxBytes {
        return;
      }
      NextPrefix(value, i, Truncate(value[i + 1..], maxBytes - used - size));
      out := out + [value[i]];
      used := used + size;
    }
    assert value[|value|..] == "";
    assert Truncate("", maxBytes - used) <= "";
  }

  lemma NextPrefix(value: string, i: nat, rest: string)
    requires i < |value|
    ensures value[..i] + ([value[i]] + rest) == value[..i + 1] + rest
  {
  }

  lemma OneMoreChar(value: string, i: nat, room: nat)
    requires i < |value|
    ensures var size := |CharBytes(value[i])|;
      Truncate(value[i..], room) == if size > room then "" else [value[i]] + Truncate(value[i + 1..], room - size)
  {
    hide CharBytes, Encode;
    assert value[i..][1..] == value[i + 1..];
  }
}
