/** Base64 (section 4 of RFC 4648): encoding with padding, and the lenient decoder of Node.js buffers. */
module Base64 {
  import opened Utf8

  type sextet = x: int | 0 <= x < 64

  // --- Characters -----------------------------------------------------------

  function CharOf(v: sextet): char {
    if v < 26 then 'A' + v as char
    else if v < 52 then 'a' + (v - 26) as char
    else if v < 62 then '0' + (v - 52) as char
    else if v == 62 then '+' else '/'
  }

  predicate InAlphabet(c: char) {
    'A' <= c <= 'Z' || 'a' <= c <= 'z' || '0' <= c <= '9' || c in {'+', '/', '-', '_'}
  }

  /** The URL-safe characters count as their standard twins. */
  function ValueOf(c: char): sextet
    requires InAlphabet(c)
  {
    if 'A' <= c <= 'Z' then c as int - 'A' as int
    else if 'a' <= c <= 'z' then c as int - 'a' as int + 26
    else if '0' <= c <= '9' then c as int - '0' as int + 52
    else if c in {'+', '-'} then 62 else 63
  }

  lemma CharReads(v: sextet)
    ensures InAlphabet(CharOf(v)) && ValueOf(CharOf(v)) == v && CharOf(v) != '='
  {
  }

  // --- Regrouping bits ------------------------------------------------------

  /** The four six-bit pieces of a group of three bytes. */
  function Pieces(x: int, y: int, z: int): (r: seq<sextet>)
    requires 0 <= x < 256 && 0 <= y < 256 && 0 <= z < 256
  {
    [x / 4, x % 4 * 16 + y / 16, y % 16 * 4 + z / 64, z % 64]
  }

  /** The three bytes of a group of four pieces. */
  function Group(p: int, q: int, r: int, s: int): seq<byte>
    requires 0 <= p < 64 && 0 <= q < 64 && 0 <= r < 64 && 0 <= s < 64
  {
    [p * 4 + q / 16, q % 16 * 16 + r / 4, r % 4 * 64 + s]
  }

  /** Bytes cut into six-bit pieces; a short last group is filled up with zero bits. */
  function Sextets(b: seq<byte>): seq<sextet> {
    if |b| == 0 then []
    else if |b| == 1 then Pieces(b[0], 0, 0)[..2]
    else if |b| == 2 then Pieces(b[0], b[1], 0)[..3]
    else Pieces(b[0], b[1], b[2]) + Sextets(b[3..])
  }

  /** Six-bit pieces put back together; bits that do not fill a byte are dropped. */
  function Joined(v: seq<sextet>): seq<byte> {
    if |v| < 2 then []
    else if |v| == 2 then Group(v[0], v[1], 0, 0)[..1]
    else if |v| == 3 then Group(v[0], v[1], v[2], 0)[..2]
    else Group(v[0], v[1], v[2], v[3]) + Joined(v[4..])
  }

  lemma {:induction false} JoinedSextets(b: seq<byte>)
    ensures Joined(Sextets(b)) == b
  {
    if |b| >= 3 {
      JoinedSextets(b[3..]);
      GroupJoins(b[0], b[1], b[2]);
      assert |Pieces(b[0], b[1], b[2])| == 4;
      hide Pieces, Group;
      assert Sextets(b)[4..] == Sextets(b[3..]);
      assert b == [b[0], b[1], b[2]] + b[3..];
    } else if |b| == 2 {
      GroupJoins(b[0], b[1], 0);
      assert Sextets(b)[2] == Pieces(b[0], b[1], 0)[2];
      assert b == [b[0], b[1]];
      ShortGroup(b[0], b[1]);
    } else if |b| == 1 {
      GroupJoins(b[0], 0, 0);
      ShortGroup(b[0], 0);
      assert b == [b[0]];
    }
  }

  /** Cutting a group into pieces and joining them gives the group back. */
  lemma GroupJoins(x: int, y: int, z: int)
    requires 0 <= x < 256 && 0 <= y < 256 && 0 <= z < 256
    ensures var v := Pieces(x, y, z); Group(v[0], v[1], v[2], v[3]) == [x, y, z]
  {
  }

  lemma ShortGroup(x: int, y: int)
    requires 0 <= x < 256 && 0 <= y < 256
    ensures var v := Pieces(x, y, 0); v[3] == 0 && (y == 0 ==> v[2] == 0)
  {
  }

  // --- Text -----------------------------------------------------------------

  function Chars(v: seq<sextet>): (s: string)
    ensures |s| == |v| && forall i :: 0 <= i < |v| ==> s[i] == CharOf(v[i])
  {
    seq(|v|, i requires 0 <= i < |v| => CharOf(v[i]))
  }

  function Padding(n: nat): string {
    if n % 3 == 0 then "" else if n % 3 == 1 then "==" else "="
  }

  function Encode64(b: seq<byte>): string {
    Chars(Sextets(b)) + Padding(|b|)
  }

  /** Values of the characters before the first '=', skipping everything outside the alphabet. */
  function Values(s: string): seq<sextet> {
    if s == "" || s[0] == '=' then []
    else if InAlphabet(s[0]) then [ValueOf(s[0])] + Values(s[1..])
    else Values(s[1..])
  }

  function Decode64(s: string): seq<byte> {
    Joined(Values(s))
  }

  lemma {:induction false} ValuesRead(v: seq<sextet>, padding: string)
    requires padding != "" ==> padding[0] == '='
    ensures Values(Chars(v) + padding) == v
  {
    hide CharOf, InAlphabet, ValueOf;
    if v == [] {
      assert Chars(v) + padding == padding;
    } else {
      CharReads(v[0]);
      assert (Chars(v) + padding)[1..] == Chars(v[1..]) + padding;
      ValuesRead(v[1..], padding);
    }
  }

  /** Decoding undoes encoding, for every byte sequence. */
  lemma RoundTrip64(b: seq<byte>)
    ensures Decode64(Encode64(b)) == b
  {
    hide Sextets, Joined, Values;
    ValuesRead(Sextets(b), Padding(|b|));
    JoinedSextets(b);
  }

  // --- The standard's own terms ---------------------------------------------

  /** The standard's table of characters, sixteen to a row. */
  function Alphabet(v: sextet): char {
    if v < 16 then "ABCDEFGHIJKLMNOP"[v]
    else if v < 32 then "QRSTUVWXYZabcdef"[v - 16]
    else if v < 48 then "ghijklmnopqrstuv"[v - 32]
    else "wxyz0123456789+/"[v - 48]
  }

  lemma CharsAreTheAlphabet(v: sextet)
    ensures CharOf(v) == Alphabet(v)
  {
  }

  function ByteAt(b: seq<byte>, i: nat): byte {
    if i < |b| then b[i] else 0
  }

  /** A group of three bytes as one 24-bit number, missing bytes being zero. */
  function GroupNumber(b: seq<byte>, g: nat): (n: nat)
    ensures n < 0x100_0000
  {
    ByteAt(b, 3 * g) * 65536 + ByteAt(b, 3 * g + 1) * 256 + ByteAt(b, 3 * g + 2)
  }

  /** The four characters of a group: its number in base 64, with '=' for what stands for no byte at all. */
  function GroupText(n: nat, bytes: nat): string
    requires n < 0x100_0000
  {
    [Alphabet(n / 262144), Alphabet(n / 4096 % 64),
     if bytes < 2 then '=' else Alphabet(n / 64 % 64), if bytes < 3 then '=' else Alphabet(n % 64)]
  }

  lemma PiecesAreDigits(x: int, y: int, z: int)
    requires 0 <= x < 256 && 0 <= y < 256 && 0 <= z < 256
    ensures var n := x * 65536 + y * 256 + z;
      Pieces(x, y, z) == [n / 262144, n / 4096 % 64, n / 64 % 64, n % 64]
  {
    var n, p, q, r, s := x * 65536 + y * 256 + z, x / 4, x % 4 * 16 + y / 16, y % 16 * 4 + z / 64, z % 64;
    assert n == ((p * 64 + q) * 64 + r) * 64 + s;
    FourDigits(p, q, r, s);
  }

  lemma FourDigits(p: int, q: int, r: int, s: int)
    requires 0 <= p < 64 && 0 <= q < 64 && 0 <= r < 64 && 0 <= s < 64
    ensures var n := ((p * 64 + q) * 64 + r) * 64 + s;
      n / 262144 == p && n / 4096 % 64 == q && n / 64 % 64 == r && n % 64 == s
  {
    var n := ((p * 64 + q) * 64 + r) * 64 + s;
    assert n / 64 == (p * 64 + q) * 64 + r;
    assert n / 4096 == p * 64 + q;
  }

  /** Encoding a first group: its four characters, and then the rest encoded. */
  lemma FirstGroup(b: seq<byte>)
    requires b != []
    ensures Encode64(b) == GroupText(GroupNumber(b, 0), |b|) + if |b| < 3 then "" else Encode64(b[3..])
  {
    hide CharOf, Alphabet, Sextets, Pieces, GroupText, GroupNumber, ByteAt, Padding;
    var n := GroupNumber(b, 0);
    var v := Pieces(ByteAt(b, 0), ByteAt(b, 1), ByteAt(b, 2));
    FirstSextets(b);
    FirstNumber(b);
    PiecesRead(v, n);
    if |b| >= 3 {
      assert Chars(v + Sextets(b[3..])) == Chars(v) + Chars(Sextets(b[3..]));
      PaddingOfRest(|b|);
      LongText(n, |b|);
    } else {
      assert Chars(v[..|b| + 1]) == Chars(v)[..|b| + 1];
      ShortText(n, |b|);
    }
  }

  lemma FirstSextets(b: seq<byte>)
    requires b != []
    ensures var v := Pieces(ByteAt(b, 0), ByteAt(b, 1), ByteAt(b, 2));
      |v| == 4 && Sextets(b) == if |b| < 3 then v[..|b| + 1] else v + Sextets(b[3..])
  {
  }

  lemma FirstNumber(b: seq<byte>)
    ensures var n := GroupNumber(b, 0);
      Pieces(ByteAt(b, 0), ByteAt(b, 1), ByteAt(b, 2)) == [n / 262144, n / 4096 % 64, n / 64 % 64, n % 64]
  {
    hide Pieces, ByteAt, GroupNumber;
    var x: int, y: int, z: int := ByteAt(b, 0), ByteAt(b, 1), ByteAt(b, 2);
    PiecesAreDigits(x, y, z);
    FirstBytes(b);
  }

  lemma FirstBytes(b: seq<byte>)
    ensures GroupNumber(b, 0) == ByteAt(b, 0) * 65536 + ByteAt(b, 1) * 256 + ByteAt(b, 2)
  {
    hide ByteAt;
  }

  lemma LongText(n: nat, bytes: nat)
    requires n < 0x100_0000 && bytes >= 3
    ensures GroupText(n, bytes) == GroupText(n, 3)
  {
    hide Alphabet;
  }

  lemma ShortText(n: nat, bytes: nat)
    requires n < 0x100_0000 && 1 <= bytes < 3
    ensures |GroupText(n, 3)| == 4 && GroupText(n, bytes) == GroupText(n, 3)[..bytes + 1] + Padding(bytes)
  {
    hide Alphabet;
  }

  lemma PaddingOfRest(n: nat)
    requires n >= 3
    ensures Padding(n) == Padding(n - 3)
  {
  }

  lemma PiecesRead(v: seq<sextet>, n: nat)
    requires n < 0x100_0000 && v == [n / 262144, n / 4096 % 64, n / 64 % 64, n % 64]
    ensures Chars(v) == GroupText(n, 3)
  {
    hide CharOf, Alphabet;
    forall i | 0 <= i < 4
      ensures CharOf(v[i]) == Alphabet(v[i])
    {
      CharsAreTheAlphabet(v[i]);
    }
  }

  /** The encoding as the standard describes it: group by group of three bytes, four characters each. */
  lemma {:induction false} EncodedGroup(b: seq<byte>, g: nat)
    requires 3 * g < |b|
    ensures 4 * g + 4 <= |Encode64(b)|
    ensures Encode64(b)[4 * g..4 * g + 4] == GroupText(GroupNumber(b, g), |b| - 3 * g)
  {
    hide Encode64, GroupText, GroupNumber;
    FirstGroup(b);
    FourCharacters(GroupNumber(b, 0), |b|);
    if g > 0 {
      EncodedGroup(b[3..], g - 1);
      GroupOfRest(b, g);
      Later(Encode64(b), GroupText(GroupNumber(b, 0), |b|), Encode64(b[3..]), g);
    }
  }

  lemma FourCharacters(n: nat, bytes: nat)
    requires n < 0x100_0000
    ensures |GroupText(n, bytes)| == 4
  {
  }

  lemma Later(whole: string, first: string, rest: string, g: nat)
    requires whole == first + rest && |first| == 4 && 0 < g && 4 * g <= |rest|
    ensures whole[4 * g..4 * g + 4] == rest[4 * (g - 1)..4 * (g - 1) + 4]
  {
  }

  lemma GroupOfRest(b: seq<byte>, g: nat)
    requires g > 0 && |b| > 3
    ensures GroupNumber(b, g) == GroupNumber(b[3..], g - 1)
  {
  }

  /** Four characters for every three bytes begun, and no more. */
  lemma {:induction false} EncodedLength(b: seq<byte>)
    ensures |Encode64(b)| == (|b| + 2) / 3 * 4
  {
    hide Encode64, GroupNumber, GroupText;
    if b == [] {
      NothingEncoded();
    } else {
      FirstGroup(b);
      FourCharacters(GroupNumber(b, 0), |b|);
      if |b| >= 3 {
        EncodedLength(b[3..]);
      }
    }
  }

  lemma NothingEncoded()
    ensures Encode64([]) == ""
  {
  }
}
