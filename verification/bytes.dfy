/**
 * Byte strings and the few standard-library routines the record codec and the
 * correlation key are built from: searching and splitting (Go's bytes.IndexByte,
 * bytes.Split, strings.Split), decimal formatting (strconv.FormatInt) and
 * base16 encoding (Go's encoding/hex, section 8 of RFC 4648), each with its
 * inverse so that the round trips can be proved.
 */
module Bytes {

  type byte = b: int | 0 <= b < 256
  type int64 = x: int | -0x8000_0000_0000_0000 <= x < 0x8000_0000_0000_0000
  type uint16 = x: int | 0 <= x < 0x1_0000

  const Newline: byte := 10
  const Space: byte := 32
  const Minus: byte := 45    // '-'
  const Dot: byte := 46      // '.'
  const Zero: byte := 48     // '0'
  const Colon: byte := 58    // ':'
  const Pipe: byte := 124    // '|'

  /** Text that can stand in a header field: no space, no newline. */
  type Token = s: seq<byte> | Space !in s && Newline !in s

  /** Two's-complement wrap-around of Go's int64 arithmetic. */
  function WrapInt64(x: int): (r: int64)
    ensures (r - x) % 0x1_0000_0000_0000_0000 == 0
    ensures -0x8000_0000_0000_0000 <= x < 0x8000_0000_0000_0000 ==> r == x
  {
    (x + 0x8000_0000_0000_0000) % 0x1_0000_0000_0000_0000 - 0x8000_0000_0000_0000
  }

  /** Go's int32(x) conversion: keeps the low 32 bits, two's complement. */
  function Int32(x: int): (r: int)
    ensures -0x8000_0000 <= r < 0x8000_0000
    ensures 0 <= x ==> r <= x
    ensures -0x8000_0000 <= x < 0x8000_0000 ==> r == x
  {
    (x + 0x8000_0000) % 0x1_0000_0000 - 0x8000_0000
  }

  // ---------------------------------------------------------------------------
  // Searching, splitting and joining

  /** bytes.IndexByte: the index of the first `b` in `s`, or -1 when there is none. */
  function IndexByte(s: seq<byte>, b: byte): (i: int)
    ensures -1 <= i < |s|
    ensures i == -1 <==> b !in s
    ensures 0 <= i ==> s[i] == b && b !in s[..i]
  {
    if |s| == 0 then -1
    else if s[0] == b then 0
    else
      var j := IndexByte(s[1..], b);
      assert s[1..][..if j < 0 then 0 else j] == s[1..if j < 0 then 1 else j + 1];
      if j < 0 then -1 else j + 1
  }

  /** The first occurrence is unique: any index holding `b` with no `b` before it is IndexByte. */
  lemma IndexByteIs(s: seq<byte>, b: byte, i: nat)
    requires i < |s| && s[i] == b && b !in s[..i]
    ensures IndexByte(s, b) == i
  {
  }

  /** bytes.Split / strings.Split with a one-byte separator: n separators give n + 1 pieces. */
  function Split(s: seq<byte>, sep: byte): (parts: seq<seq<byte>>)
    ensures |parts| >= 1
    ensures forall k :: 0 <= k < |parts| ==> sep !in parts[k]
    ensures IndexByte(s, sep) < 0 ==> parts == [s]
    ensures IndexByte(s, sep) >= 0 ==> parts[0] == s[..IndexByte(s, sep)] && |parts| >= 2
    decreases |s|
  {
    var i := IndexByte(s, sep);
    if i < 0 then [s] else [s[..i]] + Split(s[i + 1..], sep)
  }

  /** bytes.Join with a one-byte separator. */
  function Join(parts: seq<seq<byte>>, sep: byte): (s: seq<byte>)
    ensures |parts| == 1 ==> s == parts[0]
  {
    if |parts| == 0 then []
    else if |parts| == 1 then parts[0]
    else parts[0] + [sep] + Join(parts[1..], sep)
  }

  /** Join of a piece followed by at least one more. */
  lemma JoinCons(head: seq<byte>, tail: seq<seq<byte>>, sep: byte)
    requires |tail| >= 1
    ensures Join([head] + tail, sep) == head + [sep] + Join(tail, sep)
  {
    var parts := [head] + tail;
    assert parts[0] == head && parts[1..] == tail;
  }

  /** Split of a text holding the separator: the piece before its first occurrence, then the rest split. */
  lemma SplitCons(s: seq<byte>, sep: byte)
    requires IndexByte(s, sep) >= 0
    ensures Split(s, sep) == [s[..IndexByte(s, sep)]] + Split(s[IndexByte(s, sep) + 1..], sep)
  {
  }

  /** Splitting undoes joining whenever no piece contains the separator. */
  lemma {:induction false} SplitJoin(parts: seq<seq<byte>>, sep: byte)
    requires |parts| >= 1
    requires forall k :: 0 <= k < |parts| ==> sep !in parts[k]
    ensures Split(Join(parts, sep), sep) == parts
    decreases |parts|
  {
    if |parts| == 1 {
      assert IndexByte(parts[0], sep) == -1;
    } else {
      var rest := Join(parts[1..], sep);
      JoinCons(parts[0], parts[1..], sep);
      assert [parts[0]] + parts[1..] == parts;
      var s := parts[0] + [sep] + rest;
      assert s[..|parts[0]|] == parts[0];
      IndexByteIs(s, sep, |parts[0]|);
      assert s[|parts[0]| + 1..] == rest;
      SplitCons(s, sep);
      SplitJoin(parts[1..], sep);
    }
  }

  /** Joining undoes splitting: no byte of the input is lost. */
  lemma {:induction false} JoinSplit(s: seq<byte>, sep: byte)
    ensures Join(Split(s, sep), sep) == s
    decreases |s|
  {
    var i := IndexByte(s, sep);
    if i >= 0 {
      var tail := Split(s[i + 1..], sep);
      SplitCons(s, sep);
      JoinCons(s[..i], tail, sep);
      JoinSplit(s[i + 1..], sep);
      assert s[..i] + [sep] == s[..i + 1];
      assert s == s[..i + 1] + s[i + 1..];
    } else {
      assert Split(s, sep) == [s];
    }
  }

  // ---------------------------------------------------------------------------
  // Decimal text (strconv.FormatInt / strconv.AppendUint, base 10)

  predicate IsDigit(c: byte) { Zero <= c <= Zero + 9 }

  predicate AllDigits(s: seq<byte>) { forall k :: 0 <= k < |s| ==> IsDigit(s[k]) }

  /** Base-10 digits of a natural number, most significant first, no leading zeros. */
  function NatDigits(n: nat): (s: seq<byte>)
    ensures 1 <= |s| && AllDigits(s)
    ensures |s| > 1 ==> s[0] != Zero
    decreases n
  {
    if n < 10 then [Zero + n] else NatDigits(n / 10) + [Zero + n % 10]
  }

  /** strconv.FormatInt(n, 10): a minus sign for negative numbers, then the digits. */
  function Decimal(n: int): (s: seq<byte>)
    ensures |s| >= 1
    ensures Space !in s && Newline !in s && Dot !in s && Colon !in s && Pipe !in s
    ensures n >= 0 <==> IsDigit(s[0])
  {
    var s := if n < 0 then [Minus] + NatDigits(-n) else NatDigits(n);
    assert forall k :: 0 <= k < |s| ==> IsDigit(s[k]) || s[k] == Minus;
    s
  }

  /** Reads back a run of digits. */
  function ParseNat(s: seq<byte>): nat
    requires AllDigits(s)
  {
    if s == [] then 0 else ParseNat(s[..|s| - 1]) * 10 + (s[|s| - 1] - Zero)
  }

  /** Reads back an optionally signed decimal number (strconv.ParseInt on well-formed text). */
  function ParseDecimal(s: seq<byte>): int
    requires |s| >= 1 && (AllDigits(s) || (s[0] == Minus && AllDigits(s[1..])))
  {
    if s[0] == Minus then -(ParseNat(s[1..]) as int) else ParseNat(s)
  }

  lemma {:induction false} NatDigitsRoundTrip(n: nat)
    ensures ParseNat(NatDigits(n)) == n
    decreases n
  {
    if n >= 10 {
      NatDigitsRoundTrip(n / 10);
      var s := NatDigits(n);
      assert s[..|s| - 1] == NatDigits(n / 10);
    }
  }

  /** Formatting then parsing gives back the number. */
  lemma DecimalRoundTrip(n: int)
    ensures var s := Decimal(n);
      (AllDigits(s) || (s[0] == Minus && AllDigits(s[1..]))) && ParseDecimal(s) == n
  {
    if n < 0 {
      NatDigitsRoundTrip(-n);
      assert Decimal(n)[1..] == NatDigits(-n);
    } else {
      NatDigitsRoundTrip(n);
    }
  }

  /** Distinct numbers have distinct decimal text. */
  lemma DecimalInjective(a: int, b: int)
    requires Decimal(a) == Decimal(b)
    ensures a == b
  {
    DecimalRoundTrip(a);
    DecimalRoundTrip(b);
  }

  // ---------------------------------------------------------------------------
  // Base16 (encoding/hex: lower-case alphabet)

  function HexDigit(v: int): (c: byte)
    requires 0 <= v < 16
  {
    if v < 10 then Zero + v else 87 + v   // 'a' is 97
  }

  predicate IsHexDigit(c: byte) { IsDigit(c) || 97 <= c <= 102 }

  function HexValue(c: byte): (v: int)
    requires IsHexDigit(c)
    ensures 0 <= v < 16 && HexDigit(v) == c
  {
    if IsDigit(c) then c - Zero else c - 87
  }

  /** hex.Encode: two lower-case hex digits per byte, high nibble first. */
  function HexEncode(src: seq<byte>): (dst: seq<byte>)
    ensures |dst| == 2 * |src|
    ensures forall k :: 0 <= k < |src| ==>
      dst[2 * k] == HexDigit(src[k] / 16) && dst[2 * k + 1] == HexDigit(src[k] % 16)
    ensures forall k :: 0 <= k < |dst| ==> IsHexDigit(dst[k])
  {
    if src == [] then []
    else
      var rest := HexEncode(src[1..]);
      var dst := [HexDigit(src[0] / 16), HexDigit(src[0] % 16)] + rest;
      assert forall j :: 2 <= j < |dst| ==> dst[j] == rest[j - 2];
      assert forall k :: 1 <= k < |src| ==> src[k] == src[1..][k - 1];
      dst
  }

  /** hex.Decode on well-formed input: each pair of digits gives one byte. */
  function HexDecode(s: seq<byte>): (r: seq<byte>)
    requires |s| % 2 == 0
    requires forall k :: 0 <= k < |s| ==> IsHexDigit(s[k])
  {
    if s == [] then [] else [HexValue(s[0]) * 16 + HexValue(s[1])] + HexDecode(s[2..])
  }

  lemma {:induction false} HexRoundTrip(src: seq<byte>)
    ensures HexDecode(HexEncode(src)) == src
  {
    if src != [] {
      var e := HexEncode(src);
      assert e[2..] == HexEncode(src[1..]);
      HexRoundTrip(src[1..]);
      assert HexValue(e[0]) == src[0] / 16 && HexValue(e[1]) == src[0] % 16;
    }
  }

  /** Hex encoding loses nothing, so different inputs give different text. */
  lemma HexInjective(a: seq<byte>, b: seq<byte>)
    requires HexEncode(a) == HexEncode(b)
    ensures a == b
  {
    HexRoundTrip(a);
    HexRoundTrip(b);
  }

  /** Two hex digits per byte, high nibble first, is the hex encoding. */
  lemma HexDigitsAre(text: seq<byte>, src: seq<byte>)
    requires |text| == 2 * |src|
    requires forall k :: 0 <= k < |src| ==>
      text[2 * k] == HexDigit(src[k] / 16) && text[2 * k + 1] == HexDigit(src[k] % 16)
    ensures text == HexEncode(src)
  {
    var expected := HexEncode(src);
    forall j | 0 <= j < |text| ensures text[j] == expected[j] {
      var k := j / 2;
      assert 0 <= k < |src|;
      assert text[2 * k] == expected[2 * k] && text[2 * k + 1] == expected[2 * k + 1];
      assert j == 2 * k || j == 2 * k + 1;
    }
  }

  // ---------------------------------------------------------------------------
  // Go's copy(dst[off:], src) when src fits

  method CopyInto(dst: array<byte>, off: nat, src: seq<byte>)
    requires off + |src| <= dst.Length
    modifies dst
    ensures forall k :: 0 <= k < dst.Length ==>
      dst[k] == if off <= k < off + |src| then src[k - off] else old(dst[k])
  {
    var i := 0;
    while i < |src|
      invariant 0 <= i <= |src|
      invariant forall k :: 0 <= k < dst.Length ==>
        dst[k] == if off <= k < off + i then src[k - off] else old(dst[k])
    {
      dst[off + i] := src[i];
      i := i + 1;
    }
  }
}
