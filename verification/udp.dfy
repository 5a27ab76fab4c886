/**
 * The captured UDP unit and its correlation id (proto/udp.go). The id is the
 * SHA-1 digest of the decimal texts of the capture time in nanoseconds, the
 * source port, the destination port and the declared UDP length, written one
 * after the other, hex-encoded into 40 bytes.
 *
 * Decoding the datagram (gopacket) and SHA-1 itself are not part of this
 * model: the decoded RFC 768 header fields come in as a value, and the digest
 * is a parameter of type Digest (any function into 20-byte strings).
 */
module Udp {
  import opened Bytes

  /** A 160-bit digest. */
  type Digest = s: seq<byte> | |s| == 20
    witness [0, 0, 0, 0, 0, 0, 0, 0, 0, 0, 0, 0, 0, 0, 0, 0, 0, 0, 0, 0]

  /** The fields gopacket's DecodeFromBytes fills in from the UDP segment. */
  datatype UDPHeader = UDPHeader(srcPort: uint16, dstPort: uint16, length: uint16, checksum: uint16, payload: seq<byte>)

  /** A captured datagram; `start` is Start.UnixNano(). */
  datatype UDPMessage = UDPMessage(
    isIncoming: bool,
    start: int64,
    srcIp: seq<byte>,
    dstIp: seq<byte>,
    srcPort: uint16,
    dstPort: uint16,
    length: uint16,
    checksum: uint16,
    data: seq<byte>)

  /**
   * UnixNano of Go's zero time.Time: -62135596800 seconds times 10^9 wraps
   * around in int64 arithmetic to this value.
   */
  const ZeroTimeUnixNano: int64 := -6795364578871345152

  lemma ZeroTimeWraps()
    ensures WrapInt64(-62135596800 * 1_000_000_000) == ZeroTimeUnixNano
  {
  }

  /**
   * NewUDPMessage: copies both addresses into fresh buffers, takes the ports,
   * length, checksum and payload from the decoded header and the direction
   * from its flag. Start is not set, so it keeps the zero time.
   */
  method NewUDPMessage(udp: UDPHeader, srcIp: array<byte>, dstIp: array<byte>, isIncoming: bool)
    returns (m: UDPMessage)
    ensures m.srcIp == srcIp[..] && m.dstIp == dstIp[..]
    ensures m.srcPort == udp.srcPort && m.dstPort == udp.dstPort
    ensures m.length == udp.length && m.checksum == udp.checksum && m.data == udp.payload
    ensures m.isIncoming == isIncoming
    ensures m.start == ZeroTimeUnixNano
  {
    var src := new byte[srcIp.Length];
    CopyInto(src, 0, srcIp[..]);
    var dst := new byte[dstIp.Length];
    CopyInto(dst, 0, dstIp[..]);
    m := UDPMessage(isIncoming, ZeroTimeUnixNano, src[..], dst[..],
      udp.srcPort, udp.dstPort, udp.length, udp.checksum, udp.payload);
  }

  /** The text that is hashed: four decimal numbers with nothing between them. */
  function Key(m: UDPMessage): seq<byte>
  {
    Decimal(m.start) + Decimal(m.srcPort) + Decimal(m.dstPort) + Decimal(m.length)
  }

  /** The id UUID() returns. */
  function UUIDOf(m: UDPMessage, sha: seq<byte> -> Digest): seq<byte>
  {
    HexEncode(sha(Key(m)))
  }

  /**
   * UUID: appends the four decimal texts to a key, hashes it and hex-encodes
   * the 20-byte digest into a 40-byte buffer, two digits per byte.
   */
  method UUID(m: UDPMessage, sha: seq<byte> -> Digest) returns (uuid: seq<byte>)
    ensures |uuid| == 40 && forall k :: 0 <= k < 40 ==> IsHexDigit(uuid[k])
    ensures HexDecode(uuid) == sha(Key(m))
    ensures uuid == UUIDOf(m, sha)
  {
    var key: seq<byte> := [];
    key := key + Decimal(m.start);
    key := key + Decimal(m.srcPort);
    key := key + Decimal(m.dstPort);
    key := key + Decimal(m.length);
    assert key == Key(m);
    var buf := new byte[40];
    var sum := sha(key);
    var i := 0;
    while i < 20
      invariant 0 <= i <= 20
      invariant forall k :: 0 <= k < i ==>
        buf[2 * k] == HexDigit(sum[k] / 16) && buf[2 * k + 1] == HexDigit(sum[k] % 16)
    {
      buf[2 * i] := HexDigit(sum[i] / 16);
      buf[2 * i + 1] := HexDigit(sum[i] % 16);
      i := i + 1;
    }
    uuid := buf[..];
    HexDigitsAre(uuid, sum);
    HexRoundTrip(sum);
  }

  /** Data: the payload, as stored. */
  function Data(m: UDPMessage): (d: seq<byte>)
    ensures d == m.data
  {
    m.data
  }

  // ---------------------------------------------------------------------------
  // What the id does and does not tell apart

  /** The id reads nothing but the time, the two ports and the length. */
  lemma UUIDDependsOnKeyFieldsOnly(m: UDPMessage, n: UDPMessage, sha: seq<byte> -> Digest)
    requires m.start == n.start && m.srcPort == n.srcPort && m.dstPort == n.dstPort && m.length == n.length
    ensures UUIDOf(m, sha) == UUIDOf(n, sha)
  {
  }

  /** Without separators, ports 1 and 23 collide with ports 12 and 3. */
  lemma PortsCollide(m: UDPMessage, n: UDPMessage, sha: seq<byte> -> Digest)
    requires m.start == n.start && m.length == n.length
    requires m.srcPort == 1 && m.dstPort == 23 && n.srcPort == 12 && n.dstPort == 3
    ensures Key(m) == Key(n) && UUIDOf(m, sha) == UUIDOf(n, sha)
  {
    assert NatDigits(23) == NatDigits(2) + [Zero + 3];
    assert NatDigits(12) == NatDigits(1) + [Zero + 2];
    assert Decimal(1) + Decimal(23) == Decimal(12) + Decimal(3);
  }

  /** Two units that differ only by swapped ports, as a reply and its request do. */
  predicate SwappedPorts(request: UDPMessage, reply: UDPMessage)
  {
    reply.start == request.start && reply.length == request.length
    && reply.srcPort == request.dstPort && reply.dstPort == request.srcPort
  }

  /** Swapping the ports keeps the key exactly when the two port texts commute. */
  lemma SwappedKeyIff(request: UDPMessage, reply: UDPMessage)
    requires SwappedPorts(request, reply)
    ensures Key(reply) == Key(request) <==>
      Decimal(request.srcPort) + Decimal(request.dstPort) == Decimal(request.dstPort) + Decimal(request.srcPort)
  {
    var t, p, q, l := Decimal(request.start), Decimal(request.srcPort), Decimal(request.dstPort), Decimal(request.length);
    assert Key(request) == t + (p + q) + l;
    assert Key(reply) == t + (q + p) + l;
    if Key(reply) == Key(request) {
      assert (t + (q + p) + l)[|t|..|t| + |p| + |q|] == q + p;
      assert (t + (p + q) + l)[|t|..|t| + |p| + |q|] == p + q;
    }
  }

  /** Ports with the same number of digits that differ give the reply a different key. */
  lemma SwappedKeyDiffers(request: UDPMessage, reply: UDPMessage)
    requires SwappedPorts(request, reply)
    requires request.srcPort != request.dstPort
    requires |Decimal(request.srcPort)| == |Decimal(request.dstPort)|
    ensures Key(reply) != Key(request)
  {
    SwappedKeyIff(request, reply);
    var p, q := Decimal(request.srcPort), Decimal(request.dstPort);
    if p + q == q + p {
      assert (p + q)[..|p|] == p && (q + p)[..|q|] == q;
      DecimalInjective(request.srcPort, request.dstPort);
    }
  }

  /** But ports 1 and 11 commute ("1" + "11" == "11" + "1"): the reply shares the key. */
  lemma SwappedKeyCollides(request: UDPMessage, reply: UDPMessage, sha: seq<byte> -> Digest)
    requires SwappedPorts(request, reply)
    requires request.srcPort == 1 && request.dstPort == 11
    ensures Key(reply) == Key(request) && UUIDOf(reply, sha) == UUIDOf(request, sha)
  {
    SwappedKeyIff(request, reply);
    assert NatDigits(11) == NatDigits(1) + [Zero + 1];
  }

  /** A digest that does not collide on the two keys turns a different key into a different id. */
  lemma ReplyIdDiffers(request: UDPMessage, reply: UDPMessage, sha: seq<byte> -> Digest)
    requires SwappedPorts(request, reply)
    requires request.srcPort != request.dstPort
    requires |Decimal(request.srcPort)| == |Decimal(request.dstPort)|
    requires sha(Key(request)) == sha(Key(reply)) ==> Key(request) == Key(reply)
    ensures UUIDOf(reply, sha) != UUIDOf(request, sha)
  {
    SwappedKeyDiffers(request, reply);
    if UUIDOf(reply, sha) == UUIDOf(request, sha) {
      HexInjective(sha(Key(reply)), sha(Key(request)));
    }
  }
}
