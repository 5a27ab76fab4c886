/**
 * The record protocol (proto/goreplay.go): every message that flows between
 * plugins is framed by the textual header
 *
 *     <type> <id> <timestamp> <ip>\n
 *
 * followed by the payload. The header is built at fixed offsets and taken
 * apart by searching for the first newline and splitting on single spaces.
 */
module Proto {
  import opened Bytes

  /** Payload types: the first byte of every header. */
  const RequestPayload: byte := 49           // '1'
  const ResponsePayload: byte := 50          // '2'
  const ReplayedResponsePayload: byte := 51  // '3'

  /**
   * "\n🐵🙈🙉\n" in UTF-8: a newline, U+1F435, U+1F648, U+1F649 (four bytes
   * each) and a newline.
   */
  const PayloadSeparator: seq<byte> :=
    [0x0A, 0xF0, 0x9F, 0x90, 0xB5, 0xF0, 0x9F, 0x99, 0x88, 0xF0, 0x9F, 0x99, 0x89, 0x0A]

  /** The unit that flows through the pipeline: header bytes and payload bytes. */
  datatype Message = Message(meta: seq<byte>, data: seq<byte>)

  /** A reply captured by an output, with the id of the request it answers. */
  datatype Response = Response(payload: seq<byte>, uuid: seq<byte>, roundTripTime: int64, startedAt: int64)

  // ---------------------------------------------------------------------------
  // The IP field

  /** net.IPv4(a, b, c, d).String(): four decimal numbers joined by dots. */
  function DottedQuad(ip: seq<byte>): (s: Token)
    requires |ip| == 4
  {
    Join4(Decimal(ip[0]), Decimal(ip[1]), Decimal(ip[2]), Decimal(ip[3]), Dot);
    Join([Decimal(ip[0]), Decimal(ip[1]), Decimal(ip[2]), Decimal(ip[3])], Dot)
  }

  lemma Join4(a: seq<byte>, b: seq<byte>, c: seq<byte>, d: seq<byte>, sep: byte)
    ensures Join([a, b, c, d], sep) == a + [sep] + b + [sep] + c + [sep] + d
  {
    assert [a, b, c, d][1..] == [b, c, d];
    assert [b, c, d][1..] == [c, d];
    assert [c, d][1..] == [d];
    assert Join([c, d], sep) == c + [sep] + d;
    assert Join([b, c, d], sep) == b + [sep] + (c + [sep] + d);
    assert Join([a, b, c, d], sep) == a + [sep] + (b + [sep] + (c + [sep] + d));
  }

  /** Four pieces of one to three digits, each at most 255: what a dotted quad splits into. */
  predicate QuadParts(parts: seq<seq<byte>>)
  {
    |parts| == 4 && forall k :: 0 <= k < 4 ==> 1 <= |parts[k]| <= 3 && AllDigits(parts[k]) && ParseNat(parts[k]) < 256
  }

  /** Reads a dotted quad back into its four bytes. */
  function ParseDottedQuad(s: seq<byte>): (ip: seq<byte>)
    requires QuadParts(Split(s, Dot))
  {
    var parts := Split(s, Dot);
    [ParseNat(parts[0]), ParseNat(parts[1]), ParseNat(parts[2]), ParseNat(parts[3])]
  }

  /** The text of a 4-byte address gives the address back. */
  lemma DottedQuadRoundTrip(ip: seq<byte>)
    requires |ip| == 4
    ensures QuadParts(Split(DottedQuad(ip), Dot)) && ParseDottedQuad(DottedQuad(ip)) == ip
  {
    var parts := Split(DottedQuad(ip), Dot);
    DottedQuadSplit(ip);
    forall k | 0 <= k < 4
      ensures 1 <= |parts[k]| <= 3 && AllDigits(parts[k]) && ParseNat(parts[k]) == ip[k]
    {
      ByteDigits(ip[k]);
    }
    assert QuadParts(parts);
    assert ParseDottedQuad(DottedQuad(ip)) == [ip[0], ip[1], ip[2], ip[3]];
  }

  /** The dotted text splits at its dots into the four decimal numbers. */
  lemma DottedQuadSplit(ip: seq<byte>)
    requires |ip| == 4
    ensures |Split(DottedQuad(ip), Dot)| == 4
    ensures forall k :: 0 <= k < 4 ==> Split(DottedQuad(ip), Dot)[k] == Decimal(ip[k])
  {
    var parts := [Decimal(ip[0]), Decimal(ip[1]), Decimal(ip[2]), Decimal(ip[3])];
    assert DottedQuad(ip) == Join(parts, Dot);
    SplitJoin(parts, Dot);
  }

  /** The decimal text of a byte: one to three digits that read back as the byte. */
  lemma ByteDigits(b: byte)
    ensures 1 <= |Decimal(b)| <= 3 && AllDigits(Decimal(b)) && ParseNat(Decimal(b)) == b
  {
    assert Decimal(b) == NatDigits(b);
    NatDigitsRoundTrip(b);
    SmallDigits(b);
  }

  /** A byte has at most three decimal digits. */
  lemma SmallDigits(n: nat)
    requires n < 1000
    ensures |NatDigits(n)| <= 3
  {
    if n >= 10 {
      assert NatDigits(n) == NatDigits(n / 10) + [Zero + n % 10];
      if n / 10 >= 10 {
        assert NatDigits(n / 10) == NatDigits(n / 10 / 10) + [Zero + n / 10 % 10];
      }
    }
  }

  /**
   * The address text PayloadHeader writes: a dotted quad for a 4-byte address,
   * nothing for an empty one, and net.IP.String (the parameter `ipText`) for
   * any other length.
   */
  function IpString(srcIp: seq<byte>, ipText: seq<byte> -> Token): (s: Token)
    ensures |srcIp| == 0 ==> s == []
    ensures |srcIp| == 4 ==> QuadParts(Split(s, Dot)) && ParseDottedQuad(s) == srcIp
    ensures 0 < |srcIp| != 4 ==> s == ipText(srcIp)
  {
    if |srcIp| == 4 then DottedQuadRoundTrip(srcIp); DottedQuad(srcIp)
    else if |srcIp| > 0 then ipText(srcIp)
    else []
  }

  /** ipText for callers that pass no address (the field is then empty whatever it says). */
  function NoIpText(ip: seq<byte>): Token { [] }

  // ---------------------------------------------------------------------------
  // Building a header

  /** The header for already formatted fields. */
  function Header(payloadType: byte, uuid: seq<byte>, sTime: seq<byte>, sIp: seq<byte>): seq<byte>
  {
    [payloadType, Space] + uuid + [Space] + sTime + [Space] + sIp + [Newline]
  }

  /** The header PayloadHeader produces: timestamp in decimal, address as text. */
  function HeaderOf(payloadType: byte, uuid: seq<byte>, timing: int64, srcIp: seq<byte>, ipText: seq<byte> -> Token): seq<byte>
  {
    Header(payloadType, uuid, Decimal(timing), IpString(srcIp, ipText))
  }

  /**
   * PayloadHeader: allocates a buffer of the exact length, writes the type,
   * the three spaces and the final newline at fixed offsets, then copies the
   * id, the timestamp and the address text into the gaps.
   */
  method PayloadHeader(payloadType: byte, uuid: seq<byte>, timing: int64, srcIp: seq<byte>, ipText: seq<byte> -> Token)
    returns (header: seq<byte>)
    ensures |header| == 1 + 1 + |uuid| + 1 + |Decimal(timing)| + 1 + |IpString(srcIp, ipText)| + 1
    ensures header == HeaderOf(payloadType, uuid, timing, srcIp, ipText)
  {
    var sTime := Decimal(timing);
    var sIp := IpString(srcIp, ipText);
    var headerLen := 1 + 1 + |uuid| + 1 + |sTime| + 1 + |sIp| + 1;
    var h := new byte[headerLen];
    h[0] := payloadType;
    h[1] := Space;
    h[2 + |uuid|] := Space;
    h[3 + |uuid| + |sTime|] := Space;
    h[h.Length - 1] := Newline;
    CopyInto(h, 2, uuid);
    CopyInto(h, 3 + |uuid|, sTime);
    CopyInto(h, 4 + |uuid| + |sTime|, sIp);
    header := h[..];
    ghost var expected := Header(payloadType, uuid, sTime, sIp);
    forall k | 0 <= k < headerLen ensures header[k] == expected[k] {
      HeaderAt(payloadType, uuid, sTime, sIp, k);
    }
  }

  /** Byte `k` of a header: the fixed bytes at their offsets, the fields in the gaps. */
  lemma HeaderAt(payloadType: byte, uuid: seq<byte>, sTime: seq<byte>, sIp: seq<byte>, k: nat)
    requires k < |Header(payloadType, uuid, sTime, sIp)|
    ensures |Header(payloadType, uuid, sTime, sIp)| == 1 + 1 + |uuid| + 1 + |sTime| + 1 + |sIp| + 1
    ensures Header(payloadType, uuid, sTime, sIp)[k] ==
      if k == 0 then payloadType
      else if k == 1 then Space
      else if k < 2 + |uuid| then uuid[k - 2]
      else if k == 2 + |uuid| then Space
      else if k < 3 + |uuid| + |sTime| then sTime[k - 3 - |uuid|]
      else if k == 3 + |uuid| + |sTime| then Space
      else if k < 4 + |uuid| + |sTime| + |sIp| then sIp[k - 4 - |uuid| - |sTime|]
      else Newline
  {
  }

  /** Where every piece of a header sits. */
  lemma HeaderLayout(payloadType: byte, uuid: seq<byte>, sTime: seq<byte>, sIp: seq<byte>)
    ensures var h := Header(payloadType, uuid, sTime, sIp);
      && |h| == 1 + 1 + |uuid| + 1 + |sTime| + 1 + |sIp| + 1
      && h[0] == payloadType && h[1] == Space
      && h[2 + |uuid|] == Space && h[3 + |uuid| + |sTime|] == Space
      && h[|h| - 1] == Newline
      && h[2..2 + |uuid|] == uuid
      && h[3 + |uuid|..3 + |uuid| + |sTime|] == sTime
      && h[4 + |uuid| + |sTime|..|h| - 1] == sIp
  {
  }

  // ---------------------------------------------------------------------------
  // Taking a payload apart

  /** PayloadBody: what follows the first newline (the whole payload when there is none). */
  function PayloadBody(payload: seq<byte>): (body: seq<byte>)
    ensures |body| <= |payload|
    ensures body == payload[|payload| - |body|..]
    ensures Newline !in payload ==> body == payload
    ensures Newline in payload ==> var h := |payload| - |body|;
      0 < h && payload[h - 1] == Newline && Newline !in payload[..h - 1]
  {
    var headerSize := IndexByte(payload, Newline);
    payload[headerSize + 1..]
  }

  /** The text before the first newline, or nothing when there is no newline. */
  function HeaderLine(payload: seq<byte>): (line: seq<byte>)
    ensures Newline !in line
    ensures Newline !in payload ==> line == []
    ensures Newline in payload ==> line + [Newline] <= payload
  {
    var i := IndexByte(payload, Newline);
    if i < 0 then [] else
      assert payload[..i] + [Newline] == payload[..i + 1];
      payload[..i]
  }

  /**
   * PayloadMeta: the space-separated fields of the text before the first
   * newline; with no newline, the fields of the empty text (one empty field).
   */
  function PayloadMeta(payload: seq<byte>): (fields: seq<seq<byte>>)
    ensures |fields| >= 1
    ensures forall k :: 0 <= k < |fields| ==> Space !in fields[k] && Newline !in fields[k]
    ensures Newline !in payload ==> fields == [[]]
    ensures Newline in payload ==> Join(fields, Space) + [Newline] <= payload
  {
    var line := HeaderLine(payload);
    SplitKeeps(line, Space, Newline);
    JoinSplit(line, Space);
    Split(line, Space)
  }

  /** A byte absent from the text is absent from every piece of its split. */
  lemma {:induction false} SplitKeeps(s: seq<byte>, sep: byte, c: byte)
    requires c !in s
    ensures forall k :: 0 <= k < |Split(s, sep)| ==> c !in Split(s, sep)[k]
    decreases |s|
  {
    var i := IndexByte(s, sep);
    if i >= 0 {
      assert forall x :: x in s[i + 1..] ==> x in s;
      SplitKeeps(s[i + 1..], sep, c);
      assert forall x :: x in s[..i] ==> x in s;
    }
  }

  /**
   * PayloadMetaWithBody: splits after the first newline when that newline is
   * not the first byte and something follows it; otherwise there is no header
   * and the whole payload is the body.
   */
  function PayloadMetaWithBody(payload: seq<byte>): (r: (seq<byte>, seq<byte>))
    ensures r.0 + r.1 == payload
    ensures r.0 == [] <==>
      Newline !in payload || payload[0] == Newline || Newline !in payload[..|payload| - 1]
    ensures r.0 != [] ==> 2 <= |r.0| && r.0[|r.0| - 1] == Newline && Newline !in r.0[..|r.0| - 1] && r.1 != []
  {
    var i := IndexByte(payload, Newline);
    if i > 0 && |payload| > i + 1 then
      (payload[..i + 1], payload[i + 1..])
    else
      ([], payload)
  }

  /**
   * IsRequestPayload: the first byte is the request type (the payload must not
   * be empty). The converse for framed payloads, that a header is a request
   * exactly when its type byte is '1', is the lemma RequestType.
   */
  predicate IsRequestPayload(payload: seq<byte>): (r: bool)
    requires |payload| > 0
    ensures r ==> payload[0] != ResponsePayload && payload[0] != ReplayedResponsePayload
    ensures r ==> HeaderLine(payload) == [] || HeaderLine(payload)[0] == RequestPayload
  {
    payload[0] == RequestPayload
  }

  // ---------------------------------------------------------------------------
  // Round trips

  /** A header whose fields hold no space or newline. */
  predicate WellFormedFields(payloadType: byte, uuid: seq<byte>, sTime: seq<byte>, sIp: seq<byte>)
  {
    payloadType != Space && payloadType != Newline
    && Space !in uuid && Newline !in uuid
    && Space !in sTime && Newline !in sTime
    && Space !in sIp && Newline !in sIp
  }

  /** The header's only newline is its last byte. */
  lemma HeaderFirstNewline(payloadType: byte, uuid: seq<byte>, sTime: seq<byte>, sIp: seq<byte>, body: seq<byte>)
    requires WellFormedFields(payloadType, uuid, sTime, sIp)
    ensures var h := Header(payloadType, uuid, sTime, sIp);
      IndexByte(h + body, Newline) == |h| - 1
  {
    var h := Header(payloadType, uuid, sTime, sIp);
    var line := [payloadType, Space] + uuid + [Space] + sTime + [Space] + sIp;
    assert h == line + [Newline];
    assert (h + body)[..|h| - 1] == line;
    IndexByteIs(h + body, Newline, |h| - 1);
  }

  /** Splitting a header gives back exactly its four fields, whatever body follows. */
  lemma HeaderMetaRoundTrip(payloadType: byte, uuid: seq<byte>, sTime: seq<byte>, sIp: seq<byte>, body: seq<byte>)
    requires WellFormedFields(payloadType, uuid, sTime, sIp)
    ensures PayloadMeta(Header(payloadType, uuid, sTime, sIp) + body) == [[payloadType], uuid, sTime, sIp]
  {
    var h := Header(payloadType, uuid, sTime, sIp);
    HeaderFirstNewline(payloadType, uuid, sTime, sIp, body);
    var fields := [[payloadType], uuid, sTime, sIp];
    Join4([payloadType], uuid, sTime, sIp, Space);
    assert (h + body)[..|h| - 1] == Join(fields, Space);
    SplitJoin(fields, Space);
  }

  /** The body after a header is exactly what was appended to it. */
  lemma HeaderBodyRoundTrip(payloadType: byte, uuid: seq<byte>, sTime: seq<byte>, sIp: seq<byte>, body: seq<byte>)
    requires WellFormedFields(payloadType, uuid, sTime, sIp)
    ensures PayloadBody(Header(payloadType, uuid, sTime, sIp) + body) == body
  {
    var h := Header(payloadType, uuid, sTime, sIp);
    HeaderFirstNewline(payloadType, uuid, sTime, sIp, body);
    assert (h + body)[|h|..] == body;
  }

  /**
   * PayloadMetaWithBody recovers a header and its body when the body is not
   * empty; a header with an empty body is taken for a payload without header.
   */
  lemma HeaderMetaWithBody(payloadType: byte, uuid: seq<byte>, sTime: seq<byte>, sIp: seq<byte>, body: seq<byte>)
    requires WellFormedFields(payloadType, uuid, sTime, sIp)
    ensures var h := Header(payloadType, uuid, sTime, sIp);
      PayloadMetaWithBody(h + body) == if body == [] then ([], h) else (h, body)
  {
    var h := Header(payloadType, uuid, sTime, sIp);
    HeaderFirstNewline(payloadType, uuid, sTime, sIp, body);
    var p := h + body;
    if body == [] {
      assert p == h;
    } else {
      assert p[..|h|] == h;
      assert p[|h|..] == body;
    }
  }

  /** The type byte alone decides whether a framed payload is a request. */
  lemma RequestType(payloadType: byte, uuid: seq<byte>, sTime: seq<byte>, sIp: seq<byte>, body: seq<byte>)
    ensures IsRequestPayload(Header(payloadType, uuid, sTime, sIp) + body) <==> payloadType == RequestPayload
    ensures !IsRequestPayload(Header(ResponsePayload, uuid, sTime, sIp) + body)
    ensures !IsRequestPayload(Header(ReplayedResponsePayload, uuid, sTime, sIp) + body)
  {
  }

  /**
   * The message an output's PluginRead makes of a replayed response: a '3'
   * header with the response's id, the given timing and no address, and the
   * response payload as body.
   */
  function ReplayedMessage(uuid: seq<byte>, timing: int64, payload: seq<byte>): (msg: Message)
    ensures msg.data == payload
    ensures |msg.meta| > 0 && msg.meta[0] == ReplayedResponsePayload && !IsRequestPayload(msg.meta)
    ensures Space !in uuid && Newline !in uuid ==>
      PayloadMeta(msg.meta) == [[ReplayedResponsePayload], uuid, Decimal(timing), []]
  {
    var meta := HeaderOf(ReplayedResponsePayload, uuid, timing, [], NoIpText);
    assert meta == Header(ReplayedResponsePayload, uuid, Decimal(timing), []);
    if Space !in uuid && Newline !in uuid then
      HeaderMetaRoundTrip(ReplayedResponsePayload, uuid, Decimal(timing), [], []);
      assert meta + [] == meta;
      Message(meta, payload)
    else
      Message(meta, payload)
  }
}
