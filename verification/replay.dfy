/**
 * What travels end to end: a captured unit read by an input, written to an
 * output, replayed, and its response read back. These lemmas connect the
 * inputs' PluginRead and the outputs' send decisions.
 */
module Replay {
  import opened Bytes
  import opened Proto
  import opened Udp
  import opened Capability
  import UdpInput
  import HttpInput
  import HttpOutput
  import UdpOutput

  /** An incoming UDP unit reaches the UDP target as exactly the datagram payload that was captured. */
  lemma UdpRequestResent(m: UDPMessage, sha: seq<byte> -> Digest, ipText: seq<byte> -> Token)
    requires m.isIncoming
    ensures UdpOutput.SendRequest(UdpInput.PluginRead(m, sha, ipText).msg) == Some(m.data)
  {
  }

  /** An outgoing (reply) unit is never sent by either output. */
  lemma UdpReplyNotResent(m: UDPMessage, sha: seq<byte> -> Digest, ipText: seq<byte> -> Token,
                          outcome: HttpOutput.SendOutcome, start: int64, stop: int64, track: bool)
    requires !m.isIncoming
    ensures UdpOutput.SendRequest(UdpInput.PluginRead(m, sha, ipText).msg).None?
    ensures HttpOutput.SendRequest(UdpInput.PluginRead(m, sha, ipText).msg, outcome, start, stop, track).None?
  {
  }

  /**
   * A tracked HTTP response to a captured request carries the request's id,
   * and the replayed-response record the output reads back has that id as its
   * second field.
   */
  lemma HttpResponseKeepsId(m: UDPMessage, sha: seq<byte> -> Digest, ipText: seq<byte> -> Token,
                            body: seq<byte>, start: int64, stop: int64)
    requires m.isIncoming
    ensures var resp := HttpOutput.SendRequest(UdpInput.PluginRead(m, sha, ipText).msg,
                                               HttpOutput.SendOk(Some(body)), start, stop, true);
      resp.Some? && resp.value.uuid == UUIDOf(m, sha)
      && PayloadMeta(ReplayedMessage(resp.value.uuid, resp.value.startedAt, resp.value.payload).meta)[1] == UUIDOf(m, sha)
  {
    var resp := HttpOutput.SendRequest(UdpInput.PluginRead(m, sha, ipText).msg,
                                       HttpOutput.SendOk(Some(body)), start, stop, true);
    ResponseIdIsCaptureId(m, sha, ipText, body, start, stop);
    IdIsToken(m, sha);
    ReadBackKeepsId(resp.value);
  }

  lemma ResponseIdIsCaptureId(m: UDPMessage, sha: seq<byte> -> Digest, ipText: seq<byte> -> Token,
                              body: seq<byte>, start: int64, stop: int64)
    requires m.isIncoming
    ensures var resp := HttpOutput.SendRequest(UdpInput.PluginRead(m, sha, ipText).msg,
                                               HttpOutput.SendOk(Some(body)), start, stop, true);
      resp.Some? && resp.value.uuid == UUIDOf(m, sha)
  {
    var msg := UdpInput.PluginRead(m, sha, ipText).msg;
    CapturedRequest(m, sha, ipText);
    ResponseIdIsMetaId(msg, body, start, stop);
  }

  /** The header of a captured incoming unit marks a request and holds its id as second field. */
  lemma CapturedRequest(m: UDPMessage, sha: seq<byte> -> Digest, ipText: seq<byte> -> Token)
    requires m.isIncoming
    ensures var msg := UdpInput.PluginRead(m, sha, ipText).msg;
      |msg.meta| > 0 && IsRequestPayload(msg.meta) && |PayloadMeta(msg.meta)| == 4
      && PayloadMeta(msg.meta)[1] == UUIDOf(m, sha)
  {
  }

  /** A tracked response is filed under the id in the request's header. */
  lemma ResponseIdIsMetaId(msg: Message, body: seq<byte>, start: int64, stop: int64)
    requires |msg.meta| > 0 && IsRequestPayload(msg.meta) && |PayloadMeta(msg.meta)| >= 2
    ensures var resp := HttpOutput.SendRequest(msg, HttpOutput.SendOk(Some(body)), start, stop, true);
      resp.Some? && resp.value.uuid == PayloadMeta(msg.meta)[1]
  {
  }

  /** A response whose id is a valid header field keeps it in the record read back. */
  lemma ReadBackKeepsId(resp: Response)
    requires Space !in resp.uuid && Newline !in resp.uuid
    ensures PayloadMeta(ReplayedMessage(resp.uuid, resp.startedAt, resp.payload).meta)[1] == resp.uuid
  {
  }

  /** A captured unit's id is a valid header field. */
  lemma IdIsToken(m: UDPMessage, sha: seq<byte> -> Digest)
    ensures Space !in UUIDOf(m, sha) && Newline !in UUIDOf(m, sha)
  {
    HexEncodeIsToken(sha(Key(m)));
  }

  /** A hex id holds no space and no newline, so it survives as a header field. */
  lemma HexEncodeIsToken(d: seq<byte>)
    ensures Space !in HexEncode(d) && Newline !in HexEncode(d)
  {
    var e := HexEncode(d);
    forall k | 0 <= k < |e| ensures e[k] != Space && e[k] != Newline {
      assert IsHexDigit(e[k]);
    }
  }

  /** The HTTP output forwards a captured unit's source address as X-Real-IP. */
  lemma UdpSourceBecomesRealIp(m: UDPMessage, sha: seq<byte> -> Digest, ipText: seq<byte> -> Token,
                               originalHost: bool, urlHost: seq<byte>)
    ensures var h := HttpOutput.SendHeaders(UdpInput.PluginRead(m, sha, ipText).msg.meta, originalHost, urlHost);
      h.xRealIp.Some? && h.xRealIp.value == IpString(m.srcIp, ipText)
  {
  }

  /** A request taken by the HTTP input is replayed with the client address it recorded as X-Real-IP. */
  lemma HttpClientBecomesRealIp(
    xRealIp: seq<byte>, remoteAddr: seq<byte>, body: seq<byte>, uuid: Token, now: int64,
    parseIP: seq<byte> -> seq<byte>, ipText: seq<byte> -> Token, originalHost: bool, urlHost: seq<byte>)
    ensures var msg := HttpInput.Handle(xRealIp, remoteAddr, body, uuid, now, parseIP, ipText);
      var h := HttpOutput.SendHeaders(msg.meta, originalHost, urlHost);
      h.xRealIp.Some? && h.xRealIp.value == IpString(parseIP(HttpInput.RemoteIp(xRealIp, remoteAddr)), ipText)
  {
  }
}
