/**
 * The HTTP input (input/input_http.go): every request it receives becomes a
 * request record whose address field is the client's address; PluginRead
 * hands the records on until the input is closed.
 *
 * The HTTP server, uuid.New, time.Now and net.ParseIP are not part of this
 * model: the request id, the clock reading and the parser come in as
 * parameters.
 */
module HttpInput {
  import opened Bytes
  import opened Proto
  import opened Capability

  /**
   * The client address: a non-empty X-Real-IP header wins; otherwise
   * RemoteAddr, cut before its first ':' when it has one.
   */
  function RemoteIp(xRealIp: seq<byte>, remoteAddr: seq<byte>): (ip: seq<byte>)
    ensures |xRealIp| > 0 ==> ip == xRealIp
    ensures |xRealIp| == 0 && Colon !in remoteAddr ==> ip == remoteAddr
    ensures |xRealIp| == 0 && Colon in remoteAddr ==>
      |ip| < |remoteAddr| && ip == remoteAddr[..|ip|] && remoteAddr[|ip|] == Colon
    ensures |xRealIp| == 0 ==> Colon !in ip
  {
    if |xRealIp| > 0 then xRealIp
    else if Colon in remoteAddr then Split(remoteAddr, Colon)[0]
    else remoteAddr
  }

  /** An IPv6 peer such as "[::1]:8080" is cut to "[". */
  lemma IPv6PeerIsCut()
    ensures RemoteIp([], [91, 58, 58, 49, 93, 58, 56, 48, 56, 48]) == [91]
  {
    var addr: seq<byte> := [91, 58, 58, 49, 93, 58, 56, 48, 56, 48];
    IndexByteIs(addr, Colon, 1);
  }

  /**
   * The record the handler queues: a request header with a fresh id, the
   * time of arrival and the parsed client address, and the whole body.
   * `parseIP` stands for net.ParseIP (nil or a 16-byte address).
   */
  function Handle(
    xRealIp: seq<byte>, remoteAddr: seq<byte>, body: seq<byte>,
    uuid: Token, now: int64, parseIP: seq<byte> -> seq<byte>, ipText: seq<byte> -> Token): (msg: Message)
    ensures |msg.meta| > 0 && IsRequestPayload(msg.meta)
    ensures msg.data == body
    ensures PayloadMeta(msg.meta) ==
      [[RequestPayload], uuid, Decimal(now), IpString(parseIP(RemoteIp(xRealIp, remoteAddr)), ipText)]
    ensures PayloadBody(msg.meta + msg.data) == body
  {
    var sIp := IpString(parseIP(RemoteIp(xRealIp, remoteAddr)), ipText);
    HeaderMetaRoundTrip(RequestPayload, uuid, Decimal(now), sIp, []);
    HeaderBodyRoundTrip(RequestPayload, uuid, Decimal(now), sIp, body);
    assert Header(RequestPayload, uuid, Decimal(now), sIp) + [] == Header(RequestPayload, uuid, Decimal(now), sIp);
    Message(HeaderOf(RequestPayload, uuid, now, parseIP(RemoteIp(xRealIp, remoteAddr)), ipText), body)
  }

  /**
   * PluginRead: a select between the stop channel (closed by Close) and the
   * queue of handled records. When both are ready Go picks one at random;
   * `pickStop` is that choice. None: neither is ready and the call blocks.
   */
  function PluginRead(stopped: bool, next: Option<Message>, pickStop: bool): (r: Option<ReadResult>)
    ensures r.None? <==> !stopped && next.None?
    ensures stopped && (next.None? || pickStop) ==> r == Some(Failed(InputStopped))
    ensures r.Some? && r.value.Got? ==> next.Some? && r.value.msg == next.value
    ensures next.Some? && (!stopped || !pickStop) ==> r == Some(Got(next.value))
    ensures r.Some? && r.value.Failed? ==> stopped && r.value.err == InputStopped
  {
    if stopped && (next.None? || pickStop) then Some(Failed(InputStopped))
    else if next.Some? then Some(Got(next.value))
    else None
  }
}
