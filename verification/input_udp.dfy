/**
 * The UDP input's PluginRead (input/input_udp.go): turns one captured unit into
 * a Message. The unit that the listener goroutine hands over on the channel is
 * a parameter here.
 */
module UdpInput {
  import opened Bytes
  import opened Proto
  import opened Udp
  import opened Capability

  /** The header type a unit gets from its direction. */
  function DirectionType(m: UDPMessage): byte
  {
    if m.isIncoming then RequestPayload else ResponsePayload
  }

  /**
   * PluginRead: an incoming unit becomes a request and an outgoing one a
   * response; the header carries the unit's id, its capture time and its
   * source address, and the body is the unit's payload. It never fails.
   */
  function PluginRead(m: UDPMessage, sha: seq<byte> -> Digest, ipText: seq<byte> -> Token): (r: ReadResult)
    ensures r.Got?
    ensures r.msg.data == m.data
    ensures |r.msg.meta| > 0 && (IsRequestPayload(r.msg.meta) <==> m.isIncoming)
    ensures PayloadMeta(r.msg.meta) == [[DirectionType(m)], UUIDOf(m, sha), Decimal(m.start), IpString(m.srcIp, ipText)]
    ensures PayloadBody(r.msg.meta + r.msg.data) == m.data
  {
    var uuid := UUIDOf(m, sha);
    var sTime := Decimal(m.start);
    var sIp := IpString(m.srcIp, ipText);
    var header := Header(DirectionType(m), uuid, sTime, sIp);
    HeaderMetaRoundTrip(DirectionType(m), uuid, sTime, sIp, []);
    assert header + [] == header;
    HeaderBodyRoundTrip(DirectionType(m), uuid, sTime, sIp, m.data);
    Got(Message(header, m.data))
  }
}
