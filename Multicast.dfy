/** `src/network/multicast.py`: the multicast-address check, the RTP payload type of an SDP
    media description, and the decision `get_multicast_stream_info` takes over the SAP
    packets captured on UDP port 9875. A packet is its decoded SDP layer, if any. */
module Multicast {
  import opened Wrappers
  import opened Strings
  import opened Ipv4
  import Capture

  /** `is_multicast_ip(ip)`: the text (`str(None)` for a missing value) must be an address
      `IPv4Address` accepts, and that address must be multicast; an invalid text answers
      False rather than raising. */
  predicate IsMulticastIp(ip: Option<string>)
  {
    ParseAddr(PyStr(ip)).Ok? && IsMulticast(ParseAddr(PyStr(ip)).value)
  }

  /** An address text is multicast exactly when it is the canonical text of an address whose
      first octet is 224 to 239. */
  lemma MulticastIpIff(ip: string)
    ensures IsMulticastIp(Some(ip)) <==> exists a: Addr :: ip == DottedDecimal(a) && 224 <= a[0] <= 239
  {
    if IsMulticastIp(Some(ip)) {
      var a := ParseAddr(ip).value;
      ParseAddrIff(ip, a);
      MulticastRange(a);
    }
    if exists a: Addr :: ip == DottedDecimal(a) && 224 <= a[0] <= 239 {
      var a: Addr :| ip == DottedDecimal(a) && 224 <= a[0] <= 239;
      ParseAddrIff(ip, a);
      MulticastRange(a);
    }
  }

  /** A text without a "." is never an address, so never multicast; `str(None)` is one. */
  lemma NoDotNotMulticast(ip: Option<string>)
    requires '.' !in PyStr(ip)
    ensures !IsMulticastIp(ip)
  {
    SplitNoSep(PyStr(ip), '.');
  }

  /** `extract_rtp_payload_type`: the value of the first format field made only of decimal
      digits, or None when there is none. */
  function RtpPayloadType(formats: seq<string>): (r: Option<nat>)
    ensures r.None? <==> forall k :: 0 <= k < |formats| ==> !IsDigits(formats[k])
    ensures r.Some? ==> exists k :: 0 <= k < |formats| && IsDigits(formats[k]) && r.value == DigitsValue(formats[k])
                          && forall j :: 0 <= j < k ==> !IsDigits(formats[j])
  {
    if |formats| == 0 then None
    else if IsDigits(formats[0]) then Some(DigitsValue(formats[0]))
    else
      var rest := RtpPayloadType(formats[1..]);
      assert forall k :: 1 <= k < |formats| ==> formats[k] == formats[1..][k - 1];
      if rest.Some? then
        ghost var k :| 0 <= k < |formats[1..]| && IsDigits(formats[1..][k]) && rest.value == DigitsValue(formats[1..][k])
                      && forall j :: 0 <= j < k ==> !IsDigits(formats[1..][j]);
        assert forall j :: 0 <= j < k + 1 ==> !IsDigits(formats[j]) by {
          forall j | 0 <= j < k + 1 ensures !IsDigits(formats[j]) {
            if j > 0 {
              assert formats[j] == formats[1..][j - 1];
            }
          }
        }
        rest
      else rest
  }

  /** The SDP fields read from a packet: the media format fields' texts, and the media port,
      channel count and connection address when the layer has them. */
  datatype Sdp = Sdp(formats: seq<string>, mediaPort: Option<string>, channels: Option<string>,
                     connectionAddress: Option<string>)

  /** A captured packet: its SDP layer, when it has one. */
  datatype Packet = Packet(sdp: Option<Sdp>)

  /** The four values one SDP packet sets. */
  datatype Fields = Fields(ip: Option<string>, port: int, rtpPayload: Option<nat>, channels: int)

  /** `int(getattr(sdp, name, 0))`: 0 when the field is missing, else its `int()`. */
  function IntField(field: Option<string>): (r: Result<int>)
    ensures r.Err? ==> r.error == ValueError
    ensures field.None? ==> r == Ok(0)
  {
    if field.None? then Ok(0) else ParseInt(field.value)
  }

  /** The values read from one SDP layer; ValueError when the port or channel count is not an
      integer. */
  function SdpFields(sdp: Sdp): (r: Result<Fields>)
    ensures r.Ok? <==> IntField(sdp.mediaPort).Ok? && IntField(sdp.channels).Ok?
    ensures r.Ok? ==> r.value == Fields(sdp.connectionAddress, IntField(sdp.mediaPort).value,
                                        RtpPayloadType(sdp.formats), IntField(sdp.channels).value)
  {
    var rtp := RtpPayloadType(sdp.formats);
    match IntField(sdp.mediaPort)
    case Err(e) => Err(e)
    case Ok(port) =>
      match IntField(sdp.channels)
      case Err(e) => Err(e)
      case Ok(channels) => Ok(Fields(sdp.connectionAddress, port, rtp, channels))
  }

  /** The capture loop: packets without an SDP layer are skipped; each later SDP packet
      overwrites all four values; an unreadable one raises. None when no SDP packet came. */
  function Scan(packets: seq<Packet>): Result<Option<Fields>>
  {
    if |packets| == 0 then Ok(None)
    else
      match Scan(packets[..|packets| - 1])
      case Err(e) => Err(e)
      case Ok(prev) =>
        var last := packets[|packets| - 1];
        if last.sdp.None? then Ok(prev)
        else
          match SdpFields(last.sdp.value)
          case Err(e) => Err(e)
          case Ok(f) => Ok(Some(f))
  }

  /** The dict `get_multicast_stream_info` returns. */
  datatype StreamInfo = StreamInfo(multicastIp: string, multicastPort: int, rtpPayload: Option<nat>,
                                   activeChannels: int)

  /** The decision after the loop: no stream unless the address is multicast and the port is
      non-zero; otherwise the four values. */
  function Decide(found: Option<Fields>): (r: Option<StreamInfo>)
    ensures r.Some? <==> found.Some? && IsMulticastIp(found.value.ip) && found.value.port != 0
    ensures r.Some? ==> r.value == StreamInfo(found.value.ip.value, found.value.port,
                                              found.value.rtpPayload, found.value.channels)
  {
    var ip := if found.Some? then found.value.ip else None;
    if !IsMulticastIp(ip) then None
    else if ip.None? || ip.value == "" || found.value.port == 0 then None
    else Some(StreamInfo(ip.value, found.value.port, found.value.rtpPayload, found.value.channels))
  }

  /** `get_multicast_stream_info` over the packets it captures. */
  function StreamInfoOf(packets: seq<Packet>): Result<Option<StreamInfo>>
  {
    match Scan(packets)
    case Err(e) => Err(e)
    case Ok(found) => Ok(Decide(found))
  }

  lemma {:induction false} ScanErrorStays(packets: seq<Packet>, i: nat)
    requires i <= |packets| && Scan(packets[..i]).Err?
    ensures Scan(packets) == Scan(packets[..i])
    decreases |packets| - i
  {
    if i < |packets| {
      assert packets[..i + 1][..i] == packets[..i];
      ScanErrorStays(packets, i + 1);
    } else {
      assert packets[..i] == packets;
    }
  }

  /** `get_multicast_stream_info(interface, source_ip)`: one SAP packet at most is captured
      from `source_ip` to UDP port 9875, and the decision is taken on what it carried. */
  method GetMulticastStreamInfo(stream: seq<Packet>, interface: string, sourceIp: string)
    returns (r: Result<Option<StreamInfo>>)
    ensures r == StreamInfoOf(Capture.Limited(stream, 1))
  {
    var packets, capture := Capture.CaptureUdpPackets(stream, interface, Some(sourceIp), None, None, Some(9875), "udp", 1);
    var multicastIp: Option<string> := None;
    var multicastPort: int := 0;
    var rtpPayload: Option<nat> := None;
    var activeChannels: int := 0;
    var seen := false;
    for i := 0 to |packets|
      invariant Scan(packets[..i]).Ok?
      invariant seen <==> Scan(packets[..i]).value.Some?
      invariant seen ==> Scan(packets[..i]).value.value == Fields(multicastIp, multicastPort, rtpPayload, activeChannels)
      invariant !seen ==> multicastIp.None?
    {
      assert packets[..i + 1][..i] == packets[..i];
      var pkt := packets[i];
      if pkt.sdp.Some? {
        var sdp := pkt.sdp.value;
        rtpPayload := RtpPayloadType(sdp.formats);
        var port := IntField(sdp.mediaPort);
        if port.Err? {
          ScanErrorStays(packets, i + 1);
          return Err(port.error);
        }
        multicastPort := port.value;
        var channels := IntField(sdp.channels);
        if channels.Err? {
          ScanErrorStays(packets, i + 1);
          return Err(channels.error);
        }
        activeChannels := channels.value;
        multicastIp := sdp.connectionAddress;
        seen := true;
      }
    }
    assert packets[..|packets|] == packets;
    if !IsMulticastIp(multicastIp) {
      return Ok(None);
    }
    if multicastIp.None? || multicastIp.value == "" || multicastPort == 0 {
      return Ok(None);
    }
    return Ok(Some(StreamInfo(multicastIp.value, multicastPort, rtpPayload, activeChannels)));
  }

  /** The index of the last packet that carries an SDP layer, if any. */
  function LastSdp(packets: seq<Packet>): (r: Option<nat>)
    ensures r.None? <==> forall k :: 0 <= k < |packets| ==> packets[k].sdp.None?
    ensures r.Some? ==> r.value < |packets| && packets[r.value].sdp.Some?
                        && forall j :: r.value < j < |packets| ==> packets[j].sdp.None?
  {
    if |packets| == 0 then None
    else if packets[|packets| - 1].sdp.Some? then Some(|packets| - 1)
    else
      var r := LastSdp(packets[..|packets| - 1]);
      assert forall k :: 0 <= k < |packets| - 1 ==> packets[..|packets| - 1][k] == packets[k];
      r
  }

  /** The values the loop ends with are those of the LAST packet with an SDP layer, and there
      are none exactly when no packet has one. */
  lemma {:induction false} LastSdpWins(packets: seq<Packet>)
    requires Scan(packets).Ok?
    ensures Scan(packets).value.None? <==> LastSdp(packets).None?
    ensures LastSdp(packets).Some? ==>
      SdpFields(packets[LastSdp(packets).value].sdp.value) == Ok(Scan(packets).value.value)
  {
    if |packets| > 0 {
      var init := packets[..|packets| - 1];
      if packets[|packets| - 1].sdp.None? {
        assert Scan(packets) == Scan(init);
        LastSdpWins(init);
        assert LastSdp(packets) == LastSdp(init);
        if LastSdp(init).Some? {
          assert packets[LastSdp(init).value] == init[LastSdp(init).value];
        }
      }
    }
  }

  /** Nothing captured, or nothing with an SDP layer, reports no stream. */
  lemma NoSdpNoStream(packets: seq<Packet>)
    requires forall k :: 0 <= k < |packets| ==> packets[k].sdp.None?
    ensures StreamInfoOf(packets) == Ok(None)
  {
    if Scan(packets).Err? || Scan(packets).value.Some? {
      NoSdpScan(packets);
    }
  }

  lemma {:induction false} NoSdpScan(packets: seq<Packet>)
    requires forall k :: 0 <= k < |packets| ==> packets[k].sdp.None?
    ensures Scan(packets) == Ok(None)
  {
    if |packets| > 0 {
      NoSdpScan(packets[..|packets| - 1]);
    }
  }
}
