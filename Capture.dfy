/** `capture_udp_packets`: the display filter built from the optional source and
    destination address and port, and the live capture that yields at most `limit` packets
    and is closed afterwards. The packets the interface delivers are an input. */
module Capture {
  import opened Wrappers
  import opened Strings

  /** A text argument counts only when it is given and non-empty. */
  predicate TextGiven(value: Option<string>) { value.Some? && value.value != "" }

  /** A port argument counts only when it is given and non-zero. */
  predicate PortGiven(value: Option<int>) { value.Some? && value.value != 0 }

  function SourceClause(ip: string): string { "ip.src == " + ip }
  function DestClause(ip: string): string { "ip.dst == " + ip }
  function SrcPortClause(protocol: string, port: int): string { protocol + ".srcport == " + IntToString(port) }
  function DstPortClause(protocol: string, port: int): string { protocol + ".dstport == " + IntToString(port) }

  /** The `filters` list: the protocol, then one clause per argument given, in the order
      source address, destination address, source port, destination port. */
  function Filters(protocol: string, sourceIp: Option<string>, destIp: Option<string>,
                   srcPort: Option<int>, dstPort: Option<int>): (r: seq<string>)
    ensures |r| >= 1 && r[0] == protocol
    ensures |r| == 1 + (if TextGiven(sourceIp) then 1 else 0) + (if TextGiven(destIp) then 1 else 0)
                     + (if PortGiven(srcPort) then 1 else 0) + (if PortGiven(dstPort) then 1 else 0)
  {
    [protocol]
    + (if TextGiven(sourceIp) then [SourceClause(sourceIp.value)] else [])
    + (if TextGiven(destIp) then [DestClause(destIp.value)] else [])
    + (if PortGiven(srcPort) then [SrcPortClause(protocol, srcPort.value)] else [])
    + (if PortGiven(dstPort) then [DstPortClause(protocol, dstPort.value)] else [])
  }

  /** The clause for each argument appears exactly when the argument is given, and the
      clauses keep their fixed order: each one's position is one plus the number of given
      arguments before it. */
  lemma FiltersClauses(protocol: string, sourceIp: Option<string>, destIp: Option<string>,
                       srcPort: Option<int>, dstPort: Option<int>)
    ensures var r := Filters(protocol, sourceIp, destIp, srcPort, dstPort);
      var s := if TextGiven(sourceIp) then 1 else 0;
      var d := if TextGiven(destIp) then 1 else 0;
      var sp := if PortGiven(srcPort) then 1 else 0;
      && (TextGiven(sourceIp) ==> r[1] == SourceClause(sourceIp.value))
      && (TextGiven(destIp) ==> r[1 + s] == DestClause(destIp.value))
      && (PortGiven(srcPort) ==> r[1 + s + d] == SrcPortClause(protocol, srcPort.value))
      && (PortGiven(dstPort) ==> r[1 + s + d + sp] == DstPortClause(protocol, dstPort.value))
  {
  }

  /** `" && ".join(filters)`. */
  function DisplayFilter(protocol: string, sourceIp: Option<string>, destIp: Option<string>,
                         srcPort: Option<int>, dstPort: Option<int>): string
  {
    Join(Filters(protocol, sourceIp, destIp, srcPort, dstPort), " && ")
  }

  /** A joined text begins with its first piece. */
  lemma {:induction false} JoinStartsWithFirst(parts: seq<string>, sep: string)
    requires |parts| >= 1
    ensures |parts[0]| <= |Join(parts, sep)| && Join(parts, sep)[..|parts[0]|] == parts[0]
  {
    if |parts| > 1 {
      assert Join(parts, sep) == parts[0] + (sep + Join(parts[1..], sep));
    }
  }

  /** The display filter always begins with the protocol name, and is that name alone when
      no other argument is given. */
  lemma FilterStartsWithProtocol(protocol: string, sourceIp: Option<string>, destIp: Option<string>,
                                 srcPort: Option<int>, dstPort: Option<int>)
    ensures var f := DisplayFilter(protocol, sourceIp, destIp, srcPort, dstPort);
      |protocol| <= |f| && f[..|protocol|] == protocol
    ensures !TextGiven(sourceIp) && !TextGiven(destIp) && !PortGiven(srcPort) && !PortGiven(dstPort) ==>
      DisplayFilter(protocol, sourceIp, destIp, srcPort, dstPort) == protocol
  {
    JoinStartsWithFirst(Filters(protocol, sourceIp, destIp, srcPort, dstPort), " && ");
  }

  /** The packets `sniff_continuously(packet_count=limit)` yields: the first `limit`, or all
      of them when `limit` is 0. */
  function Limited<P>(stream: seq<P>, limit: nat): (r: seq<P>)
    ensures limit > 0 ==> |r| <= limit
    ensures |r| <= |stream| && r == stream[..|r|]
    ensures limit == 0 || |stream| <= limit ==> r == stream
  {
    if limit == 0 || |stream| <= limit then stream else stream[..limit]
  }

  /** A `pyshark.LiveCapture` on an interface with a display filter. */
  class LiveCapture {
    var interface: string
    var displayFilter: string
    var closed: bool

    constructor (interface: string, displayFilter: string)
      ensures this.interface == interface && this.displayFilter == displayFilter && !closed
    {
      this.interface := interface;
      this.displayFilter := displayFilter;
      closed := false;
    }

    method Close()
      modifies this
      ensures closed && interface == old(interface) && displayFilter == old(displayFilter)
    {
      closed := true;
    }
  }

  /** `capture_udp_packets(...)` run to completion: the capture is opened with the display
      filter, yields at most `limit` of the packets the interface delivers, in order, and is
      closed afterwards. */
  method CaptureUdpPackets<P>(stream: seq<P>, interface: string, sourceIp: Option<string>, destIp: Option<string>,
                              srcPort: Option<int>, dstPort: Option<int>, protocol: string, limit: nat)
    returns (packets: seq<P>, capture: LiveCapture)
    ensures packets == Limited(stream, limit)
    ensures fresh(capture) && capture.closed && capture.interface == interface
    ensures capture.displayFilter == DisplayFilter(protocol, sourceIp, destIp, srcPort, dstPort)
  {
    capture := new LiveCapture(interface, DisplayFilter(protocol, sourceIp, destIp, srcPort, dstPort));
    packets := Limited(stream, limit);
    capture.Close();
  }
}
