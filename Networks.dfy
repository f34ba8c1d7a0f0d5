/** The local-network helpers: `get_networks` groups each interface's IPv4 address records
    into {"ip", "netmask", "network"} entries, and `get_interface_from_ipv4` names the
    interface whose network holds an address. The `psutil.net_if_addrs()` dict is an input:
    its items in iteration order. */
module Networks {
  import opened Wrappers
  import opened Strings
  import opened Ipv4

  /** One `psutil` address record: the family's name, the address text, and the netmask
      text (None when the system reports none). */
  datatype Snic = Snic(family: string, address: string, netmask: Option<string>)

  /** One entry of an interface's list. */
  datatype NetInfo = NetInfo(ip: string, netmask: string, network: string)

  /** A record `get_networks` turns into an entry: an AF_INET one whose address and netmask
      are both non-empty. */
  predicate Kept(s: Snic)
  {
    s.family == "AF_INET" && s.address != "" && s.netmask.Some? && s.netmask.value != ""
  }

  /** The entry for an address and netmask: the network text is
      `str(IPv4Network(f"{ip}/{netmask}", strict=False))`, which raises ValueError for an
      invalid address or mask. */
  function Info(ip: string, netmask: string): (r: Result<NetInfo>)
    ensures r.Err? ==> r.error == ValueError
    ensures r.Ok? ==> r.value.ip == ip && r.value.netmask == netmask
  {
    match ParseNetwork(ip + "/" + netmask, false)
    case Err(e) => Err(e)
    case Ok(n) => Ok(NetInfo(ip, netmask, Render(n)))
  }

  /** The inner loop of `get_networks` over one interface's records, in order. */
  function IfaceNetworks(addrs: seq<Snic>): Result<seq<NetInfo>>
  {
    if |addrs| == 0 then Ok([])
    else
      match IfaceNetworks(addrs[..|addrs| - 1])
      case Err(e) => Err(e)
      case Ok(prev) =>
        var s := addrs[|addrs| - 1];
        if !Kept(s) then Ok(prev)
        else
          match Info(s.address, s.netmask.value)
          case Err(e) => Err(e)
          case Ok(info) => Ok(prev + [info])
  }

  /** `get_networks()`: every interface with at least one entry, in iteration order. */
  function Networks(ifaces: seq<(string, seq<Snic>)>): Result<seq<(string, seq<NetInfo>)>>
  {
    if |ifaces| == 0 then Ok([])
    else
      match Networks(ifaces[..|ifaces| - 1])
      case Err(e) => Err(e)
      case Ok(prev) =>
        var (name, addrs) := ifaces[|ifaces| - 1];
        match IfaceNetworks(addrs)
        case Err(e) => Err(e)
        case Ok(infos) => if |infos| > 0 then Ok(prev + [(name, infos)]) else Ok(prev)
  }

  /** Once a prefix of the records raises, the whole loop raises the same error. */
  lemma {:induction false} IfaceErrorStays(addrs: seq<Snic>, i: nat)
    requires i <= |addrs| && IfaceNetworks(addrs[..i]).Err?
    ensures IfaceNetworks(addrs) == IfaceNetworks(addrs[..i])
    decreases |addrs| - i
  {
    if i < |addrs| {
      assert addrs[..i + 1][..i] == addrs[..i];
      IfaceErrorStays(addrs, i + 1);
    } else {
      assert addrs[..i] == addrs;
    }
  }

  lemma {:induction false} NetworksErrorStays(ifaces: seq<(string, seq<Snic>)>, i: nat)
    requires i <= |ifaces| && Networks(ifaces[..i]).Err?
    ensures Networks(ifaces) == Networks(ifaces[..i])
    decreases |ifaces| - i
  {
    if i < |ifaces| {
      assert ifaces[..i + 1][..i] == ifaces[..i];
      NetworksErrorStays(ifaces, i + 1);
    } else {
      assert ifaces[..i] == ifaces;
    }
  }

  /** The inner loop: the entries of one interface. */
  method CollectInterface(addrs: seq<Snic>) returns (r: Result<seq<NetInfo>>)
    ensures r == IfaceNetworks(addrs)
  {
    var found: seq<NetInfo> := [];
    for i := 0 to |addrs|
      invariant IfaceNetworks(addrs[..i]) == Ok(found)
    {
      assert addrs[..i + 1][..i] == addrs[..i];
      var s := addrs[i];
      if s.family == "AF_INET" && s.address != "" && s.netmask.Some? && s.netmask.value != "" {
        var info := Info(s.address, s.netmask.value);
        if info.Err? {
          IfaceErrorStays(addrs, i + 1);
          return Err(info.error);
        }
        found := found + [info.value];
      }
    }
    assert addrs[..|addrs|] == addrs;
    return Ok(found);
  }

  /** `get_networks()`. */
  method GetNetworks(ifaces: seq<(string, seq<Snic>)>) returns (r: Result<seq<(string, seq<NetInfo>)>>)
    ensures r == Networks(ifaces)
  {
    var networks: seq<(string, seq<NetInfo>)> := [];
    for i := 0 to |ifaces|
      invariant Networks(ifaces[..i]) == Ok(networks)
    {
      assert ifaces[..i + 1][..i] == ifaces[..i];
      var infos := CollectInterface(ifaces[i].1);
      if infos.Err? {
        NetworksErrorStays(ifaces, i + 1);
        return Err(infos.error);
      }
      if |infos.value| > 0 {
        networks := networks + [(ifaces[i].0, infos.value)];
      }
    }
    assert ifaces[..|ifaces|] == ifaces;
    return Ok(networks);
  }

  /** The records `get_networks` keeps, in order. */
  function KeptRecords(addrs: seq<Snic>): (r: seq<Snic>)
    ensures forall k :: 0 <= k < |r| ==> Kept(r[k])
  {
    if |addrs| == 0 then []
    else KeptRecords(addrs[..|addrs| - 1]) + (if Kept(addrs[|addrs| - 1]) then [addrs[|addrs| - 1]] else [])
  }

  /** A kept record whose address or netmask is invalid makes the loop raise. */
  lemma {:induction false} IfaceRaises(addrs: seq<Snic>, k: nat)
    requires k < |KeptRecords(addrs)|
    requires Info(KeptRecords(addrs)[k].address, KeptRecords(addrs)[k].netmask.value).Err?
    ensures IfaceNetworks(addrs).Err?
  {
    var init := addrs[..|addrs| - 1];
    var s := addrs[|addrs| - 1];
    var keptInit := KeptRecords(init);
    if k < |keptInit| {
      assert KeptRecords(addrs)[k] == keptInit[k];
      IfaceRaises(init, k);
    } else {
      assert Kept(s) && KeptRecords(addrs)[k] == s;
    }
  }

  /** The loop raises only for a kept record whose address or netmask is invalid. */
  lemma {:induction false} IfaceRaisesOnly(addrs: seq<Snic>)
    requires IfaceNetworks(addrs).Err?
    ensures exists k ::
              0 <= k < |KeptRecords(addrs)| &&
              Info(KeptRecords(addrs)[k].address, KeptRecords(addrs)[k].netmask.value).Err?
  {
    var init := addrs[..|addrs| - 1];
    var s := addrs[|addrs| - 1];
    var keptInit := KeptRecords(init);
    if IfaceNetworks(init).Err? {
      IfaceRaisesOnly(init);
      var k :| 0 <= k < |keptInit| && Info(keptInit[k].address, keptInit[k].netmask.value).Err?;
      assert KeptRecords(addrs)[k] == keptInit[k];
    } else {
      assert Kept(s) && KeptRecords(addrs)[|keptInit|] == s;
    }
  }

  /** An interface's entries are its kept records, in order, each with its own address and
      netmask. */
  lemma {:induction false} IfaceEntries(addrs: seq<Snic>)
    requires IfaceNetworks(addrs).Ok?
    ensures var infos := IfaceNetworks(addrs).value;
      var kept := KeptRecords(addrs);
      && |infos| == |kept|
      && forall k :: 0 <= k < |kept| ==> Ok(infos[k]) == Info(kept[k].address, kept[k].netmask.value)
  {
    if |addrs| > 0 {
      var init := addrs[..|addrs| - 1];
      IfaceEntries(init);
      var kept := KeptRecords(addrs);
      var keptInit := KeptRecords(init);
      if Kept(addrs[|addrs| - 1]) {
        assert kept == keptInit + [addrs[|addrs| - 1]];
        assert forall k :: 0 <= k < |keptInit| ==> kept[k] == keptInit[k];
      } else {
        assert kept == keptInit;
      }
    }
  }

  /** An entry whose network text, re-parsed strictly, is a network holding its address. */
  predicate Consistent(info: NetInfo)
  {
    && ParseAddr(info.ip).Ok?
    && ParseNetwork(info.network, true).Ok?
    && Contains(ParseNetwork(info.network, true).value, ParseAddr(info.ip).value)
  }

  /** Every entry `Info` builds is consistent: its network is the address masked to the
      prefix the netmask denotes, so it holds the address and parses back strictly. */
  lemma InfoConsistent(ip: string, netmask: string)
    requires Info(ip, netmask).Ok?
    ensures Consistent(Info(ip, netmask).value)
    ensures var n := ParseNetwork(Info(ip, netmask).value.network, true).value;
      n.address == Masked(ParseAddr(ip).value, n.prefix) && Ok(n.prefix) == MaskPrefix(netmask)
  {
    ParseAddressMaskIff(ip, netmask);
    ParseAddressMask(ip, netmask);
    var n := ParseNetwork(ip + "/" + netmask, false).value;
    ParseRendered(n);
  }

  lemma {:induction false} IfaceConsistent(addrs: seq<Snic>)
    requires IfaceNetworks(addrs).Ok?
    ensures forall k :: 0 <= k < |IfaceNetworks(addrs).value| ==> Consistent(IfaceNetworks(addrs).value[k])
  {
    if |addrs| > 0 {
      IfaceConsistent(addrs[..|addrs| - 1]);
      var s := addrs[|addrs| - 1];
      if Kept(s) {
        InfoConsistent(s.address, s.netmask.value);
      }
    }
  }

  /** Every entry of every interface `get_networks` reports is consistent. */
  predicate AllConsistent(nets: seq<(string, seq<NetInfo>)>)
  {
    forall i, k :: 0 <= i < |nets| && 0 <= k < |nets[i].1| ==> Consistent(nets[i].1[k])
  }

  lemma {:induction false} NetworksConsistent(ifaces: seq<(string, seq<Snic>)>)
    requires Networks(ifaces).Ok?
    ensures AllConsistent(Networks(ifaces).value)
  {
    if |ifaces| > 0 {
      NetworksConsistent(ifaces[..|ifaces| - 1]);
      IfaceConsistent(ifaces[|ifaces| - 1].1);
    }
  }

  /** The interfaces `get_networks` reports are exactly the input interfaces that have at
      least one entry, each with its entries; none is reported with an empty list. */
  lemma {:induction false} NetworksIff(ifaces: seq<(string, seq<Snic>)>, name: string, infos: seq<NetInfo>)
    requires Networks(ifaces).Ok?
    ensures (name, infos) in Networks(ifaces).value <==>
      |infos| > 0 && exists i :: 0 <= i < |ifaces| && ifaces[i].0 == name && IfaceNetworks(ifaces[i].1) == Ok(infos)
  {
    if |ifaces| > 0 {
      var last := |ifaces| - 1;
      var init := ifaces[..last];
      NetworksIff(init, name, infos);
      var prev := Networks(init).value;
      var lastInfos := IfaceNetworks(ifaces[last].1).value;
      assert Networks(ifaces).value == prev + (if |lastInfos| > 0 then [(ifaces[last].0, lastInfos)] else []);
      if (name, infos) in prev {
        var i :| 0 <= i < |init| && init[i].0 == name && IfaceNetworks(init[i].1) == Ok(infos);
        assert ifaces[i] == init[i];
      }
      if exists i :: 0 <= i < |ifaces| && ifaces[i].0 == name && IfaceNetworks(ifaces[i].1) == Ok(infos) {
        var i :| 0 <= i < |ifaces| && ifaces[i].0 == name && IfaceNetworks(ifaces[i].1) == Ok(infos);
        if i < last {
          assert init[i] == ifaces[i];
        }
      }
    }
  }

  // ---------------------------------------------------------------------------
  // get_interface_from_ipv4

  /** Whether some entry of the interface holds the target; the first such entry stops the
      scan (`break`), and a network text that does not parse before it raises ValueError. */
  function IfaceMatches(target: Addr, infos: seq<NetInfo>): (r: Result<bool>)
  {
    if |infos| == 0 then Ok(false)
    else
      match ParseNetwork(infos[0].network, true)
      case Err(e) => Err(e)
      case Ok(n) => if Contains(n, target) then Ok(true) else IfaceMatches(target, infos[1..])
  }

  /** The outer loop, for any per-interface scan: every interface is scanned in order, each
      one whose scan finds the target overwrites the answer, and a scan that raises stops
      the loop. */
  function LastHit<T>(nets: seq<(string, T)>, scan: T -> Result<bool>): Result<Option<string>>
  {
    if |nets| == 0 then Ok(None)
    else
      match LastHit(nets[..|nets| - 1], scan)
      case Err(e) => Err(e)
      case Ok(prev) =>
        match scan(nets[|nets| - 1].1)
        case Err(e) => Err(e)
        case Ok(hit) => Ok(if hit then Some(nets[|nets| - 1].0) else prev)
  }

  /** The outer loop of `get_interface_from_ipv4`. */
  function Matching(target: Addr, nets: seq<(string, seq<NetInfo>)>): Result<Option<string>>
  {
    LastHit(nets, infos => IfaceMatches(target, infos))
  }

  /** `get_interface_from_ipv4(ipv4)`: the target is parsed first (ValueError when invalid),
      then the networks are gathered and scanned. */
  function InterfaceFromIpv4(ipv4: string, ifaces: seq<(string, seq<Snic>)>): Result<Option<string>>
  {
    match ParseAddr(ipv4)
    case Err(e) => Err(e)
    case Ok(target) =>
      match Networks(ifaces)
      case Err(e) => Err(e)
      case Ok(nets) => Matching(target, nets)
  }

  lemma {:induction false} LastHitErrorStays<T>(nets: seq<(string, T)>, scan: T -> Result<bool>, i: nat)
    requires i <= |nets| && LastHit(nets[..i], scan).Err?
    ensures LastHit(nets, scan) == LastHit(nets[..i], scan)
    decreases |nets| - i
  {
    if i < |nets| {
      assert nets[..i + 1][..i] == nets[..i];
      LastHitErrorStays(nets, scan, i + 1);
    } else {
      assert nets[..i] == nets;
    }
  }

  /** The inner loop with its `break`. */
  method ScanInterface(target: Addr, infos: seq<NetInfo>) returns (r: Result<bool>)
    ensures r == IfaceMatches(target, infos)
  {
    var i := 0;
    while i < |infos|
      invariant 0 <= i <= |infos|
      invariant IfaceMatches(target, infos[i..]) == IfaceMatches(target, infos)
    {
      var network := ParseNetwork(infos[i].network, true);
      if network.Err? {
        return Err(network.error);
      }
      if Contains(network.value, target) {
        return Ok(true);
      }
      assert infos[i..][1..] == infos[i + 1..];
      i := i + 1;
    }
    return Ok(false);
  }

  /** `get_interface_from_ipv4(ipv4)`. */
  method GetInterfaceFromIpv4(ipv4: string, ifaces: seq<(string, seq<Snic>)>) returns (r: Result<Option<string>>)
    ensures r == InterfaceFromIpv4(ipv4, ifaces)
  {
    var target := ParseAddr(ipv4);
    if target.Err? {
      return Err(target.error);
    }
    var nets := GetNetworks(ifaces);
    if nets.Err? {
      return Err(nets.error);
    }
    var matching: Option<string> := None;
    for i := 0 to |nets.value|
      invariant Matching(target.value, nets.value[..i]) == Ok(matching)
    {
      assert nets.value[..i + 1][..i] == nets.value[..i];
      var hit := ScanInterface(target.value, nets.value[i].1);
      if hit.Err? {
        LastHitErrorStays(nets.value, infos => IfaceMatches(target.value, infos), i + 1);
        return Err(hit.error);
      }
      if hit.value {
        matching := Some(nets.value[i].0);
      }
    }
    assert nets.value[..|nets.value|] == nets.value;
    return Ok(matching);
  }

  /** Some entry of the interface holds the target. */
  predicate Holds(target: Addr, infos: seq<NetInfo>)
  {
    && |infos| > 0
    && ((Consistent(infos[0]) && Contains(ParseNetwork(infos[0].network, true).value, target))
        || Holds(target, infos[1..]))
  }

  /** Over consistent entries the inner scan answers whether some entry holds the target. */
  lemma {:induction false} IfaceMatchesHolds(target: Addr, infos: seq<NetInfo>)
    requires forall k :: 0 <= k < |infos| ==> Consistent(infos[k])
    ensures IfaceMatches(target, infos) == Ok(Holds(target, infos))
  {
    if |infos| > 0 {
      assert forall k :: 0 <= k < |infos[1..]| ==> infos[1..][k] == infos[k + 1];
      IfaceMatchesHolds(target, infos[1..]);
    }
  }

  /** The outer loop answers with the LAST interface whose scan finds the target (the
      `break` leaves only the inner loop), or None when no scan does; it raises only when a
      scan raises. */
  lemma {:induction false} LastMatchWins<T>(nets: seq<(string, T)>, scan: T -> Result<bool>)
    requires forall i :: 0 <= i < |nets| ==> scan(nets[i].1).Ok?
    ensures LastHit(nets, scan).Ok?
    ensures LastHit(nets, scan).value.None? <==> forall i :: 0 <= i < |nets| ==> scan(nets[i].1) != Ok(true)
    ensures LastHit(nets, scan).value.Some? ==>
      exists i :: 0 <= i < |nets| && scan(nets[i].1) == Ok(true) && LastHit(nets, scan).value.value == nets[i].0
        && forall j :: i < j < |nets| ==> scan(nets[j].1) != Ok(true)
  {
    if |nets| > 0 {
      var last := |nets| - 1;
      var init := nets[..last];
      assert forall i :: 0 <= i < last ==> init[i] == nets[i];
      LastMatchWins(init, scan);
      if scan(nets[last].1) != Ok(true) && LastHit(init, scan).value.Some? {
        var i :| 0 <= i < |init| && scan(init[i].1) == Ok(true) && LastHit(init, scan).value.value == init[i].0
          && forall j :: i < j < |init| ==> scan(init[j].1) != Ok(true);
        assert scan(nets[i].1) == Ok(true);
      }
    }
  }

  /** Over consistent entries, every inner scan succeeds, and it finds the target exactly
      when some entry of the interface holds it. */
  lemma ScansHold(target: Addr, nets: seq<(string, seq<NetInfo>)>)
    requires AllConsistent(nets)
    ensures forall i :: 0 <= i < |nets| ==> IfaceMatches(target, nets[i].1) == Ok(Holds(target, nets[i].1))
  {
    forall i | 0 <= i < |nets| ensures IfaceMatches(target, nets[i].1) == Ok(Holds(target, nets[i].1)) {
      IfaceMatchesHolds(target, nets[i].1);
    }
  }

  /** The whole of `get_interface_from_ipv4` for a valid address over records that
      `get_networks` accepts: it does not raise, and it answers with the LAST interface one
      of whose networks holds the address, or None when none does. */
  lemma InterfaceFound(ipv4: string, ifaces: seq<(string, seq<Snic>)>)
    requires ParseAddr(ipv4).Ok? && Networks(ifaces).Ok?
    ensures var r := InterfaceFromIpv4(ipv4, ifaces);
      var nets := Networks(ifaces).value;
      var target := ParseAddr(ipv4).value;
      && r.Ok?
      && (r.value.None? <==> forall i :: 0 <= i < |nets| ==> !Holds(target, nets[i].1))
      && (r.value.Some? ==>
            exists i :: 0 <= i < |nets| && Holds(target, nets[i].1) && r.value.value == nets[i].0
              && forall j :: i < j < |nets| ==> !Holds(target, nets[j].1))
  {
    var nets := Networks(ifaces).value;
    var target := ParseAddr(ipv4).value;
    NetworksConsistent(ifaces);
    ScansHold(target, nets);
    LastMatchWins(nets, infos => IfaceMatches(target, infos));
  }
}
