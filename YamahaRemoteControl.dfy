/** `YamahaRemoteControl`: text commands to a Yamaha device over one TCP connection. Each
    command is framed with a leading space and a trailing newline; the reply, when there is
    one, comes back as text. The socket is modelled by the framed commands handed to it and
    by what the peer does with each of them, in order. */
module YamahaRemoteControl {
  import opened Wrappers
  import opened Bytes
  import opened Strings

  /** What happens to one command after it is handed to the socket: a decoded reply
      (possibly empty), or an exception from the send, the receive (the five-second timeout
      among them) or the decode. */
  datatype Outcome = Replied(text: string) | Raised

  /** An `int` argument or a sequence of them. */
  datatype Arg = Single(n: int) | Many(ns: seq<int>)

  /** The framing every command gets before it is sent. */
  function Frame(command: string): (r: string)
    ensures |r| == |command| + 2 && r[0] == ' ' && r[|r| - 1] == '\n'
    ensures r[1..|r| - 1] == command
  {
    " " + command + "\n"
  }

  /** What `send_command` returns: the reply when it is non-empty, None otherwise. */
  function ReplyValue(o: Outcome): Option<string>
  {
    if o.Replied? && o.text != "" then Some(o.text) else None
  }

  /** The outcome of the next command: once the peer's script is exhausted, receives time out. */
  function Next(peer: seq<Outcome>): Outcome
  {
    if |peer| == 0 then Raised else peer[0]
  }

  /** The peer's script after k commands. */
  function Drop(peer: seq<Outcome>, k: nat): (r: seq<Outcome>)
    ensures k <= |peer| ==> |r| == |peer| - k
    ensures k >= |peer| ==> r == []
  {
    if k >= |peer| then [] else peer[k..]
  }

  lemma DropNext(peer: seq<Outcome>, k: nat)
    ensures Drop(Drop(peer, k), 1) == Drop(peer, k + 1)
  {
  }

  /** `str(list)` for a list of ints: `[1, 2]`. */
  function ListRepr(ns: seq<int>): string
  {
    "[" + Join(IntStrings(ns), ", ") + "]"
  }

  function IntStrings(ns: seq<int>): (r: seq<string>)
    ensures |r| == |ns| && forall i :: 0 <= i < |ns| ==> r[i] == IntToString(ns[i])
  {
    seq(|ns|, i requires 0 <= i < |ns| => IntToString(ns[i]))
  }

  /** How a state argument is rendered in the f-string. */
  function Render(a: Arg): string
  {
    match a
    case Single(n) => IntToString(n)
    case Many(ns) => ListRepr(ns)
  }

  /** `zip(channels, states)` over two lists of ints, states rendered as text: one pair per
      index of the shorter list. */
  function Zip(channels: seq<int>, states: seq<int>): (r: seq<(int, string)>)
    ensures |r| == Min(|channels|, |states|)
    ensures forall i :: 0 <= i < |r| ==> r[i] == (channels[i], IntToString(states[i]))
  {
    if |channels| == 0 || |states| == 0 then []
    else [(channels[0], IntToString(states[0]))] + Zip(channels[1..], states[1..])
  }

  /** The (channel, state) pairs a `set_*` call iterates over. An int channel wraps both
      arguments into one-element lists, so a list of states becomes one state rendered as a
      list; a list of channels with an int state fails in `zip` with TypeError. */
  function Pairs(channels: Arg, states: Arg): (r: Result<seq<(int, string)>>)
    ensures r.Err? <==> channels.Many? && states.Single?
    ensures r.Err? ==> r.error == TypeError
    ensures channels.Single? ==> r == Ok([(channels.n, Render(states))])
    ensures channels.Many? && states.Many? ==> r == Ok(Zip(channels.ns, states.ns))
  {
    match channels
    case Single(c) => Ok([(c, Render(states))])
    case Many(cs) =>
      match states
      case Single(_) => Err(TypeError)
      case Many(ss) => Ok(Zip(cs, ss))
  }

  const PhantomPath := "IO:Current/InCh/48VOn"
  const GainPath := "IO:Current/InCh/HAGain"
  const MasterQuery := "get IO:Current/Dev/48VMasterOn 0 0"

  /** `f"set {path} {channel} {device_id} {state}"`: the five values separated by single spaces. */
  function SetCommand(path: string, channel: int, deviceId: int, state: string): string
  {
    Join(["set", path, IntToString(channel), IntToString(deviceId), state], " ")
  }

  /** The framed command of one (channel, state) pair. */
  function PairCommand(path: string, deviceId: int, pair: (int, string)): string
  {
    Frame(SetCommand(path, pair.0, deviceId, pair.1))
  }

  /** The framed commands of a run of pairs, in order. */
  function Commands(path: string, deviceId: int, pairs: seq<(int, string)>): (r: seq<string>)
    ensures |r| == |pairs|
    ensures forall i :: 0 <= i < |pairs| ==> r[i] == PairCommand(path, deviceId, pairs[i])
  {
    if |pairs| == 0 then []
    else Commands(path, deviceId, pairs[..|pairs| - 1]) + [PairCommand(path, deviceId, pairs[|pairs| - 1])]
  }

  lemma NoSpaceInInt(i: int)
    ensures ' ' !in IntToString(i) && '\n' !in IntToString(i)
  {
    NotInDigits(NatToString(if i < 0 then -i else i), ' ');
    NotInDigits(NatToString(if i < 0 then -i else i), '\n');
  }

  /** A set command is five space-separated words. */
  lemma SetCommandWords(path: string, channel: int, deviceId: int, state: string)
    requires ' ' !in path && ' ' !in state
    ensures Split(SetCommand(path, channel, deviceId, state), ' ')
      == ["set", path, IntToString(channel), IntToString(deviceId), state]
  {
    var words := ["set", path, IntToString(channel), IntToString(deviceId), state];
    NoSpaceInInt(channel);
    NoSpaceInInt(deviceId);
    SplitJoin(words, ' ');
  }

  /** The device can read the channel, the device id and an integer state back from the
      words of a set command. */
  lemma SetCommandRoundTrip(path: string, channel: int, deviceId: int, state: int)
    requires ' ' !in path
    ensures var w := Split(SetCommand(path, channel, deviceId, IntToString(state)), ' ');
      && |w| == 5 && w[0] == "set" && w[1] == path
      && ParseInt(w[2]) == Ok(channel) && ParseInt(w[3]) == Ok(deviceId) && ParseInt(w[4]) == Ok(state)
  {
    NoSpaceInInt(state);
    SetCommandWords(path, channel, deviceId, IntToString(state));
    ParseIntOfString(channel);
    ParseIntOfString(deviceId);
    ParseIntOfString(state);
  }

  /** `is_general_phantom_power_activated` on what `send_command` returned: None without a
      reply, otherwise whether the last space-separated word, newlines removed, is "1". */
  function PhantomState(reply: Option<string>): Option<bool>
  {
    match reply
    case None => None
    case Some(t) =>
      if t == "" then None else Some(LastWordIsOne(t))
  }

  /** `result.replace("\n", "").split(" ")[-1] == "1"`. */
  function LastWordIsOne(t: string): bool
  {
    var words := Split(RemoveChar(t, '\n'), ' ');
    words[|words| - 1] == "1"
  }

  lemma RemoveCharAppend(a: string, b: string, c: char)
    ensures RemoveChar(a + b, c) == RemoveChar(a, c) + RemoveChar(b, c)
    decreases |a|
  {
    if |a| > 0 {
      assert (a + b)[0] == a[0];
      assert (a + b)[1..] == a[1..] + b;
      RemoveCharAppend(a[1..], b, c);
    } else {
      assert a + b == b;
    }
  }

  lemma {:induction false} RemoveAbsent(s: string, c: char)
    requires c !in s
    ensures RemoveChar(s, c) == s
    decreases |s|
  {
    if |s| > 0 {
      assert s[0] != c by { assert s[0] in s; }
      assert c !in s[1..] by { assert forall x :: x in s[1..] ==> x in s; }
      RemoveAbsent(s[1..], c);
      assert [s[0]] + s[1..] == s;
    }
  }

  lemma {:induction false} NotInJoin(parts: seq<string>, sep: string, c: char)
    requires c !in sep && forall k :: 0 <= k < |parts| ==> c !in parts[k]
    ensures c !in Join(parts, sep)
    decreases |parts|
  {
    if |parts| > 1 {
      NotInJoin(parts[1..], sep, c);
    }
  }

  /** A reply of space-separated words on one line: the answer is whether the last word is "1". */
  lemma PhantomReply(words: seq<string>)
    requires |words| >= 1
    requires forall k :: 0 <= k < |words| ==> ' ' !in words[k] && '\n' !in words[k]
    ensures PhantomState(Some(Join(words, " ") + "\n")) == Some(words[|words| - 1] == "1")
  {
    NotInJoin(words, " ", '\n');
    SplitJoin(words, ' ');
    LastWordOfLine(Join(words, " "), words);
  }

  lemma LastWordOfLine(line: string, words: seq<string>)
    requires '\n' !in line && Split(line, ' ') == words
    ensures LastWordIsOne(line + "\n") == (words[|words| - 1] == "1")
  {
    DropNewline(line);
  }

  /** Removing the newlines of one line and its terminator leaves the line. */
  lemma DropNewline(line: string)
    requires '\n' !in line
    ensures RemoveChar(line + "\n", '\n') == line
  {
    RemoveCharAppend(line, "\n", '\n');
    RemoveAbsent(line, '\n');
    assert RemoveChar("\n", '\n') == "";
  }

  /** The connection to one device. */
  class RemoteControl {
    const ip: string
    const port: int
    const deviceId: int
    /** Every framed command handed to the socket, in order. */
    var sent: seq<string>
    /** What the peer does with each coming command, in order. */
    var peer: seq<Outcome>

    /** `YamahaRemoteControl(ip, port=49280, device_id=0)` once connected. */
    constructor (ip: string, port: int, deviceId: int, peer: seq<Outcome>)
      ensures this.ip == ip && this.port == port && this.deviceId == deviceId
      ensures sent == [] && this.peer == peer
    {
      this.ip := ip;
      this.port := port;
      this.deviceId := deviceId;
      sent := [];
      this.peer := peer;
    }

    /** `send_command`: the framed command goes to the socket and the non-empty reply is
        returned; an exception or an empty reply gives None. */
    method SendCommand(command: string) returns (r: Option<string>)
      modifies this
      ensures sent == old(sent) + [Frame(command)] && peer == Drop(old(peer), 1)
      ensures r == ReplyValue(Next(old(peer)))
      ensures r.Some? ==> r.value != "" && Next(old(peer)) == Replied(r.value)
    {
      sent := sent + [" " + command + "\n"];
      var o := Next(peer);
      peer := Drop(peer, 1);
      match o
      case Replied(text) =>
        if text != "" {
          return Some(text);
        }
        return None;
      case Raised =>
        return None;
    }

    /** The `for channel, state in zip(...)` loop: one command per pair, in order. */
    method SendAll(path: string, pairs: seq<(int, string)>)
      modifies this
      ensures sent == old(sent) + Commands(path, deviceId, pairs)
      ensures peer == Drop(old(peer), |pairs|)
    {
      for i := 0 to |pairs|
        invariant sent == old(sent) + Commands(path, deviceId, pairs[..i])
        invariant peer == Drop(old(peer), i)
      {
        var _ := SendCommand(SetCommand(path, pairs[i].0, deviceId, pairs[i].1));
        DropNext(old(peer), i);
        assert pairs[..i + 1][..i] == pairs[..i];
      }
      assert pairs[..|pairs|] == pairs;
    }

    /** `set_phantom_power(channels, states)`. */
    method SetPhantomPower(channels: Arg, states: Arg) returns (r: Result<()>)
      modifies this
      ensures Pairs(channels, states).Err? ==> r == Err(TypeError) && sent == old(sent) && peer == old(peer)
      ensures Pairs(channels, states).Ok? ==>
        && r == Ok(())
        && sent == old(sent) + Commands(PhantomPath, deviceId, Pairs(channels, states).value)
        && peer == Drop(old(peer), |Pairs(channels, states).value|)
    {
      var pairs := Pairs(channels, states);
      if pairs.Err? {
        return Err(pairs.error);
      }
      SendAll(PhantomPath, pairs.value);
      return Ok(());
    }

    /** `set_ha_gain(channels, states)`. */
    method SetHaGain(channels: Arg, states: Arg) returns (r: Result<()>)
      modifies this
      ensures Pairs(channels, states).Err? ==> r == Err(TypeError) && sent == old(sent) && peer == old(peer)
      ensures Pairs(channels, states).Ok? ==>
        && r == Ok(())
        && sent == old(sent) + Commands(GainPath, deviceId, Pairs(channels, states).value)
        && peer == Drop(old(peer), |Pairs(channels, states).value|)
    {
      var pairs := Pairs(channels, states);
      if pairs.Err? {
        return Err(pairs.error);
      }
      SendAll(GainPath, pairs.value);
      return Ok(());
    }

    /** `is_general_phantom_power_activated`: one query, and the answer read off the reply. */
    method IsGeneralPhantomPowerActivated() returns (r: Option<bool>)
      modifies this
      ensures sent == old(sent) + [Frame(MasterQuery)] && peer == Drop(old(peer), 1)
      ensures r == PhantomState(ReplyValue(Next(old(peer))))
    {
      var result := SendCommand(MasterQuery);
      if result.None? || result.value == "" {
        return None;
      }
      var words := Split(RemoveChar(result.value, '\n'), ' ');
      return Some(words[|words| - 1] == "1");
    }
  }

  /** Two lists of channels and states give one command per index of the shorter list. */
  lemma PairsTruncate(channels: seq<int>, states: seq<int>)
    ensures |Pairs(Many(channels), Many(states)).value| == Min(|channels|, |states|)
  {
  }

  /** An int channel with a list of states sends one command, whose state is the list. */
  lemma SingleChannel(channel: int, states: seq<int>, deviceId: int)
    ensures Commands(PhantomPath, deviceId, Pairs(Single(channel), Many(states)).value)
      == [Frame(SetCommand(PhantomPath, channel, deviceId, ListRepr(states)))]
  {
  }
}
