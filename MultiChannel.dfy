/** `MultiChannelQueue`: one FIFO per channel and a queue of ready frames. A `put` appends
    to one channel; as soon as every channel holds an item, one item is taken from each
    channel, in channel order, and the list is queued as a ready frame. The lock makes each
    `put` one atomic step. */
module MultiChannel {
  import opened Wrappers

  /** The queues of a configured instance: per-channel FIFOs and the ready frames. */
  datatype QueueState<T> = QueueState(queues: seq<seq<T>>, ready: seq<seq<T>>)

  /** One `put(channel, data)` call. */
  datatype Put<T> = Put(channel: nat, data: T)

  predicate AllNonEmpty<T>(q: seq<seq<T>>)
  {
    forall i :: 0 <= i < |q| ==> |q[i]| > 0
  }

  /** The head of every channel, in channel order. */
  function Heads<T>(q: seq<seq<T>>): (r: seq<T>)
    requires AllNonEmpty(q)
    ensures |r| == |q|
  {
    seq(|q|, i requires 0 <= i < |q| => q[i][0])
  }

  /** Every channel without its head. */
  function Tails<T>(q: seq<seq<T>>): (r: seq<seq<T>>)
    requires AllNonEmpty(q)
    ensures |r| == |q|
  {
    seq(|q|, i requires 0 <= i < |q| => q[i][1..])
  }

  /** The state after one `put` on channel `c`. */
  function Step<T>(s: QueueState<T>, c: nat, data: T): (r: QueueState<T>)
    requires c < |s.queues|
    ensures |r.queues| == |s.queues|
  {
    var q := s.queues[c := s.queues[c] + [data]];
    if AllNonEmpty(q) then QueueState(Tails(q), s.ready + [Heads(q)]) else QueueState(q, s.ready)
  }

  /** n channels with nothing queued. */
  function Init<T>(n: nat): (s: QueueState<T>)
    ensures |s.queues| == n && s.ready == []
  {
    QueueState(seq(n, _ => []), [])
  }

  predicate ValidPuts<T>(n: nat, h: seq<Put<T>>)
  {
    forall k :: 0 <= k < |h| ==> h[k].channel < n
  }

  /** The state after a sequence of puts. */
  function Run<T>(s: QueueState<T>, h: seq<Put<T>>): (r: QueueState<T>)
    requires ValidPuts(|s.queues|, h)
    ensures |r.queues| == |s.queues|
  {
    if |h| == 0 then s else Step(Run(s, h[..|h| - 1]), h[|h| - 1].channel, h[|h| - 1].data)
  }

  lemma RunSnoc<T>(s: QueueState<T>, h: seq<Put<T>>, p: Put<T>)
    requires ValidPuts(|s.queues|, h) && p.channel < |s.queues|
    ensures ValidPuts(|s.queues|, h + [p])
    ensures Run(s, h + [p]) == Step(Run(s, h), p.channel, p.data)
  {
    assert (h + [p])[..|h|] == h;
  }

  /** The items put on channel i, in order. */
  function History<T>(h: seq<Put<T>>, i: nat): seq<T>
  {
    if |h| == 0 then []
    else History(h[..|h| - 1], i) + (if h[|h| - 1].channel == i then [h[|h| - 1].data] else [])
  }

  /** Element i of every ready frame. */
  function Column<T>(ready: seq<seq<T>>, i: nat): (r: seq<T>)
    requires forall k :: 0 <= k < |ready| ==> i < |ready[k]|
    ensures |r| == |ready|
  {
    seq(|ready|, k requires 0 <= k < |ready| => ready[k][i])
  }

  /** What holds after every put: frames have one item per channel, each channel's history
      is its column of ready frames followed by what it still queues, and some channel is empty. */
  ghost predicate Inv<T>(n: nat, s: QueueState<T>, h: seq<Put<T>>)
  {
    && |s.queues| == n
    && (forall k :: 0 <= k < |s.ready| ==> |s.ready[k]| == n)
    && (forall i :: 0 <= i < n ==> Column(s.ready, i) + s.queues[i] == History(h, i))
    && (exists i :: 0 <= i < n && s.queues[i] == [])
  }

  lemma HistoryAppend<T>(h: seq<Put<T>>, p: Put<T>, i: nat)
    ensures History(h + [p], i) == History(h, i) + (if p.channel == i then [p.data] else [])
  {
    assert (h + [p])[..|h|] == h;
  }

  /** One put keeps the invariant. */
  lemma StepInv<T>(n: nat, s: QueueState<T>, h: seq<Put<T>>, c: nat, data: T)
    requires Inv(n, s, h) && c < n
    ensures Inv(n, Step(s, c, data), h + [Put(c, data)])
  {
    var q := s.queues[c := s.queues[c] + [data]];
    var h' := h + [Put(c, data)];
    forall i | 0 <= i < n
      ensures History(h', i) == History(h, i) + (if c == i then [data] else [])
    {
      HistoryAppend(h, Put(c, data), i);
    }
    if AllNonEmpty(q) {
      StepInvFrame(n, s, h, c, data);
    } else {
      var j :| 0 <= j < n && |q[j]| == 0;
      assert Step(s, c, data).queues[j] == [];
    }
  }

  /** The case of a put that completes a frame: the put channel was the only empty one. */
  lemma StepInvFrame<T>(n: nat, s: QueueState<T>, h: seq<Put<T>>, c: nat, data: T)
    requires Inv(n, s, h) && c < n
    requires AllNonEmpty(s.queues[c := s.queues[c] + [data]])
    requires forall i :: 0 <= i < n ==>
      History(h + [Put(c, data)], i) == History(h, i) + (if c == i then [data] else [])
    ensures Inv(n, Step(s, c, data), h + [Put(c, data)])
  {
    var q := s.queues[c := s.queues[c] + [data]];
    var s' := Step(s, c, data);
    var j :| 0 <= j < n && s.queues[j] == [];
    assert |q[j]| > 0;
    assert j == c;
    assert s'.queues[c] == [];
    forall i | 0 <= i < n ensures Column(s'.ready, i) + s'.queues[i] == History(h + [Put(c, data)], i) {
      assert Column(s'.ready, i) == Column(s.ready, i) + [q[i][0]];
      assert [q[i][0]] + q[i][1..] == q[i];
    }
  }

  lemma {:induction false} RunInv<T>(n: nat, h: seq<Put<T>>)
    requires n >= 1 && ValidPuts(n, h)
    ensures Inv(n, Run(Init<T>(n), h), h)
    decreases |h|
  {
    if |h| == 0 {
      assert Init<T>(n).queues[0] == [];
    } else {
      var h0 := h[..|h| - 1];
      RunInv(n, h0);
      StepInv(n, Run(Init<T>(n), h0), h0, h[|h| - 1].channel, h[|h| - 1].data);
      assert h0 + [Put(h[|h| - 1].channel, h[|h| - 1].data)] == h;
    }
  }

  /** FIFO pairing over any sequence of puts on n >= 1 channels: the number of ready frames is
      the smallest per-channel put count, frame k holds the k-th item put on each channel, in
      channel order, and each channel still queues the items put on it beyond that count. */
  lemma FifoPairing<T>(n: nat, h: seq<Put<T>>)
    requires n >= 1 && ValidPuts(n, h)
    ensures var s := Run(Init<T>(n), h);
      && (forall i :: 0 <= i < n ==> |s.ready| <= |History(h, i)|)
      && (exists i :: 0 <= i < n && |s.ready| == |History(h, i)|)
      && (forall k :: 0 <= k < |s.ready| ==> |s.ready[k]| == n)
      && (forall k, i :: 0 <= k < |s.ready| && 0 <= i < n ==> s.ready[k][i] == History(h, i)[k])
      && (forall i :: 0 <= i < n ==> s.queues[i] == History(h, i)[|s.ready|..])
  {
    var s := Run(Init<T>(n), h);
    RunInv(n, h);
    forall i | 0 <= i < n
      ensures |s.ready| <= |History(h, i)|
      ensures s.queues[i] == History(h, i)[|s.ready|..]
      ensures forall k :: 0 <= k < |s.ready| ==> s.ready[k][i] == History(h, i)[k]
    {
      var col := Column(s.ready, i);
      assert col + s.queues[i] == History(h, i);
      forall k | 0 <= k < |s.ready| ensures s.ready[k][i] == History(h, i)[k] {
        assert col[k] == s.ready[k][i];
      }
    }
    var j :| 0 <= j < n && s.queues[j] == [];
    assert Column(s.ready, j) + s.queues[j] == History(h, j);
  }

  /** After any put, some channel is empty, so no frame is left waiting to be emitted. */
  lemma SomeChannelEmpty<T>(n: nat, h: seq<Put<T>>)
    requires n >= 1 && ValidPuts(n, h)
    ensures !AllNonEmpty(Run(Init<T>(n), h).queues)
  {
    RunInv(n, h);
  }

  /** Python indexing of the channel list: ids in [-n, n), negatives counting from the end. */
  function ChannelIndex(n: nat, id: int): (r: Option<nat>)
    ensures r.Some? <==> -(n as int) <= id < n
    ensures r.Some? ==> r.value < n && (r.value == id || r.value == n + id)
  {
    if 0 <= id < n then Some(id) else if -(n as int) <= id < 0 then Some(n + id) else None
  }

  /** `queue.Queue.get` refuses a negative timeout on a blocking call. */
  predicate BadTimeout(block: bool, timeout: Option<int>)
  {
    block && timeout.Some? && timeout.value < 0
  }

  class MultiChannelQueue<T> {
    /** False until `set_channels_count` has created the channel queues. */
    var configured: bool
    var numChannels: nat
    var channelQueues: seq<seq<T>>
    var ready: seq<seq<T>>

    ghost predicate Valid()
      reads this
    {
      configured ==> |channelQueues| == numChannels
    }

    function State(): QueueState<T>
      reads this
    {
      QueueState(channelQueues, ready)
    }

    /** `MultiChannelQueue(num_channels)`: the channels are set up only when a count is given. */
    constructor (numChannels: Option<nat>)
      ensures Valid() && ready == []
      ensures configured == numChannels.Some?
      ensures numChannels.Some? ==> this.numChannels == numChannels.value && channelQueues == Init<T>(numChannels.value).queues
    {
      ready := [];
      if numChannels.Some? {
        configured := true;
        this.numChannels := numChannels.value;
        channelQueues := seq(numChannels.value, _ => []);
      } else {
        configured := false;
        this.numChannels := 0;
        channelQueues := [];
      }
    }

    /** `set_channels_count`: fresh empty channel queues; the ready frames stay. */
    method SetChannelsCount(n: nat)
      modifies this
      ensures Valid() && configured && numChannels == n
      ensures channelQueues == Init<T>(n).queues && ready == old(ready)
    {
      configured := true;
      numChannels := n;
      channelQueues := seq(n, _ => []);
    }

    /** `put`: AttributeError before any channel count is set, IndexError for an id outside
        [-n, n) (nothing changes), otherwise one `Step` on the addressed channel. */
    method Put(channelId: int, data: T) returns (r: Result<()>)
      requires Valid()
      modifies this
      ensures Valid() && configured == old(configured) && numChannels == old(numChannels)
      ensures !old(configured) ==> r == Err(AttributeError) && State() == old(State())
      ensures old(configured) && ChannelIndex(numChannels, channelId).None? ==>
        r == Err(IndexError) && State() == old(State())
      ensures old(configured) && ChannelIndex(numChannels, channelId).Some? ==>
        r == Ok(()) && State() == Step(old(State()), ChannelIndex(numChannels, channelId).value, data)
    {
      if !configured {
        return Err(AttributeError);
      }
      var idx := ChannelIndex(numChannels, channelId);
      if idx.None? {
        return Err(IndexError);
      }
      var c := idx.value;
      channelQueues := channelQueues[c := channelQueues[c] + [data]];
      if forall i :: 0 <= i < |channelQueues| ==> |channelQueues[i]| > 0 {
        var frame := TakeFrame();
        ready := ready + [frame];
      }
      return Ok(());
    }

    /** The comprehension that builds a frame: the head of each channel, in channel order. */
    method TakeFrame() returns (frame: seq<T>)
      requires AllNonEmpty(channelQueues) && |channelQueues| == numChannels
      modifies this
      ensures frame == Heads(old(channelQueues)) && channelQueues == Tails(old(channelQueues))
      ensures ready == old(ready) && configured == old(configured) && numChannels == old(numChannels)
    {
      ghost var q := channelQueues;
      frame := [];
      var i := 0;
      while i < numChannels
        invariant 0 <= i <= numChannels && |channelQueues| == numChannels
        invariant q == old(channelQueues) && |q| == numChannels
        invariant ready == old(ready) && configured == old(configured) && numChannels == old(numChannels)
        invariant frame == Heads(q)[..i]
        invariant channelQueues == Tails(q)[..i] + q[i..]
      {
        assert channelQueues[i] == q[i];
        frame := frame + [channelQueues[i][0]];
        channelQueues := channelQueues[i := channelQueues[i][1..]];
        i := i + 1;
      }
    }

    /** `get(block, timeout)`, which passes both on to `queue.Queue.get` of the ready frames:
        a blocking call with a negative timeout raises ValueError; otherwise the oldest frame
        is taken when there is one. On no ready frame a non-blocking call, or a blocking one
        whose timeout runs out, raises `queue.Empty`, and a blocking call without a timeout
        (the defaults) waits, here forever, since no other thread puts while it waits. */
    method Get(block: bool, timeout: Option<int>) returns (r: Result<seq<T>>)
      modifies this
      ensures BadTimeout(block, timeout) ==> r == Err(ValueError) && ready == old(ready)
      ensures !BadTimeout(block, timeout) && old(ready) != [] ==>
        r == Ok(old(ready)[0]) && ready == old(ready)[1..]
      ensures !BadTimeout(block, timeout) && old(ready) == [] ==>
        ready == [] && r == (if block && timeout.None? then Err(NeverReturns) else Err(QueueEmpty))
      ensures channelQueues == old(channelQueues) && configured == old(configured)
      ensures numChannels == old(numChannels)
    {
      if BadTimeout(block, timeout) {
        return Err(ValueError);
      }
      if ready == [] {
        if block && timeout.None? {
          return Err(NeverReturns);
        }
        return Err(QueueEmpty);
      }
      r := Ok(ready[0]);
      ready := ready[1..];
    }

    /** `has_data`, which the class as written does not define, in the reading its caller
        needs: a ready frame set exists. */
    function HasData(): (b: bool)
      reads this
      ensures b <==> |ready| > 0
    {
      ready != []
    }

    /** `clear`, which the class as written does not define, as its callers use it: every
        channel queue and every ready frame set is dropped; the channel count stays. */
    method Clear()
      requires Valid()
      modifies this
      ensures Valid() && configured == old(configured) && numChannels == old(numChannels)
      ensures ready == [] && channelQueues == seq(|old(channelQueues)|, _ => [])
      ensures configured ==> State() == Init(numChannels)
    {
      channelQueues := seq(|channelQueues|, _ => []);
      ready := [];
    }
  }
}
