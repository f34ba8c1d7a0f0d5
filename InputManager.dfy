/** `AudioInputManager`: one RTP pipeline per UDP port, each split into two appsinks; every
    sink collects chunks until their total duration reaches the record duration, then
    resets and puts a frame on the multi-channel queue. The frame is decoded after the
    reset, so it is always empty, and every sink's callback passes the channel id 0 or 1,
    whatever port it belongs to. */
module InputManager {
  import opened Wrappers
  import opened Bytes
  import opened FrameSlicer
  import opened MultiChannel
  import Pcm24

  /** The state of one appsink: `{"data": [...], "accumulated_ns": ...}`. */
  datatype ChannelState = ChannelState(chunks: seq<seq<byte>>, accumulatedNs: nat)

  /** Puts that only ever address the first two channels, with empty frames. */
  predicate FedByCallbacks(h: seq<Put<seq<real>>>)
  {
    forall k :: 0 <= k < |h| ==> h[k].channel < 2 && h[k].data == []
  }

  /** Nothing is ever put on a channel no put addresses. */
  lemma {:induction false} HistoryUnfed<T>(h: seq<Put<T>>, i: nat)
    requires forall k :: 0 <= k < |h| ==> h[k].channel != i
    ensures History(h, i) == []
  {
    if |h| > 0 {
      HistoryUnfed(h[..|h| - 1], i);
    }
  }

  /** Every frame of every frame set is empty. */
  predicate AllFramesEmpty(ready: seq<seq<seq<real>>>)
  {
    forall k, i :: 0 <= k < |ready| && 0 <= i < |ready[k]| ==> ready[k][i] == []
  }

  /** A channel that is only fed empty frames holds only empty frames. */
  lemma {:induction false} HistoryEmptyFrames(h: seq<Put<seq<real>>>, i: nat)
    requires forall k :: 0 <= k < |h| ==> h[k].data == []
    ensures forall j :: 0 <= j < |History(h, i)| ==> History(h, i)[j] == []
  {
    if |h| > 0 {
      HistoryEmptyFrames(h[..|h| - 1], i);
    }
  }

  /** With three channels or more and puts only on channels 0 and 1, channel 2 never
      fills, so no frame set is ever ready. */
  lemma NoFrameSetBeyondOnePort(n: nat, h: seq<Put<seq<real>>>)
    requires n >= 3 && ValidPuts(n, h) && FedByCallbacks(h)
    ensures Run(Init<seq<real>>(n), h).ready == []
  {
    RunInv(n, h);
    HistoryUnfed(h, 2);
    var s := Run(Init<seq<real>>(n), h);
    assert |Column(s.ready, 2) + s.queues[2]| == 0;
  }

  /** Every frame set that does become ready holds only empty frames. */
  lemma ReadyFramesEmpty(n: nat, h: seq<Put<seq<real>>>)
    requires n >= 1 && ValidPuts(n, h) && FedByCallbacks(h)
    ensures AllFramesEmpty(Run(Init<seq<real>>(n), h).ready)
  {
    var s := Run(Init<seq<real>>(n), h);
    RunInv(n, h);
    FifoPairing(n, h);
    forall k, i | 0 <= k < |s.ready| && 0 <= i < |s.ready[k]| ensures s.ready[k][i] == [] {
      assert |s.ready[k]| == n;
      assert s.ready[k][i] == History(h, i)[k];
      HistoryEmptyFrames(h, i);
    }
  }

  /** Dropping the first t ready frame sets commutes with a put. */
  lemma StepDrop<T>(s: QueueState<T>, c: nat, data: T, t: nat)
    requires c < |s.queues| && t <= |s.ready|
    ensures t <= |Step(s, c, data).ready|
    ensures Step(QueueState(s.queues, s.ready[t..]), c, data)
      == QueueState(Step(s, c, data).queues, Step(s, c, data).ready[t..])
  {
    var q := s.queues[c := s.queues[c] + [data]];
    if AllNonEmpty(q) {
      assert (s.ready + [Heads(q)])[t..] == s.ready[t..] + [Heads(q)];
    }
  }

  /** A value the loop of `_clear_pendings` can meet: a sink, which is a key of the state
      dictionary, or a sink's state dictionary. */
  datatype LoopItem = SinkKey(sink: nat) | StateDict(state: ChannelState)

  /** `item["data"]`: the chunk list of a state dictionary; a sink element is not
      subscriptable, so TypeError. */
  function SubscriptData(item: LoopItem): (r: Result<seq<seq<byte>>>)
    ensures r.Ok? <==> item.StateDict?
    ensures r.Ok? ==> r.value == item.state.chunks
  {
    match item
    case SinkKey(_) => Err(TypeError)
    case StateDict(st) => Ok(st.chunks)
  }

  /** Iterating a dictionary yields its keys: for the state dictionary, the n sinks in
      insertion order. */
  function IterKeys(n: nat): (r: seq<LoopItem>)
    ensures |r| == n
  {
    seq(n, (i: nat) => SinkKey(i))
  }

  /** Iterating the state dictionary's values instead: the states themselves. */
  function IterValues(states: seq<ChannelState>): (r: seq<LoopItem>)
    ensures |r| == |states|
  {
    seq(|states|, i requires 0 <= i < |states| => StateDict(states[i]))
  }

  /** The clearing loop over `items`: the first subscript that raises stops it. */
  function ClearAll(items: seq<LoopItem>): Result<()>
  {
    if |items| == 0 then Ok(())
    else if SubscriptData(items[0]).Err? then Err(SubscriptData(items[0]).error)
    else ClearAll(items[1..])
  }

  /** The loop fails exactly when some item is not subscriptable, and then with the
      TypeError of the first such item. */
  lemma {:induction false} ClearAllIff(items: seq<LoopItem>)
    ensures ClearAll(items).Ok? <==> forall k :: 0 <= k < |items| ==> items[k].StateDict?
    ensures ClearAll(items).Err? ==> ClearAll(items).error == TypeError
  {
    if |items| > 0 {
      ClearAllIff(items[1..]);
      assert forall k :: 1 <= k < |items| ==> items[k] == items[1..][k - 1];
    }
  }

  /** As written, the loop over the keys raises TypeError exactly when a sink exists; over
      the values it would pass every state. */
  lemma ClearKeysRaises(n: nat, states: seq<ChannelState>)
    ensures ClearAll(IterKeys(n)) == if n > 0 then Err(TypeError) else Ok(())
    ensures ClearAll(IterValues(states)).Ok?
  {
    ClearAllIff(IterKeys(n));
    var values := IterValues(states);
    assert forall k :: 0 <= k < |values| ==> values[k] == StateDict(states[k]);
    ClearAllIff(values);
    if n > 0 {
      assert !IterKeys(n)[0].StateDict?;
    }
  }

  /** The position of sink i (0 or 1) of the port-th pipeline among all sinks. */
  function SinkIndex(port: nat, i: nat): nat
  {
    2 * port + i
  }

  class AudioInputManager {
    var channelStates: seq<ChannelState>
    /** The channel id each sink's callback passes, in sink order. */
    var callbackIds: seq<nat>
    var recordDuration: nat
    const dataQueue: MultiChannelQueue<seq<real>>
    /** `_continue`. */
    var running: bool
    var threadStarted: bool
    /** Every frame set handed to `on_data_ready`, in order. */
    var emitted: seq<seq<seq<real>>>
    /** Every put made on the queue, and how many ready frame sets were taken. */
    ghost var puts: seq<Put<seq<real>>>
    ghost var taken: nat

    ghost predicate Valid()
      reads this, dataQueue
    {
      && dataQueue.Valid() && dataQueue.configured
      && dataQueue.numChannels == |channelStates| == |callbackIds|
      && (forall s :: 0 <= s < |callbackIds| ==> callbackIds[s] == s % 2)
      && ValidPuts(|channelStates|, puts) && FedByCallbacks(puts)
      && dataQueue.channelQueues == Run(Init(|channelStates|), puts).queues
      && taken <= |Run(Init(|channelStates|), puts).ready|
      && dataQueue.ready == Run(Init(|channelStates|), puts).ready[taken..]
    }

    /** The constructor with `ports` UDP ports: two sinks per port whose callbacks pass 0
        and 1, all with empty state, over a queue with one channel per sink. */
    constructor (ports: nat, recordDuration: nat)
      ensures Valid() && fresh(dataQueue)
      ensures |callbackIds| == 2 * ports
      ensures forall d, i :: 0 <= d < ports && 0 <= i < 2 ==> callbackIds[SinkIndex(d, i)] == i
      ensures channelStates == seq(2 * ports, _ => ChannelState([], 0))
      ensures this.recordDuration == recordDuration
      ensures dataQueue.State() == Init(2 * ports)
      ensures !running && !threadStarted && emitted == []
    {
      var ids: seq<nat> := [];
      var d := 0;
      while d < ports
        invariant d <= ports && |ids| == 2 * d
        invariant forall s :: 0 <= s < |ids| ==> ids[s] == s % 2
      {
        for i := 0 to 2
          invariant |ids| == 2 * d + i
          invariant forall s :: 0 <= s < |ids| ==> ids[s] == s % 2
        {
          ids := ids + [i];
        }
        d := d + 1;
      }
      callbackIds := ids;
      channelStates := seq(2 * ports, _ => ChannelState([], 0));
      this.recordDuration := recordDuration;
      dataQueue := new MultiChannelQueue(Some(2 * ports));
      running := false;
      threadStarted := false;
      emitted := [];
      puts := [];
      taken := 0;
      new;
      assert forall d, i :: 0 <= d < ports && 0 <= i < 2 ==> SinkIndex(d, i) % 2 == i;
    }

    /** A sample on `sink`, through the callback wired to it: the chunk and its duration
        are added to the sink's state; once the total reaches the record duration the state
        is reset and the decode of the (now empty) chunk list is put on the queue under the
        callback's channel id. */
    method OnSinkSample(sink: nat, data: seq<byte>, duration: nat)
      requires Valid() && sink < |channelStates|
      modifies this, dataQueue
      ensures Valid() && callbackIds == old(callbackIds) && recordDuration == old(recordDuration)
      ensures running == old(running) && threadStarted == old(threadStarted) && emitted == old(emitted)
      ensures var st := old(channelStates)[sink];
        st.accumulatedNs + duration < recordDuration ==>
          && channelStates == old(channelStates)[sink := ChannelState(st.chunks + [data], st.accumulatedNs + duration)]
          && dataQueue.State() == old(dataQueue.State())
      ensures var st := old(channelStates)[sink];
        st.accumulatedNs + duration >= recordDuration ==>
          && channelStates == old(channelStates)[sink := ChannelState([], 0)]
          && dataQueue.State() == Step(old(dataQueue.State()), sink % 2, [])
    {
      var st := channelStates[sink];
      var chunks := st.chunks + [data];
      var accumulated := st.accumulatedNs + duration;
      if accumulated >= recordDuration {
        channelStates := channelStates[sink := ChannelState([], 0)];
        PutReset(sink);
      } else {
        channelStates := channelStates[sink := ChannelState(chunks, accumulated)];
      }
    }

    /** After the reset: the sink's (now empty) chunk list is decoded and put on the queue
        under the callback's channel id. */
    method PutReset(sink: nat)
      requires Valid() && sink < |channelStates| && channelStates[sink] == ChannelState([], 0)
      modifies this, dataQueue
      ensures Valid() && callbackIds == old(callbackIds) && recordDuration == old(recordDuration)
      ensures running == old(running) && threadStarted == old(threadStarted) && emitted == old(emitted)
      ensures channelStates == old(channelStates)
      ensures dataQueue.State() == Step(old(dataQueue.State()), sink % 2, [])
    {
      var frame := Pcm24.BytesToAudio(Flatten(channelStates[sink].chunks));
      assert Flatten(channelStates[sink].chunks) == [];
      ghost var before := Run(Init(|channelStates|), puts);
      var p := Put(callbackIds[sink], frame.value);
      var _ := dataQueue.Put(callbackIds[sink], frame.value);
      RunSnoc(Init(|channelStates|), puts, p);
      StepDrop(before, p.channel, p.data, taken);
      puts := puts + [p];
    }

    /** With two ports or more no frame set is ever ready: the callbacks only feed
        channels 0 and 1. */
    lemma NoFrameSetWithTwoPorts()
      requires Valid() && |channelStates| >= 4
      ensures dataQueue.ready == []
    {
      NoFrameSetBeyondOnePort(|channelStates|, puts);
    }

    /** Every frame in every ready frame set is empty. */
    lemma ReadyFramesAreEmpty()
      requires Valid() && |channelStates| >= 1
      ensures AllFramesEmpty(dataQueue.ready)
    {
      var all := Run(Init<seq<real>>(|channelStates|), puts).ready;
      ReadyFramesEmpty(|channelStates|, puts);
      forall k, i | 0 <= k < |dataQueue.ready| && 0 <= i < |dataQueue.ready[k]|
        ensures dataQueue.ready[k][i] == []
      {
        assert dataQueue.ready[k] == all[taken + k];
      }
    }

    /** `_run`, one tick of the polling thread while running: at most one ready frame set
        is taken from the queue and handed on. */
    method RunTick()
      requires Valid()
      modifies this, dataQueue
      ensures Valid() && channelStates == old(channelStates) && callbackIds == old(callbackIds)
      ensures running == old(running) && threadStarted == old(threadStarted)
      ensures dataQueue.channelQueues == old(dataQueue.channelQueues)
      ensures old(running) && old(dataQueue.ready) != [] ==>
        dataQueue.ready == old(dataQueue.ready)[1..] && emitted == old(emitted) + [old(dataQueue.ready)[0]]
      ensures !old(running) || old(dataQueue.ready) == [] ==>
        dataQueue.ready == old(dataQueue.ready) && emitted == old(emitted)
    {
      if running && dataQueue.ready != [] {
        var f := dataQueue.Get(true, None);
        emitted := emitted + [f.value];
        taken := taken + 1;
      }
    }

    /** `_clear_pendings` iterates over the state dictionary, which yields the sinks (its
        keys), and subscripts each as if it were its state: TypeError as soon as a sink
        exists (`ClearKeysRaises`). */
    method ClearPendings() returns (r: Result<()>)
      ensures r == ClearAll(IterKeys(|channelStates|))
      ensures r == if |channelStates| > 0 then Err(TypeError) else Ok(())
    {
      r := ClearItems(IterKeys(|channelStates|));
      ClearKeysRaises(|channelStates|, channelStates);
    }

    /** The loop of `_clear_pendings` over the items it is given: each is subscripted in
        turn, and the first that is not subscriptable raises. */
    method ClearItems(items: seq<LoopItem>) returns (r: Result<()>)
      ensures r == ClearAll(items)
    {
      var i := 0;
      while i < |items|
        invariant 0 <= i <= |items|
        invariant ClearAll(items) == ClearAll(items[i..])
      {
        assert items[i..][0] == items[i] && items[i..][1..] == items[i + 1..];
        var chunks := SubscriptData(items[i]);
        if chunks.Err? {
          return Err(chunks.error);
        }
        i := i + 1;
      }
      return Ok(());
    }

    /** `start`: nothing happens while running. Otherwise the flag is raised and the thread
        started (RuntimeError for a thread started before); then every pipeline is set
        playing, and a failure (`allPlay` false) exits the program. */
    method Start(allPlay: bool) returns (r: Result<()>)
      modifies this
      ensures old(running) ==> r == Ok(()) && running && threadStarted == old(threadStarted)
      ensures !old(running) && old(threadStarted) ==> r == Err(RuntimeError) && running && threadStarted
      ensures !old(running) && !old(threadStarted) ==>
        running && threadStarted && (r == if allPlay then Ok(()) else Err(SystemExit))
      ensures channelStates == old(channelStates) && emitted == old(emitted)
      ensures callbackIds == old(callbackIds) && recordDuration == old(recordDuration)
      ensures puts == old(puts) && taken == old(taken)
    {
      if running {
        return Ok(());
      }
      running := true;
      if threadStarted {
        return Err(RuntimeError);
      }
      threadStarted := true;
      if !allPlay {
        return Err(SystemExit);
      }
      return Ok(());
    }

    /** `stop`: every pipeline is paused first, and a failure exits the program with
        nothing changed. Then the flag drops, the thread is joined (RuntimeError for a
        thread never started) and `_clear_pendings` runs, raising TypeError whenever a
        sink exists. */
    method Stop(allPause: bool) returns (r: Result<()>)
      modifies this
      ensures !allPause ==> r == Err(SystemExit) && running == old(running)
      ensures allPause ==> !running
      ensures allPause && !old(threadStarted) ==> r == Err(RuntimeError)
      ensures allPause && old(threadStarted) ==>
        r == if |channelStates| > 0 then Err(TypeError) else Ok(())
      ensures channelStates == old(channelStates) && threadStarted == old(threadStarted)
      ensures emitted == old(emitted) && callbackIds == old(callbackIds)
      ensures recordDuration == old(recordDuration) && puts == old(puts) && taken == old(taken)
    {
      if !allPause {
        return Err(SystemExit);
      }
      running := false;
      if !threadStarted {
        return Err(RuntimeError);
      }
      r := ClearPendings();
    }
  }
}
