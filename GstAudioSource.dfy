/** `GStreamerAudioSource`: one RTP pipeline per audio device, each split into two appsinks;
    every sink keeps its pending bytes and the duration it has received, and frames of
    `required_data` bytes are cut from the front, decoded as PCM24 and put on the
    multi-channel queue. */
module GstAudioSource {
  import opened Wrappers
  import opened Bytes
  import opened FrameSlicer
  import opened MultiChannel
  import opened SourceAccumulator
  import Pcm24

  /** The frame size in bytes: `rec_hz * record_duration` (ns) samples per second's
      fraction, three bytes per PCM24 sample, rounded down. */
  function RequiredData(recHz: nat, recordDuration: nat): (n: nat)
    ensures n * 1_000_000_000 <= recHz * recordDuration * 3 < (n + 1) * 1_000_000_000
    ensures n == 0 <==> recHz * recordDuration * 3 < 1_000_000_000
  {
    (recHz * recordDuration * 3) / 1_000_000_000
  }

  /** With the default 48 kHz and one-second segments a frame is 144000 bytes, 48000 samples. */
  lemma DefaultFrameSize()
    ensures RequiredData(48000, 1_000_000_000) == 144000
  {
  }

  /** Sink i (0 or 1) of the d-th device is wired to channel 2d + i. */
  function ChannelOf(d: nat, i: nat): nat
  {
    2 * d + i
  }

  /** Every channel belongs to exactly one (device, sink) pair. */
  lemma ChannelOfBijective(d: nat, i: nat, d': nat, i': nat, c: nat)
    requires i < 2 && i' < 2
    ensures ChannelOf(d, i) == ChannelOf(d', i') ==> d == d' && i == i'
    ensures ChannelOf(c / 2, c % 2) == c
  {
  }

  /** The state of one appsink: `{"data": ..., "accumulated_ns": ...}`. */
  datatype SinkState = SinkState(data: seq<byte>, accumulatedNs: nat)

  class GStreamerAudioSource {
    var sinkStates: seq<SinkState>
    /** The channel id each sink's callback is connected with, in sink order. */
    var callbackIds: seq<nat>
    var requiredData: nat
    const dataQueue: MultiChannelQueue<seq<real>>
    /** `_continue`. */
    var running: bool
    var threadStarted: bool
    /** Every frame set handed to `on_data_ready`, in order. */
    var emitted: seq<seq<seq<real>>>

    ghost predicate Valid()
      reads this, dataQueue
    {
      && dataQueue.Valid() && dataQueue.configured
      && dataQueue.numChannels == |sinkStates| == |callbackIds|
    }

    /** The constructor with `devices` audio devices: two sinks per device, wired to
        consecutive channels, all with empty state. */
    constructor (devices: nat, recHz: nat, recordDuration: nat)
      ensures Valid() && fresh(dataQueue)
      ensures requiredData == RequiredData(recHz, recordDuration)
      ensures |callbackIds| == 2 * devices
      ensures forall d, i :: 0 <= d < devices && 0 <= i < 2 ==> callbackIds[2 * d + i] == ChannelOf(d, i)
      ensures sinkStates == seq(2 * devices, _ => SinkState([], 0))
      ensures dataQueue.State() == Init(2 * devices)
      ensures !running && !threadStarted && emitted == []
    {
      var ids: seq<nat> := [];
      var channel := 0;
      var d := 0;
      while d < devices
        invariant d <= devices && channel == 2 * d && |ids| == 2 * d
        invariant forall k :: 0 <= k < |ids| ==> ids[k] == k
      {
        for i := 0 to 2
          invariant |ids| == 2 * d + i
          invariant forall k :: 0 <= k < |ids| ==> ids[k] == k
        {
          ids := ids + [channel + i];
        }
        channel := channel + 2;
        d := d + 1;
      }
      callbackIds := ids;
      sinkStates := seq(2 * devices, _ => SinkState([], 0));
      requiredData := RequiredData(recHz, recordDuration);
      dataQueue := new MultiChannelQueue(Some(2 * devices));
      running := false;
      threadStarted := false;
      emitted := [];
    }

    /** `_on_new_sample`: an id outside [-n, n) raises IndexError. Otherwise the chunk joins
        its sink's pending bytes, its duration is added to the sink's counter, and every
        whole frame is cut, decoded and put on the queue (`SliceSink`). The counter plays
        no part in the slicing. */
    method OnNewSample(channelId: int, data: seq<byte>, duration: nat) returns (r: Result<()>)
      requires Valid()
      modifies this, dataQueue
      ensures Valid() && callbackIds == old(callbackIds) && requiredData == old(requiredData)
      ensures running == old(running) && threadStarted == old(threadStarted) && emitted == old(emitted)
      ensures ChannelIndex(|old(sinkStates)|, channelId).None? ==>
        r == Err(IndexError) && sinkStates == old(sinkStates) && dataQueue.State() == old(dataQueue.State())
      ensures ChannelIndex(|old(sinkStates)|, channelId).Some? ==>
        var c := ChannelIndex(|old(sinkStates)|, channelId).value;
        && |sinkStates| == |old(sinkStates)| && sinkStates == old(sinkStates)[c := sinkStates[c]]
        && sinkStates[c].accumulatedNs == old(sinkStates)[c].accumulatedNs + duration
        && Sliced(c, old(sinkStates)[c].data + data, requiredData, old(dataQueue.State()),
                  r, sinkStates[c].data, dataQueue.State())
    {
      var idx := ChannelIndex(|sinkStates|, channelId);
      if idx.None? {
        return Err(IndexError);
      }
      var c := idx.value;
      ghost var before := sinkStates;
      var state := sinkStates[c];
      sinkStates := sinkStates[c := SinkState(state.data + data, state.accumulatedNs + duration)];
      r := SliceSink(c, channelId);
      assert sinkStates == before[c := sinkStates[c]];
    }

    /** The slicing loop on sink `c`, whose pending bytes already hold the new chunk. With
        `required_data` 0 (a segment shorter than a third of one sample period: `rec_hz`
        times the duration in nanoseconds below 10^9 / 3) it never ends. */
    method SliceSink(c: nat, channelId: int) returns (r: Result<()>)
      requires Valid() && c < |sinkStates|
      requires ChannelIndex(|sinkStates|, channelId) == Some(c)
      modifies this, dataQueue
      ensures Valid() && callbackIds == old(callbackIds) && requiredData == old(requiredData)
      ensures running == old(running) && threadStarted == old(threadStarted) && emitted == old(emitted)
      ensures |sinkStates| == |old(sinkStates)| && sinkStates == old(sinkStates)[c := sinkStates[c]]
      ensures sinkStates[c].accumulatedNs == old(sinkStates)[c].accumulatedNs
      ensures Sliced(c, old(sinkStates)[c].data, requiredData, old(dataQueue.State()),
                     r, sinkStates[c].data, dataQueue.State())
    {
      if requiredData == 0 {
        ZeroEndless(sinkStates[c].data);
        return Err(NeverReturns);
      }
      r := CutFrames(c, channelId);
    }

    /** The corrected counterpart of `SliceSink`: a `required_data` of 0 takes every pending
        byte of sink `c` at once as one frame, as the monitor script does, so the call
        returns. */
    method SliceSinkCorrected(c: nat, channelId: int) returns (r: Result<()>)
      requires Valid() && c < |sinkStates|
      requires ChannelIndex(|sinkStates|, channelId) == Some(c)
      modifies this, dataQueue
      ensures Valid() && callbackIds == old(callbackIds) && requiredData == old(requiredData)
      ensures running == old(running) && threadStarted == old(threadStarted) && emitted == old(emitted)
      ensures |sinkStates| == |old(sinkStates)| && sinkStates == old(sinkStates)[c := sinkStates[c]]
      ensures sinkStates[c].accumulatedNs == old(sinkStates)[c].accumulatedNs
      ensures SlicedCorrected(c, old(sinkStates)[c].data, requiredData, old(dataQueue.State()),
                              r, sinkStates[c].data, dataQueue.State())
    {
      if requiredData > 0 {
        r := CutFrames(c, channelId);
        return;
      }
      var state := sinkStates[c];
      var buff := state.data;
      ghost var q0 := dataQueue.State();
      if |buff| == 0 {
        return Ok(());
      }
      sinkStates := sinkStates[c := state.(data := [])];
      var frame := Pcm24.BytesToAudio(buff);
      if frame.Err? {
        return Err(frame.error);
      }
      var _ := dataQueue.Put(channelId, frame.value);
      PushesSnoc(c, [], buff);
      RunSnoc(q0, Pushes(c, []), Put(c, frame.value));
      assert [] + [buff] == CorrectedFrames(buff, 0);
      return Ok(());
    }

    /** The turns of the slicing loop, for a positive `required_data`. */
    method CutFrames(c: nat, channelId: int) returns (r: Result<()>)
      requires Valid() && requiredData > 0 && c < |sinkStates|
      requires ChannelIndex(|sinkStates|, channelId) == Some(c)
      modifies this, dataQueue
      ensures Valid() && callbackIds == old(callbackIds) && requiredData == old(requiredData)
      ensures running == old(running) && threadStarted == old(threadStarted) && emitted == old(emitted)
      ensures |sinkStates| == |old(sinkStates)| && sinkStates == old(sinkStates)[c := sinkStates[c]]
      ensures sinkStates[c].accumulatedNs == old(sinkStates)[c].accumulatedNs
      ensures Sliced(c, old(sinkStates)[c].data, requiredData, old(dataQueue.State()),
                     r, sinkStates[c].data, dataQueue.State())
    {
      var n := requiredData;
      ghost var whole := sinkStates[c].data;
      ghost var q0 := dataQueue.State();
      ghost var done: seq<seq<byte>> := [];
      while |sinkStates[c].data| >= n
        invariant Valid() && |sinkStates| == |old(sinkStates)|
        invariant sinkStates == old(sinkStates)[c := sinkStates[c]]
        invariant sinkStates[c].accumulatedNs == old(sinkStates)[c].accumulatedNs
        invariant requiredData == n && callbackIds == old(callbackIds) && running == old(running)
        invariant threadStarted == old(threadStarted) && emitted == old(emitted)
        invariant forall k :: 0 <= k < |done| ==> |done[k]| == n
        invariant n % 3 != 0 ==> done == [] && sinkStates[c].data == whole
        invariant Frames(whole, n) == done + Frames(sinkStates[c].data, n)
        invariant Pending(whole, n) == Pending(sinkStates[c].data, n)
        invariant Aligned(done) && ValidPuts(|q0.queues|, Pushes(c, done))
        invariant |q0.queues| == |sinkStates|
        invariant dataQueue.State() == Run(q0, Pushes(c, done))
        decreases |sinkStates[c].data|
      {
        var state := sinkStates[c];
        var buff := state.data[..n];
        CutStep(whole, n, done, state.data);
        sinkStates := sinkStates[c := state.(data := state.data[n..])];
        var frame := Pcm24.BytesToAudio(buff);
        if frame.Err? {
          assert [] + whole == whole;
          return Err(frame.error);
        }
        var _ := dataQueue.Put(channelId, frame.value);
        PushesSnoc(c, done, buff);
        RunSnoc(q0, Pushes(c, done), Put(c, frame.value));
        done := done + [buff];
      }
      CutDone(whole, n, done, sinkStates[c].data);
      assert [] + whole == whole;
      return Ok(());
    }

    /** `_run`, one tick of the polling thread while running: at most one ready frame set is
        taken from the queue and handed on. */
    method RunTick()
      requires Valid()
      modifies this, dataQueue
      ensures Valid() && sinkStates == old(sinkStates) && callbackIds == old(callbackIds)
      ensures running == old(running) && threadStarted == old(threadStarted)
      ensures dataQueue.channelQueues == old(dataQueue.channelQueues)
      ensures old(running) && old(dataQueue.ready) != [] ==>
        dataQueue.ready == old(dataQueue.ready)[1..] && emitted == old(emitted) + [old(dataQueue.ready)[0]]
      ensures !old(running) || old(dataQueue.ready) == [] ==>
        dataQueue.ready == old(dataQueue.ready) && emitted == old(emitted)
    {
      if running && dataQueue.ready != [] {
        var f := dataQueue.Get(true, None);
        emitted := emitted + [f.value];
      }
    }

    /** `_clear_pendings`: every sink's bytes and counter are reset; the queue is kept. */
    method ClearPendings()
      modifies this
      ensures sinkStates == seq(|old(sinkStates)|, _ => SinkState([], 0))
      ensures callbackIds == old(callbackIds) && requiredData == old(requiredData)
      ensures running == old(running) && threadStarted == old(threadStarted) && emitted == old(emitted)
    {
      sinkStates := seq(|sinkStates|, _ => SinkState([], 0));
    }

    /** `start`: nothing happens while running. Otherwise the flag is raised and the thread
        started (RuntimeError for a thread started before); then every pipeline is set
        playing, and a failure (`allPlay` false) exits the program. */
    method Start(allPlay: bool) returns (r: Result<()>)
      modifies this
      ensures old(running) ==> r == Ok(()) && running && threadStarted == old(threadStarted)
      ensures !old(running) && old(threadStarted) ==> r == Err(RuntimeError) && running && threadStarted
      ensures !old(running) && !old(threadStarted) ==>
        running && threadStarted && (r == if allPlay then Ok(()) else Err(SystemExit))
      ensures sinkStates == old(sinkStates) && emitted == old(emitted)
      ensures callbackIds == old(callbackIds) && requiredData == old(requiredData)
    {
      if running {
        return Ok(());
      }
      running := true;
      if threadStarted {
        return Err(RuntimeError);
      }
      threadStarted := true;
      if !allPlay {
        return Err(SystemExit);
      }
      return Ok(());
    }

    /** `stop`: every pipeline is paused first, and a failure (`allPause` false) exits the
        program with nothing changed. Then the flag drops, the thread is joined
        (RuntimeError for a thread never started) and the pending state is cleared. */
    method Stop(allPause: bool) returns (r: Result<()>)
      modifies this
      ensures !allPause ==> r == Err(SystemExit) && running == old(running) && sinkStates == old(sinkStates)
      ensures allPause ==> !running
      ensures allPause && !old(threadStarted) ==> r == Err(RuntimeError) && sinkStates == old(sinkStates)
      ensures allPause && old(threadStarted) ==>
        r == Ok(()) && sinkStates == seq(|old(sinkStates)|, _ => SinkState([], 0))
      ensures threadStarted == old(threadStarted) && emitted == old(emitted)
      ensures callbackIds == old(callbackIds) && requiredData == old(requiredData)
    {
      if !allPause {
        return Err(SystemExit);
      }
      running := false;
      if !threadStarted {
        return Err(RuntimeError);
      }
      ClearPendings();
      return Ok(());
    }
  }
}
