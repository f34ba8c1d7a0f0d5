/** `GstreamerSource` (the threaded source over a `GStreamerEngine`): every channel keeps its
    pending bytes; each chunk a sink delivers is appended to its channel, frames of
    `required_buffer_size` bytes are cut from the front, decoded as PCM24 and put on the
    multi-channel queue. */
module SourceAccumulator {
  import opened Wrappers
  import opened Bytes
  import opened FrameSlicer
  import opened MultiChannel
  import Pcm24

  predicate Aligned(frames: seq<seq<byte>>)
  {
    forall k :: 0 <= k < |frames| ==> |frames[k]| % 3 == 0
  }

  /** The queue puts made for a run of frames cut on channel c. */
  function Pushes(c: nat, frames: seq<seq<byte>>): (h: seq<Put<seq<real>>>)
    requires Aligned(frames)
    ensures |h| == |frames|
  {
    seq(|frames|, k requires 0 <= k < |frames| => Put(c, Pcm24.BytesToAudio(frames[k]).value))
  }

  lemma PushesSnoc(c: nat, frames: seq<seq<byte>>, f: seq<byte>)
    requires Aligned(frames) && |f| % 3 == 0
    ensures Aligned(frames + [f])
    ensures Pushes(c, frames + [f]) == Pushes(c, frames) + [Put(c, Pcm24.BytesToAudio(f).value)]
  {
  }

  /** What the slicing loop does on channel c once the channel's pending bytes are `whole`,
      given the frame size n and the queue state `q`: the outcome `r`, the bytes `rest` left
      pending and the queue state `q'`. With n a multiple of three every whole frame is
      decoded and put in order; otherwise the first frame cut fails to decode and raises
      ValueError after its bytes are gone. With n = 0, the constructor's default, the guard
      `len(pending) >= 0` never fails and every turn cuts an empty frame (`Endless`): the
      callback never returns, and the empty frames it keeps putting are not modelled. */
  ghost predicate Sliced(c: nat, whole: seq<byte>, n: nat, q: QueueState<seq<real>>,
                         r: Result<()>, rest: seq<byte>, q': QueueState<seq<real>>)
  {
    && (n == 0 ==> Endless(whole, 0) && r == Err(NeverReturns) && rest == whole && q' == q)
    && (n > 0 && n % 3 == 0 ==>
          && r == Ok(()) && rest == Pending(whole, n)
          && ValidPuts(|q.queues|, Pushes(c, Frames(whole, n)))
          && q' == Run(q, Pushes(c, Frames(whole, n))))
    && (n % 3 != 0 && |whole| >= n ==> r == Err(ValueError) && rest == whole[n..] && q' == q)
    && (n % 3 != 0 && |whole| < n ==> r == Ok(()) && rest == whole && q' == q)
  }

  /** The slicing of channel c with the size-0 case handled as the monitor script handles
      it: at size 0 every pending byte is taken at once as one frame, decoded and put, and
      nothing stays pending (a frame that is not a whole number of samples raises ValueError
      once its bytes are gone). A positive size slices as the loop does. */
  ghost predicate SlicedCorrected(c: nat, whole: seq<byte>, n: nat, q: QueueState<seq<real>>,
                                  r: Result<()>, rest: seq<byte>, q': QueueState<seq<real>>)
  {
    && (n == 0 && |whole| % 3 != 0 ==> r == Err(ValueError) && rest == [] && q' == q)
    && (n == 0 && |whole| % 3 == 0 ==>
          && r == Ok(()) && rest == CorrectedPending(whole, 0)
          && ValidPuts(|q.queues|, Pushes(c, CorrectedFrames(whole, 0)))
          && q' == Run(q, Pushes(c, CorrectedFrames(whole, 0))))
    && (n > 0 ==> Sliced(c, whole, n, q, r, rest, q'))
  }

  /** The corrected slicing always returns, and when it succeeds the frames it takes and the
      bytes it leaves rebuild what was pending. */
  lemma CorrectedReturns(c: nat, whole: seq<byte>, n: nat, q: QueueState<seq<real>>,
                         r: Result<()>, rest: seq<byte>, q': QueueState<seq<real>>)
    requires SlicedCorrected(c, whole, n, q, r, rest, q')
    ensures r == Ok(()) || r == Err(ValueError)
    ensures r.Ok? ==> rest == CorrectedPending(whole, n)
    ensures r.Ok? ==> Flatten(CorrectedFrames(whole, n)) + rest == whole
  {
    CorrectedConservation(whole, n);
  }

  class GstreamerSource {
    var sinksData: seq<seq<byte>>
    var requiredBufferSize: nat
    const dataQueue: MultiChannelQueue<seq<real>>
    /** `_continue`. */
    var running: bool
    var threadStarted: bool
    /** Every frame set handed to the callback, in order. */
    var emitted: seq<seq<seq<real>>>

    ghost predicate Valid()
      reads this, dataQueue
    {
      dataQueue.Valid() && dataQueue.configured && dataQueue.numChannels == |sinksData|
    }

    /** `GstreamerSource(pipelines, buffer_size)` over an engine with `channelsCount` sinks. */
    constructor (channelsCount: nat, bufferSize: nat)
      ensures Valid() && fresh(dataQueue)
      ensures sinksData == seq(channelsCount, _ => []) && requiredBufferSize == bufferSize
      ensures dataQueue.State() == Init(channelsCount)
      ensures !running && !threadStarted && emitted == []
    {
      sinksData := seq(channelsCount, _ => []);
      requiredBufferSize := bufferSize;
      dataQueue := new MultiChannelQueue(Some(channelsCount));
      running := false;
      threadStarted := false;
      emitted := [];
    }

    /** `_on_new_sample`: an id outside [-n, n) raises IndexError. Otherwise the chunk joins
        its channel's pending bytes and every whole frame is cut, decoded and put on the queue
        (`SliceChannel`). */
    method OnNewSample(channelId: int, data: seq<byte>) returns (r: Result<()>)
      requires Valid()
      modifies this, dataQueue
      ensures Valid()
      ensures requiredBufferSize == old(requiredBufferSize) && running == old(running)
      ensures threadStarted == old(threadStarted) && emitted == old(emitted)
      ensures ChannelIndex(|old(sinksData)|, channelId).None? ==>
        r == Err(IndexError) && sinksData == old(sinksData) && dataQueue.State() == old(dataQueue.State())
      ensures ChannelIndex(|old(sinksData)|, channelId).Some? ==>
        var c := ChannelIndex(|old(sinksData)|, channelId).value;
        && |sinksData| == |old(sinksData)| && sinksData == old(sinksData)[c := sinksData[c]]
        && Sliced(c, old(sinksData)[c] + data, requiredBufferSize, old(dataQueue.State()),
                  r, sinksData[c], dataQueue.State())
    {
      var idx := ChannelIndex(|sinksData|, channelId);
      if idx.None? {
        return Err(IndexError);
      }
      var c := idx.value;
      ghost var before := sinksData;
      sinksData := sinksData[c := sinksData[c] + data];
      r := SliceChannel(c, channelId);
      assert sinksData == before[c := sinksData[c]];
    }

    /** The slicing loop on channel `c`, whose pending bytes already hold the new chunk. With
        a frame size of 0 it never ends. */
    method SliceChannel(c: nat, channelId: int) returns (r: Result<()>)
      requires Valid() && c < |sinksData|
      requires ChannelIndex(|sinksData|, channelId) == Some(c)
      modifies this, dataQueue
      ensures Valid()
      ensures requiredBufferSize == old(requiredBufferSize) && running == old(running)
      ensures threadStarted == old(threadStarted) && emitted == old(emitted)
      ensures |sinksData| == |old(sinksData)| && sinksData == old(sinksData)[c := sinksData[c]]
      ensures Sliced(c, old(sinksData)[c], requiredBufferSize, old(dataQueue.State()),
                     r, sinksData[c], dataQueue.State())
    {
      if requiredBufferSize == 0 {
        ZeroEndless(sinksData[c]);
        return Err(NeverReturns);
      }
      r := CutFrames(c, channelId);
    }

    /** The corrected counterpart of `SliceChannel`: a frame size of 0 takes every pending byte
        of channel `c` at once as one frame, as the monitor script does, so the call returns. */
    method SliceChannelCorrected(c: nat, channelId: int) returns (r: Result<()>)
      requires Valid() && c < |sinksData|
      requires ChannelIndex(|sinksData|, channelId) == Some(c)
      modifies this, dataQueue
      ensures Valid()
      ensures requiredBufferSize == old(requiredBufferSize) && running == old(running)
      ensures threadStarted == old(threadStarted) && emitted == old(emitted)
      ensures |sinksData| == |old(sinksData)| && sinksData == old(sinksData)[c := sinksData[c]]
      ensures SlicedCorrected(c, old(sinksData)[c], requiredBufferSize, old(dataQueue.State()),
                              r, sinksData[c], dataQueue.State())
    {
      if requiredBufferSize > 0 {
        r := CutFrames(c, channelId);
        return;
      }
      var buff := sinksData[c];
      ghost var q0 := dataQueue.State();
      if |buff| == 0 {
        return Ok(());
      }
      sinksData := sinksData[c := []];
      var frame := Pcm24.BytesToAudio(buff);
      if frame.Err? {
        return Err(frame.error);
      }
      var _ := dataQueue.Put(channelId, frame.value);
      PushesSnoc(c, [], buff);
      RunSnoc(q0, Pushes(c, []), Put(c, frame.value));
      assert [] + [buff] == CorrectedFrames(buff, 0);
      return Ok(());
    }

    /** The turns of the slicing loop, for a positive frame size. */
    method CutFrames(c: nat, channelId: int) returns (r: Result<()>)
      requires Valid() && requiredBufferSize > 0 && c < |sinksData|
      requires ChannelIndex(|sinksData|, channelId) == Some(c)
      modifies this, dataQueue
      ensures Valid()
      ensures requiredBufferSize == old(requiredBufferSize) && running == old(running)
      ensures threadStarted == old(threadStarted) && emitted == old(emitted)
      ensures |sinksData| == |old(sinksData)| && sinksData == old(sinksData)[c := sinksData[c]]
      ensures Sliced(c, old(sinksData)[c], requiredBufferSize, old(dataQueue.State()),
                     r, sinksData[c], dataQueue.State())
    {
      var n := requiredBufferSize;
      ghost var whole := sinksData[c];
      ghost var q0 := dataQueue.State();
      ghost var done: seq<seq<byte>> := [];
      while |sinksData[c]| >= n
        invariant Valid() && |sinksData| == |old(sinksData)|
        invariant sinksData == old(sinksData)[c := sinksData[c]]
        invariant requiredBufferSize == n && running == old(running)
        invariant threadStarted == old(threadStarted) && emitted == old(emitted)
        invariant forall k :: 0 <= k < |done| ==> |done[k]| == n
        invariant n % 3 != 0 ==> done == [] && sinksData[c] == whole
        invariant Frames(whole, n) == done + Frames(sinksData[c], n)
        invariant Pending(whole, n) == Pending(sinksData[c], n)
        invariant Aligned(done) && ValidPuts(|q0.queues|, Pushes(c, done))
        invariant |q0.queues| == |sinksData|
        invariant dataQueue.State() == Run(q0, Pushes(c, done))
        decreases |sinksData[c]|
      {
        var buff := sinksData[c][..n];
        CutStep(whole, n, done, sinksData[c]);
        sinksData := sinksData[c := sinksData[c][n..]];
        var frame := Pcm24.BytesToAudio(buff);
        if frame.Err? {
          assert [] + whole == whole;
          return Err(frame.error);
        }
        var _ := dataQueue.Put(channelId, frame.value);
        PushesSnoc(c, done, buff);
        RunSnoc(q0, Pushes(c, done), Put(c, frame.value));
        done := done + [buff];
      }
      CutDone(whole, n, done, sinksData[c]);
      assert [] + whole == whole;
      return Ok(());
    }

    /** `_run`, one tick of the polling thread while running: every ready frame set is taken
        from the queue and emitted, oldest first, as long as `has_data` (`HasData`) holds. */
    method RunTick()
      requires Valid()
      modifies this, dataQueue
      ensures Valid() && sinksData == old(sinksData) && running == old(running)
      ensures dataQueue.channelQueues == old(dataQueue.channelQueues)
      ensures old(running) ==> dataQueue.ready == [] && emitted == old(emitted) + old(dataQueue.ready)
      ensures !old(running) ==> dataQueue.ready == old(dataQueue.ready) && emitted == old(emitted)
    {
      if !running {
        return;
      }
      while dataQueue.HasData() && running
        invariant Valid() && sinksData == old(sinksData) && running == old(running)
        invariant dataQueue.channelQueues == old(dataQueue.channelQueues)
        invariant emitted + dataQueue.ready == old(emitted) + old(dataQueue.ready)
        decreases |dataQueue.ready|
      {
        var f := dataQueue.Get(true, None);
        emitted := emitted + [f.value];
      }
    }

    /** `clear_pendings`: the queue is cleared (`MultiChannelQueue.Clear`), dropping every
        frame waiting in it, and every channel's pending bytes are dropped. */
    method ClearPendings()
      requires Valid()
      modifies this, dataQueue
      ensures Valid() && sinksData == seq(|old(sinksData)|, _ => [])
      ensures dataQueue.State() == Init(|sinksData|)
      ensures requiredBufferSize == old(requiredBufferSize) && running == old(running)
      ensures threadStarted == old(threadStarted) && emitted == old(emitted)
    {
      dataQueue.Clear();
      sinksData := seq(|sinksData|, _ => []);
    }

    /** `start`: nothing happens while running; otherwise the flag is raised and the thread
        started, which raises RuntimeError for a thread that has been started before. */
    method Start() returns (r: Result<()>)
      modifies this
      ensures old(running) ==> r == Ok(()) && running && threadStarted == old(threadStarted)
      ensures !old(running) ==> running && threadStarted
      ensures !old(running) ==> (r == Err(RuntimeError) <==> old(threadStarted))
      ensures r.Ok? || r == Err(RuntimeError)
      ensures sinksData == old(sinksData) && emitted == old(emitted) && requiredBufferSize == old(requiredBufferSize)
    {
      if running {
        return Ok(());
      }
      running := true;
      if threadStarted {
        return Err(RuntimeError);
      }
      threadStarted := true;
      return Ok(());
    }

    /** `stop`: the flag drops, the thread is joined (RuntimeError for a thread never
        started, before anything is cleared), then the queue and the pending bytes are
        cleared. */
    method Stop() returns (r: Result<()>)
      requires Valid()
      modifies this, dataQueue
      ensures Valid() && !running && threadStarted == old(threadStarted) && emitted == old(emitted)
      ensures !old(threadStarted) ==>
        r == Err(RuntimeError) && sinksData == old(sinksData) && dataQueue.State() == old(dataQueue.State())
      ensures old(threadStarted) ==>
        r == Ok(()) && sinksData == seq(|old(sinksData)|, _ => []) && dataQueue.State() == Init(|sinksData|)
    {
      running := false;
      if !threadStarted {
        return Err(RuntimeError);
      }
      ClearPendings();
      return Ok(());
    }
  }

  /** Slicing does not depend on how the stream was split into chunks: the frames cut from a
      channel over successive calls are the frames of everything it received. */
  lemma ChunkingIndependent(chunks: seq<seq<byte>>, n: nat)
    requires n > 0
    ensures FeedAll([], chunks, n) == (Frames(Flatten(chunks), n), Pending(Flatten(chunks), n))
    ensures |Frames(Flatten(chunks), n)| == |Flatten(chunks)| / n
    ensures |Pending(Flatten(chunks), n)| == |Flatten(chunks)| % n
  {
    FeedAllFlat(chunks, n);
    FrameCount(Flatten(chunks), n);
  }
}
