/** `src/computer_vision/detection_recorder.py`: records detection frames to a video at a fixed
    frame rate. Frames arrive with their wall-clock timestamps in a bounded queue; a worker
    takes them one by one and writes the latest frame once for every point of a time grid of
    step 1/fps reached so far, so that the video keeps pace with real time. The clock is a
    parameter, the video writer is modelled by the frames written to it, and each pass of the
    worker's loop is one atomic step. */
module DetectionRecorder {

  import opened Wrappers

  /** `queue.Queue(maxsize=200)`. */
  const QueueCapacity := 200

  /** `n` copies of `x`. */
  function Repeat<T>(x: T, n: nat): (r: seq<T>)
    ensures |r| == n
    ensures forall i :: 0 <= i < n ==> r[i] == x
  {
    if n == 0 then [] else Repeat(x, n - 1) + [x]
  }

  /** What the inner loop writes for `frame` at `k` grid points: the frame each time, or
      nothing at all when the frame is None (the `_last_frame is not None` test). */
  function Writes<F>(frame: Option<F>, k: nat): (r: seq<F>)
    ensures frame.None? ==> r == []
    ensures frame.Some? ==> |r| == k && forall i :: 0 <= i < k ==> r[i] == frame.value
  {
    if frame.Some? then Repeat(frame.value, k) else []
  }

  /** The k-th grid point from `start`. */
  function GridPoint(start: real, k: nat, interval: real): real
  {
    start + k as real * interval
  }

  /** The number of grid points start, start + interval, start + 2 * interval, ... that are
      not after `ts`. */
  function Ticks(start: real, ts: real, interval: real): nat
    requires interval > 0.0
  {
    if ts < start then 0
    else
      var x := (ts - start) / interval;
      assert x >= 0.0;
      x.Floor + 1
  }

  /** `k` is below the number of grid points up to `ts` exactly when the k-th grid point is not
      after `ts`. */
  lemma TicksExact(start: real, ts: real, interval: real, k: nat)
    requires interval > 0.0
    ensures GridPoint(start, k, interval) <= ts <==> k < Ticks(start, ts, interval)
  {
    if ts < start {
      assert k as real * interval >= 0.0;
    } else {
      var x := (ts - start) / interval;
      assert x * interval == ts - start;
      if start + k as real * interval <= ts {
        assert k as real * interval <= x * interval;
        assert k as real <= x;
      } else {
        assert k as real * interval > x * interval;
        assert k as real > x;
      }
    }
  }

  /** Writing up to `t1` and then, from the next grid point, up to `t2` covers the same grid
      points as writing up to `t2` at once. */
  lemma TicksAdd(start: real, t1: real, t2: real, interval: real)
    requires interval > 0.0 && t1 <= t2
    ensures var k1 := Ticks(start, t1, interval);
      k1 + Ticks(GridPoint(start, k1, interval), t2, interval) == Ticks(start, t2, interval)
  {
    var k1 := Ticks(start, t1, interval);
    var next := GridPoint(start, k1, interval);
    var k2 := Ticks(next, t2, interval);
    var n := Ticks(start, t2, interval);
    TicksExact(next, t2, interval, k2);
    GridShift(start, k1, k2, interval);
    TicksExact(start, t2, interval, k1 + k2);
    if k2 >= 1 {
      TicksExact(next, t2, interval, k2 - 1);
      GridShift(start, k1, k2 - 1, interval);
      TicksExact(start, t2, interval, k1 + k2 - 1);
    } else if k1 >= 1 {
      TicksExact(start, t1, interval, k1 - 1);
      TicksExact(start, t2, interval, k1 - 1);
    } else {
      TicksExact(start, t2, interval, 0);
    }
  }

  /** The grid point after the k-th is the (k + 1)-th. */
  lemma GridStep(start: real, k: nat, interval: real)
    ensures GridPoint(start, k, interval) + interval == GridPoint(start, k + 1, interval)
  {
  }

  /** Grid points counted from the k1-th are grid points counted from the start. */
  lemma GridShift(start: real, k1: nat, k2: nat, interval: real)
    ensures GridPoint(GridPoint(start, k1, interval), k2, interval) == GridPoint(start, k1 + k2, interval)
  {
  }

  /** The first grid point: the pending one, or the frame's own timestamp when the timeline
      has not started. */
  function GridStart(next: Option<real>, ts: real): real
  {
    if next.Some? then next.value else ts
  }

  /** What the worker writes for the queued frames `q` from the pending grid point `next`,
      and the grid point pending afterwards. A None frame moves the timeline on like any
      other but is never written. */
  function Drain<F>(q: seq<(Option<F>, real)>, next: Option<real>, interval: real): (seq<F>, Option<real>)
    requires interval > 0.0
    decreases |q|
  {
    if |q| == 0 then ([], next)
    else
      var frame, ts := q[0].0, q[0].1;
      var start := GridStart(next, ts);
      var k := Ticks(start, ts, interval);
      var rest := Drain(q[1..], Some(GridPoint(start, k, interval)), interval);
      (Writes(frame, k) + rest.0, rest.1)
  }

  /** Timestamps that never go back. */
  predicate Chronological<F>(q: seq<(F, real)>)
  {
    forall i, j :: 0 <= i < j < |q| ==> q[i].1 <= q[j].1
  }

  /** No queued frame is None. */
  predicate Present<F>(q: seq<(Option<F>, real)>)
  {
    forall i :: 0 <= i < |q| ==> q[i].0.Some?
  }

  /** For chronological frames, the grid point pending afterwards is the first one after the
      last timestamp, and when no frame is None the worker writes exactly one frame per grid
      point from `next` up to that timestamp. */
  lemma {:induction false} DrainPaces<F>(q: seq<(Option<F>, real)>, next: real, interval: real)
    requires interval > 0.0 && |q| > 0 && Chronological(q)
    ensures Present(q) ==> |Drain(q, Some(next), interval).0| == Ticks(next, q[|q| - 1].1, interval)
    ensures Drain(q, Some(next), interval).1
      == Some(GridPoint(next, Ticks(next, q[|q| - 1].1, interval), interval))
    decreases |q|
  {
    var ts := q[0].1;
    var last := q[|q| - 1].1;
    var k1 := Ticks(next, ts, interval);
    var next1 := GridPoint(next, k1, interval);
    var rest := Drain(q[1..], Some(next1), interval);
    assert Drain(q, Some(next), interval).0 == Writes(q[0].0, k1) + rest.0;
    assert Drain(q, Some(next), interval).1 == rest.1;
    if |q| == 1 {
      assert rest == ([], Some(next1));
    } else {
      assert ts <= last;
      assert Present(q) ==> Present(q[1..]);
      DrainPaces(q[1..], next1, interval);
      assert q[1..][|q| - 2] == q[|q| - 1];
      var k2 := Ticks(next1, last, interval);
      assert Present(q) ==> |rest.0| == k2;
      assert rest.1 == Some(GridPoint(next1, k2, interval));
      TicksAdd(next, ts, last, interval);
      GridShift(next, k1, k2, interval);
    }
  }

  /** A frame older than the pending grid point writes nothing and leaves it pending; the
      first frame of a timeline is written once, at its own timestamp (not at all when it is
      None), and the next grid point is one interval later. */
  lemma SingleFrame<F>(frame: Option<F>, ts: real, next: real, interval: real)
    requires interval > 0.0
    ensures ts < next ==> Drain([(frame, ts)], Some(next), interval) == ([], Some(next))
    ensures Drain([(frame, ts)], None, interval).0 == if frame.Some? then [frame.value] else []
    ensures Drain([(frame, ts)], None, interval).1 == Some(ts + interval)
  {
    var q := [(frame, ts)];
    assert q[1..] == [];
    if ts < next {
      assert Ticks(next, ts, interval) == 0;
      assert Drain(q, Some(next), interval).0 == Writes(frame, 0) + [];
    }
    TicksExact(ts, ts, interval, 0);
    TicksExact(ts, ts, interval, 1);
    assert Ticks(ts, ts, interval) == 1;
    assert Drain(q, None, interval).0 == Writes(frame, 1) + [];
    assert Drain(q, None, interval).1 == Some(GridPoint(ts, 1, interval));
    assert GridPoint(ts, 1, interval) == ts + interval;
  }

  /** The video a recording session writes from chronological frames, none of them None,
      has one frame per grid point between the first and the last timestamp:
      floor((last - first) * fps) + 1 frames for an interval of 1/fps. */
  lemma VideoLength<F>(q: seq<(Option<F>, real)>, interval: real)
    requires interval > 0.0 && |q| > 0 && Chronological(q) && Present(q)
    ensures |Drain(q, None, interval).0| == ((q[|q| - 1].1 - q[0].1) / interval).Floor + 1
  {
    var ts := q[0].1;
    TicksAdd(ts, ts, q[|q| - 1].1, interval);
    DrainPaces(q, ts, interval);
    var k1 := Ticks(ts, ts, interval);
    assert k1 == 1;
    var next1 := ts + interval;
    assert Drain(q, None, interval) == Drain(q, Some(ts), interval);
  }

  class DetectionRecording<F> {
    const frameInterval: real
    var queue: seq<(Option<F>, real)>
    var isRecording: bool
    var stopRequested: bool
    var startTime: Option<real>
    var nextPtsTime: Option<real>
    var lastFrame: Option<F>
    var written: seq<F>
    var released: bool

    /** The queue never holds more than its capacity. */
    predicate Valid()
      reads this
    {
      frameInterval > 0.0 && |queue| <= QueueCapacity
    }

    /** `__init__(target_file, fps)`: an interval of 1/fps, an empty queue, not recording. */
    constructor (fps: real)
      requires fps > 0.0
      ensures Valid() && frameInterval == 1.0 / fps
      ensures queue == [] && !isRecording && !stopRequested && !released
      ensures startTime.None? && nextPtsTime.None? && lastFrame.None? && written == []
    {
      frameInterval := 1.0 / fps;
      queue := [];
      isRecording, stopRequested, released := false, false, false;
      startTime, nextPtsTime, lastFrame := None, None, None;
      written := [];
    }

    /** `start_recording()`: nothing while recording; otherwise recording starts at `now`
        with a fresh timeline, the worker's stop request cleared. */
    method StartRecording(now: real)
      requires Valid()
      modifies this
      ensures Valid()
      ensures old(isRecording) ==> unchanged(this)
      ensures !old(isRecording) ==>
        && isRecording && !stopRequested && startTime == Some(now) && nextPtsTime.None?
        && queue == old(queue) && lastFrame == old(lastFrame) && written == old(written)
        && released == old(released)
    {
      if isRecording {
        return;
      }
      isRecording := true;
      stopRequested := false;
      startTime := Some(now);
      nextPtsTime := None;
    }

    /** `update_frame(frame)` at time `now`: nothing unless recording; the frame (None
        included) is dropped when the queue is full and queued with its timestamp otherwise. */
    method UpdateFrame(frame: Option<F>, now: real)
      requires Valid()
      modifies this
      ensures Valid()
      ensures !old(isRecording) || |old(queue)| == QueueCapacity ==> unchanged(this)
      ensures old(isRecording) && |old(queue)| < QueueCapacity ==>
        && queue == old(queue) + [(frame, now)]
        && isRecording && stopRequested == old(stopRequested) && nextPtsTime == old(nextPtsTime)
        && lastFrame == old(lastFrame) && written == old(written) && released == old(released)
    {
      if !isRecording {
        return;
      }
      if |queue| == QueueCapacity {
        return;
      }
      queue := queue + [(frame, now)];
    }

    /** One pass of `_record_worker`: nothing when the queue is empty. Otherwise the oldest
        frame becomes the latest one; the timeline starts at its timestamp if it has not
        started; and the frame is written once for every grid point up to its timestamp
        (never, when it is None), leaving the first grid point after it pending. */
    method WorkerStep()
      requires Valid()
      modifies this
      ensures Valid()
      ensures old(queue) == [] ==> unchanged(this)
      ensures old(queue) != [] ==>
        var frame, ts := old(queue)[0].0, old(queue)[0].1;
        var start := GridStart(old(nextPtsTime), ts);
        var k := Ticks(start, ts, frameInterval);
        && queue == old(queue)[1..]
        && lastFrame == frame
        && written == old(written) + Writes(frame, k)
        && nextPtsTime == Some(GridPoint(start, k, frameInterval))
        && nextPtsTime.value > ts
      ensures isRecording == old(isRecording) && stopRequested == old(stopRequested)
      ensures startTime == old(startTime) && released == old(released)
    {
      if queue == [] {
        return;
      }
      var frame, ts := queue[0].0, queue[0].1;
      queue := queue[1..];
      lastFrame := frame;
      var next := if nextPtsTime.Some? then nextPtsTime.value else ts;
      var out := written;
      ghost var start := next;
      ghost var total := Ticks(start, ts, frameInterval);
      ghost var k: nat := 0;
      label Popped:
      while next <= ts
        invariant unchanged@Popped(this)
        invariant next == GridPoint(start, k, frameInterval)
        invariant k <= total
        invariant out == old(written) + Writes(frame, k)
        decreases total - k
      {
        TicksExact(start, ts, frameInterval, k);
        if lastFrame.Some? {
          out := out + [lastFrame.value];
        }
        GridStep(start, k, frameInterval);
        next := next + frameInterval;
        k := k + 1;
      }
      TicksExact(start, ts, frameInterval, k);
      written, nextPtsTime := out, Some(next);
    }

    /** `stop_recording()`: nothing when idle. Otherwise recording stops, the worker is asked
        to stop and joined, having drained every queued frame first, and the writer is
        released. */
    method StopRecording()
      requires Valid()
      modifies this
      ensures Valid()
      ensures !old(isRecording) ==> unchanged(this)
      ensures old(isRecording) ==>
        && !isRecording && stopRequested && released && queue == []
        && written == old(written) + Drain(old(queue), old(nextPtsTime), frameInterval).0
        && nextPtsTime == Drain(old(queue), old(nextPtsTime), frameInterval).1
        && lastFrame == (if old(queue) == [] then old(lastFrame) else old(queue)[|old(queue)| - 1].0)
    {
      if !isRecording {
        return;
      }
      isRecording := false;
      stopRequested := true;
      while queue != []
        invariant Valid() && !isRecording && stopRequested
        invariant old(written) + Drain(old(queue), old(nextPtsTime), frameInterval).0
          == written + Drain(queue, nextPtsTime, frameInterval).0
        invariant Drain(old(queue), old(nextPtsTime), frameInterval).1 == Drain(queue, nextPtsTime, frameInterval).1
        invariant |queue| <= |old(queue)| && queue == old(queue)[|old(queue)| - |queue|..]
        invariant lastFrame == (if |queue| == |old(queue)| then old(lastFrame) else old(queue)[|old(queue)| - |queue| - 1].0)
        decreases |queue|
      {
        WorkerStep();
      }
      assert written + Drain(queue, nextPtsTime, frameInterval).0 == written;
      released := true;
    }
  }
}
