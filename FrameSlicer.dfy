/** The slicing loop shared by the byte accumulators: while at least `n` bytes are pending,
    the first `n` are cut off as a frame. `Frames` and `Pending` say what one pass of the loop
    produces from a buffer. */
module FrameSlicer {
  import opened Wrappers

  /** The frames cut from `b`, in order. */
  function Frames<T>(b: seq<T>, n: nat): (r: seq<seq<T>>)
    requires n > 0
    ensures forall k :: 0 <= k < |r| ==> |r[k]| == n
    decreases |b|
  {
    if |b| < n then [] else [b[..n]] + Frames(b[n..], n)
  }

  /** What stays pending once no whole frame is left. */
  function Pending<T>(b: seq<T>, n: nat): (r: seq<T>)
    requires n > 0
    ensures |r| < n
    decreases |b|
  {
    if |b| < n then b else Pending(b[n..], n)
  }

  /** One turn of a slicing loop: cutting the first frame off the bytes `cur` still to
      slice moves it to the frames already cut. */
  lemma CutStep<T>(whole: seq<T>, n: nat, done: seq<seq<T>>, cur: seq<T>)
    requires n > 0 && |cur| >= n
    requires Frames(whole, n) == done + Frames(cur, n) && Pending(whole, n) == Pending(cur, n)
    ensures Frames(whole, n) == (done + [cur[..n]]) + Frames(cur[n..], n)
    ensures Pending(whole, n) == Pending(cur[n..], n)
  {
  }

  /** When a slicing loop stops, the frames cut are all the frames and the rest is pending. */
  lemma CutDone<T>(whole: seq<T>, n: nat, done: seq<seq<T>>, cur: seq<T>)
    requires n > 0 && |cur| < n
    requires Frames(whole, n) == done + Frames(cur, n) && Pending(whole, n) == Pending(cur, n)
    ensures Frames(whole, n) == done && Pending(whole, n) == cur
  {
    assert done + [] == done;
  }

  /** The pending bytes and the frames cut after k turns of the loop on `b`, or None when the
      guard `len(pending) >= n` fails before the k-th turn. */
  function Turns<T>(b: seq<T>, n: nat, k: nat): (r: Option<(seq<T>, seq<seq<T>>)>)
    ensures r.Some? ==> |r.value.1| == k
  {
    if k == 0 then Some((b, []))
    else
      match Turns(b, n, k - 1)
      case None => None
      case Some((cur, done)) => if |cur| >= n then Some((cur[n..], done + [cur[..n]])) else None
  }

  /** With a frame size of 0 the guard never fails: after any number of turns the pending
      bytes are unchanged and every frame cut is empty, so the loop never ends. */
  lemma {:induction false} ZeroCutStalls<T>(b: seq<T>, k: nat)
    ensures Turns(b, 0, k) == Some((b, seq<seq<T>>(k, _ => [])))
  {
    if k > 0 {
      ZeroCutStalls(b, k - 1);
      var empties := seq<seq<T>>(k - 1, _ => []);
      assert b[0..] == b && b[..0] == [];
      assert Turns(b, 0, k) == Some((b[0..], empties + [b[..0]]));
      assert empties + [[]] == seq<seq<T>>(k, _ => []);
    } else {
      assert seq<seq<T>>(0, _ => []) == [];
    }
  }

  /** The loop on `b` never stops: it can take any number of turns. */
  ghost predicate Endless<T>(b: seq<T>, n: nat)
  {
    forall k: nat :: Turns(b, n, k).Some?
  }

  /** With a frame size of 0 the loop is endless, whatever is pending. */
  lemma ZeroEndless<T>(b: seq<T>)
    ensures Endless(b, 0)
  {
    forall k: nat
      ensures Turns(b, 0, k).Some?
    {
      ZeroCutStalls(b, k);
    }
  }

  /** Turns after the first one: on at least n pending bytes, k + 1 turns are the first cut
      followed by k turns on what it leaves. */
  lemma {:induction false} TurnsShift<T>(b: seq<T>, n: nat, k: nat)
    requires |b| >= n
    ensures Turns(b, n, k + 1) ==
      match Turns(b[n..], n, k)
      case None => None
      case Some((cur, done)) => Some((cur, [b[..n]] + done))
  {
    if k == 0 {
      assert [b[..n]] + [] == [] + [b[..n]];
    } else {
      TurnsShift(b, n, k - 1);
      match Turns(b[n..], n, k - 1)
      case None =>
      case Some((cur, done)) =>
        if |cur| >= n {
          assert [b[..n]] + done + [cur[..n]] == [b[..n]] + (done + [cur[..n]]);
        }
    }
  }

  /** For a positive frame size the loop takes exactly one turn per frame of `Frames`, leaves
      `Pending` behind, and its guard then fails: `Frames` and `Pending` are what the loop
      computes, and it is not endless. */
  lemma {:induction false} TurnsFrames<T>(b: seq<T>, n: nat)
    requires n > 0
    ensures Turns(b, n, |Frames(b, n)|) == Some((Pending(b, n), Frames(b, n)))
    ensures Turns(b, n, |Frames(b, n)| + 1).None?
    ensures !Endless(b, n)
    decreases |b|
  {
    if |b| >= n {
      var rest := Frames(b[n..], n);
      TurnsFrames(b[n..], n);
      TurnsShift(b, n, |rest|);
      TurnsShift(b, n, |rest| + 1);
    }
    assert !Turns(b, n, |Frames(b, n)| + 1).Some?;
  }

  /** The frames of the slicing step with the size-0 case handled as the monitor script
      handles it: every pending byte is taken at once as one frame, and nothing is taken when
      nothing is pending. A positive size cuts the whole frames of the loop. */
  function CorrectedFrames<T>(b: seq<T>, n: nat): seq<seq<T>>
  {
    if n > 0 then Frames(b, n) else if |b| == 0 then [] else [b]
  }

  /** What that corrected step leaves pending: nothing at size 0. */
  function CorrectedPending<T>(b: seq<T>, n: nat): seq<T>
  {
    if n > 0 then Pending(b, n) else []
  }

  /** The corrected step loses and reorders nothing, and at size 0 takes at most one frame. */
  lemma CorrectedConservation<T>(b: seq<T>, n: nat)
    ensures Flatten(CorrectedFrames(b, n)) + CorrectedPending(b, n) == b
    ensures n == 0 ==> |CorrectedFrames(b, n)| <= 1 && CorrectedPending(b, n) == []
  {
    if n > 0 {
      Conservation(b, n);
    } else if |b| > 0 {
      assert Flatten([b]) == b + Flatten([b][1..]);
    }
  }

  function Flatten<T>(fs: seq<seq<T>>): seq<T>
  {
    if |fs| == 0 then [] else fs[0] + Flatten(fs[1..])
  }

  /** No byte is lost or reordered: the frames followed by the pending bytes are the buffer. */
  lemma {:induction false} Conservation<T>(b: seq<T>, n: nat)
    requires n > 0
    ensures Flatten(Frames(b, n)) + Pending(b, n) == b
    decreases |b|
  {
    if |b| >= n {
      Conservation(b[n..], n);
      var fs := Frames(b, n);
      assert fs[1..] == Frames(b[n..], n);
      assert b[..n] + b[n..] == b;
    }
  }

  /** A buffer of k·n + r bytes (r < n) gives exactly k frames and leaves r bytes. */
  lemma {:induction false} FrameCount<T>(b: seq<T>, n: nat)
    requires n > 0
    ensures |Frames(b, n)| == |b| / n
    ensures |Pending(b, n)| == |b| % n
    decreases |b|
  {
    if |b| >= n {
      FrameCount(b[n..], n);
      DivModStep(|b|, n);
    }
  }

  lemma DivModUnique(x: int, n: int, q: int, r: int)
    requires n > 0 && 0 <= r < n && x == q * n + r
    ensures x / n == q && x % n == r
  {
    var d := x / n - q;
    assert d * n == r - x % n;
    assert d >= 1 ==> d * n >= n;
    assert d <= -1 ==> d * n <= -n;
  }

  lemma DivModStep(x: int, n: int)
    requires n > 0 && x >= n
    ensures (x - n) / n == x / n - 1 && (x - n) % n == x % n
  {
    var q, r := (x - n) / n, (x - n) % n;
    assert x == (q + 1) * n + r;
    DivModUnique(x, n, q + 1, r);
  }

  /** Slicing is independent of how the input is chunked: feeding `d` to what `a` left
      pending gives the frames and the pending bytes of slicing `a + d` at once. */
  lemma {:induction false} Incremental<T>(a: seq<T>, d: seq<T>, n: nat)
    requires n > 0
    ensures Frames(a + d, n) == Frames(a, n) + Frames(Pending(a, n) + d, n)
    ensures Pending(a + d, n) == Pending(Pending(a, n) + d, n)
    decreases |a|
  {
    if |a| >= n {
      Incremental(a[n..], d, n);
      assert (a + d)[..n] == a[..n];
      assert (a + d)[n..] == a[n..] + d;
    }
  }

  /** Feeding a sequence of chunks one at a time. */
  function FeedAll<T>(pending: seq<T>, chunks: seq<seq<T>>, n: nat): (r: (seq<seq<T>>, seq<T>))
    requires n > 0
    decreases |chunks|
  {
    if |chunks| == 0 then ([], pending)
    else
      var frames := Frames(pending + chunks[0], n);
      var rest := FeedAll(Pending(pending + chunks[0], n), chunks[1..], n);
      (frames + rest.0, rest.1)
  }

  /** Any chunking of the same bytes yields the same frames and the same remainder. */
  lemma {:induction false} FeedAllFlat<T>(chunks: seq<seq<T>>, n: nat)
    requires n > 0
    ensures FeedAll([], chunks, n) == (Frames(Flatten(chunks), n), Pending(Flatten(chunks), n))
  {
    FeedAllFrom([], chunks, n);
    assert [] + Flatten(chunks) == Flatten(chunks);
  }

  lemma {:induction false} FeedAllFrom<T>(p: seq<T>, chunks: seq<seq<T>>, n: nat)
    requires n > 0
    requires |p| < n
    ensures FeedAll(p, chunks, n) == (Frames(p + Flatten(chunks), n), Pending(p + Flatten(chunks), n))
    decreases |chunks|
  {
    if |chunks| == 0 {
      assert p + Flatten(chunks) == p;
    } else {
      var a := p + chunks[0];
      FeedAllFrom(Pending(a, n), chunks[1..], n);
      Incremental(a, Flatten(chunks[1..]), n);
      assert p + Flatten(chunks) == a + Flatten(chunks[1..]);
    }
  }
}
