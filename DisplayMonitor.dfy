/** The single-channel monitor script: chunks from one appsink are collected (dropped on a
    discontinuity), cut into frames of `required_buffer_size` bytes (or taken whole when
    that size is 0), decoded as 32-bit floats and rolled into a display buffer of the last
    `DISPLAY_SAMPLES` samples. */
module DisplayMonitor {
  import opened Wrappers
  import opened Bytes
  import opened FrameSlicer

  /** `int(48000 * 0.1)`: 100 ms at 48 kHz. */
  const DisplaySamples: nat := 4800

  /** The float32 samples of a byte run whose length is a multiple of four; `word` stands for
      the IEEE reinterpretation of four little-endian bytes followed by `nan_to_num`. */
  function Words(raw: seq<byte>, word: seq<byte> -> real): (r: seq<real>)
    requires |raw| % 4 == 0
    ensures |r| == |raw| / 4
    decreases |raw|
  {
    if |raw| == 0 then [] else [word(raw[..4])] + Words(raw[4..], word)
  }

  /** `bytes_to_audio` (`np.frombuffer` with float32): ValueError unless the length is a
      multiple of four, otherwise one sample per four bytes. */
  function Float32Decode(raw: seq<byte>, word: seq<byte> -> real): (r: Result<seq<real>>)
    ensures r.Err? <==> |raw| % 4 != 0
    ensures r.Err? ==> r.error == ValueError
    ensures r.Ok? ==> |r.value| == |raw| / 4
  {
    if |raw| % 4 != 0 then Err(ValueError) else Ok(Words(raw, word))
  }

  /** Decoding distributes over concatenation of 4-aligned runs. */
  lemma {:induction false} WordsAppend(a: seq<byte>, b: seq<byte>, word: seq<byte> -> real)
    requires |a| % 4 == 0 && |b| % 4 == 0
    ensures Words(a + b, word) == Words(a, word) + Words(b, word)
    decreases |a|
  {
    if |a| == 0 {
      assert a + b == b;
    } else {
      assert |a| >= 4 && |a[4..]| % 4 == 0;
      assert (a + b)[..4] == a[..4];
      assert (a + b)[4..] == a[4..] + b;
      WordsAppend(a[4..], b, word);
    }
  }

  /** Sample k is the reading of bytes 4k .. 4k+3. */
  lemma {:induction false} WordsSpec(raw: seq<byte>, word: seq<byte> -> real, k: nat)
    requires |raw| % 4 == 0 && k < |raw| / 4
    ensures Words(raw, word)[k] == word(raw[4 * k..4 * k + 4])
    decreases |raw|
  {
    if k > 0 {
      WordsSpec(raw[4..], word, k - 1);
      var j := 4 * (k - 1);
      assert 4 + j == 4 * k;
      assert raw[4..][j..j + 4] == raw[4 + j..4 + j + 4];
    }
  }

  /** The last d samples of s. */
  function Window(s: seq<real>, d: nat): (r: seq<real>)
    requires |s| >= d
    ensures |r| == d
  {
    s[|s| - d..]
  }

  /** Rolling twice is rolling once over both runs of samples. */
  lemma WindowCompose(a: seq<real>, s1: seq<real>, s2: seq<real>, d: nat)
    requires |a| == d
    ensures Window(Window(a + s1, d) + s2, d) == Window(a + s1 + s2, d)
  {
  }

  /** The samples of a run of frames, in order, each frame decoded on its own. */
  function FrameSamples(frames: seq<seq<byte>>, word: seq<byte> -> real): seq<real>
    requires forall k :: 0 <= k < |frames| ==> |frames[k]| % 4 == 0
  {
    if |frames| == 0 then []
    else FrameSamples(frames[..|frames| - 1], word) + Words(frames[|frames| - 1], word)
  }

  /** Decoding frame by frame is decoding their concatenation. */
  lemma {:induction false} FrameSamplesFlat(frames: seq<seq<byte>>, word: seq<byte> -> real)
    requires forall k :: 0 <= k < |frames| ==> |frames[k]| % 4 == 0
    ensures |Flatten(frames)| % 4 == 0
    ensures FrameSamples(frames, word) == Words(Flatten(frames), word)
    decreases |frames|
  {
    if |frames| > 0 {
      FrameSamplesFlat(frames[1..], word);
      FrameSamplesFront(frames, word);
      WordsAppend(frames[0], Flatten(frames[1..]), word);
    }
  }

  lemma {:induction false} FrameSamplesFront(frames: seq<seq<byte>>, word: seq<byte> -> real)
    requires |frames| > 0 && forall k :: 0 <= k < |frames| ==> |frames[k]| % 4 == 0
    ensures FrameSamples(frames, word) == Words(frames[0], word) + FrameSamples(frames[1..], word)
    decreases |frames|
  {
    if |frames| > 1 {
      var init := frames[..|frames| - 1];
      FrameSamplesFront(init, word);
      assert init[1..] == frames[1..][..|frames[1..]| - 1];
      assert init[0] == frames[0];
    } else {
      assert frames[..0] == [];
    }
  }

  lemma FrameSamplesSnoc(frames: seq<seq<byte>>, f: seq<byte>, word: seq<byte> -> real)
    requires forall k :: 0 <= k < |frames| ==> |frames[k]| % 4 == 0
    requires |f| % 4 == 0
    ensures FrameSamples(frames + [f], word) == FrameSamples(frames, word) + Words(f, word)
  {
    assert (frames + [f])[..|frames|] == frames;
  }

  /** Rolling in the samples of one more frame keeps the buffer the window over everything
      decoded so far; a frame without samples leaves the buffer as it is. */
  lemma RollFrame(before: seq<real>, done: seq<seq<byte>>, f: seq<byte>, word: seq<byte> -> real,
                  shown: seq<real>, after: seq<real>)
    requires |before| == DisplaySamples
    requires forall k :: 0 <= k < |done| ==> |done[k]| % 4 == 0
    requires |f| % 4 == 0
    requires shown == Window(before + FrameSamples(done, word), DisplaySamples)
    requires after == if |Words(f, word)| > 0 then Window(shown + Words(f, word), DisplaySamples) else shown
    ensures after == Window(before + FrameSamples(done + [f], word), DisplaySamples)
  {
    var seen := FrameSamples(done, word);
    var more := Words(f, word);
    SamplesSnoc(before, done, f, word);
    if |more| > 0 {
      WindowCompose(before, seen, more, DisplaySamples);
    } else {
      assert before + seen + more == before + seen;
    }
  }

  /** Everything decoded after one more frame: what was decoded before, then that frame's samples. */
  lemma SamplesSnoc(before: seq<real>, done: seq<seq<byte>>, f: seq<byte>, word: seq<byte> -> real)
    requires forall k :: 0 <= k < |done| ==> |done[k]| % 4 == 0
    requires |f| % 4 == 0
    ensures forall k :: 0 <= k < |done + [f]| ==> |(done + [f])[k]| % 4 == 0
    ensures before + FrameSamples(done + [f], word) == before + FrameSamples(done, word) + Words(f, word)
  {
    FrameSamplesSnoc(done, f, word);
  }

  /** What one `on_new_sample` does once the pending bytes have become `whole`, with frame
      size n > 0 and display `before`: the outcome, the bytes left and the display after.
      With n a multiple of four every whole frame is decoded and rolled in, and the display
      shows the last samples of everything seen; otherwise the first frame fails to decode
      and raises ValueError after its bytes are gone. */
  ghost predicate Shown(whole: seq<byte>, n: nat, before: seq<real>, word: seq<byte> -> real,
                        r: Result<()>, rest: seq<byte>, after: seq<real>)
    requires n > 0 && |before| == DisplaySamples
  {
    && (n % 4 == 0 ==>
          && r == Ok(()) && rest == Pending(whole, n)
          && after == Window(before + FrameSamples(Frames(whole, n), word), DisplaySamples))
    && (n % 4 != 0 && |whole| >= n ==> r == Err(ValueError) && rest == whole[n..] && after == before)
    && (n % 4 != 0 && |whole| < n ==> r == Ok(()) && rest == whole && after == before)
  }

  /** What `on_new_sample` does with frame size 0: all pending bytes are taken at once. */
  ghost predicate ShownWhole(whole: seq<byte>, before: seq<real>, word: seq<byte> -> real,
                             r: Result<()>, rest: seq<byte>, after: seq<real>)
    requires |before| == DisplaySamples
  {
    && rest == []
    && (|whole| % 4 != 0 ==> r == Err(ValueError) && after == before)
    && (|whole| % 4 == 0 ==> r == Ok(()) && after == Window(before + Words(whole, word), DisplaySamples))
  }

  /** With frames cut from `whole`, the samples rolled in are the decode of every byte
      consumed, that is, of `whole` without its pending tail. */
  lemma ShownConsumed(whole: seq<byte>, n: nat, word: seq<byte> -> real)
    requires n > 0 && n % 4 == 0
    ensures |Flatten(Frames(whole, n))| % 4 == 0
    ensures Flatten(Frames(whole, n)) + Pending(whole, n) == whole
    ensures FrameSamples(Frames(whole, n), word) == Words(Flatten(Frames(whole, n)), word)
  {
    FrameSamplesFlat(Frames(whole, n), word);
    Conservation(whole, n);
  }

  /** The script's globals: the pending bytes and the display buffer. */
  class Monitor {
    var sinksData: seq<byte>
    const requiredBufferSize: nat
    const signalBuffer: array<real>

    ghost predicate Valid()
      reads this
    {
      signalBuffer.Length == DisplaySamples
    }

    /** The module-level set-up: nothing pending, a silent display. */
    constructor (bufferSize: nat)
      ensures Valid() && fresh(signalBuffer) && sinksData == [] && requiredBufferSize == bufferSize
      ensures signalBuffer[..] == seq(DisplaySamples, _ => 0.0)
    {
      sinksData := [];
      requiredBufferSize := bufferSize;
      signalBuffer := new real[DisplaySamples](_ => 0.0);
    }

    /** The roll and slice assignment: the display becomes the last samples of itself
        followed by `samples`. */
    method Roll(samples: seq<real>)
      requires Valid()
      modifies signalBuffer
      ensures signalBuffer[..] == Window(old(signalBuffer[..]) + samples, DisplaySamples)
    {
      if |samples| >= signalBuffer.Length {
        CopyLast(samples);
      } else {
        ShiftIn(samples);
      }
    }

    /** `signal_buffer[:] = audio_samples[-DISPLAY_SAMPLES:]`. */
    method CopyLast(samples: seq<real>)
      requires Valid() && |samples| >= DisplaySamples
      modifies signalBuffer
      ensures signalBuffer[..] == Window(old(signalBuffer[..]) + samples, DisplaySamples)
    {
      var d := signalBuffer.Length;
      var m := |samples|;
      for i := 0 to d
        invariant signalBuffer[..i] == samples[m - d..m - d + i]
      {
        signalBuffer[i] := samples[m - d + i];
      }
      assert signalBuffer[..] == signalBuffer[..d];
    }

    /** `np.roll(signal_buffer, -len(audio_samples))` followed by the assignment of the
        samples to the tail, done in place: the kept samples move to the front, oldest
        first, then the new ones fill the end. */
    method ShiftIn(samples: seq<real>)
      requires Valid() && |samples| < DisplaySamples
      modifies signalBuffer
      ensures signalBuffer[..] == Window(old(signalBuffer[..]) + samples, DisplaySamples)
    {
      ghost var a := signalBuffer[..];
      var d := signalBuffer.Length;
      var m := |samples|;
      MoveDown(m);
      FillTail(samples);
      assert signalBuffer[..] == signalBuffer[..d - m] + signalBuffer[d - m..];
      assert (a + samples)[|a + samples| - d..] == a[m..] + samples;
    }

    /** The roll: every sample moves `m` places towards the front. */
    method MoveDown(m: nat)
      requires m <= signalBuffer.Length
      modifies signalBuffer
      ensures signalBuffer[..signalBuffer.Length - m] == old(signalBuffer[m..])
    {
      var d := signalBuffer.Length;
      ghost var a := signalBuffer[..];
      for i := 0 to d - m
        invariant signalBuffer[..i] == a[m..m + i]
        invariant signalBuffer[i..] == a[i..]
      {
        signalBuffer[i] := signalBuffer[i + m];
      }
    }

    /** The assignment to the tail: the last `|samples|` slots receive the samples. */
    method FillTail(samples: seq<real>)
      requires |samples| <= signalBuffer.Length
      modifies signalBuffer
      ensures var k := signalBuffer.Length - |samples|;
        signalBuffer[..k] == old(signalBuffer[..k]) && signalBuffer[k..] == samples
    {
      var k := signalBuffer.Length - |samples|;
      for j := 0 to |samples|
        invariant signalBuffer[..k] == old(signalBuffer[..k])
        invariant signalBuffer[k..k + j] == samples[..j]
      {
        signalBuffer[k + j] := samples[j];
      }
    }

    /** `on_new_sample(data, reset)`: a reset drops the pending bytes, the chunk is
        appended, then the bytes are consumed whole (size 0) or frame by frame. */
    method OnNewSample(data: seq<byte>, reset: bool, word: seq<byte> -> real) returns (r: Result<()>)
      requires Valid()
      modifies this, signalBuffer
      ensures Valid()
      ensures var whole := (if reset then [] else old(sinksData)) + data;
        requiredBufferSize == 0 ==>
          ShownWhole(whole, old(signalBuffer[..]), word, r, sinksData, signalBuffer[..])
      ensures var whole := (if reset then [] else old(sinksData)) + data;
        requiredBufferSize > 0 ==>
          Shown(whole, requiredBufferSize, old(signalBuffer[..]), word, r, sinksData, signalBuffer[..])
    {
      if reset {
        sinksData := [];
      }
      sinksData := sinksData + data;
      if requiredBufferSize == 0 {
        r := ConsumeAll(word);
      } else {
        r := ConsumeFrames(word);
      }
    }

    /** The size-0 branch: every pending byte is decoded at once. */
    method ConsumeAll(word: seq<byte> -> real) returns (r: Result<()>)
      requires Valid()
      modifies this, signalBuffer
      ensures Valid()
      ensures ShownWhole(old(sinksData), old(signalBuffer[..]), word, r, sinksData, signalBuffer[..])
    {
      if |sinksData| > 0 {
        var buff := sinksData;
        sinksData := [];
        var samples := Float32Decode(buff, word);
        if samples.Err? {
          return Err(samples.error);
        }
        if |samples.value| > 0 {
          Roll(samples.value);
        }
      } else {
        assert signalBuffer[..] + Words([], word) == signalBuffer[..];
      }
      return Ok(());
    }

    /** The slicing loop: frames of `requiredBufferSize` bytes are cut from the front,
        decoded and rolled in until fewer bytes remain. */
    method ConsumeFrames(word: seq<byte> -> real) returns (r: Result<()>)
      requires Valid() && requiredBufferSize > 0
      modifies this, signalBuffer
      ensures Valid()
      ensures Shown(old(sinksData), requiredBufferSize, old(signalBuffer[..]), word, r, sinksData, signalBuffer[..])
    {
      var n := requiredBufferSize;
      ghost var whole := sinksData;
      ghost var before := signalBuffer[..];
      ghost var done: seq<seq<byte>> := [];
      while |sinksData| >= n
        invariant forall k :: 0 <= k < |done| ==> |done[k]| == n
        invariant n % 4 != 0 ==> done == [] && sinksData == whole
        invariant Frames(whole, n) == done + Frames(sinksData, n)
        invariant Pending(whole, n) == Pending(sinksData, n)
        invariant n % 4 == 0 ==> signalBuffer[..] == Window(before + FrameSamples(done, word), DisplaySamples)
        invariant n % 4 != 0 ==> signalBuffer[..] == before
        decreases |sinksData|
      {
        var buff := sinksData[..n];
        CutStep(whole, n, done, sinksData);
        sinksData := sinksData[n..];
        var samples := Float32Decode(buff, word);
        if samples.Err? {
          return Err(samples.error);
        }
        ghost var shown := signalBuffer[..];
        if |samples.value| > 0 {
          Roll(samples.value);
        }
        RollFrame(before, done, buff, word, shown, signalBuffer[..]);
        done := done + [buff];
      }
      CutDone(whole, n, done, sinksData);
      return Ok(());
    }
  }

  /** `Gst.FlowReturn`. */
  datatype FlowReturn = FlowOk | FlowError

  /** A pulled sample: None when the appsink gives no sample, a buffer that may be missing,
      and the buffer's DISCONT flag with its bytes. */
  datatype Buffer = Buffer(discont: bool, bytes: seq<byte>)

  /** `handle_new_sample`: ERROR without a sample or buffer; otherwise the chunk is handed
      on with a reset exactly when the buffer is flagged DISCONT, and any exception there
      turns into ERROR. */
  method HandleNewSample(m: Monitor, sample: Option<Option<Buffer>>, word: seq<byte> -> real)
    returns (f: FlowReturn)
    requires m.Valid()
    modifies m, m.signalBuffer
    ensures m.Valid()
    ensures sample.None? || sample.value.None? ==>
      f == FlowError && m.sinksData == old(m.sinksData) && m.signalBuffer[..] == old(m.signalBuffer[..])
    ensures sample.Some? && sample.value.Some? ==>
      var b := sample.value.value;
      var whole := (if b.discont then [] else old(m.sinksData)) + b.bytes;
      && (m.requiredBufferSize == 0 ==>
            exists r :: ShownWhole(whole, old(m.signalBuffer[..]), word, r, m.sinksData, m.signalBuffer[..])
                        && (f == FlowOk <==> r.Ok?))
      && (m.requiredBufferSize > 0 ==>
            exists r :: Shown(whole, m.requiredBufferSize, old(m.signalBuffer[..]), word, r, m.sinksData, m.signalBuffer[..])
                        && (f == FlowOk <==> r.Ok?))
  {
    if sample.None? || sample.value.None? {
      return FlowError;
    }
    var b := sample.value.value;
    var r := m.OnNewSample(b.bytes, b.discont, word);
    f := if r.Ok? then FlowOk else FlowError;
  }
}
