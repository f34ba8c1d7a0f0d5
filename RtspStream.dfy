/** `src/computer_vision/rtsp_stream.py`: an RTSP camera stream decoded by GStreamer, whose
    latest frame is handed out once, and a reference-counted recording of the same stream to
    an MP4 file. The GStreamer pipelines are modelled by what the stream keeps of them: whether
    the decoding pipeline plays, the file a live recording pipeline writes to, and the files
    whose recording was finalised. The outcome of each pipeline state change is a parameter. */
module RtspStream {
  import opened Wrappers

  /** How creating and starting a recording pipeline ends: the description fails to parse, the
      PLAYING state change fails, or the pipeline plays. */
  datatype Launch = ParseFailed | PlayFailed | Playing

  /** The recording part of the stream: `_record_requests`, the file of the live
      `_rec_pipeline` (None when there is none), `_current_recording_file`, and the files whose
      pipeline received end-of-stream and was stopped. */
  datatype Recording = Recording(requests: nat, pipeline: Option<string>, file: Option<string>, finalized: seq<string>)

  /** A live recording pipeline always has an outstanding request and writes to the current
      recording file. */
  predicate Consistent(r: Recording)
  {
    r.pipeline.Some? ==> r.requests > 0 && r.file == r.pipeline
  }

  /** The file a recording session writes: "{saving_path}/{camera_name}.mp4". */
  function RecordingPath(savingPath: string, cameraName: string): (p: string)
    ensures |p| == |savingPath| + |cameraName| + 5
    ensures p[..|savingPath|] == savingPath && p[|savingPath|] == '/'
    ensures p[|savingPath| + 1..|p| - 4] == cameraName && p[|p| - 4..] == ".mp4"
  {
    savingPath + "/" + cameraName + ".mp4"
  }

  /** `_stop_recording_pipeline`: nothing without a pipeline; otherwise the file is finalised
      and both the pipeline and the current file are cleared. The request count is left as it
      is. */
  function Finalize(r: Recording): Recording
  {
    if r.pipeline.None? then r
    else r.(pipeline := None, file := None, finalized := r.finalized + [r.pipeline.value])
  }

  /** `start_recording(saving_path)` for a camera named `cameraName`. */
  function StartRec(r: Recording, path: string, launch: Launch): (Result<()>, Recording)
  {
    if r.requests == 0 then
      var r1 := r.(file := Some(path));
      match launch
      case ParseFailed => (Err(RuntimeError), r1)
      case PlayFailed => (Err(RuntimeError), r1.(pipeline := None))
      case Playing => (Ok(()), r1.(pipeline := Some(path), requests := 1))
    else
      (Ok(()), r.(requests := r.requests + 1))
  }

  /** `stop_recording()`. */
  function StopRec(r: Recording): Recording
  {
    if r.requests == 0 then r
    else
      var r1 := r.(requests := r.requests - 1);
      if r1.requests == 0 then Finalize(r1) else r1
  }

  /** What `stop()` does to the recording: an active one is finalised. */
  function StopStream(r: Recording): Recording
  {
    if r.pipeline.Some? && r.requests > 0 then Finalize(r) else r
  }

  /** Every operation keeps a recording consistent. */
  lemma ConsistentPreserved(r: Recording, path: string, launch: Launch)
    requires Consistent(r)
    ensures Consistent(StartRec(r, path, launch).1)
    ensures Consistent(StopRec(r))
    ensures Consistent(StopStream(r))
    ensures Consistent(Finalize(r))
  {
  }

  /** `start_recording`: the first request creates a pipeline writing to `path` and counts
      only when it plays; a failure raises RuntimeError with no pipeline kept and the count
      unchanged. Later requests only count, and touch no pipeline. */
  lemma StartRecCases(r: Recording, path: string, launch: Launch)
    requires Consistent(r)
    ensures var (res, r') := StartRec(r, path, launch);
      && r'.finalized == r.finalized
      && (res.Ok? <==> r.requests > 0 || launch == Playing)
      && (res.Err? ==> res.error == RuntimeError && r'.requests == r.requests && r'.pipeline.None?)
      && (res.Ok? ==> r'.requests == r.requests + 1)
      && (r.requests == 0 && res.Ok? ==> r'.pipeline == Some(path))
      && (r.requests > 0 ==> r'.pipeline == r.pipeline && r'.file == r.file)
  {
  }

  /** `stop_recording`: nothing at 0; otherwise one request fewer, and the file is finalised
      exactly when the count reaches 0 with a pipeline live. */
  lemma StopRecCases(r: Recording)
    requires Consistent(r)
    ensures r.requests == 0 ==> StopRec(r) == r
    ensures r.requests > 0 ==> StopRec(r).requests == r.requests - 1
    ensures r.requests == 1 && r.pipeline.Some? ==>
      && StopRec(r).pipeline.None?
      && StopRec(r).finalized == r.finalized + [r.pipeline.value]
    ensures r.requests > 1 ==> StopRec(r).pipeline == r.pipeline && StopRec(r).finalized == r.finalized
  {
  }

  /** A balanced start/stop from an idle recording writes exactly one file, at `path`, and
      comes back to an idle recording. */
  lemma BalancedSession(r: Recording, path: string)
    requires Consistent(r) && r.requests == 0
    ensures StartRec(r, path, Playing).0 == Ok(())
    ensures StopRec(StartRec(r, path, Playing).1) == r.(file := None, finalized := r.finalized + [path])
  {
  }

  /** `stop()` finalises an active recording but keeps its requests. */
  lemma StopKeepsRequests(r: Recording)
    requires Consistent(r) && r.pipeline.Some?
    ensures StopStream(r).requests == r.requests
    ensures StopStream(r).pipeline.None? && StopStream(r).file.None?
    ensures StopStream(r).finalized == r.finalized + [r.pipeline.value]
  {
  }

  /** Requests outstanding but no pipeline, the state `stop()` leaves behind. */
  predicate Orphaned(r: Recording)
  {
    r.requests > 0 && r.pipeline.None?
  }

  /** While orphaned requests are outstanding, no start or stop creates a pipeline or
      finalises a file; only the stop that brings the count to 0 ends the orphaned state. */
  lemma OrphanedCreatesNothing(r: Recording, path: string, launch: Launch)
    requires Orphaned(r)
    ensures StartRec(r, path, launch) == (Ok(()), r.(requests := r.requests + 1))
    ensures Orphaned(StartRec(r, path, launch).1)
    ensures StopRec(r).pipeline.None? && StopRec(r).finalized == r.finalized
    ensures Orphaned(StopRec(r)) <==> r.requests > 1
  {
  }

  /** The recording after a sequence of `start_recording` (true) and `stop_recording` (false)
      calls, every start with the same path and outcome. */
  function Replay(r: Recording, ops: seq<bool>, path: string, launch: Launch): Recording
    decreases |ops|
  {
    if |ops| == 0 then r
    else
      var r1 := if ops[0] then StartRec(r, path, launch).1 else StopRec(r);
      Replay(r1, ops[1..], path, launch)
  }

  /** The running balance after `ops`, from `n`: each start adds one and each stop takes one
      off. */
  function Balance(n: int, ops: seq<bool>): int
    decreases |ops|
  {
    if |ops| == 0 then n else Balance(if ops[0] then n + 1 else n - 1, ops[1..])
  }

  /** The lowest running balance reached along `ops`, from `n`. */
  function LowPoint(n: int, ops: seq<bool>): int
    decreases |ops|
  {
    if |ops| == 0 then n
    else
      var n1 := if ops[0] then n + 1 else n - 1;
      var low := LowPoint(n1, ops[1..]);
      if n < low then n else low
  }

  /** From an orphaned state, calls that never bring the count to 0 create no pipeline,
      finalise nothing, and leave the count at its running balance. */
  lemma {:induction false} OrphanedReplay(r: Recording, ops: seq<bool>, path: string, launch: Launch)
    requires Orphaned(r)
    requires LowPoint(r.requests, ops) > 0
    ensures Replay(r, ops, path, launch).pipeline.None?
    ensures Replay(r, ops, path, launch).finalized == r.finalized
    ensures Replay(r, ops, path, launch).requests == Balance(r.requests, ops)
    decreases |ops|
  {
    if |ops| > 0 {
      OrphanedCreatesNothing(r, path, launch);
      var r1 := if ops[0] then StartRec(r, path, launch).1 else StopRec(r);
      assert r1.requests == if ops[0] then r.requests + 1 else r.requests - 1;
      OrphanedReplay(r1, ops[1..], path, launch);
    }
  }

  /** A decoded sample as the appsink callback sees it: no sample, a sample without a buffer,
      a buffer that cannot be mapped, a frame whose conversion raises, or a frame. */
  datatype Sample<F> = NoSample | NoBuffer | Unmappable | Unconvertible | Frame(image: F)

  datatype FlowReturn = FlowOk | FlowError

  class RtspSource<F> {
    const cameraName: string
    const rtspUrl: string
    var plays: bool
    var lastFrame: Option<F>
    var recordRequests: nat
    var recPipeline: Option<string>
    var currentRecordingFile: Option<string>
    var finalized: seq<string>

    /** The recording part of the stream's state. */
    function Rec(): Recording
      reads this
    {
      Recording(recordRequests, recPipeline, currentRecordingFile, finalized)
    }

    /** `is_opened`: whether the decoding pipeline plays. */
    function IsOpened(): bool
      reads this
    {
      plays
    }

    /** `__init__` when the decoding pipeline is built: nothing plays, no frame, no
        recording. */
    constructor (rtspUrl: string, cameraName: string)
      ensures this.rtspUrl == rtspUrl && this.cameraName == cameraName
      ensures !IsOpened() && lastFrame.None?
      ensures Rec() == Recording(0, None, None, []) && Consistent(Rec())
    {
      this.rtspUrl, this.cameraName := rtspUrl, cameraName;
      plays := false;
      lastFrame := None;
      recordRequests, recPipeline, currentRecordingFile, finalized := 0, None, None, [];
    }

    /** `start()`: nothing when already playing; otherwise the stream plays only when the
        PLAYING state change succeeds, and a failure raises RuntimeError. */
    method Start(playingOk: bool) returns (r: Result<()>)
      modifies this
      ensures old(plays) ==> r.Ok? && unchanged(this)
      ensures !old(plays) && !playingOk ==> r == Err(RuntimeError) && unchanged(this)
      ensures !old(plays) && playingOk ==> r.Ok? && IsOpened()
      ensures Rec() == old(Rec()) && lastFrame == old(lastFrame)
    {
      if plays {
        return Ok(());
      }
      if !playingOk {
        return Err(RuntimeError);
      }
      plays := true;
      r := Ok(());
    }

    /** `_stop_recording_pipeline()`. */
    method StopRecordingPipeline()
      modifies this
      ensures Rec() == Finalize(old(Rec()))
      ensures plays == old(plays) && lastFrame == old(lastFrame)
    {
      if recPipeline.None? {
        return;
      }
      finalized := finalized + [recPipeline.value];
      recPipeline := None;
      currentRecordingFile := None;
    }

    /** `stop()`: an active recording is finalised first; the stream stops playing unless the
        NULL state change fails, which raises RuntimeError. */
    method Stop(nullOk: bool) returns (r: Result<()>)
      modifies this
      ensures Rec() == StopStream(old(Rec()))
      ensures nullOk ==> r.Ok? && !IsOpened()
      ensures !nullOk ==> r == Err(RuntimeError) && plays == old(plays)
      ensures lastFrame == old(lastFrame)
    {
      if recPipeline.Some? && recordRequests > 0 {
        StopRecordingPipeline();
      }
      if !nullOk {
        return Err(RuntimeError);
      }
      plays := false;
      r := Ok(());
    }

    /** `start_recording(saving_path)`. */
    method StartRecording(savingPath: string, launch: Launch) returns (r: Result<()>)
      modifies this
      ensures (r, Rec()) == StartRec(old(Rec()), RecordingPath(savingPath, cameraName), launch)
      ensures plays == old(plays) && lastFrame == old(lastFrame)
    {
      if recordRequests == 0 {
        currentRecordingFile := Some(RecordingPath(savingPath, cameraName));
        if launch == ParseFailed {
          return Err(RuntimeError);
        }
        recPipeline := currentRecordingFile;
        if launch == PlayFailed {
          recPipeline := None;
          return Err(RuntimeError);
        }
      }
      recordRequests := recordRequests + 1;
      r := Ok(());
    }

    /** `stop_recording()`. */
    method StopRecording()
      modifies this
      ensures Rec() == StopRec(old(Rec()))
      ensures plays == old(plays) && lastFrame == old(lastFrame)
    {
      if recordRequests == 0 {
        return;
      }
      recordRequests := recordRequests - 1;
      if recordRequests == 0 {
        StopRecordingPipeline();
      }
    }

    /** `_handle_new_sample`: a converted frame replaces the stored one. A missing sample or
        buffer stops the pipeline with an error; an unmappable buffer or a failed conversion
        keeps the stored frame and lets the pipeline go on. */
    method HandleNewSample(sample: Sample<F>) returns (r: FlowReturn)
      modifies this
      ensures r == FlowError <==> sample.NoSample? || sample.NoBuffer?
      ensures sample.Frame? ==> lastFrame == Some(sample.image)
      ensures !sample.Frame? ==> lastFrame == old(lastFrame)
      ensures plays == old(plays) && Rec() == old(Rec())
    {
      match sample
      case NoSample => return FlowError;
      case NoBuffer => return FlowError;
      case Unmappable => return FlowOk;
      case Unconvertible => return FlowOk;
      case Frame(image) =>
        lastFrame := Some(image);
        return FlowOk;
    }

    /** `get_frame()`: the stored frame, handed out once, and whether the stream plays and a
        frame was there. The stored frame is cleared, so a second call before the next sample
        gives (false, None). */
    method GetFrame() returns (ok: bool, frame: Option<F>)
      modifies this
      ensures frame == old(lastFrame)
      ensures ok <==> IsOpened() && frame.Some?
      ensures lastFrame.None?
      ensures plays == old(plays) && Rec() == old(Rec())
    {
      frame := lastFrame;
      lastFrame := None;
      ok := plays && frame.Some?;
    }
  }
}
