# Hibou-Server core, modelled in Dafny

Hibou-Server is a drone-detection platform. It hears a drone on a ring of microphones, estimates its bearing, and points a pan-tilt-zoom camera at it, then tracks it visually. This project models the logic at the centre of that system, module by module, and proves what each part promises:

- **Audio ingestion.** The PCM24 decoder (`Pcm24`). The per-channel byte accumulators that cut incoming chunks into fixed-size frames (`FrameSlicer`, `SourceAccumulator`, `GstAudioSource`, `InputManager`, `DisplayMonitor`). The appsink-name to channel-id mapping of the GStreamer engine (`Engine`). The multi-channel barrier queue that emits one frame set once every channel has produced (`MultiChannel`).
- **Direction of arrival.** Frame energy (`Energy`) and the energy-weighted bearing estimator with shortest-arc smoothing (`AngleOfArrival`).
- **Yamaha devices.** The YSDP discovery packet and its SCP data section, as byte parsers and serialisers with their round trips (`YamahaDescriptions`). A text field is the UTF-8 encoding of a Python `str`, so it is always well-formed UTF-8 (section 4 of RFC 3629, `Bytes.WellFormedUtf8`), and each `.decode("utf-8")` in the parsers fails with UnicodeDecodeError on bytes that are not. The text remote-control protocol (`YamahaRemoteControl`).
- **Configuration.** The static checkup of the device list (`StaticCheckup`). The JSON device files and their managers (`JsonValues`, `DeviceFiles`, `Devices`, `AdcDeviceManager`, `AudioDeviceController`). The environment-driven settings (`Settings`).
- **Network helpers.** IPv4 addresses and networks (`Ipv4`), interface lookup (`Networks`), the capture display filter (`Capture`) and the multicast stream decision (`Multicast`).
- **Cameras.**
  - The named PTZ registries and the singleton cache (`PtzRegistry`, `Decorators`).
  - The two Hikvision DS-2DY9250IAX-A drivers (`HikvisionPtz`, `HikvisionCamera`) and the plain PTZ wrapper (`Ptz`). Their shared numeric helpers are in `Numbers`.
- **Tracking and video.** The IBVS and PID trackers (`IbvsTracker`, `PidTracker`). The RTSP stream with its reference-counted recording (`RtspStream`). The frame-paced detection recorder (`DetectionRecorder`).

Code that changes state step by step is modelled imperatively. Such an object is a `class` whose methods update its fields; each method is specified by pure functions over the old state and the inputs, and the invariants and lemmas are proved about those functions. Pure Python code becomes functions and lemmas.

The outside world is not modelled directly. The clock, sockets, the camera's HTTP client, GStreamer, psutil, pyshark and the JSON files on disk are each represented by one of the following:
- a parameter (the current time `now`, the peer's outcome `accepted`, the status `reply`);
- the sequence of commands sent so far (`sent`);
- an abstract state (the configuration files as a map from path to parsed document).

Python floats are exact reals. Python's `int()`, `%` and `math.floor` are written out with their Python semantics (truncation toward zero, floored modulo).

Three behaviours of the code are modelled exactly as written:
- The channel accumulators keep no timestamps. The only discontinuity handling is the DISCONT reset of the monitor script.
- The monitor's 4-byte FLOAT32 decoder is a parameter. Its `nan_to_num` maps infinities to the largest finite values, not to zero.
- `AudioInputManager` resets its chunk list before joining it, so every frame it queues is empty. It also passes channel 0 or 1, whatever port a sink belongs to. Both facts are proved (`InputManager`).

## Model

| member | source | states |
|---|---|---|
| Pcm24.SignExtend24 | src/audio/utils.py:32-33 | a 24-bit unsigned value maps to itself or to itself minus 2^24, landing in [-2^23, 2^23) |
| Pcm24.BytesToAudio | src/audio/utils.py:15-35 | ValueError exactly when the length is not a multiple of 3; otherwise one sample per 3-byte group |
| Pcm24.DecodeGroupsSpec | src/audio/utils.py:18-35 | sample k is the little-endian, sign-extended group of bytes 3k..3k+2 divided by 2^23 |
| Pcm24.SampleRange | src/audio/utils.py:33-35 | every decoded sample lies in [-1, 1) |
| Pcm24.BytesToAudioRange | src/audio/utils.py:12-35 | every sample of a decoded buffer lies in [-1, 1) |
| Pcm24.DecodeOne | src/audio/utils.py:15-35 | a 3-byte buffer decodes to the single sample of its group |
| Pcm24.SampleZero | src/audio/utils.py:26-35 | a group decodes to 0.0 exactly when its three bytes are 00 00 00 |
| Pcm24.SampleMax | src/audio/utils.py:26-35 | bytes FF FF 7F decode to the largest value (2^23 - 1) / 2^23 |
| Pcm24.SampleMin | src/audio/utils.py:32-35 | bytes 00 00 80 decode to -1 |
| Pcm24.SampleMinusOne | src/audio/utils.py:32-35 | bytes FF FF FF decode to -1 / 2^23 |
| Pcm24.DecodeAppend | src/audio/utils.py:18-35 | decoding two 3-aligned buffers joined equals joining their decodings |
| Pcm24.EncodeDecode24 | src/audio/utils.py:26-35 | the three little-endian two's-complement bytes of any 24-bit sample s decode to s / 2^23 |
| Pcm24.EncodeDecodeAll | src/audio/utils.py:15-35 | a whole buffer of encoded 24-bit samples decodes to the samples scaled by 2^-23 |
| Energy.Energy | src/audio/energy.py:4-6 | the energy of a frame is never negative |
| Energy.EnergyEmpty | src/audio/energy.py:4-6 | an empty frame has energy 0 |
| Energy.EnergyAppend | src/audio/energy.py:4-6 | the energy of two frames joined is the sum of their energies |
| Energy.MeanSquare | src/audio/energy.py:9-12 | ZeroDivisionError exactly for an empty frame; otherwise a non-negative value that, times the length, gives the energy |
| AngleOfArrival.Mod360 | src/audio/angle_of_arrival.py:30 | Python's `% 360` on a float always lands in [0, 360) |
| AngleOfArrival.Mod360Shift | src/audio/angle_of_arrival.py:37-39 | adding whole turns does not change an angle taken modulo 360 |
| AngleOfArrival.BearingsSpaced | src/audio/angle_of_arrival.py:13-15 | the channel bearings start at 0, stay in [0, coverage) and are evenly spaced by coverage / N (linspace without endpoint) |
| AngleOfArrival.WeightsSumToOne | src/audio/angle_of_arrival.py:25 | the normalised energy weights sum to 1 |
| AngleOfArrival.RawBearing | src/audio/angle_of_arrival.py:25-30 | the raw bearing of the weighted vector sum lies in [0, 360) |
| AngleOfArrival.AngleDiff | src/audio/angle_of_arrival.py:36-38 | the shortest angular difference lies in [-180, 180) |
| AngleOfArrival.AngleDiffLands | src/audio/angle_of_arrival.py:36-38 | moving from the previous angle by the full difference lands on the raw bearing, modulo 360 |
| AngleOfArrival.Smooth | src/audio/angle_of_arrival.py:39 | the smoothed angle lies in [0, 360) |
| AngleOfArrival.SmoothExtremes | src/audio/angle_of_arrival.py:36-39 | smoothing factor 1 follows the raw bearing; factor 0 keeps the previous angle |
| AngleOfArrival.AngleOfArrivalEstimator.constructor | src/audio/angle_of_arrival.py:7-17 | stores the parameters, computes the evenly spaced bearings, no smoothed angle yet |
| AngleOfArrival.AngleOfArrivalEstimator.Estimate | src/audio/angle_of_arrival.py:19-41 | a total energy below 1e-8 returns the previous angle unchanged; otherwise the first bearing is taken as is and later ones are smoothed along the shortest difference; the result is the stored angle |
| MultiChannel.RunSnoc | src/audio/multi_channel_queue.py:36-52 | replaying a history with one more put is one more step of `put` after the replay |
| MultiChannel.HistoryAppend | src/audio/multi_channel_queue.py:47 | a put adds its item to the history of its own channel only |
| MultiChannel.StepInv | src/audio/multi_channel_queue.py:46-52 | one `put` keeps the invariant: every ready frame holds one item per channel, taken in arrival order, and each channel queue is the rest of its history |
| MultiChannel.RunInv | src/audio/multi_channel_queue.py:36-52 | every history of puts from empty queues satisfies that invariant |
| MultiChannel.FifoPairing | src/audio/multi_channel_queue.py:46-52 | after any puts, ready frame k holds item k of every channel, in channel order; the number of frames is the shortest channel history; each channel keeps the items after them |
| MultiChannel.SomeChannelEmpty | src/audio/multi_channel_queue.py:49-52 | after every put some channel queue is empty again (a frame is assembled as soon as none is) |
| MultiChannel.ChannelIndex | src/audio/multi_channel_queue.py:47 | Python list indexing: a channel id in [-n, n) selects channel id (or n + id for negatives); any other raises |
| MultiChannel.MultiChannelQueue.constructor | src/audio/multi_channel_queue.py:11-23 | no ready frames; with a channel count, that many empty channel queues |
| MultiChannel.MultiChannelQueue.SetChannelsCount | src/audio/multi_channel_queue.py:25-34 | sets the count and replaces the channel queues with n empty ones; ready frames are kept |
| MultiChannel.MultiChannelQueue.Put | src/audio/multi_channel_queue.py:36-52 | AttributeError before a channel count is set; IndexError for an id outside [-n, n); otherwise the state advances by one step of the put specification |
| MultiChannel.MultiChannelQueue.TakeFrame | src/audio/multi_channel_queue.py:51 | the frame is the head of every channel queue, in channel order, and each queue loses its head |
| MultiChannel.MultiChannelQueue.Get | src/audio/multi_channel_queue.py:54-65 | `get(block, timeout)` as `queue.Queue.get`: ValueError for a blocking call with a negative timeout; otherwise the oldest ready frame, removed; with none ready, queue.Empty for a non-blocking call or one with a timeout, and a wait that never ends for the default blocking call without a timeout |
| MultiChannel.MultiChannelQueue.HasData | src/audio/sources/gstreamer_source.py:32 | `has_data()`, in the reading its caller needs: true exactly when a ready frame set exists |
| MultiChannel.MultiChannelQueue.Clear | src/audio/sources/gstreamer_source.py:42 | `clear()`, as its caller uses it: every channel queue and every ready frame set is dropped, leaving the empty state of that many channels; the channel count stays |
| FrameSlicer.Frames | src/audio/sources/gstreamer_source.py:54-58 | every frame cut by the slicing loop has exactly the frame size |
| FrameSlicer.Pending | src/audio/sources/gstreamer_source.py:54 | the bytes left pending after the loop are fewer than the frame size |
| FrameSlicer.ZeroCutStalls | src/audio/sources/gstreamer_source.py:54-59 | at frame size 0 the guard `len(pending) >= 0` holds after any number of turns, the pending bytes never change and every frame cut is empty: the loop never ends |
| FrameSlicer.ZeroEndless | src/audio/sources/gstreamer_source.py:54-59 | at frame size 0 the loop can take any number of turns: it never ends, whatever is pending |
| FrameSlicer.TurnsShift | src/audio/sources/gstreamer_source.py:54-58 | on at least n pending bytes, k + 1 turns of the loop are the first cut followed by k turns on the bytes it leaves |
| FrameSlicer.TurnsFrames | src/audio/sources/gstreamer_source.py:54-58 | for a positive frame size the loop stops after exactly one turn per frame of Frames, with Pending left behind, so it is not endless |
| FrameSlicer.CorrectedConservation | test.py:62-67 | the corrected step (size 0 takes every pending byte at once as one frame) takes at most one frame at size 0, leaves nothing pending then, and its frames followed by what it leaves rebuild the buffer for every size |
| FrameSlicer.CutStep | src/audio/sources/gstreamer_source.py:54-58 | one pass of the loop on at least n pending bytes cuts the first n off as the next frame, and the rest yields the remaining frames |
| FrameSlicer.CutDone | src/audio/sources/gstreamer_source.py:54 | once fewer than n bytes are pending the loop has cut every frame and those bytes are what stays pending |
| FrameSlicer.Conservation | src/audio/sources/gstreamer_source.py:51-58 | the frames cut, joined, followed by the pending bytes give back the whole buffer: no byte is lost or duplicated |
| FrameSlicer.FrameCount | src/audio/sources/gstreamer_source.py:54-58 | a buffer of L bytes gives L div n frames and L mod n pending bytes |
| FrameSlicer.Incremental | src/audio/sources/gstreamer_source.py:51-58 | slicing a buffer then slicing its remainder with new bytes gives the same frames and remainder as slicing everything at once |
| FrameSlicer.FeedAllFlat | src/audio/sources/gstreamer_source.py:48-58 | feeding chunks one callback at a time from an empty buffer gives the frames and remainder of their concatenation |
| FrameSlicer.FeedAllFrom | src/audio/sources/gstreamer_source.py:48-58 | the same from any remainder shorter than a frame |
| SourceAccumulator.PushesSnoc | src/audio/sources/gstreamer_source.py:59 | one more frame cut adds one more decoded put on the channel, after the others |
| SourceAccumulator.GstreamerSource.constructor | src/audio/sources/gstreamer_source.py:9-15 | one empty pending buffer per channel, the requested frame size, a fresh queue with that many empty channels, not running |
| SourceAccumulator.GstreamerSource.OnNewSample | src/audio/sources/gstreamer_source.py:48-59 | IndexError for a channel id outside [-n, n) with nothing changed; otherwise only that channel's buffer changes, and frames are cut from its pending bytes plus the chunk, decoded and put in order (ValueError when the frame size is not a multiple of 3); with the default frame size 0 the callback never returns |
| SourceAccumulator.GstreamerSource.SliceChannel | src/audio/sources/gstreamer_source.py:54-59 | the slicing loop on one channel satisfies the same slicing specification: at frame size 0 the loop is endless and the call never returns, otherwise it cuts every whole frame |
| SourceAccumulator.CorrectedReturns | test.py:62-67 | the corrected slicing always returns, with success or ValueError, and on success the frames taken and the bytes left rebuild what was pending |
| SourceAccumulator.GstreamerSource.SliceChannelCorrected | test.py:62-67 | the corrected slicing of one channel: at frame size 0 every pending byte is taken as one frame, decoded and put, nothing stays pending (ValueError for a frame that is not whole samples), and a positive size slices as the loop does |
| SourceAccumulator.GstreamerSource.CutFrames | src/audio/sources/gstreamer_source.py:54-59 | for a positive frame size the loop cuts exactly the frames of the pending bytes, in order, leaves the remainder pending and changes no other channel |
| SourceAccumulator.GstreamerSource.RunTick | src/audio/sources/gstreamer_source.py:29-33 | while running, ready frame sets are emitted in order as long as `has_data()` holds, so the ready queue empties; otherwise nothing is emitted |
| SourceAccumulator.GstreamerSource.ClearPendings | src/audio/sources/gstreamer_source.py:41-43 | the queue is cleared to the empty state of its channels and every channel's pending bytes are dropped; the channel count is kept |
| SourceAccumulator.GstreamerSource.Start | src/audio/audio.py:94-105 | a running source stays as it is; otherwise it runs and its thread starts, RuntimeError when that thread was started before |
| SourceAccumulator.GstreamerSource.Stop | src/audio/sources/gstreamer_source.py:23-26 | the source stops; joining a thread never started raises RuntimeError with nothing cleared; otherwise the queue and the pending bytes are cleared |
| SourceAccumulator.ChunkingIndependent | src/audio/sources/gstreamer_source.py:48-59 | however the stream is split into chunks, the frames and the remainder are those of the whole stream: L div n frames and L mod n bytes left |
| GstAudioSource.RequiredData | src/audio/gstreamer_source.py:44 | `int(rec_hz * record_duration / 1e9 * 3)`: the largest whole number of bytes not above the exact value, and 0 exactly when that value is below 1 |
| GstAudioSource.DefaultFrameSize | src/audio/gstreamer_source.py:43-44 | 48 kHz over one second gives frames of 144000 bytes |
| GstAudioSource.ChannelOfBijective | src/audio/gstreamer_source.py:97-115 | sink i of device d gets channel 2d + i: no two sinks share a channel and every channel has its sink |
| GstAudioSource.GStreamerAudioSource.constructor | src/audio/gstreamer_source.py:13-119 | two sinks per device wired to channels 2d and 2d + 1, empty sink states, the computed frame size, a queue with one channel per sink, not running |
| GstAudioSource.GStreamerAudioSource.OnNewSample | src/audio/gstreamer_source.py:131-158 | IndexError for a channel id outside [-n, n); otherwise only that sink's state changes: its duration grows by the buffer's, and frames are cut from its bytes plus the new ones, decoded and put in order; with `required_data` 0 the callback never returns |
| GstAudioSource.GStreamerAudioSource.SliceSink | src/audio/gstreamer_source.py:153-156 | the slicing loop on one sink satisfies the slicing specification and keeps its duration: when `required_data` is 0 the loop is endless and the call never returns |
| GstAudioSource.GStreamerAudioSource.SliceSinkCorrected | test.py:62-67 | the corrected slicing of one sink: a `required_data` of 0 takes every pending byte at once as one frame, decoded and put, leaving nothing pending; the duration is kept |
| GstAudioSource.GStreamerAudioSource.CutFrames | src/audio/gstreamer_source.py:153-156 | for a positive `required_data` the loop cuts exactly the frames of the sink's bytes, in order, and leaves the remainder pending |
| GstAudioSource.GStreamerAudioSource.RunTick | src/audio/gstreamer_source.py:121-129 | while running, at most one ready frame set is handed on per tick, the oldest; otherwise nothing |
| GstAudioSource.GStreamerAudioSource.ClearPendings | src/audio/gstreamer_source.py:179-185 | every sink's bytes and duration are reset |
| GstAudioSource.GStreamerAudioSource.Start | src/audio/gstreamer_source.py:160-177 | nothing while running; otherwise it runs and starts its thread (RuntimeError if started before) and exits with SystemExit when a pipeline fails to play |
| GstAudioSource.GStreamerAudioSource.Stop | src/audio/gstreamer_source.py:187-203 | a pipeline that fails to pause exits with nothing else changed; otherwise it stops running, joining a thread never started raises RuntimeError, and on success the sink states are cleared |
| InputManager.HistoryUnfed | audio.py:177-184 | a channel no callback addresses never receives an item |
| InputManager.HistoryEmptyFrames | audio.py:216-221 | when every put carries an empty frame, every channel's items are empty |
| InputManager.NoFrameSetBeyondOnePort | audio.py:177-192 | with two or more ports (four or more channels) fed only on channels 0 and 1, no frame set is ever assembled |
| InputManager.ReadyFramesEmpty | audio.py:216-221 | every assembled frame set consists of empty frames |
| InputManager.StepDrop | audio.py:243-244 | taking ready frame sets off the front commutes with later puts |
| InputManager.SubscriptData | audio.py:252 | `sink_state["data"]` gives a state dictionary's chunk list and raises TypeError exactly when the item is a sink |
| InputManager.ClearAllIff | audio.py:251-253 | the clearing loop succeeds exactly when every item it meets is a state dictionary, and otherwise raises TypeError |
| InputManager.ClearKeysRaises | audio.py:251-253 | iterating the state dictionary (its keys) raises TypeError exactly when a sink exists, while iterating its values would pass every state |
| InputManager.AudioInputManager.constructor | audio.py:125-194 | two sinks per port whose callbacks pass channel ids 0 and 1, empty sink states, a queue with one channel per sink, not running |
| InputManager.AudioInputManager.OnSinkSample | audio.py:196-223 | below the record duration the chunk and its duration are added to the sink's state; on reaching it the state resets and an empty frame is put on channel 0 or 1 |
| InputManager.AudioInputManager.PutReset | audio.py:218-221 | after the reset, the put decodes the emptied chunk list and addresses the callback's channel id |
| InputManager.AudioInputManager.NoFrameSetWithTwoPorts | audio.py:177-192 | with at least two ports the ready queue is always empty |
| InputManager.AudioInputManager.ReadyFramesAreEmpty | audio.py:216-221 | every ready frame set holds only empty frames |
| InputManager.AudioInputManager.RunTick | audio.py:235-244 | while running, the oldest ready frame set, if any, is handed to `on_data_ready` |
| InputManager.AudioInputManager.ClearPendings | audio.py:246-253 | the loop runs over the dictionary's keys, the sinks, so its outcome is that of subscripting them: TypeError whenever a sink exists, nothing otherwise |
| InputManager.AudioInputManager.ClearItems | audio.py:251-253 | the loop subscripts each item in turn and stops with the error of the first item that is not a state dictionary |
| InputManager.AudioInputManager.Start | audio.py:255-272 | nothing while running; otherwise it runs and starts its thread (RuntimeError if started before), and exits with SystemExit when a pipeline fails to play |
| InputManager.AudioInputManager.Stop | audio.py:274-290 | a pipeline that fails to pause exits; otherwise it stops running, a thread never started raises RuntimeError, and a started one reaches the clearing, which raises TypeError when there is a sink |
| DisplayMonitor.Float32Decode | test.py:37-50 | ValueError exactly when the byte count is not a multiple of 4; otherwise one sample per 4-byte word |
| DisplayMonitor.WordsSpec | test.py:50 | sample k is the decode of bytes 4k..4k+3 |
| DisplayMonitor.WordsAppend | test.py:50 | decoding two aligned buffers joined equals joining their decodings |
| DisplayMonitor.Window | test.py:77-81 | the display window keeps exactly DISPLAY_SAMPLES samples |
| DisplayMonitor.WindowCompose | test.py:77-81 | rolling in two batches one after the other shows the same window as rolling in both at once |
| DisplayMonitor.FrameSamplesFlat | test.py:84-89 | decoding frame by frame equals decoding the frames joined |
| DisplayMonitor.FrameSamplesFront | test.py:84-89 | the samples of a frame list are those of its first frame followed by those of the rest |
| DisplayMonitor.FrameSamplesSnoc | test.py:84-89 | one more frame appends its own samples |
| DisplayMonitor.RollFrame | test.py:84-99 | after one more frame is rolled in, the display shows the last samples of everything decoded so far |
| DisplayMonitor.ShownConsumed | test.py:84-86 | the frames cut off and the pending tail rebuild the received bytes, and the rolled-in samples are the decode of the consumed bytes |
| DisplayMonitor.Monitor.constructor | test.py:17-24 | no pending bytes and a display of DISPLAY_SAMPLES zeros |
| DisplayMonitor.Monitor.Roll | test.py:77-81 | the display becomes the last DISPLAY_SAMPLES samples of the old display followed by the new samples |
| DisplayMonitor.Monitor.CopyLast | test.py:77-78 | a batch at least a display long replaces the display by its tail |
| DisplayMonitor.Monitor.ShiftIn | test.py:79-81 | a shorter batch shifts the display left by its length and fills the tail with it |
| DisplayMonitor.Monitor.MoveDown | test.py:80 | `np.roll` by -m: the first length-m cells become the old cells from m on |
| DisplayMonitor.Monitor.FillTail | test.py:81 | the tail receives the samples and the front is unchanged |
| DisplayMonitor.Monitor.OnNewSample | test.py:53-99 | a reset drops pending bytes; frame size 0 takes everything at once (ValueError on a misaligned total); otherwise whole frames are consumed, a frame size that is not a multiple of 4 raising ValueError on the first frame |
| DisplayMonitor.Monitor.ConsumeAll | test.py:63-81 | every pending byte is taken and decoded, and the display shows the last samples |
| DisplayMonitor.Monitor.ConsumeFrames | test.py:84-99 | whole frames are consumed in order, the shorter tail stays pending, and the display shows the last samples of all frames |
| DisplayMonitor.HandleNewSample | test.py:100-121 | no sample or no buffer gives FlowReturn.ERROR and changes nothing; otherwise the bytes go to `on_new_sample`, with a discontinuity as the reset flag, and the result is OK exactly when that succeeds |
| Engine.ParseSinkName | src/audio/gstreamer_engine.py:54-62 | a malformed appsink name raises ValueError |
| Engine.ParseSinkNameOf | src/audio/gstreamer_engine.py:54-62 | a name `<prefix>_<digits>` without another `_` in the prefix is accepted with the digits' value as channel id |
| Engine.ParseSinkNameNoSeparator | src/audio/gstreamer_engine.py:55-59 | a name without `_` raises ValueError |
| Engine.Appsinks | src/audio/gstreamer_engine.py:53 | only elements made by the `appsink` factory are kept |
| Engine.SinkIds | src/audio/gstreamer_engine.py:54-62 | when every appsink name parses there is one channel id per appsink |
| Engine.Scan | src/audio/gstreamer_engine.py:40-78 | registration over a plain sequence of elements (no iterator RESYNC or ERROR) fails only with ValueError |
| Engine.ScanOk | src/audio/gstreamer_engine.py:53-68 | registration succeeds exactly when every appsink name parses and the channel ids are distinct and not yet registered |
| Engine.ConsIds | src/audio/gstreamer_engine.py:64-78 | a list of ids headed by `id` is distinct and fresh exactly when `id` is new and the rest is distinct and fresh once `id` is registered |
| Engine.IdSetCons | src/audio/gstreamer_engine.py:78 | the set of a list headed by `id` is `{id}` plus the set of the rest |
| Engine.ScanKeys | src/audio/gstreamer_engine.py:78 | the registered channel ids are the old ones plus those of every appsink |
| Engine.ScanValues | src/audio/gstreamer_engine.py:78 | each appsink is registered under its own channel id |
| Engine.ScanKeep | src/audio/gstreamer_engine.py:64-78 | a registration never overwrites an id already registered |
| Engine.ScanCount | src/audio/gstreamer_engine.py:64-78 | one new channel per appsink |
| Engine.IdSetCard | src/audio/gstreamer_engine.py:64-68 | distinct ids form a set of the same size |
| Engine.ScanAppend | src/audio/gstreamer_engine.py:40-50 | scanning pipelines one after the other equals scanning their elements joined, stopping at the first error |
| Engine.HasMin | src/audio/gstreamer_engine.py:81 | a non-empty set of ids has a least element |
| Engine.SortedKeys | src/audio/gstreamer_engine.py:81 | `sorted(keys)`: a strictly increasing list holding exactly the keys |
| Engine.GStreamerEngine.constructor | src/audio/gstreamer_engine.py:9-21 | keeps the parsed pipelines, no sinks yet |
| Engine.GStreamerEngine.ConnectSinks | src/audio/gstreamer_engine.py:37-82 | over plain element sequences: ValueError with no sinks when registration fails; otherwise the sinks are the appsinks ordered by increasing channel id, one per registered id |
| Engine.GStreamerEngine.KeepSorted | src/audio/gstreamer_engine.py:81-82 | the sinks are the registered elements in the order of the given ids |
| Engine.GStreamerEngine.Register | src/audio/gstreamer_engine.py:38-78 | the nested loops compute the registration of every element of every pipeline in order |
| Engine.GStreamerEngine.RegisterPipeline | src/audio/gstreamer_engine.py:41-78 | the loop over one pipeline computes its registration |
| Engine.GStreamerEngine.ChannelsCount | src/audio/gstreamer_engine.py:112-113 | the number of connected sinks |
| Engine.GStreamerEngine.HandleNewSample | src/audio/gstreamer_engine.py:84-100 | no sample or buffer gives ERROR and changes nothing; a channel id outside the source's channels raises IndexError; otherwise only that channel's bytes change, sliced into frames (a callback that never returns at frame size 0), and the answer is OK exactly when the callback succeeds |
| Engine.NonContiguousIds | src/audio/gstreamer_engine.py:57-62 | `sink_5` is accepted as channel 5, which a source of two channels cannot index |
| YamahaDescriptions.ReadField | src/network/protocol/yamaha/descriptions.py:21-24 | reading a length byte at an offset past the end raises IndexError; a field whose bytes are not well-formed UTF-8 raises UnicodeDecodeError; otherwise the text is the (possibly cut-short) bytes after the length byte and the next offset is just past the field |
| YamahaDescriptions.ReadFields | src/network/protocol/yamaha/descriptions.py:18-42 | k fields read in a row give k texts, or IndexError or UnicodeDecodeError |
| YamahaDescriptions.ScpDecode | src/network/protocol/yamaha/descriptions.py:16-49 | `SCPData.from_bytes` fails only with IndexError or UnicodeDecodeError |
| YamahaDescriptions.ScpEncode | src/network/protocol/yamaha/descriptions.py:51-75 | `to_bytes` succeeds exactly when every field is shorter than 256 bytes (ValueError from `bytearray.append` otherwise) and gives four length bytes plus the fields |
| YamahaDescriptions.ReadPrefixed | src/network/protocol/yamaha/descriptions.py:21-24 | a length-prefixed field is read back whole, whatever precedes and follows it |
| YamahaDescriptions.ScpDecodeFields | src/network/protocol/yamaha/descriptions.py:16-49 | four fields read in a row are the decoded SCP data |
| YamahaDescriptions.ReadFieldsNext | src/network/protocol/yamaha/descriptions.py:18-42 | reading one more field extends the fields read |
| YamahaDescriptions.ScpDecodeEncode | src/network/protocol/yamaha/descriptions.py:16-75 | encoded SCP data decodes back to itself, even with trailing bytes |
| YamahaDescriptions.ScpRoundTrip | src/network/protocol/yamaha/descriptions.py:16-75 | `from_bytes(to_bytes(d)) == d` whenever encoding succeeds |
| YamahaDescriptions.ReadLengthPrefixed | src/network/protocol/yamaha/descriptions.py:21-24 | the field-reading steps compute ReadField |
| YamahaDescriptions.ScpFromBytes | src/network/protocol/yamaha/descriptions.py:16-49 | the step-by-step parse computes ScpDecode |
| YamahaDescriptions.ReadFails | src/network/protocol/yamaha/descriptions.py:18-42 | when the read of one of the four fields fails, `from_bytes` fails with that read's error |
| YamahaDescriptions.ScpToBytes | src/network/protocol/yamaha/descriptions.py:51-75 | the step-by-step build computes ScpEncode |
| YamahaDescriptions.UnpackU16 | src/network/protocol/yamaha/descriptions.py:101 | `struct.unpack(">H", …)` raises struct.error unless given exactly 2 bytes |
| YamahaDescriptions.HexPairs | src/network/protocol/yamaha/descriptions.py:119 | one two-digit lower-case hex text per byte |
| YamahaDescriptions.DecimalOctets | src/network/protocol/yamaha/descriptions.py:161 | one byte per dotted piece, or ValueError |
| YamahaDescriptions.HexOctets | src/network/protocol/yamaha/descriptions.py:167 | one byte per colon piece, or ValueError |
| YamahaDescriptions.DecimalOctetsOf | src/network/protocol/yamaha/descriptions.py:110-161 | the decimal texts of bytes parse back to the bytes |
| YamahaDescriptions.HexOctetsOf | src/network/protocol/yamaha/descriptions.py:119-167 | the hex texts of bytes parse back to the bytes |
| YamahaDescriptions.IpRoundTrip | src/network/protocol/yamaha/descriptions.py:110-161 | the dotted IP text of bytes splits and parses back to the bytes |
| YamahaDescriptions.MacRoundTrip | src/network/protocol/yamaha/descriptions.py:119-167 | the colon MAC text of bytes splits and parses back to the bytes |
| YamahaDescriptions.ContentAppended | src/network/protocol/yamaha/descriptions.py:155-177 | the message content is magic, IP, reserved, MAC, prefixed protocol name, data length and data, in that order |
| YamahaDescriptions.MessageLenCountsRest | src/network/protocol/yamaha/descriptions.py:179-183 | the length field written after the base name counts every byte after it |
| YamahaDescriptions.DecodeShape | src/network/protocol/yamaha/descriptions.py:92-145 | a packet laid out field by field, with texts for its base and protocol names, decodes to those fields, failing only as the SCP data does |
| YamahaDescriptions.DecodeLayout | src/network/protocol/yamaha/descriptions.py:92-145 | a packet laid out from encoded SCP data decodes to the packet of those fields |
| YamahaDescriptions.PacketRoundTrip | src/network/protocol/yamaha/descriptions.py:92-185 | a well-formed packet encodes, and decodes back to itself with the message length the encoding wrote |
| YamahaDescriptions.PacketRoundTripExact | src/network/protocol/yamaha/descriptions.py:92-185 | a packet whose message length is already the real one survives the round trip unchanged |
| YamahaDescriptions.PacketFromBytes | src/network/protocol/yamaha/descriptions.py:92-145 | the step-by-step parse computes PacketDecode |
| YamahaDescriptions.ReadTail | src/network/protocol/yamaha/descriptions.py:122-134 | the parse from the name's length byte on gives the name and data section `from_bytes` reads there, or its UnicodeDecodeError, StructError, IndexError or data-section error |
| YamahaDescriptions.PacketToBytes | src/network/protocol/yamaha/descriptions.py:147-185 | the step-by-step build computes PacketEncode |
| YamahaDescriptions.MessageToBytes | src/network/protocol/yamaha/descriptions.py:154-177 | the extends of the message, one after the other, give MessageEncode: ValueError on an unparsable address or a name of 256 bytes or more |
| YamahaDescriptions.ShortPacket | src/network/protocol/yamaha/descriptions.py:97-123 | with a base name that decodes, fewer than 6 bytes raise struct.error and 6 to 30 bytes raise IndexError at the protocol name length |
| YamahaDescriptions.DecodeErrors | src/network/protocol/yamaha/descriptions.py:92-145 | decoding fails only with struct.error, IndexError or UnicodeDecodeError |
| YamahaDescriptions.MalformedBaseName | src/network/protocol/yamaha/descriptions.py:96-98 | a packet whose first four bytes are not UTF-8 raises UnicodeDecodeError before anything else is read, whatever its length |
| YamahaDescriptions.MalformedField | src/network/protocol/yamaha/descriptions.py:21-24 | the SCP data [1, 0xFF, 0, 0, 0] raises UnicodeDecodeError on its first field |
| YamahaDescriptions.ThreeFieldsOnly | src/network/protocol/yamaha/descriptions.py:38-41 | SCP data with only three fields raises IndexError |
| YamahaDescriptions.DiscoveryDataShort | src/network/protocol/yamaha_remote_control.py:126 | the data section of the discovery payload is 21 bytes holding only three fields and does not decode |
| YamahaDescriptions.DiscoveryMessageLen | src/network/protocol/yamaha_remote_control.py:126 | the discovery payload is 62 bytes and its length field (56) counts the rest |
| YamahaDescriptions.DecodeDataError | src/network/protocol/yamaha/descriptions.py:96-134 | a packet whose data section does not parse fails with that section's error, whatever its other fixed fields hold, unless its base name is not UTF-8 |
| YamahaDescriptions.DiscoveryTailRejected | src/network/protocol/yamaha_remote_control.py:126 | any packet that continues after the MAC address as the discovery payload does is rejected: IndexError, or UnicodeDecodeError when its base name is not UTF-8 |
| YamahaDescriptions.DiscoveryPayloadRejected | src/network/protocol/yamaha_remote_control.py:126 | `YSDPPacket.from_bytes` raises IndexError on the discovery payload itself |
| YamahaRemoteControl.Frame | src/network/protocol/yamaha_remote_control.py:38 | a command is sent as one space, the command and a newline |
| YamahaRemoteControl.Drop | src/network/protocol/yamaha_remote_control.py:41 | each exchange consumes one peer outcome |
| YamahaRemoteControl.DropNext | src/network/protocol/yamaha_remote_control.py:41 | consuming k outcomes then one is consuming k + 1 |
| YamahaRemoteControl.IntStrings | src/network/protocol/yamaha_remote_control.py:71 | each integer is rendered with `str` |
| YamahaRemoteControl.Zip | src/network/protocol/yamaha_remote_control.py:70 | `zip` pairs channels and states up to the shorter list |
| YamahaRemoteControl.Pairs | src/network/protocol/yamaha_remote_control.py:66-70 | an int channel is sent once with the states rendered as given; two lists are zipped; a list of channels with an int state raises TypeError |
| YamahaRemoteControl.Commands | src/network/protocol/yamaha_remote_control.py:70-72 | one command per pair, in order |
| YamahaRemoteControl.NoSpaceInInt | src/network/protocol/yamaha_remote_control.py:71 | a rendered integer holds no space and no newline |
| YamahaRemoteControl.SetCommandWords | src/network/protocol/yamaha_remote_control.py:71 | a set command splits into set, path, channel, device id and state |
| YamahaRemoteControl.SetCommandRoundTrip | src/network/protocol/yamaha_remote_control.py:71 | the channel, device id and state parse back from the set command |
| YamahaRemoteControl.RemoveCharAppend | src/network/protocol/yamaha_remote_control.py:116 | `replace` of a character distributes over concatenation |
| YamahaRemoteControl.RemoveAbsent | src/network/protocol/yamaha_remote_control.py:116 | removing an absent character changes nothing |
| YamahaRemoteControl.NotInJoin | src/network/protocol/yamaha_remote_control.py:116 | a character absent from the parts and the separator is absent from their join |
| YamahaRemoteControl.PhantomReply | src/network/protocol/yamaha_remote_control.py:112-116 | a reply line of words reports the master phantom power on exactly when its last word is `1` |
| YamahaRemoteControl.LastWordOfLine | src/network/protocol/yamaha_remote_control.py:116 | the last word of a line is the one compared with `1` |
| YamahaRemoteControl.DropNewline | src/network/protocol/yamaha_remote_control.py:116 | removing the newline from a line with one at the end gives the line |
| YamahaRemoteControl.RemoteControl.constructor | src/network/protocol/yamaha_remote_control.py:19-26 | keeps ip, port and device id; nothing sent yet |
| YamahaRemoteControl.RemoteControl.SendCommand | src/network/protocol/yamaha_remote_control.py:28-47 | the framed command is sent; the reply is returned when non-empty, None on an empty reply or a socket error |
| YamahaRemoteControl.RemoteControl.SendAll | src/network/protocol/yamaha_remote_control.py:70-72 | the commands are sent in order, one peer outcome each |
| YamahaRemoteControl.RemoteControl.SetPhantomPower | src/network/protocol/yamaha_remote_control.py:57-76 | TypeError sends nothing; otherwise one 48VOn command per zipped pair |
| YamahaRemoteControl.RemoteControl.SetHaGain | src/network/protocol/yamaha_remote_control.py:84-103 | TypeError sends nothing; otherwise one HAGain command per zipped pair |
| YamahaRemoteControl.RemoteControl.IsGeneralPhantomPowerActivated | src/network/protocol/yamaha_remote_control.py:105-116 | sends the 48VMasterOn query; None without a reply, otherwise whether the reply's last word is `1` |
| YamahaRemoteControl.PairsTruncate | src/network/protocol/yamaha_remote_control.py:70 | the number of commands is the shorter list length |
| YamahaRemoteControl.SingleChannel | src/network/protocol/yamaha_remote_control.py:66-72 | an int channel with a list of states sends one command carrying the list's text |
| StaticCheckup.HashKey | src/devices/static_checkup.py:6 | `set(names)` accepts exactly the hashable values and raises TypeError on a list or dict |
| StaticCheckup.FieldValues | src/devices/static_checkup.py:5 | `item.get(field)` for every device: AttributeError unless every device is a dict; otherwise each device's value, None when missing |
| StaticCheckup.HashAll | src/devices/static_checkup.py:6 | hashing succeeds exactly when every value is hashable, giving each value's key |
| StaticCheckup.ElementsCount | src/devices/static_checkup.py:6 | the set of a list is never larger than the list, and has its length exactly when the list is duplicate-free |
| StaticCheckup.Unique | src/devices/static_checkup.py:1-14 | `len(values) == len(set(values))` fails only with AttributeError or TypeError |
| StaticCheckup.UniqueIff | src/devices/static_checkup.py:1-14 | uniqueness is decided exactly when the values are hashable, and is true exactly when no two devices hold the same value |
| StaticCheckup.UniqueTrue | src/devices/static_checkup.py:5-6 | once values and keys are computed, the verdict is true exactly when no two devices share a value |
| StaticCheckup.TwoUnnamed | src/devices/static_checkup.py:1-6 | two dicts without `name` both give None, so `check_names` reports them as duplicates |
| StaticCheckup.CheckRequiredFields | src/devices/static_checkup.py:17-23 | passes exactly on a dict holding the six required keys; ValueError on a dict missing one |
| StaticCheckup.Numeric | src/devices/static_checkup.py:28-34 | ints and bools compare as numbers; other JSON values raise TypeError |
| StaticCheckup.CheckInRange | src/devices/static_checkup.py:26-35 | passes exactly when the field is present, numeric and within the inclusive bounds |
| StaticCheckup.InRange | src/devices/static_checkup.py:26-35 | an integer field is checked against inclusive bounds: ValueError outside them |
| StaticCheckup.RangeBounds | src/devices/static_checkup.py:26-35 | the port must lie in 1..65535 and the RTP payload in 96..127 |
| StaticCheckup.DeviceIff | src/devices/static_checkup.py:38-42 | `check_device` passes exactly on a dict with every required key, a numeric port in 1..65535 and a numeric RTP payload type in 96..127 |
| StaticCheckup.CheckEachAll | src/devices/static_checkup.py:59-60 | the loop passes exactly when every device passes `check_device` |
| StaticCheckup.CheckEachFirst | src/devices/static_checkup.py:59-60 | when the loop raises, it raises what the first failing device raises, every earlier device having passed |
| StaticCheckup.CheckupSteps | src/devices/static_checkup.py:45-62 | `static_checkup` passes exactly when both uniqueness checks answer True and the device loop passes |
| StaticCheckup.Checkup | src/devices/static_checkup.py:45-62 | `static_checkup` returns only True, never False |
| StaticCheckup.CheckupIff | src/devices/static_checkup.py:45-62 | `static_checkup` succeeds exactly on a list with unique names, unique ports and every device valid, and then returns True |
| StaticCheckup.NamesFirst | src/devices/static_checkup.py:51-53 | two devices with the same name raise ValueError, whatever else is wrong |
| StaticCheckup.EmptyPasses | src/devices/static_checkup.py:45-62 | an empty list passes |
| JsonValues.Keys | src/devices/static_checkup.py:21 | the keys of a dict in order |
| JsonValues.Lookup | src/devices/static_checkup.py:5 | a key is found exactly when present, and then with the value of its last entry, the one a loaded dict keeps when a key repeats |
| JsonValues.LookupDistinct | src/devices/static_checkup.py:5 | in a dict each key finds its own entry |
| JsonValues.Get | src/devices/static_checkup.py:5 | `value.get(key)` on a dict; AttributeError on anything else |
| JsonValues.GetOr | src/devices/devices.py:22 | `value.get(key, default)`: the stored value when present, the default otherwise; AttributeError on a non-dict |
| JsonValues.Iterate | src/devices/static_checkup.py:59 | iterating a list gives its items, a string its characters, a dict its keys; null, bools and numbers raise TypeError |
| JsonValues.ReprItems | src/devices/devices.py:56-60 | one repr per list item |
| JsonValues.ReprFields | src/devices/devices.py:56-60 | one repr per dict entry |
| JsonValues.FileStore.constructor | src/helpers/json.py:6-24 | the configuration files as given |
| JsonValues.FileStore.Write | src/helpers/json.py:27-36 | `write_json` creates or replaces exactly the one file |
| JsonValues.ListRef.constructor | src/devices/devices.py:42 | a list holding the given items |
| JsonValues.ListRef.Append | src/devices/devices.py:44 | `list.append` adds the item at the end |
| DeviceFiles.Entries | src/devices/devices.py:45 | `asdict` gives each field name with its value, in order |
| DeviceFiles.FieldValues | src/devices/devices.py:29 | `Device(**dev)` raises TypeError unless the dict holds every field, and receives each field's value |
| DeviceFiles.FieldValuesOfEntries | src/devices/devices.py:29-45 | a dict built by `asdict` gives back its values |
| DeviceFiles.Labelled | src/devices/devices.py:54-60 | each summary piece is a label followed by one field's text |
| DeviceFiles.SummaryFields | src/devices/devices.py:54-60 | when no field's text holds a comma, the summary splits at its commas into the labelled fields |
| DeviceFiles.Records | src/devices/devices.py:29 | one record per entry in order when every entry converts; otherwise the error of an entry |
| DeviceFiles.Dicts | src/devices/devices.py:45 | one dict per record, in order |
| DeviceFiles.Load | src/devices/devices.py:13-29 | FileNotFoundError without the file |
| DeviceFiles.LoadOk | src/devices/devices.py:13-29 | a successful load read a dict whose truthy `devices` value iterates into a list the validator accepts, and returned one record per entry |
| DeviceFiles.SavedReloads | src/devices/devices.py:13-51 | a non-empty list the validator accepts, once written, loads back as the same records |
| DeviceFiles.RecordsOfDicts | src/devices/devices.py:29-45 | rebuilding records from their dicts gives the records back |
| DeviceFiles.AddRecord | src/devices/devices.py:31-51 | a non-empty caller list is used and extended in place; otherwise the file's list or a new one; the file is rewritten only when the whole list validates, and a failed validation raises and writes nothing |
| DeviceFiles.Discover | src/adc_devices/adc_device_manager.py:66-89 | the devices of the scans that succeeded, concatenated in registration order |
| DeviceFiles.FoundIff | src/adc_devices/adc_device_manager.py:66-89 | a device is discovered exactly when some successful scan found it |
| Devices.Values | src/devices/models.py:4-12 | one value per Device field |
| Devices.FromValues | src/devices/models.py:4-12 | a Device built from its seven values gives them back |
| Devices.FromDict | src/devices/devices.py:29 | `Device(**dev)` succeeds exactly when the dict holds every field, with those values; TypeError otherwise |
| Devices.FromAsDict | src/devices/devices.py:29-45 | `Device(**asdict(d)) == d` |
| Devices.LoadDevicesErrors | src/devices/devices.py:17-24 | FileNotFoundError without the file; ValueError when `devices` is missing or falsy |
| Devices.LoadDevicesOk | src/devices/devices.py:13-29 | a successful load read a list that passes `static_checkup`, and returned its entries as Devices, in order |
| Devices.MissingInterface | src/devices/devices.py:26-29 | an entry without `interface` passes `static_checkup` but then raises TypeError |
| Devices.AddDevice | src/devices/devices.py:31-51 | `add_device` as AddRecord with Device and `static_checkup` |
| Devices.AddedReloads | src/devices/devices.py:13-51 | a list written by `add_device` loads back as the same Devices |
| Devices.ToStringFields | src/devices/devices.py:54-60 | the summary splits at its commas into the seven labelled fields |
| AdcDeviceManager.Values | src/adc_devices/models/adc_device.py:6-14 | one value per ADCDevice field |
| AdcDeviceManager.FromValues | src/adc_devices/models/adc_device.py:6-14 | an ADCDevice built from its values gives them back |
| AdcDeviceManager.FromDict | src/adc_devices/adc_device_manager.py:36 | `ADCDevice(**dev)` succeeds exactly when the dict holds every field, with those values; TypeError otherwise |
| AdcDeviceManager.FromAsDict | src/adc_devices/adc_device_manager.py:36-56 | `ADCDevice(**asdict(d)) == d` |
| AdcDeviceManager.LoadMissing | src/adc_devices/adc_device_manager.py:24-31 | FileNotFoundError without the file; ValueError when `devices` is missing or falsy |
| AdcDeviceManager.LoadValidated | src/adc_devices/adc_device_manager.py:28-38 | a non-empty list the validator rejects raises ValueError; one it accepts gives one ADCDevice per entry |
| AdcDeviceManager.AddDevice | src/adc_devices/adc_device_manager.py:40-63 | `add_device` as AddRecord with ADCDevice |
| AdcDeviceManager.AddedReloads | src/adc_devices/adc_device_manager.py:20-63 | a list written by `add_device` loads back as the same devices |
| AdcDeviceManager.AutoDiscover | src/adc_devices/adc_device_manager.py:65-89 | the devices of the managers' scans that succeeded, in order; a device is found exactly when some successful scan found it |
| AdcDeviceManager.ToStringFields | src/adc_devices/adc_device_manager.py:91-98 | the summary splits at its commas into the seven labelled fields |
| AudioDeviceController.Values | src/devices/audio/dante/models.py:5-15 | one value per DanteADCDevice field |
| AudioDeviceController.FromValues | src/devices/audio/dante/models.py:5-15 | a DanteADCDevice built from its values gives them back |
| AudioDeviceController.FromDict | src/devices/audio/audio_device_controller.py:82 | `DanteADCDevice(**dev)` succeeds exactly when the dict holds every field; TypeError otherwise |
| AudioDeviceController.FromAsDict | src/devices/audio/audio_device_controller.py:82-149 | `DanteADCDevice(**asdict(d)) == d` |
| AudioDeviceController.AllDevicesIff | src/devices/audio/audio_device_controller.py:24-33 | a converter is listed exactly when some controller holds it |
| AudioDeviceController.AllDevicesCount | src/devices/audio/audio_device_controller.py:29-31 | one more controller adds exactly its converters |
| AudioDeviceController.ControllerEntries | src/devices/audio/audio_device_controller.py:40-49 | FileNotFoundError without the file; ValueError when `controllers` is missing or falsy |
| AudioDeviceController.EntryName | src/devices/audio/audio_device_controller.py:60 | `controller_data.get("name")`: AttributeError on a non-dict; a name is present exactly when truthy |
| AudioDeviceController.DeviceList | src/devices/audio/audio_device_controller.py:82-108 | the converters build exactly when every entry converts, one per entry |
| AudioDeviceController.AvioEntry | src/devices/audio/audio_device_controller.py:73-87 | the AVIO AI2 branch yields only an AVIO AI2 adapter |
| AudioDeviceController.YamahaEntry | src/devices/audio/audio_device_controller.py:89-118 | the Yamaha branch yields a stage box only with a truthy, reachable address |
| AudioDeviceController.AsWrittenEntry | src/devices/audio/audio_device_controller.py:59-122 | as written only AVIO AI2 adapters are ever loaded |
| AudioDeviceController.Entry | src/devices/audio/audio_device_controller.py:59-122 | the corrected loop step fails exactly where the written one does, with the same AttributeError or TypeError, and never yields an unknown controller |
| AudioDeviceController.EntriesAgree | src/devices/audio/audio_device_controller.py:59-122 | on every entry but a Yamaha one the corrected step equals the written one |
| AudioDeviceController.Collect | src/devices/audio/audio_device_controller.py:57-122 | the loaded controllers are at most one per entry, all known kinds |
| AudioDeviceController.CollectStep | src/devices/audio/audio_device_controller.py:59-122 | an entry that raises stops the load; a skipped entry adds nothing; a built controller is appended |
| AudioDeviceController.CollectStops | src/devices/audio/audio_device_controller.py:59-60 | once the loop has raised, later entries do not matter |
| AudioDeviceController.ControllerDict | src/devices/audio/audio_device_controller.py:142-163 | only unknown controllers are left out of the saved file |
| AudioDeviceController.SavedEntries | src/devices/audio/audio_device_controller.py:140-165 | at most one saved entry per controller |
| AudioDeviceController.EntryOfSaved | src/devices/audio/audio_device_controller.py:59-165 | the saved entry of a restorable controller loads back as that controller |
| AudioDeviceController.AvioOfSaved | src/devices/audio/audio_device_controller.py:73-87 | an AVIO AI2 entry with non-empty converters loads them |
| AudioDeviceController.YamahaOfSaved | src/devices/audio/audio_device_controller.py:89-118 | a Yamaha entry with a reachable address loads with its converters |
| AudioDeviceController.AvioDictFields | src/devices/audio/audio_device_controller.py:146-149 | the saved AVIO AI2 dict gives back its name and converters |
| AudioDeviceController.YamahaDictFields | src/devices/audio/audio_device_controller.py:152-157 | the saved Yamaha dict gives back its name, address and converters |
| AudioDeviceController.AvioEntryOf | src/devices/audio/audio_device_controller.py:75-84 | non-empty converters that build give the adapter holding them |
| AudioDeviceController.EntryAvio | src/devices/audio/audio_device_controller.py:73 | an entry named AVIOAI2 takes the AVIO AI2 branch |
| AudioDeviceController.EntryYamaha | src/devices/audio/audio_device_controller.py:89 | an entry named YamahaTio1608 takes the Yamaha branch |
| AudioDeviceController.YamahaEntryOf | src/devices/audio/audio_device_controller.py:92-118 | a reachable address and converters that build give the stage box holding them |
| AudioDeviceController.CollectSaved | src/devices/audio/audio_device_controller.py:57-165 | the saved entries of restorable controllers load back as the same controllers, in order |
| AudioDeviceController.LoadSaved | src/devices/audio/audio_device_controller.py:35-172 | with the corrected loop, saving then loading restores the controllers |
| AudioDeviceController.SavedDocumentEntries | src/devices/audio/audio_device_controller.py:47-172 | the saved document's `controllers` value is the saved entries |
| AudioDeviceController.YamahaNeverLoads | src/devices/audio/audio_device_controller.py:104 | as written a saved stage box is skipped on reload, while the corrected loop restores it |
| AudioDeviceController.AsWrittenYamahaFound | src/devices/audio/audio_device_controller.py:187-189 | as written the Yamaha scan never adds anything: extending by one controller or None raises TypeError |
| AudioDeviceController.YamahaFound | src/devices/audio/audio_device_controller.py:187-189 | the corrected step adds the stage box the scan found, or nothing |
| AudioDeviceController.YamahaScanLost | src/devices/audio/audio_device_controller.py:178-201 | as written exactly the AVIO AI2 scan's controllers are discovered; corrected, a found stage box is discovered too |
| AudioDeviceController.CollectEntries | src/devices/audio/audio_device_controller.py:57-122 | the loop over the entries computes Collect |
| AudioDeviceController.ControllerManager.constructor | src/devices/audio/audio_device_controller.py:21-22 | no controllers |
| AudioDeviceController.ControllerManager.AdcDevices | src/devices/audio/audio_device_controller.py:24-33 | the converters of every controller, in order; one is listed exactly when some controller holds it |
| AudioDeviceController.ControllerManager.LoadDevicesFromFiles | src/devices/audio/audio_device_controller.py:35-130 | corrected (a saved stage box is restored, where the code as written skips it): on success the controllers become the loaded ones; on an error they are unchanged |
| AudioDeviceController.ControllerManager.SaveDevicesToFiles | src/devices/audio/audio_device_controller.py:132-176 | nothing is written when no controller has an entry; otherwise the file is replaced by the saved document |
| AudioDeviceController.ControllerManager.AutoDiscover | src/devices/audio/audio_device_controller.py:178-201 | corrected (the code as written loses the stage box in a TypeError): the controllers become the discovered ones, the Yamaha scan's stage box included |
| Decorators.Cached | src/helpers/decorators.py:6-9 | the first call for a class stores the new instance; later calls and other classes' entries are left alone |
| Decorators.CachedOnce | src/helpers/decorators.py:6-9 | a second call for the same class keeps the first instance, whatever would be built |
| Decorators.CachedIndependent | src/helpers/decorators.py:5-9 | calls for two different classes do not interfere and commute |
| Decorators.SingletonMeta.constructor | src/helpers/decorators.py:5 | the shared instance dict starts empty |
| Decorators.SingletonMeta.Call | src/helpers/decorators.py:6-9 | `cls(*args)` builds only when the class has no instance yet and always returns the stored one |
| Decorators.Singleton | src/helpers/decorators.py:11-12 | `singleton(cls)` is a new class with the same name, bases and namespace whose metaclass is SingletonMeta |
| Decorators.Instantiate | src/helpers/decorators.py:6-9 | calling a plain class gives what its constructor builds and leaves the instance dict alone; calling a SingletonMeta class goes through the dict keyed by the class |
| Decorators.DecoratedSharesInstance | src/helpers/decorators.py:4-12 | after `@singleton` every call returns the first call's instance and no other class's entry changes, whereas a plain class gives each call its own instance |
| Settings.ParseList | settings.py:28-30 | every item is non-empty, already stripped and holds no comma |
| Settings.Kept | settings.py:30 | the kept pieces are at most as many as the pieces, each non-empty and stripped |
| Settings.StripSubstring | settings.py:30 | stripping only removes characters |
| Settings.KeptClean | settings.py:30 | pieces that are already clean are all kept unchanged |
| Settings.ParseListJoin | settings.py:28-30 | joining clean items with commas and parsing gives the items back |
| Settings.ParseListSingle | settings.py:28-30 | a text without commas parses to its stripped self, or to nothing when blank |
| Settings.ParseBoolWord | settings.py:33-35 | any casing of `true`, `1` or `yes` is true |
| Settings.ParseBoolIndent | settings.py:35 | leading whitespace does not matter |
| Settings.ParseBoolUnset | src/settings.py:38-45 | an unset variable reads as `str(None)`, which is false |
| Settings.ParseBoolUpper | settings.py:35 | upper-casing the text does not change the verdict |
| Settings.TrimLeftUpper | settings.py:35 | stripping on the left commutes with upper-casing |
| Settings.TrimRightUpper | settings.py:35 | stripping on the right commutes with upper-casing |
| Settings.StripUpper | settings.py:35 | stripping commutes with upper-casing |
| Settings.LowerUpper | settings.py:35 | lower-casing after upper-casing is lower-casing |
| Settings.LoadSettings | settings.py:38-51 | `load_settings` fails only with ValueError, from an integer variable that does not parse |
| Settings.LoadSettingsUnits | settings.py:44-46 | a duration of ms milliseconds is held as ms times 10^6 nanoseconds; the rate and latency as written |
| Settings.LoadSettingsDefaults | settings.py:40-50 | each unset variable takes its default: ports 5004, payloads 98, multicast 192.168.250.255, `./recs`, `enp2s0`, `cpu` |
| Settings.CleanWord | settings.py:40-48 | each default list text parses to itself alone |
| Settings.GetEnvOpt | src/settings.py:38-46 | `os.getenv(name)` is set exactly when the variable is |
| Settings.IntOf | src/settings.py:40-42 | `int(None)` raises TypeError; a set value parses as `int()` does on ASCII text (surrounding whitespace, an optional sign, digits with single underscores between them) |
| Strings.ParseIntGrouped | src/settings.py:39-41 | `int()` reads digits with an underscore between two runs as the digits without it |
| Strings.ParseIntMisplacedUnderscore | src/settings.py:39-41 | `int()` rejects an underscore that leads, trails or follows another |
| Settings.LoadSrcSettings | src/settings.py:36-47 | succeeds exactly when the three integer variables are set and parse; an unset REC_DURATION raises TypeError |
| Settings.LoadSrcSettingsUnset | src/settings.py:38-46 | the duration is scaled to nanoseconds; unset booleans are false and unset paths None |
| Ipv4.Decimals | src/network/helpers/networks.py:26 | one decimal text per octet |
| Ipv4.ParseOctet | src/network/helpers/interface.py:25 | a dotted field is accepted exactly when it is 1-3 ASCII digits without a leading zero and at most 255, with that value; ValueError otherwise |
| Ipv4.ParseOctets | src/network/helpers/interface.py:25 | the fields parse exactly when each does, one octet each |
| Ipv4.ParseAddr | src/network/helpers/interface.py:25 | `IPv4Address(text)` fails only with ValueError |
| Ipv4.OctetText | src/network/helpers/networks.py:26 | an octet's decimal text parses back to it |
| Ipv4.ParseOctetsOf | src/network/helpers/networks.py:26 | the decimal texts of octets parse back to them |
| Ipv4.DecimalsPlain | src/network/helpers/networks.py:26 | decimal texts hold only digits |
| Ipv4.ParseAddrIff | src/network/helpers/interface.py:25 | a text parses to an address exactly when it is that address's dotted-decimal form |
| Ipv4.ParsedPlain | src/network/helpers/interface.py:25 | a parsed address text holds only digits and dots |
| Ipv4.OctetBits | src/network/helpers/networks.py:26 | a prefix covers at most 8 bits of each octet |
| Ipv4.Pow2 | src/network/helpers/networks.py:26 | powers of two are positive |
| Ipv4.KeepHigh | src/network/helpers/networks.py:26 | masking an octet never increases it |
| Ipv4.KeepHighTwice | src/network/helpers/networks.py:26 | masking an octet twice is masking it once |
| Ipv4.MaskedTwice | src/network/helpers/networks.py:26 | masking an address to a prefix twice is masking it once |
| Ipv4.MaskOctet | src/network/helpers/networks.py:26 | the mask octet for b bits is 256 - 2^(8-b) |
| Ipv4.Pow2Grows | src/network/helpers/networks.py:26 | powers of two grow strictly |
| Ipv4.MaskOctetGrows | src/network/helpers/networks.py:26 | more bits give a larger mask octet |
| Ipv4.NetmaskAt | src/network/helpers/networks.py:26 | octet k of the netmask keeps that octet's share of the prefix |
| Ipv4.NetmaskGrows | src/network/helpers/networks.py:26 | a longer prefix gives a larger netmask at the octet where the shorter one ends |
| Ipv4.NetmaskInjective | src/network/helpers/networks.py:26 | distinct prefix lengths give distinct netmasks |
| Ipv4.FindPrefix | src/network/helpers/networks.py:26 | finds the prefix length whose netmask is the given address, or proves there is none |
| Ipv4.FindNetmask | src/network/helpers/networks.py:26 | every netmask is recognised with its own prefix length |
| Ipv4.MaskPrefix | src/network/helpers/networks.py:26 | a mask is a prefix length in 0..32, a netmask or a host mask; anything else raises ValueError |
| Ipv4.MaskPrefixOk | src/network/helpers/networks.py:26 | an accepted mask is a decimal length, a netmask or its inverse, and holds no slash |
| Ipv4.DottedNotDigits | src/network/helpers/networks.py:26 | a dotted address is never read as a plain prefix length |
| Ipv4.MaskPrefixOfNetmask | src/network/helpers/networks.py:24-26 | the dotted netmask psutil reports gives back its prefix length |
| Ipv4.MaskPrefixOfLength | src/network/helpers/networks.py:26 | a decimal prefix length is read as itself |
| Ipv4.ParseNetwork | src/network/helpers/networks.py:26 | `IPv4Network(text, strict)` fails only with ValueError and gives a network whose host bits are clear |
| Ipv4.SplitPair | src/network/helpers/networks.py:26 | an address and mask joined by a slash split back apart |
| Ipv4.ParseRendered | src/network/helpers/interface.py:31 | `str(network)` parses back to the same network in strict mode |
| Ipv4.ParseAddressMask | src/network/helpers/networks.py:26 | with `strict=False` the network is the address masked to the mask's prefix |
| Ipv4.ParseAddressMaskIff | src/network/helpers/networks.py:26 | with `strict=False` the network parses exactly when the address and the mask do |
| Ipv4.ContainsOrigin | src/network/helpers/interface.py:32 | an address belongs to the network it was masked into |
| Ipv4.MulticastRange | src/network/multicast.py:23 | an address is multicast exactly when its first octet is 224..239 |
| Networks.Info | src/network/helpers/networks.py:23-29 | the record keeps the address and the netmask; a malformed pair raises ValueError |
| Networks.IfaceErrorStays | src/network/helpers/networks.py:19-29 | once an interface's loop has raised, later addresses do not matter |
| Networks.NetworksErrorStays | src/network/helpers/networks.py:17-31 | once the loop has raised, later interfaces do not matter |
| Networks.CollectInterface | src/network/helpers/networks.py:18-29 | the inner loop computes the interface's records |
| Networks.GetNetworks | src/network/helpers/networks.py:5-33 | the outer loop computes the interface map |
| Networks.KeptRecords | src/network/helpers/networks.py:21-25 | only IPv4 addresses with an address and a netmask are kept |
| Networks.IfaceRaises | src/network/helpers/networks.py:25-26 | a kept address whose network does not parse makes the interface raise |
| Networks.IfaceRaisesOnly | src/network/helpers/networks.py:19-29 | an interface raises only because of a kept address that does not parse |
| Networks.IfaceEntries | src/network/helpers/networks.py:19-29 | one record per kept address, in order |
| Networks.InfoConsistent | src/network/helpers/networks.py:26-28 | the recorded network is the address masked to the netmask's prefix |
| Networks.IfaceConsistent | src/network/helpers/networks.py:19-29 | every record of an interface is consistent |
| Networks.NetworksConsistent | src/network/helpers/networks.py:17-31 | every record of the map is consistent |
| Networks.NetworksIff | src/network/helpers/networks.py:17-31 | an interface appears exactly when it has at least one record, with those records |
| Networks.LastHitErrorStays | src/network/helpers/interface.py:29-34 | once the scan has raised, later interfaces do not matter |
| Networks.ScanInterface | src/network/helpers/interface.py:30-34 | the inner loop stops at the first network holding the address |
| Networks.GetInterfaceFromIpv4 | src/network/helpers/interface.py:14-36 | the loops compute InterfaceFromIpv4 |
| Networks.IfaceMatchesHolds | src/network/helpers/interface.py:30-34 | over consistent records the scan never raises and says whether some network holds the address |
| Networks.LastMatchWins | src/network/helpers/interface.py:29-36 | the answer is None exactly when no interface matches, otherwise the last matching interface |
| Networks.ScansHold | src/network/helpers/interface.py:29-34 | every interface's scan reduces to containment |
| Networks.InterfaceFound | src/network/helpers/interface.py:14-36 | for a valid address the answer is the last interface whose network holds it, None when none does |
| Capture.Filters | src/network/capture.py:17-26 | the protocol first, then one clause per given argument; empty texts and zero ports add nothing |
| Capture.FiltersClauses | src/network/capture.py:19-26 | the clauses appear in the order source address, destination address, source port, destination port |
| Capture.JoinStartsWithFirst | src/network/capture.py:28 | a join starts with its first part |
| Capture.FilterStartsWithProtocol | src/network/capture.py:17-28 | the display filter starts with the protocol, and is just the protocol with no argument given |
| Capture.Limited | src/network/capture.py:37 | at most `limit` packets, a prefix of the stream; `limit` 0 takes all |
| Capture.LiveCapture.constructor | src/network/capture.py:32-34 | opened on the interface with the display filter |
| Capture.LiveCapture.Close | src/network/capture.py:39-40 | marks the capture closed and keeps its settings |
| Capture.CaptureUdpPackets | src/network/capture.py:7-40 | yields the limited prefix of the stream and leaves a closed capture built with the display filter |
| Multicast.MulticastIpIff | src/network/multicast.py:7-26 | a text is multicast exactly when it is the dotted form of an address whose first octet is 224..239 |
| Multicast.NoDotNotMulticast | src/network/multicast.py:21-26 | a text without a dot is never multicast, None included |
| Multicast.RtpPayloadType | src/network/multicast.py:29-35 | the value of the first all-digit format, None when there is none |
| Multicast.IntField | src/network/multicast.py:57-58 | a missing attribute reads as 0; an unparsable one raises ValueError |
| Multicast.SdpFields | src/network/multicast.py:54-59 | the fields are read exactly when port and channels parse |
| Multicast.Decide | src/network/multicast.py:61-72 | a stream is reported exactly when the address is multicast and the port non-zero, with the fields found |
| Multicast.ScanErrorStays | src/network/multicast.py:44-59 | once the loop has raised, later packets do not matter |
| Multicast.GetMulticastStreamInfo | src/network/multicast.py:38-72 | the result is decided from the first captured packet |
| Multicast.LastSdp | src/network/multicast.py:44-59 | the last packet with an SDP section, if any |
| Multicast.LastSdpWins | src/network/multicast.py:44-59 | the fields kept are those of the last packet with an SDP section |
| Multicast.NoSdpNoStream | src/network/multicast.py:51-62 | packets without SDP give None |
| Multicast.NoSdpScan | src/network/multicast.py:51-52 | packets without SDP leave every field unset |
| PtzRegistry.DistinctAppend | src/devices/camera/ptz_controller.py:40 | registering a new name keeps the names distinct |
| PtzRegistry.Get | src/devices/camera/ptz_controller.py:43-48 | KeyError exactly for an unregistered name; in a valid registry the listed names are exactly the ones found |
| PtzRegistry.Without | src/devices/camera/ptz_controller.py:60 | popping a name removes exactly that name |
| PtzRegistry.RegisterValid | src/devices/camera/ptz_controller.py:12-41 | registration keeps the registry valid |
| PtzRegistry.RegisterOutcome | src/devices/camera/ptz_controller.py:12-41 | ValueError, changing nothing, exactly for an unregistered name without a vendor class; otherwise the name then finds the returned camera, and every other name is unaffected |
| PtzRegistry.RegisterOnce | src/devices/camera/ptz_controller.py:23-25 | once a name is registered, later calls return the same camera and change nothing, whatever the vendor class and arguments |
| PtzRegistry.WithoutAt | src/devices/camera/ptz_controller.py:60 | removing the name at position k keeps the others in order |
| PtzRegistry.WithoutAbsent | src/devices/camera/ptz_controller.py:60 | removing an absent name changes nothing |
| PtzRegistry.WithoutDistinct | src/devices/camera/ptz_controller.py:60 | removal keeps the names distinct |
| PtzRegistry.DropOnly | src/devices/camera/ptz_controller.py:59-63 | after the pop the name is unknown, other names are unaffected, and an absent name changes nothing |
| PtzRegistry.DropOrder | src/devices/camera/ptz_controller.py:60 | the remaining names keep their order |
| PtzRegistry.RegisterThenDrop | src/devices/camera/ptz_controller.py:37-60 | registering a new camera and removing it restores the registry |
| CameraPtzController.TeardownAppend | src/devices/camera/ptz_controller.py:72-74 | tearing down one more camera appends its stop and release |
| CameraPtzController.TeardownStep | src/devices/camera/ptz_controller.py:72-74 | one loop iteration extends the teardown by one camera |
| CameraPtzController.TeardownStopsEach | src/devices/camera/ptz_controller.py:71-74 | every camera removed is stopped, released exactly when its class can release, and nothing else is touched |
| CameraPtzController.RemovedOnly | src/devices/camera/ptz_controller.py:55-77 | removing an unknown name raises; removing all empties the registry; removing one name leaves the others |
| CameraPtzController.PTZController.constructor | src/devices/camera/ptz_controller.py:10 | an empty registry, no actions |
| CameraPtzController.PTZController.New | src/devices/camera/ptz_controller.py:12-41 | `PTZController(name, vendor_class, ...)` registers with the name passed on to the vendor class |
| CameraPtzController.PTZController.GetCamera | src/devices/camera/ptz_controller.py:43-48 | `get`: the registered camera, KeyError otherwise |
| CameraPtzController.PTZController.ListCameras | src/devices/camera/ptz_controller.py:50-53 | the distinct registered names, in registration order |
| CameraPtzController.PTZController.Release | src/devices/camera/ptz_controller.py:59-68 | `_release`: found exactly when registered; the entry is popped and its stream released when the class can |
| CameraPtzController.PTZController.StopAndRelease | src/devices/camera/ptz_controller.py:73-74 | the camera is stopped, then released |
| CameraPtzController.PTZController.RemoveAll | src/devices/camera/ptz_controller.py:71-74 | every camera is stopped and released in order and the registry emptied |
| CameraPtzController.PTZController.RemoveNext | src/devices/camera/ptz_controller.py:72-74 | one turn of the loop stops and releases the next registered camera, drops it from the dict and keeps the others as they were |
| CameraPtzController.PTZController.Remove | src/devices/camera/ptz_controller.py:55-77 | ValueError for an unknown name, changing nothing; otherwise the named camera or all of them are stopped, released and removed |
| DevicesPtzController.RemoveTwice | src/ptz_devices/ptz_controller.py:55-63 | removing a name twice is removing it once; an unknown name changes nothing |
| DevicesPtzController.PTZController.constructor | src/ptz_devices/ptz_controller.py:10 | an empty registry, no actions |
| DevicesPtzController.PTZController.New | src/ptz_devices/ptz_controller.py:12-41 | registers without passing the name to the vendor class |
| DevicesPtzController.PTZController.GetCamera | src/ptz_devices/ptz_controller.py:43-48 | `get`: the registered camera, KeyError otherwise |
| DevicesPtzController.PTZController.ListCameras | src/ptz_devices/ptz_controller.py:50-53 | the distinct registered names, in registration order |
| DevicesPtzController.PTZController.Remove | src/ptz_devices/ptz_controller.py:55-63 | the entry is deleted and its stream released when the class can; an unknown name changes nothing |
| Numbers.Abs | src/tracking/ibvs_tracker.py:93-95 | `abs` is non-negative and is x or -x |
| Numbers.Trunc | src/tracking/ibvs_tracker.py:117 | `int()` truncates toward zero |
| Numbers.TruncWhole | src/tracking/ibvs_tracker.py:117 | `int()` of a whole number gives it back |
| Numbers.Clamp | src/tracking/ibvs_tracker.py:93-95 | `max(min(x, hi), lo)` lies in [lo, hi] when that is not empty, keeps x inside it, and is lo when hi < lo |
| Numbers.MapAngleEnds | src/ptz_devices/vendors/hikvision/ds_2dy9250iax_a.py:357-362 | the angle map sends 0 to the start and the full angle to the end |
| Numbers.FloorMonotone | src/ptz_devices/vendors/hikvision/ds_2dy9250iax_a.py:357-362 | `math.floor` is monotone |
| Numbers.ScaleMonotone | src/ptz_devices/vendors/hikvision/ds_2dy9250iax_a.py:357-362 | scaling by a non-negative span is monotone |
| Numbers.MapAngleMonotone | src/ptz_devices/vendors/hikvision/ds_2dy9250iax_a.py:357-362 | the angle map is monotone |
| Numbers.MapAngleRange | src/ptz_devices/vendors/hikvision/ds_2dy9250iax_a.py:357-362 | angles in [0, full] map into [start, end] |
| HikvisionPtz.NormalizeSpeed | src/ptz_devices/vendors/hikvision/ds_2dy9250iax_a.py:208-210 | the speed is clamped to 1..7 and multiplied by 15 |
| HikvisionPtz.ValidateAxis | src/ptz_devices/vendors/hikvision/ds_2dy9250iax_a.py:212-220 | the upper-cased axis when it is X, Y or XY; XY otherwise |
| HikvisionPtz.UpperOfValid | src/ptz_devices/vendors/hikvision/ds_2dy9250iax_a.py:214 | a valid axis is already upper case |
| HikvisionPtz.UpperTwice | src/ptz_devices/vendors/hikvision/ds_2dy9250iax_a.py:214 | upper-casing twice is upper-casing once |
| HikvisionPtz.ValidateAxisIdempotent | src/ptz_devices/vendors/hikvision/ds_2dy9250iax_a.py:212-220 | validating twice is validating once, and the casing of the input does not matter |
| HikvisionPtz.PanTiltOfAxis | src/ptz_devices/vendors/hikvision/ds_2dy9250iax_a.py:222-232 | pan moves exactly unless the axis is Y, tilt exactly unless it is X, each at the speed and in its chosen direction |
| HikvisionPtz.NoBracketInInt | src/ptz_devices/vendors/hikvision/ds_2dy9250iax_a.py:141-143 | a rendered integer holds no `<` |
| HikvisionPtz.IntToStringInjective | src/ptz_devices/vendors/hikvision/ds_2dy9250iax_a.py:141-143 | distinct integers render differently |
| HikvisionPtz.SplitAtFirst | src/ptz_devices/vendors/hikvision/ds_2dy9250iax_a.py:141-143 | texts joined at a separator they do not contain split back uniquely |
| HikvisionPtz.TwoFieldsInjective | src/ptz_devices/vendors/hikvision/ds_2dy9250iax_a.py:141-143 | two bracket-free fields inside the same template are recovered uniquely |
| HikvisionPtz.ContinuousXmlInjective | src/ptz_devices/vendors/hikvision/ds_2dy9250iax_a.py:141-143 | different pan/tilt pairs give different XML bodies |
| HikvisionPtz.AngleToAzimuthRange | src/ptz_devices/vendors/hikvision/ds_2dy9250iax_a.py:357-362 | angles in [0, 90] map into the azimuth range, monotonically |
| HikvisionPtz.AngleToAzimuthEnds | src/ptz_devices/vendors/hikvision/ds_2dy9250iax_a.py:357-362 | 0 maps to the start azimuth and 90 to the end azimuth |
| HikvisionPtz.ContinuousCommandBounds | src/ptz_devices/vendors/hikvision/ds_2dy9250iax_a.py:239-279 | a continuous start always moves some axis, each moving axis at a multiple of 15 between 15 and 105 |
| HikvisionPtz.AngleTarget | src/ptz_devices/vendors/hikvision/ds_2dy9250iax_a.py:371-402 | no move without an angle, within a second of the last move, or when both angles change by less than 1.5; otherwise the target takes the current angle for the one omitted |
| HikvisionPtz.AngleTargetSettles | src/ptz_devices/vendors/hikvision/ds_2dy9250iax_a.py:384-402 | repeating the current angles or calling again within a second never moves |
| HikvisionPtz.DS2DY9250IAXA.constructor | src/ptz_devices/vendors/hikvision/ds_2dy9250iax_a.py:50-86 | initialised exactly with a host, a user name and a password; position 0, angles -50, no status, nothing sent |
| HikvisionPtz.DS2DY9250IAXA.SetAbsolutePtzPosition | src/ptz_devices/vendors/hikvision/ds_2dy9250iax_a.py:146-172 | AttributeError without a client attribute; otherwise the command is sent and the cached position becomes the target exactly when the camera accepted it |
| HikvisionPtz.DS2DY9250IAXA.StartContinuous | src/ptz_devices/vendors/hikvision/ds_2dy9250iax_a.py:239-279 | the normalised continuous command is sent and its acceptance returned; the cached state is unchanged |
| HikvisionPtz.DS2DY9250IAXA.UpdateStatus | src/ptz_devices/vendors/hikvision/ds_2dy9250iax_a.py:334-347 | a status reply replaces the cached position with its integer fields and is stored; a failed read changes nothing |
| HikvisionPtz.DS2DY9250IAXA.StopContinuous | src/ptz_devices/vendors/hikvision/ds_2dy9250iax_a.py:281-293 | a zero pan/tilt command is sent, then the status is refreshed |
| HikvisionPtz.DS2DY9250IAXA.GoToAngle | src/ptz_devices/vendors/hikvision/ds_2dy9250iax_a.py:371-411 | False when uninitialised or when the angle target does not move; otherwise the angles and time are recorded, TypeError without an azimuth range, else the mapped azimuth and theta as elevation are sent at the current zoom |
| HikvisionCamera.AsWrittenRefreshSwapsAxes | src/devices/camera/vendors/hikvision/ds_2dy9250iax_a.py:155-229 | with logical ranges equal to the hardware ones and a linear map, pan 1800 and tilt 0 go out as azimuth 1800, elevation 0 and come back from `_convert_hardware_to_logical` as pan 0 and tilt 1800 |
| HikvisionCamera.RefreshAfterMove | src/devices/camera/vendors/hikvision/ds_2dy9250iax_a.py:155-229 | with the axes paired as the forward conversion pairs them, any whole-degree position sent to the camera reads back unchanged |
| HikvisionCamera.MoveDueCases | src/devices/camera/vendors/hikvision/ds_2dy9250iax_a.py:274-301 | an absolute or relative request naming no axis is never sent (positive tolerance); nothing is sent before the rate-limit interval has elapsed; a zoom change after it is always sent |
| HikvisionCamera.RelativeIsAbsolute | src/devices/camera/vendors/hikvision/ds_2dy9250iax_a.py:351-363 | a relative move is the absolute move to the current position plus the offsets, and no offsets means the current position |
| HikvisionCamera.ContinuousSpeedUnclamped | src/devices/camera/vendors/hikvision/ds_2dy9250iax_a.py:430-434 | this driver multiplies the speed by 15 without clamping it, so the pan speed sent grows with any positive speed |
| HikvisionCamera.DS2DY9250IAXA.constructor | src/devices/camera/vendors/hikvision/ds_2dy9250iax_a.py:46-107 | initialised exactly when host, user name and password are non-empty and the client connected; position (0, 0, 1), hardware (0, 0, 1), last update 0, nothing sent |
| HikvisionCamera.DS2DY9250IAXA.SetAbsolutePtzPosition | src/devices/camera/vendors/hikvision/ds_2dy9250iax_a.py:231-328 | False and no change when uninitialised, within tolerance or rate-limited; otherwise the time is recorded, the converted command sent, and the logical and hardware caches take the target exactly when the camera accepted it |
| HikvisionCamera.DS2DY9250IAXA.SendAbsolute | src/devices/camera/vendors/hikvision/ds_2dy9250iax_a.py:303-328 | records the time, sends the converted absolute command, and updates both caches only on acceptance |
| HikvisionCamera.DS2DY9250IAXA.SetRelativePtzPosition | src/devices/camera/vendors/hikvision/ds_2dy9250iax_a.py:330-363 | behaves as the absolute move to the current position plus the given offsets |
| HikvisionCamera.DS2DY9250IAXA.StartContinuous | src/devices/camera/vendors/hikvision/ds_2dy9250iax_a.py:365-441 | False when uninitialised; otherwise the continuous command for speed times 15 is sent and its acceptance returned; cached positions unchanged |
| HikvisionCamera.DS2DY9250IAXA.UpdateStatus | src/devices/camera/vendors/hikvision/ds_2dy9250iax_a.py:442-465 | corrected (the code as written swaps the axes): a status reply sets the hardware cache to its fields and the logical cache to their conversion back, pan from azimuth and tilt from elevation; uninitialised or a failed read changes nothing |
| HikvisionCamera.DS2DY9250IAXA.StopContinuous | src/devices/camera/vendors/hikvision/ds_2dy9250iax_a.py:466-479 | corrected as UpdateStatus is: a zero continuous command is sent, then the status is refreshed through the corrected conversion back |
| Ptz.AngleAzimuthRange | src/ptz/ptz.py:93-95 | the floor of the linear angle map sends 0 degrees to azimuth 750 and 30 to 1200, stays within 750..1200 between them and never decreases as the angle grows |
| Ptz.PTZ.constructor | src/ptz/ptz.py:21-40 | a client exists exactly when a user name or a password is given; position and angle start at 0 and nothing has been sent |
| Ptz.PTZ.SetPosition | src/ptz/ptz.py:42-73 | without a client, False and no change; otherwise the position is recorded before sending, the absolute command is sent and the camera's acceptance returned |
| Ptz.PTZ.GetStatus | src/ptz/ptz.py:75-87 | the camera's status when there is a client and the read succeeds, empty otherwise |
| Ptz.PTZ.SetAngle | src/ptz/ptz.py:89-95 | the angle is always stored; with a client the camera is moved to the mapped azimuth at the current elevation and zoom |
| IbvsTracker.DeadBand | src/tracking/ibvs_tracker.py:65-69 | an error smaller in magnitude than the dead zone becomes 0, any other is kept |
| IbvsTracker.Saturate | src/tracking/ibvs_tracker.py:93-95 | the clamped velocity never exceeds the limit in magnitude, and one already within it is unchanged |
| IbvsTracker.Smooth | src/tracking/ibvs_tracker.py:101-111 | the low-pass output lies between the previous and the new velocity |
| IbvsTracker.Command | src/tracking/ibvs_tracker.py:57-95 | the saturated P-control velocity lies within the pan, tilt and zoom limits |
| IbvsTracker.ControlBounded | src/tracking/ibvs_tracker.py:85-115 | smoothing a bounded previous velocity with the new command keeps it within the limits |
| IbvsTracker.CentredDecays | src/tracking/ibvs_tracker.py:62-107 | a box centred within the dead zone makes pan and tilt decay by the smoothing factor alone |
| IbvsTracker.OutputOfBounded | src/tracking/ibvs_tracker.py:117 | the integer output of a bounded velocity is within -10..10 for pan and tilt and always 0 for zoom |
| IbvsTracker.IBVSTracker.constructor | src/tracking/ibvs_tracker.py:27-31 | the previous velocity is zero and no frame has been missed |
| IbvsTracker.IBVSTracker.Update | src/tracking/ibvs_tracker.py:33-117 | a missing or malformed box counts a miss and returns zeros only after more than 50; a degenerate box is ignored; a proper box resets the miss count, is ignored if its area is at most 1e-6, and otherwise updates the smoothed velocity and returns its integer part, whose zoom is always 0 |
| IbvsTracker.IBVSTracker.Steer | src/tracking/ibvs_tracker.py:57-117 | for a proper box: nothing when the area is at most 1e-6, otherwise the smoothed control velocity is stored and returned truncated |
| PidTracker.DistanceFromCenter | src/tracking/pid_tracker.py:56-76 | defined exactly for four coordinates; anything else is the ValueError of the tuple unpacking |
| PidTracker.DistanceProperties | src/tracking/pid_tracker.py:56-76 | for a normalised box the offset is within -0.5..0.5 on each axis, it is zero exactly when the box is centred on that axis, and mirroring the box negates it |
| PidTracker.PIDTracker.constructor | src/tracking/pid_tracker.py:21-54 | the three controllers are the given ones, in their given initial states |
| PidTracker.PIDTracker.Update | src/tracking/pid_tracker.py:78-91 | no box gives nothing; a box of the wrong length raises ValueError; otherwise each controller advances once, on the horizontal offset, the vertical offset and the box width, and the tilt output is negated |
| RtspStream.RecordingPath | src/computer_vision/rtsp_stream.py:209 | the recording file is the saving path, a slash, the camera name and ".mp4", in that order |
| RtspStream.ConsistentPreserved | src/computer_vision/rtsp_stream.py:188-269 | starting, stopping and finalising a recording, and stopping the stream, keep the state consistent: while a recording pipeline exists, requests are pending and the recording file is the one that pipeline writes (a file may outlive its pipeline) |
| RtspStream.StartRecCases | src/computer_vision/rtsp_stream.py:200-226 | the first request creates the pipeline on the new path and fails with RuntimeError, leaving no pipeline and the count unchanged, when it cannot play; later requests only count |
| RtspStream.StopRecCases | src/computer_vision/rtsp_stream.py:261-269 | with no request it does nothing; otherwise it uncounts one, and the last one finalises the file and drops the pipeline |
| RtspStream.BalancedSession | src/computer_vision/rtsp_stream.py:200-269 | from an idle recorder, one start followed by one stop finalises exactly the new file and returns to the idle state |
| RtspStream.StopKeepsRequests | src/computer_vision/rtsp_stream.py:178-258 | stopping the stream finalises the active recording but leaves the request count as it was |
| RtspStream.OrphanedCreatesNothing | src/computer_vision/rtsp_stream.py:188-269 | after the stream was stopped with requests pending, a further start only counts and no stop finalises anything |
| RtspStream.OrphanedReplay | src/computer_vision/rtsp_stream.py:188-269 | any sequence of starts and stops that never brings the count to zero, from that orphaned state, creates and finalises no file and ends with the running balance as count |
| RtspStream.RtspSource.constructor | src/computer_vision/rtsp_stream.py:34-71 | not playing, no frame, no request, no pipeline and no recording file |
| RtspStream.RtspSource.Start | src/computer_vision/rtsp_stream.py:156-175 | nothing when already playing; RuntimeError when the pipeline cannot play; otherwise playing |
| RtspStream.RtspSource.StopRecordingPipeline | src/computer_vision/rtsp_stream.py:228-258 | the active recording, if any, is finalised and dropped with its file |
| RtspStream.RtspSource.Stop | src/computer_vision/rtsp_stream.py:177-197 | the recording is finalised when requests are pending, then the stream stops or RuntimeError is raised |
| RtspStream.RtspSource.StartRecording | src/computer_vision/rtsp_stream.py:199-226 | the recorder moves as StartRec describes, on the file named by RecordingPath |
| RtspStream.RtspSource.StopRecording | src/computer_vision/rtsp_stream.py:260-269 | the recorder moves as StopRec describes |
| RtspStream.RtspSource.HandleNewSample | src/computer_vision/rtsp_stream.py:111-154 | ERROR exactly when no sample or no buffer arrives; a decoded frame becomes the latest frame, and anything else keeps it |
| RtspStream.RtspSource.GetFrame | src/computer_vision/rtsp_stream.py:276-280 | the latest frame is taken and cleared; success exactly when playing and a frame was there |
| DetectionRecorder.Repeat | src/computer_vision/detection_recorder.py:42-46 | the frames one catch-up loop writes: exactly n copies of the same frame |
| DetectionRecorder.Writes | src/computer_vision/detection_recorder.py:42-46 | the catch-up loop writes the frame once per grid time, and nothing when the frame is None |
| DetectionRecorder.TicksExact | src/computer_vision/detection_recorder.py:42-46 | the catch-up loop writes one frame for each grid time not after the frame's timestamp, and stops at the first grid time after it |
| DetectionRecorder.TicksAdd | src/computer_vision/detection_recorder.py:38-46 | catching up to one timestamp and then to a later one writes as many frames as catching up to the later one at once |
| DetectionRecorder.GridStep | src/computer_vision/detection_recorder.py:46 | advancing the presentation time by one interval moves to the next grid point |
| DetectionRecorder.GridShift | src/computer_vision/detection_recorder.py:46 | grid points measured from a grid point are grid points of the original start |
| DetectionRecorder.DrainPaces | src/computer_vision/detection_recorder.py:28-48 | draining a time-ordered queue from a set presentation time leaves the next presentation time on the grid just after the last timestamp and, when no frame is None, writes one frame per grid time up to it |
| DetectionRecorder.SingleFrame | src/computer_vision/detection_recorder.py:28-48 | a frame earlier than the next presentation time writes nothing; the first frame of a session is written once (never if it is None) and the timeline starts one interval after it |
| DetectionRecorder.VideoLength | src/computer_vision/detection_recorder.py:28-48 | a session of frames none of which is None writes floor((last - first) / interval) + 1 frames, so its length tracks wall-clock time |
| DetectionRecorder.DetectionRecording.constructor | src/computer_vision/detection_recorder.py:11-26 | the interval is 1/fps; empty queue, not recording, no timeline and nothing written |
| DetectionRecorder.DetectionRecording.StartRecording | src/computer_vision/detection_recorder.py:50-60 | nothing when already recording; otherwise recording, stop flag cleared, start time recorded and the timeline reset |
| DetectionRecorder.DetectionRecording.UpdateFrame | src/computer_vision/detection_recorder.py:62-72 | while recording and below the 200-frame capacity, the frame is queued with its timestamp; otherwise it is dropped |
| DetectionRecorder.DetectionRecording.WorkerStep | src/computer_vision/detection_recorder.py:28-48 | the oldest frame is dequeued and becomes the last frame; it is written once per grid time up to its timestamp, or not at all when it is None; the next presentation time ends after it either way |
| DetectionRecorder.DetectionRecording.StopRecording | src/computer_vision/detection_recorder.py:74-81 | nothing when not recording; otherwise the worker drains the whole queue as Drain describes and the writer is released |

## Left out

- GStreamer plumbing is not modelled: pipeline strings, `parse_launch`, `iterate_elements` (see Engine.Scan below), state changes, bus waits and signal wiring. Each appsink is a callback delivering `(channel id, bytes)`, and the outcome of every state change is a parameter.
- Frame byte sizes and sample decoders are independent parameters. Whether the rtp, alsa and file sources size frames to match the decoder they feed is not proved.
- The worker threads and `_run` polling loops are not modelled as threads. Each lock-protected callback and each worker pass is one atomic method; interleavings and `join` timing are not modelled.
- `map_range` and the BaseVendor ranges, angle tolerance and rate-limit interval are not part of this model. They are parameters of `HikvisionCamera` with no property assumed.
- SourceAccumulator.GstreamerSource.constructor: the module imports `MultiChannelQueue` from src/audio/utils.py, which defines only `bytes_to_audio`, so as written importing it raises ImportError. The model takes the class of src/audio/multi_channel_queue.py.
- MultiChannel.MultiChannelQueue.HasData and MultiChannel.MultiChannelQueue.Clear: the queue class defines neither `has_data` nor `clear`, so as written both calls raise AttributeError. They model the reading their callers need: a ready frame set exists, and every channel queue and ready frame set is dropped.
- SourceAccumulator.GstreamerSource.RunTick: reads `has_data()` as HasData. As written the first tick while running raises AttributeError at src/audio/sources/gstreamer_source.py:32.
- SourceAccumulator.GstreamerSource.ClearPendings: reads `clear()` as Clear. As written the call raises AttributeError before the pending bytes are reset.
- SourceAccumulator.GstreamerSource.Stop: clears through that reading. As written a started source's `stop()` ends in the AttributeError of `clear_pendings`, with nothing reset.
- MultiChannel.MultiChannelQueue.Get: puts from other threads during a blocking wait are not modelled. A blocking call without a timeout on no ready frame is the outcome NeverReturns, and one with a timeout raises queue.Empty without modelling the wait.
- Engine.Scan and Engine.GStreamerEngine.ConnectSinks: the element iterator (`iterate_elements`) is a plain sequence of elements. Its ERROR result, which raises RuntimeError, and its RESYNC result, which restarts the iteration while keeping the ids already registered (so an appsink visited again raises the duplicate-id ValueError), are not modelled.
- The ADC static checkup under `src/adc_devices/utils` is not part of this model; it is a parameter of `AdcDeviceManager`.
- Floating point is not modelled: floats are exact reals.
  - `cos`, `sin` and `atan2` (angle of arrival) and `math.log` (IBVS zoom error) are uninterpreted function parameters.
  - The float32 reinterpretation and `nan_to_num` of the monitor script are one decoder parameter.
  - `int(rec_hz * record_duration / 1e9 * 3)` is computed as an exact floor.
- Sockets, the hikvisionapi client, psutil, pyshark sniffing, ping, cv2 capture and file reads and writes are not modelled. They appear as inputs (a reply, a packet list, the `net_if_addrs` items, the file map) or as the sequence of commands sent.
- Connection failures in constructors are not modelled. A client that fails to connect is modelled as no client; the `ConnectionError` that `PTZ.__init__` re-raises is not.
- `YamahaRemoteControl.__init__` and `scan_devices` open sockets and are not modelled; the connection is represented by what the peer does with each framed command.
- `decode_as` in the packet capture is not modelled: packets arrive already decoded.
- Strings.ParseInt and Settings.IntOf: `int()` of non-ASCII digits or whitespace is not modelled; it is read only on ASCII text.
- Python string methods are modelled on ASCII text only. `isdigit`, `strip`, `lower`, `upper` and `int()` on non-ASCII digits and spaces, and JSON string escaping of unprintable characters, are not modelled.
- JSON floats are not modelled; numbers in the device files are integers.
- `__str__`/`to_string` renderings are modelled only for fields that contain no comma.
- The vendor `__new__`/`_initialized` singleton patterns are not modelled beyond the initialisation gate the drivers test.
- The following camera operations are not modelled. They only send XML or read back cached values without logic of their own:
  - the absolute-position and 3D-position XML builders and `set_3d_position`;
  - `get_azimuth`, `get_elevation`, `get_zoom`, `get_status`, `get_instance`;
  - `get_video_stream` and `release_stream`;
  - `_angle_to_elevation`.
- The `GStreamerEngine` constructor's parse failure and cleanup are not modelled. Its `start` and `stop` only set external pipeline states.
- `RtspSource.get_fps` and the frame-rate read in `_handle_new_sample` are not modelled. They depend on the layout the GObject binding gives `get_fraction`. The constructor's failure path (GStreamer init or pipeline parse raising) is not modelled either.
- The detection recorder's video writer is modelled by the list of frames written to it. Its codec, frame size and file are not modelled.
- SourceAccumulator.GstreamerSource.OnNewSample: with a frame size (`required_buffer_size`) of 0 the slicing loop never ends. The call is modelled as the outcome NeverReturns, with the pending bytes and the queue unchanged. The empty frames the endless loop keeps putting on the queue are not modelled; FrameSlicer.ZeroEndless proves that the loop guard never fails. SliceChannelCorrected models the evidently intended size-0 behaviour (see Findings).
- GstAudioSource.GStreamerAudioSource.OnNewSample: the same holds for a `required_data` of 0. That happens when a segment is shorter than a third of one sample period (`rec_hz` times the duration in nanoseconds below 10^9 / 3); through the settings, which multiply the duration in milliseconds by 10^6, it takes a duration of 0 or a rate times milliseconds of at most 333.
- Engine.GStreamerEngine.HandleNewSample: when the callback never returns, the model gives FlowError with NeverReturns, although the source returns no flow value at all.
- DetectionRecorder.DetectionRecording.constructor: requires fps > 0. With fps 0 the source raises ZeroDivisionError in `1.0 / fps`, and a constructor cannot return that error.
- AudioDeviceController.ControllerManager.LoadDevicesFromFiles: models the corrected loading (see Findings), in which a saved stage box is restored through LoadSaved. The source skips every saved Yamaha entry; that behaviour is modelled separately by AudioDeviceController.YamahaNeverLoads.
- AudioDeviceController.ControllerManager.AutoDiscover: models the corrected discovery (see Findings), in which a found stage box is added. The source raises TypeError on `extend` and loses it; that behaviour is modelled separately by AudioDeviceController.YamahaScanLost.
- HikvisionCamera.DS2DY9250IAXA.StopContinuous: refreshes the position through the corrected hardware-to-logical conversion (see Findings). The source swaps the axes there; the as-written conversion is modelled separately with its counterexample.
- HikvisionCamera.DS2DY9250IAXA.UpdateStatus: uses the corrected hardware-to-logical conversion (see Findings). The source swaps the axes there; the as-written conversion is modelled separately with its counterexample.
- PID controllers from simple_pid are not modelled internally. Each is an opaque state with a step function parameter, so sample times and output limits have no properties here.
- The ML models, DSP strategies, UI, calibration and debug tools are outside the modelled core.

## Findings

| source | as written | input that shows it | evidently intended | confidence | as-written member | corrected member |
|---|---|---|---|---|---|---|
| src/devices/audio/audio_device_controller.py:104 | `YamahaTio1608Controller(ip, auto_discovery=False)` passes an argument the constructor (`__init__(self, ip)`) does not take, so the TypeError is caught and the entry is skipped | any saved controller entry named `YamahaTio1608` with a reachable IP | the saved stage box is restored with its devices | not executed | AudioDeviceController.YamahaNeverLoads | AudioDeviceController.LoadSaved |
| src/devices/audio/audio_device_controller.py:187-189 | `discovered_controllers.extend(controllers)` on the result of `YamahaTio1608Controller.scan_devices`, which returns one controller or None, raises TypeError, so the stage box is never discovered | a Yamaha scan that finds one controller | the found stage box is added to the discovered controllers | not executed | AudioDeviceController.YamahaScanLost | AudioDeviceController.ControllerManager.AutoDiscover |
| src/devices/camera/vendors/hikvision/ds_2dy9250iax_a.py:224-229 | `_convert_hardware_to_logical(elevation, azimuth, zoom)` maps the elevation through the pan ranges and the azimuth through the tilt ranges | pan 1800, tilt 0 with a linear `map_range` and logical ranges equal to the hardware ones: after `_update_status` the pan reads 0 and the tilt 1800 | the pan is mapped back from the azimuth and the tilt from the elevation, so a position reads back as sent | not executed | HikvisionCamera.AsWrittenRefreshSwapsAxes | HikvisionCamera.RefreshAfterMove |
| src/audio/sources/gstreamer_source.py:54-59 | `while len(pending) >= self.required_buffer_size` with the constructor's default `buffer_size=0`: the guard never fails and every turn cuts an empty frame, so `_on_new_sample` never returns | a source built with the default size receiving any sample before `set_buffer_size` | a size of 0 means no buffering: every pending byte is taken at once as one frame and nothing stays pending, as the monitor script does (test.py:62-67) | not executed | FrameSlicer.ZeroEndless | SourceAccumulator.GstreamerSource.SliceChannelCorrected |
| src/audio/gstreamer_source.py:153-156 | `while len(data) >= self.required_data` with `required_data = int(rec_hz * record_duration / 1e9 * 3)` (line 44), which is 0 when a segment is shorter than a third of one sample period: the loop never ends | `rec_hz` times the duration in nanoseconds below 10^9 / 3, such as a duration of 0 | a size of 0 means no buffering: every pending byte is taken at once as one frame and nothing stays pending, as the monitor script does (test.py:62-67) | not executed | FrameSlicer.ZeroEndless | GstAudioSource.GStreamerAudioSource.SliceSinkCorrected |
