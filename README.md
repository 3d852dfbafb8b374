# hello-aaudio: the buffer tuner, the engine flags and the render loop

This project models the native core of the hello-aaudio sample player,
`aaudio/hello-aaudio/src/main/cpp/audio_main.cpp`, and proves what it promises.

- **The AAudio stream** (`aaudio.dfy`, module `AAudio`). `Stream` is a class
  whose fields are what the player reads and changes: its state, buffer size,
  underrun count and call counters. A ghost `log` records every mutating call
  (requestStart, setBufferSizeInFrames, write, requestStop, close). The
  platform is not modelled. What it answers is a `Device` oracle, indexed by
  how many calls of each kind came before: the start result, the n-th set
  result, the n-th write result and the underrun count after the n-th write.
  Every property below holds for every such oracle.
- **TunePlayerForLowLatency** (`tuner.dfy`, module `Tuner`). The tuner starts
  at one burst and grows the buffer one burst above the size in force at a
  time. It stops when a full-capacity write of silence adds no underrun, when
  the platform will not grow the buffer, or when the next candidate exceeds
  the capacity. After a rejected request or a failed write it asks for the
  size it found on entry and returns false.
  - `Probe` and `Tune` are the specification: the outcome, the calls issued,
    the successive values of `prevXRun` and the final stream, as functions of
    the stream and the oracle.
  - `TunePlayerForLowLatency`, `ProbeLoop` and `TryCandidate` are the loop
    itself, proved to do exactly that.
  - The `Probe…` and `Tune…` lemmas state the tuner's promises.
  - The loop terminates without any assumption about the platform. It only
    goes round again when the 32-bit underrun count has strictly risen.
- **The engine record** (`controller.dfy`, module `Controller`). `Engine` is
  the single `AAudioEngine` instance: `createEngine`, `start`, `stop` and
  `deleteEngine` as methods on its fields. `Flags` is the part of the record
  the render thread decides on. `OnStart`, `OnStop`, `OnDelete` and `Replay`
  say what the entry points do to it, and the lemmas relate sequences of
  calls.
- **PlayAudioThreadProc** (`render.dfy`, module `Render`).
  - The thread tunes the stream. It then writes one burst at a time, silence
    or the tones as `playAudio_` says, until it sees `requestStop_`.
  - It then clears the request, stops and closes the stream and drops the
    handle.
  - The application's calls while the thread runs are a sequence of hooks:
    one is applied after each burst, before the next check of `requestStop_`.
  - `Render` is the specification and `RenderLoop` the loop proved against it.
  - `RenderBurst`, `ZeroFill` and `RenderChannel` refill the burst buffer in
    place.

## Model

| member | source | states |
|---|---|---|
| AAudio.AfterSet | aaudio/hello-aaudio/src/main/cpp/audio_main.cpp:233-242 | a set call counts as one more; the size in force becomes the granted size when the answer is positive and stays otherwise; nothing else changes |
| AAudio.AfterWrite | aaudio/hello-aaudio/src/main/cpp/audio_main.cpp:249-256 | a write counts as one more, and the underrun count read afterwards is the platform's report for that write; nothing else changes |
| AAudio.Stream.Open | aaudio/hello-aaudio/src/main/cpp/audio_main.cpp:141-143 | a created stream is open, with no underruns and no calls issued |
| AAudio.Stream.RequestStart | aaudio/hello-aaudio/src/main/cpp/audio_main.cpp:148 | answers the platform's start result; the stream is started exactly when that is AAUDIO_OK; one StartCall is logged |
| AAudio.Stream.SetBufferSizeInFrames | aaudio/hello-aaudio/src/main/cpp/audio_main.cpp:233 | answers the platform's n-th set result and applies it when positive; the request is logged |
| AAudio.Stream.Write | aaudio/hello-aaudio/src/main/cpp/audio_main.cpp:101-104 | the buffer must hold `frames` whole frames; logs exactly those samples; the underrun count becomes the platform's report |
| AAudio.Stream.RequestStop | aaudio/hello-aaudio/src/main/cpp/audio_main.cpp:111 | the stream is stopped and StopCall is logged |
| AAudio.Stream.Close | aaudio/hello-aaudio/src/main/cpp/audio_main.cpp:113 | the stream is closed and no further call can be made on it |
| Tuner.Probe | aaudio/hello-aaudio/src/main/cpp/audio_main.cpp:232-263 | the loop ends on one of the three completed exits or one of the two errors; it leaves state, capacity and geometry alone; it made no set call exactly when even the first candidate exceeds the capacity, and then nothing changed |
| Tuner.Candidate | aaudio/hello-aaudio/src/main/cpp/audio_main.cpp:233-246 | a candidate within capacity costs at least one set call, its own request |
| Tuner.Trial | aaudio/hello-aaudio/src/main/cpp/audio_main.cpp:249-262 | the trial half of a round keeps state, capacity and geometry |
| Tuner.ProbeRound | aaudio/hello-aaudio/src/main/cpp/audio_main.cpp:232-263 | one round, case by case: a rejected set, an unchanged size, a failed write and no new underruns each end the loop with the calls made so far; otherwise the loop goes on one burst above the applied size with the new underrun count |
| Tuner.ProbeContinues | aaudio/hello-aaudio/src/main/cpp/audio_main.cpp:256-262 | a round that goes on issues exactly a set request and a silent write, records the new underrun count and restarts from the applied size plus one burst |
| Tuner.ProbeStops | aaudio/hello-aaudio/src/main/cpp/audio_main.cpp:233-260 | a round that stops issued the set request and at most one write, and recorded no underrun count |
| Tuner.ProbeRequests | aaudio/hello-aaudio/src/main/cpp/audio_main.cpp:222-262 | the requests are the set calls made; there is at least one exactly when the first candidate fits the capacity; the first is the starting size; each later one is the size granted to the one before plus one burst; none exceeds the capacity |
| Tuner.ProbeUnderruns | aaudio/hello-aaudio/src/main/cpp/audio_main.cpp:256-262 | prevXRun only takes strictly larger values, each the count reported after one more write; one set call per recorded count plus one for the last round; an exit on no new underruns saw a count not above the last prevXRun |
| Tuner.ProbeLastGrant | aaudio/hello-aaudio/src/main/cpp/audio_main.cpp:233-246 | the loop ends on a rejected set exactly when the last set answered <= AAUDIO_OK; otherwise the size in force is what the last set granted |
| Tuner.Tune | aaudio/hello-aaudio/src/main/cpp/audio_main.cpp:212-273 | the result is true exactly when the stream was started and the loop ended on a completed exit, false exactly when it was not started or hit an error; the stream's state, capacity and geometry are kept |
| Tuner.ProbeWritesSilence | aaudio/hello-aaudio/src/main/cpp/audio_main.cpp:225-249 | every write of the loop is `capacity` frames of silence |
| Tuner.TuneOutcome | aaudio/hello-aaudio/src/main/cpp/audio_main.cpp:212-273 | a stream that is not started is not touched and the result is false; otherwise the result is true exactly on the three completed exits and false exactly on the two errors; a true result leaves the last granted size in force (or the entry size when nothing was requested); a false one ends with a request for the entry size |
| Tuner.TuneCandidates | aaudio/hello-aaudio/src/main/cpp/audio_main.cpp:219-269 | the whole sequence of requests: one burst first if it fits the capacity, then the granted size plus one burst each time, none above the capacity, and after an error one last request for the entry size |
| Tuner.TuneUnderruns | aaudio/hello-aaudio/src/main/cpp/audio_main.cpp:229-262 | over the whole run prevXRun rises strictly from the entry count, following the platform's reports, and the writes are counted |
| Tuner.TuneWritesSilence | aaudio/hello-aaudio/src/main/cpp/audio_main.cpp:225-249 | every write of the tuner is `capacity` frames of silence |
| Tuner.AllRejected | aaudio/hello-aaudio/src/main/cpp/audio_main.cpp:232-237 | on a platform that rejects every request: when one burst fits the capacity the tuner fails with a rejected set and the entry size stays in force; when it does not, nothing is requested and the tuner succeeds with the stream untouched |
| Tuner.TunePlayerForLowLatency | aaudio/hello-aaudio/src/main/cpp/audio_main.cpp:212-273 | the method returns `Tune`'s result, logs exactly its calls and leaves the stream as `Tune` says, in the same state |
| Tuner.ProbeLoop | aaudio/hello-aaudio/src/main/cpp/audio_main.cpp:229-263 | the while loop sets trainingError exactly on the error exits of `Probe` and leaves the stream and log as `Probe` says |
| Tuner.TryCandidate | aaudio/hello-aaudio/src/main/cpp/audio_main.cpp:233-262 | one pass of the loop body: either the loop's end, with the right error flag, or the state the next round of `Probe` starts from, with a strictly larger underrun count |
| Tuner.ScratchBytesAsWritten | aaudio/hello-aaudio/src/main/cpp/audio_main.cpp:225 | the scratch buffer's byte size as allocated: `bufCap * bitsPerSample` bits rounded down to whole bytes |
| Tuner.ScratchTooSmallForStereo | aaudio/hello-aaudio/src/main/cpp/audio_main.cpp:225-249 | for 16-bit samples the scratch buffer holds exactly one channel of `bufCap` frames, fewer bytes than the write of `bufCap` frames reads when a frame has two or more samples |
| Controller.OnStart | aaudio/hello-aaudio/src/main/cpp/audio_main.cpp:163-171 | start turns playAudio_ on exactly when a stream exists and touches nothing else |
| Controller.OnStop | aaudio/hello-aaudio/src/main/cpp/audio_main.cpp:177-185 | stop turns playAudio_ off exactly when a stream exists and touches nothing else |
| Controller.OnDelete | aaudio/hello-aaudio/src/main/cpp/audio_main.cpp:192-199 | deleteEngine raises requestStop_ exactly when a stream exists and touches nothing else |
| Controller.Apply | aaudio/hello-aaudio/src/main/cpp/audio_main.cpp:163-199 | one application call keeps the stream, changes nothing without one, raises the stop request exactly on deleteEngine with a stream, and sets playAudio_ on start and clears it on stop when a stream exists |
| Controller.Replay | aaudio/hello-aaudio/src/main/cpp/audio_main.cpp:163-199 | no sequence of application calls takes the stream away or provides one |
| Controller.NoStreamNoEffect | aaudio/hello-aaudio/src/main/cpp/audio_main.cpp:163-199 | without a stream any sequence of start, stop and deleteEngine leaves the engine as it was |
| Controller.EntryPointsIdempotent | aaudio/hello-aaudio/src/main/cpp/audio_main.cpp:163-199 | stop twice is stop once, and likewise deleteEngine and start; with a stream, start then stop mutes and stop then start plays |
| Controller.ReplayKeeps | aaudio/hello-aaudio/src/main/cpp/audio_main.cpp:163-199 | no entry point takes the stream away; a stop request is never withdrawn; it is raised exactly when one was pending or a stream exists and deleteEngine was called |
| Controller.ReplayPlayAudio | aaudio/hello-aaudio/src/main/cpp/audio_main.cpp:163-185 | with a stream, the tone plays after a sequence of calls exactly when the last start or stop among them was a start, or there was none and it played before |
| Controller.Create | aaudio/hello-aaudio/src/main/cpp/audio_main.cpp:127-156 | createEngine succeeds exactly when AAudio is present, a stream was created and requestStart answered AAUDIO_OK |
| Controller.CreatedFlags | aaudio/hello-aaudio/src/main/cpp/audio_main.cpp:127-152 | after createEngine neither flag is set, and a stream is held exactly when one was created, even if starting it failed |
| Controller.Engine.constructor | aaudio/hello-aaudio/src/main/cpp/audio_main.cpp:38 | the static engine starts zeroed: no stream, no flags |
| Controller.Engine.CreateEngine | aaudio/hello-aaudio/src/main/cpp/audio_main.cpp:127-156 | returns true exactly on `Create`'s success; resets the flags; records the channel and bit configuration once AAudio is present; keeps a created stream and its sample rate, and the rate stays 0 without one; issues requestStart only on a created stream, which then changes in nothing but its state |
| Controller.Engine.Start | aaudio/hello-aaudio/src/main/cpp/audio_main.cpp:163-171 | returns whether a stream exists; the flags change as `OnStart` says; the stream, the sample rate, the channel count and the bits per sample are kept |
| Controller.Engine.Stop | aaudio/hello-aaudio/src/main/cpp/audio_main.cpp:177-185 | always returns true; the flags change as `OnStop` says; the stream, the sample rate, the channel count and the bits per sample are kept |
| Controller.Engine.DeleteEngine | aaudio/hello-aaudio/src/main/cpp/audio_main.cpp:192-199 | the flags change as `OnDelete` says; the stream, the sample rate, the channel count and the bits per sample are kept |
| Controller.Engine.Handle | aaudio/hello-aaudio/src/main/cpp/audio_main.cpp:163-199 | one application call changes the flags as `Apply` says and keeps every other field of the engine |
| Render.Fill | aaudio/hello-aaudio/src/main/cpp/audio_main.cpp:93-100 | a filled burst keeps its length, and a muted one is all zero |
| Render.Channel | aaudio/hello-aaudio/src/main/cpp/audio_main.cpp:94-96 | rendering one channel keeps the buffer's length and leaves every sample outside that channel, or past the frames rendered so far, as it was |
| Render.ToneLayout | aaudio/hello-aaudio/src/main/cpp/audio_main.cpp:94-96 | a playing burst has the right tone on the first sample of every frame, the left tone on the second sample of a stereo frame, and every further channel unchanged |
| Render.RenderBurst | aaudio/hello-aaudio/src/main/cpp/audio_main.cpp:93-100 | the buffer, refilled in place, is `Fill` of its old contents |
| Render.ZeroFill | aaudio/hello-aaudio/src/main/cpp/audio_main.cpp:99 | every sample of the buffer is zero |
| Render.RenderChannel | aaudio/hello-aaudio/src/main/cpp/audio_main.cpp:94-96 | rendering with a stride of one frame writes the generator's successive samples to one channel of every frame and nothing else |
| Render.RenderExits | aaudio/hello-aaudio/src/main/cpp/audio_main.cpp:92-114 | the loop ends on a stop request exactly when the application's calls raise one; it then leaves requestStop_ cleared and no stream held; otherwise the flags are what the calls made them |
| Render.RenderTeardown | aaudio/hello-aaudio/src/main/cpp/audio_main.cpp:101-113 | the thread issues nothing but burst writes, then, on a stop request, stop followed by close, the close last; at most one write per application call |
| Render.RenderBursts | aaudio/hello-aaudio/src/main/cpp/audio_main.cpp:92-104 | every burst written is `framesPerBurst` frames of a full buffer, and it is all zero whenever playAudio_ was off at the check before it |
| Render.DeleteEndsRendering | aaudio/hello-aaudio/src/main/cpp/audio_main.cpp:92-114 | with a stream and no pending request, if the first deleteEngine falls in hook slot k (slots counting the bursts, `NoHook` ones included), the thread writes k + 1 bursts and then stops and closes |
| Render.Render | aaudio/hello-aaudio/src/main/cpp/audio_main.cpp:92-114 | the loop keeps the buffer's length; ending on a stop request it leaves requestStop_ cleared and no stream held, after at most one write per call plus stop and close; otherwise it wrote exactly one burst per call and kept the stream |
| Render.RenderOne | aaudio/hello-aaudio/src/main/cpp/audio_main.cpp:93-105 | one pass: the buffer becomes the burst `Fill` says, exactly that burst is written, the stream changes only as one more write, and the next application call is applied; the engine's sample rate, channel count and bits per sample are kept |
| Render.Teardown | aaudio/hello-aaudio/src/main/cpp/audio_main.cpp:108-114 | requestStop_ cleared, stop then close logged, the stream closed and changed in nothing else, and the handle dropped; the engine's sample rate, channel count and bits per sample are kept |
| Render.RenderLoop | aaudio/hello-aaudio/src/main/cpp/audio_main.cpp:92-114 | the loop and teardown issue exactly `Render`'s calls and leave its flags; each burst counts as one write; the underrun count is the last write's report, or unchanged when nothing was written; the buffer size and the set calls are kept; the stream is closed exactly when a stop request was seen; when the calls run out first the engine still holds the same stream; the engine's sample rate, channel count and bits per sample are kept |
| Render.BurstLoop | aaudio/hello-aaudio/src/main/cpp/audio_main.cpp:92-106 | the while loop alone: it stops on a stop request or when the calls run out, the stream has seen only its writes (its underrun count the last write's report, or unchanged when there was none), and what is left is `Render` from where it stopped; the engine's sample rate, channel count and bits per sample are kept |
| Render.LoopPass | aaudio/hello-aaudio/src/main/cpp/audio_main.cpp:93-105 | one pass keeps the loop invariant: one more write, and the rendering that remains is `Render` after the next call; the engine's sample rate, channel count and bits per sample are kept |
| Render.PlayAudioThreadProc | aaudio/hello-aaudio/src/main/cpp/audio_main.cpp:66-117 | the stream's log grows by the tuner's calls followed by the render loop's, whatever the tuner's result; playback goes on at the buffer size the tuner left in force; the write count is the tuner's plus the loop's bursts, and the underrun count is the last write's report, or the tuner's when the loop wrote nothing; the flags and the stream's state end as the loop says; when the calls run out first the engine still holds the same stream; the engine's sample rate, channel count and bits per sample are kept |

## Left out

- Sine generation (`SineGenerator`, lines 81-83 and 94-96) is floating point and its code is not part of this model. A `Tone` is the two generators' sample sequences. The n-th sample rendered is taken to belong to the n-th frame played, counting from zero.
- Threads: `std::thread` and `detach` (lines 154-155) and the unsynchronised flag accesses are not modelled. The application's calls reach the render thread only between a write and the next check of `requestStop_`. Calls made while the tuner runs are taken as made before the first check.
- Render.Render: each burst is followed by exactly one hook, so at most one application call lands between two writes. Two calls between the same two writes (say start and then deleteEngine, which the source would answer with no further write and playAudio_ left on) cannot be expressed; the nearest hook sequence `[StartHook, DeleteHook]` writes one more burst, with the tone, before the teardown.
- Render.RenderLoop: runs for at most one burst per modelled application call. When the calls run out without a stop request, it ends with `HooksExhausted` where the thread would go on writing.
- Controller.Engine.CreateEngine: `InitAAudio`, `StreamBuilder::CreateStream` and `SampleFormatToBpp` are not part of this model. Their answers are the parameters `supported`, `created` and `bits`. The thread launch is `Render.PlayAudioThreadProc`, which the application's caller runs afterwards.
- Controller.Engine.CreateEngine: with no stream created, the source asserts (line 144) and, in a release build, goes on with a null stream. The model takes the adjacent error path and returns false with no stream held.
- Render.RenderOne: the write result is not checked. The `assert(result > 0)` at line 105 is compiled out of a release build, so the loop goes on after a failed write.
- The asserts at lines 89, 150, 226 and 252 guard allocations or sit on an error path the model already takes.
- Logging, `PrintAudioStreamInfo` and the state read for logging at line 78 are I/O and are not modelled. So is the `sampleFormat_` field, always PCM_I16.
- Write timeouts (lines 104 and 249) and partial writes are not modelled. The source does not act on the number of frames a write reports.
- Tuner.Candidate: after a positive answer to setBufferSizeInFrames, the buffer size read back at line 242 is taken to be that answer. AAudio documents the positive result as the size actually set.
- Buffer sizes, capacity and frame counts are unbounded integers. The 32-bit overflow of `bufSize + framesPerBurst` (line 262) and of `bufCap * bitsPerSample_` (line 225) is not modelled. The underrun count is an `int32` as in the source.
- Stream states other than open, started, stopped and closed (starting, pausing, disconnected) are not modelled.
- Freeing the scratch and burst buffers (`delete []`, lines 108 and 265) is not modelled.

## Findings

| source | as written | input that shows it | evidently intended | confidence | as-written member | corrected member |
|---|---|---|---|---|---|---|
| aaudio/hello-aaudio/src/main/cpp/audio_main.cpp:225 | the scratch buffer has `bufCap * bitsPerSample_ / 8` bytes, one channel's worth, but line 249 writes `bufCap` whole frames from it | a capacity of 96 frames, stereo, 16-bit: 192 bytes allocated, 384 bytes read | `bufCap * samplesPerFrame` samples, so the write reads only silence inside the buffer | not executed | Tuner.ScratchTooSmallForStereo | Tuner.TunePlayerForLowLatency |
