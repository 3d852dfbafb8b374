/** The AAudio playback stream the engine plays into, reduced to what the
 *  buffer tuner, the render loop and the controller observe and change.
 *
 *  The platform itself is not modelled: what it answers to each call is an
 *  oracle, a `Device`, indexed by how many calls of that kind came before.
 *  Every deterministic platform yields, for one run, one such set of answers,
 *  so a property proved for every `Device` holds for every platform. */
module AAudio {

  /** int16_t, the PCM_I16 sample type. */
  newtype int16 = x: int | -0x8000 <= x < 0x8000

  /** int32_t, the type of the underrun counter. */
  newtype int32 = x: int | -0x8000_0000 <= x < 0x8000_0000

  type Pos = x: int | x > 0 witness 1

  /** AAUDIO_OK */
  const Ok: int := 0

  /** The stream states the engine goes through (AAUDIO_STREAM_STATE_*). */
  datatype StreamState = Open | Started | Stopped | Closed

  /** One mutating call issued on a stream, as recorded in its log. */
  datatype Call =
    | StartCall
    | SetBufferSizeCall(frames: int)
    | WriteCall(frames: int, samples: seq<int16>)
    | StopCall
    | CloseCall

  /** The platform's answers: the result of requestStart, of the n-th
   *  setBufferSizeInFrames (a positive result is the size now in force, as
   *  AAudio documents), of the n-th write, and the underrun count the stream
   *  reports after the n-th write. */
  datatype Device = Device(
    startResult: int,
    setResult: nat -> int,
    writeResult: nat -> int,
    xRunsAfter: nat -> int32)

  /** What can be read back from a stream at one moment. */
  datatype Snapshot = Snapshot(
    state: StreamState,
    framesPerBurst: Pos,
    samplesPerFrame: Pos,
    capacity: nat,
    bufferSize: int,
    xRunCount: int32,
    setCalls: nat,
    writeCalls: nat)

  /** The stream after one more setBufferSizeInFrames: the size changes only
   *  when the platform accepts the request. */
  function AfterSet(s: Snapshot, dev: Device): (r: Snapshot)
    ensures r.setCalls == s.setCalls + 1
    ensures dev.setResult(s.setCalls) > Ok ==> r.bufferSize == dev.setResult(s.setCalls)
    ensures dev.setResult(s.setCalls) <= Ok ==> r.bufferSize == s.bufferSize
    ensures r == s.(bufferSize := r.bufferSize, setCalls := r.setCalls)
  {
    var result := dev.setResult(s.setCalls);
    s.(bufferSize := if result > Ok then result else s.bufferSize, setCalls := s.setCalls + 1)
  }

  /** The stream after one more write: the platform reports a new underrun count. */
  function AfterWrite(s: Snapshot, dev: Device): (r: Snapshot)
    ensures r.writeCalls == s.writeCalls + 1
    ensures r.xRunCount == dev.xRunsAfter(s.writeCalls)
    ensures r == s.(xRunCount := r.xRunCount, writeCalls := r.writeCalls)
  {
    s.(xRunCount := dev.xRunsAfter(s.writeCalls), writeCalls := s.writeCalls + 1)
  }

  /** `n` samples of silence. */
  function Silence(n: nat): (r: seq<int16>)
    ensures |r| == n
  {
    seq(n, _ => 0)
  }

  lemma AppendAssoc<T>(a: seq<T>, b: seq<T>, c: seq<T>)
    ensures (a + b) + c == a + (b + c)
  {
  }

  predicate AllZero(s: seq<int16>)
  {
    forall i :: 0 <= i < |s| ==> s[i] == 0
  }

  class Stream {
    const device: Device
    const sampleRate: int
    const framesPerBurst: Pos
    const samplesPerFrame: Pos
    const capacity: nat
    var state: StreamState
    var bufferSize: int
    var xRunCount: int32
    var setCalls: nat
    var writeCalls: nat
    /** Every mutating call issued on this stream, in order. */
    ghost var log: seq<Call>

    function View(): Snapshot
      reads this
    {
      Snapshot(state, framesPerBurst, samplesPerFrame, capacity, bufferSize, xRunCount, setCalls, writeCalls)
    }

    /** A stream as StreamBuilder::CreateStream hands it over: open, not started. */
    constructor Open(device: Device, sampleRate: int, framesPerBurst: Pos, samplesPerFrame: Pos,
                     capacity: nat, bufferSize: int)
      ensures this.device == device && this.sampleRate == sampleRate
      ensures this.framesPerBurst == framesPerBurst && this.samplesPerFrame == samplesPerFrame
      ensures this.capacity == capacity && this.bufferSize == bufferSize
      ensures state == StreamState.Open && xRunCount == 0 && setCalls == 0 && writeCalls == 0
      ensures log == []
    {
      this.device := device;
      this.sampleRate := sampleRate;
      this.framesPerBurst := framesPerBurst;
      this.samplesPerFrame := samplesPerFrame;
      this.capacity := capacity;
      this.bufferSize := bufferSize;
      state := StreamState.Open;
      xRunCount := 0;
      setCalls := 0;
      writeCalls := 0;
      log := [];
    }

    /** AAudioStream_requestStart */
    method RequestStart() returns (result: int)
      requires state != Closed
      modifies this
      ensures result == device.startResult
      ensures View() == old(View()).(state := if result == Ok then Started else old(state))
      ensures log == old(log) + [StartCall]
    {
      result := device.startResult;
      if result == Ok {
        state := Started;
      }
      log := log + [StartCall];
    }

    /** AAudioStream_setBufferSizeInFrames */
    method SetBufferSizeInFrames(frames: int) returns (result: int)
      requires state != Closed
      modifies this
      ensures result == device.setResult(old(setCalls))
      ensures View() == AfterSet(old(View()), device)
      ensures log == old(log) + [SetBufferSizeCall(frames)]
    {
      result := device.setResult(setCalls);
      if result > Ok {
        bufferSize := result;
      }
      setCalls := setCalls + 1;
      log := log + [SetBufferSizeCall(frames)];
    }

    /** AAudioStream_write: the platform reads `frames` whole frames from `buffer`. */
    method Write(buffer: array<int16>, frames: nat) returns (result: int)
      requires state != Closed
      requires frames * samplesPerFrame <= buffer.Length
      modifies this
      ensures result == device.writeResult(old(writeCalls))
      ensures View() == AfterWrite(old(View()), device)
      ensures log == old(log) + [WriteCall(frames, buffer[..frames * samplesPerFrame])]
    {
      result := device.writeResult(writeCalls);
      xRunCount := device.xRunsAfter(writeCalls);
      writeCalls := writeCalls + 1;
      log := log + [WriteCall(frames, buffer[..frames * samplesPerFrame])];
    }

    /** AAudioStream_requestStop */
    method RequestStop()
      requires state != Closed
      modifies this
      ensures View() == old(View()).(state := Stopped)
      ensures log == old(log) + [StopCall]
    {
      state := Stopped;
      log := log + [StopCall];
    }

    /** AAudioStream_close: the handle must not be used afterwards, which the
     *  `state != Closed` precondition of every other call enforces. */
    method Close()
      requires state != Closed
      modifies this
      ensures View() == old(View()).(state := Closed)
      ensures log == old(log) + [CloseCall]
    {
      state := Closed;
      log := log + [CloseCall];
    }
  }
}
