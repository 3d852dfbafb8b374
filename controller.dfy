/** The engine record and the entry points the application calls on it:
 *  createEngine, start, stop and deleteEngine.
 *
 *  `Flags` is what the render thread observes of the engine (whether a stream
 *  is held, playAudio_, requestStop_); the functions on it say what each
 *  entry point does to them, and `Engine` is the single engine instance whose
 *  methods are proved to do exactly that. */
module Controller {
  import opened AAudio

  /** The part of the engine the entry points and the render loop decide on. */
  datatype Flags = Flags(hasStream: bool, playAudio: bool, requestStop: bool)

  /** One call the application makes while the render thread runs. `NoHook`
   *  stands for a burst during which the application calls nothing. */
  datatype Hook = StartHook | StopHook | DeleteHook | NoHook

  /** start(): render the tone, provided a stream exists. */
  function OnStart(f: Flags): (r: Flags)
    ensures r.hasStream == f.hasStream && r.requestStop == f.requestStop
    ensures r.playAudio == (f.playAudio || f.hasStream)
  {
    if !f.hasStream then f else f.(playAudio := true)
  }

  /** stop(): render silence again, provided a stream exists. */
  function OnStop(f: Flags): (r: Flags)
    ensures r.hasStream == f.hasStream && r.requestStop == f.requestStop
    ensures r.playAudio == (f.playAudio && !f.hasStream)
  {
    if !f.hasStream then f else f.(playAudio := false)
  }

  /** deleteEngine(): ask the render thread to tear down, provided a stream exists. */
  function OnDelete(f: Flags): (r: Flags)
    ensures r.hasStream == f.hasStream && r.playAudio == f.playAudio
    ensures r.requestStop == (f.requestStop || f.hasStream)
  {
    if !f.hasStream then f else f.(requestStop := true)
  }

  /** The flags after one call of the application. */
  function Apply(f: Flags, h: Hook): (r: Flags)
    ensures r.hasStream == f.hasStream
    ensures !f.hasStream ==> r == f
    ensures r.requestStop == (f.requestStop || (f.hasStream && h == DeleteHook))
    ensures r.playAudio == if f.hasStream && h == StartHook then true
                           else if f.hasStream && h == StopHook then false
                           else f.playAudio
  {
    match h
    case StartHook => OnStart(f)
    case StopHook => OnStop(f)
    case DeleteHook => OnDelete(f)
    case NoHook => f
  }

  /** The flags after the application's calls `hooks`, in order. */
  function Replay(f: Flags, hooks: seq<Hook>): (r: Flags)
    ensures r.hasStream == f.hasStream
    decreases |hooks|
  {
    if hooks == [] then f else Replay(Apply(f, hooks[0]), hooks[1..])
  }

  /** Without a stream every entry point leaves the engine as it is. */
  lemma NoStreamNoEffect(f: Flags, hooks: seq<Hook>)
    requires !f.hasStream
    ensures Replay(f, hooks) == f
    decreases |hooks|
  {
    if hooks != [] {
      NoStreamNoEffect(Apply(f, hooks[0]), hooks[1..]);
    }
  }

  /** Calling stop twice is calling it once; so is deleteEngine; and start
   *  followed by stop leaves a held stream muted. */
  lemma EntryPointsIdempotent(f: Flags)
    ensures OnStop(OnStop(f)) == OnStop(f)
    ensures OnDelete(OnDelete(f)) == OnDelete(f)
    ensures OnStart(OnStart(f)) == OnStart(f)
    ensures f.hasStream ==> !OnStop(OnStart(f)).playAudio && OnStart(OnStop(f)).playAudio
  {
  }

  /** No entry point after createEngine takes the stream away or withdraws a
   *  stop request; only deleteEngine raises one. */
  lemma ReplayKeeps(f: Flags, hooks: seq<Hook>)
    ensures Replay(f, hooks).hasStream == f.hasStream
    ensures f.requestStop ==> Replay(f, hooks).requestStop
    ensures Replay(f, hooks).requestStop <==> f.requestStop || (f.hasStream && DeleteHook in hooks)
    decreases |hooks|
  {
    if hooks != [] {
      ReplayKeeps(Apply(f, hooks[0]), hooks[1..]);
      assert hooks == [hooks[0]] + hooks[1..];
    }
  }

  /** Replaying a prefix and then one more call. */
  lemma {:induction false} ReplayAppend(f: Flags, hooks: seq<Hook>, h: Hook)
    ensures Replay(f, hooks + [h]) == Apply(Replay(f, hooks), h)
    decreases |hooks|
  {
    if hooks == [] {
      assert [] + [h] == [h];
    } else {
      assert (hooks + [h])[1..] == hooks[1..] + [h];
      ReplayAppend(Apply(f, hooks[0]), hooks[1..], h);
    }
  }

  /** With a stream, the tone plays after a sequence of calls exactly when
   *  there was a start with no stop after it (or none of either, and it was
   *  playing before). */
  lemma {:induction false} ReplayPlayAudio(f: Flags, hooks: seq<Hook>)
    requires f.hasStream
    ensures Replay(f, hooks).playAudio <==> LastSwitch(f.playAudio, hooks)
    decreases |hooks|
  {
    if hooks != [] {
      var last := hooks[|hooks| - 1];
      var init := hooks[..|hooks| - 1];
      assert hooks == init + [last];
      ReplayAppend(f, init, last);
      ReplayKeeps(f, init);
      ReplayPlayAudio(f, init);
    }
  }

  /** Whether the last start or stop among `hooks` was a start (`playing`
   *  when there is none). */
  function LastSwitch(playing: bool, hooks: seq<Hook>): bool
    decreases |hooks|
  {
    if hooks == [] then playing
    else
      var last := hooks[|hooks| - 1];
      if last == StartHook then true
      else if last == StopHook then false
      else LastSwitch(playing, hooks[..|hooks| - 1])
  }

  /** How createEngine ends. */
  datatype Creation =
    | Unsupported     // InitAAudio failed
    | NoStream        // CreateStream handed back no stream
    | StartFailed     // requestStart did not answer AAUDIO_OK
    | Created         // the stream started; the render thread is launched

  /** createEngine's outcome given whether AAudio is present, whether a
   *  stream was created and what requestStart answered. */
  function Create(supported: bool, created: bool, startResult: int): (c: Creation)
    ensures c == Created <==> supported && created && startResult == Ok
  {
    if !supported then Unsupported
    else if !created then NoStream
    else if startResult != Ok then StartFailed
    else Created
  }

  /** The flags createEngine leaves: it zeroes the engine first, so neither
   *  flag is set whatever happened before; a stream is held from the moment
   *  CreateStream returned one, even when starting it then fails. */
  function CreatedFlags(c: Creation): (f: Flags)
    ensures !f.playAudio && !f.requestStop
    ensures f.hasStream <==> c == StartFailed || c == Created
  {
    Flags(c == StartFailed || c == Created, false, false)
  }

  /** The single engine instance, AAudioEngine. */
  class Engine {
    var sampleRate: int
    var sampleChannels: int
    var bitsPerSample: int
    var playStream: Stream?
    var requestStop: bool
    var playAudio: bool

    function Controls(): Flags
      reads this
    {
      Flags(playStream != null, playAudio, requestStop)
    }

    /** The zero-initialised static engine. */
    constructor ()
      ensures playStream == null && !playAudio && !requestStop
      ensures sampleRate == 0 && sampleChannels == 0 && bitsPerSample == 0
    {
      sampleRate, sampleChannels, bitsPerSample := 0, 0, 0;
      playStream := null;
      requestStop, playAudio := false, false;
    }

    /** createEngine. `supported` is InitAAudio's answer, `channels` and
     *  `bits` the configured channel count and bits per sample, `created` the
     *  stream CreateStream handed back (null for none). */
    method CreateEngine(supported: bool, channels: int, bits: int, created: Stream?) returns (ok: bool)
      requires created != null ==> created.state == StreamState.Open
      modifies this, created
      ensures var c := Create(supported, created != null, if created == null then Ok else created.device.startResult);
        && ok == (c == Created)
        && Controls() == CreatedFlags(c)
        && (c != Unsupported ==> sampleChannels == channels && bitsPerSample == bits)
        && (c == Unsupported ==> sampleChannels == 0 && bitsPerSample == 0)
        && (c == Unsupported || c == NoStream ==> sampleRate == 0)
        && (c == StartFailed || c == Created ==> playStream == created && sampleRate == created.sampleRate)
        && (created != null && c != Unsupported ==>
              && created.log == old(created.log) + [StartCall]
              && created.View() == old(created.View()).(state := if c == Created then Started else StreamState.Open))
        && (created != null && c == Unsupported ==> created.log == old(created.log) && created.View() == old(created.View()))
    {
      sampleRate, sampleChannels, bitsPerSample := 0, 0, 0;
      playStream := null;
      requestStop, playAudio := false, false;
      if !supported {
        return false;
      }
      sampleChannels := channels;
      bitsPerSample := bits;
      playStream := created;
      if created == null {
        return false;
      }
      sampleRate := created.sampleRate;
      var result := created.RequestStart();
      if result != Ok {
        return false;
      }
      return true;
    }

    /** start */
    method Start() returns (ok: bool)
      modifies this
      ensures ok == old(playStream != null)
      ensures Controls() == OnStart(old(Controls()))
      ensures playStream == old(playStream) && sampleRate == old(sampleRate)
      ensures sampleChannels == old(sampleChannels) && bitsPerSample == old(bitsPerSample)
    {
      if playStream == null {
        return false;
      }
      playAudio := true;
      return true;
    }

    /** stop */
    method Stop() returns (ok: bool)
      modifies this
      ensures ok
      ensures Controls() == OnStop(old(Controls()))
      ensures playStream == old(playStream) && sampleRate == old(sampleRate)
      ensures sampleChannels == old(sampleChannels) && bitsPerSample == old(bitsPerSample)
    {
      if playStream == null {
        return true;
      }
      playAudio := false;
      return true;
    }

    /** deleteEngine */
    method DeleteEngine()
      modifies this
      ensures Controls() == OnDelete(old(Controls()))
      ensures playStream == old(playStream) && sampleRate == old(sampleRate)
      ensures sampleChannels == old(sampleChannels) && bitsPerSample == old(bitsPerSample)
    {
      if playStream == null {
        return;
      }
      requestStop := true;
    }

    /** One call of the application, as the render thread sees it. */
    method Handle(h: Hook)
      modifies this
      ensures Controls() == Apply(old(Controls()), h)
      ensures playStream == old(playStream) && sampleRate == old(sampleRate)
      ensures sampleChannels == old(sampleChannels) && bitsPerSample == old(bitsPerSample)
    {
      match h
      case StartHook =>
        var _ := Start();
      case StopHook =>
        var _ := Stop();
      case DeleteHook =>
        DeleteEngine();
      case NoHook =>
    }
  }
}
