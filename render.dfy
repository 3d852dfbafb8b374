/** The render thread, PlayAudioThreadProc: tune the stream, then write one
 *  burst at a time, silence or the two tones as playAudio_ says, until
 *  requestStop_ is seen; then stop and close the stream and drop it.
 *
 *  The application's calls that reach the engine while the thread runs are
 *  a sequence of `Hook`s, one between each burst and the next check of
 *  requestStop_; the loop runs for at most as many bursts as there are
 *  hooks. `Render` says what the loop does; `RenderLoop` is the loop, proved
 *  to do exactly that. */
module Render {
  import opened AAudio
  import opened Controller
  import Tuner

  /** The sine generators, as the samples they produce in order: the right
   *  channel's n-th sample and the left channel's n-th sample. */
  datatype Tone = Tone(right: nat -> int16, left: nat -> int16)

  /** A burst buffer after it is filled: all zero when muted; when playing,
   *  the right tone on the first sample of every frame, the left tone on the
   *  second when a frame holds exactly two samples, and every other sample
   *  left as it was. `rendered` counts the frames rendered before. */
  function Fill(prev: seq<int16>, playing: bool, tone: Tone, rendered: nat, spf: Pos): (r: seq<int16>)
    ensures |r| == |prev|
    ensures !playing ==> AllZero(r)
  {
    if !playing then Silence(|prev|)
    else seq(|prev|, k requires 0 <= k < |prev| =>
               if k % spf == 0 then tone.right(rendered + k / spf)
               else if spf == 2 then tone.left(rendered + k / spf)
               else prev[k])
  }

  lemma NextFrameStart(j: nat, spf: Pos)
    ensures (j + 1) * spf == j * spf + spf
  {
  }

  lemma MulLe(a: int, b: int, spf: Pos)
    requires a <= b
    ensures a * spf <= b * spf
  {
  }

  /** Sample `c` of frame `j` lies at index `j * spf + c`, and nowhere else. */
  lemma DivMod(j: nat, spf: Pos, c: nat)
    requires c < spf
    ensures (j * spf + c) / spf == j && (j * spf + c) % spf == c
  {
    var m := j * spf + c;
    var q, r := m / spf, m % spf;
    assert m == q * spf + r && 0 <= r < spf;
    if q < j {
      MulLe(q, j - 1, spf);
      assert false;
    } else if q > j {
      MulLe(j + 1, q, spf);
      assert false;
    }
  }

  /** The layout of a playing burst, frame by frame: sample `c` of frame `j`
   *  sits at `j * spf + c`; the right tone fills channel 0, the left tone
   *  channel 1 of a stereo frame, and further channels keep their samples. */
  lemma ToneLayout(prev: seq<int16>, tone: Tone, rendered: nat, spf: Pos, j: nat, c: nat)
    requires c < spf && j * spf + c < |prev|
    ensures var r := Fill(prev, true, tone, rendered, spf);
            && (c == 0 ==> r[j * spf + c] == tone.right(rendered + j))
            && (c == 1 && spf == 2 ==> r[j * spf + c] == tone.left(rendered + j))
            && (c > 0 && spf != 2 ==> r[j * spf + c] == prev[j * spf + c])
  {
    DivMod(j, spf, c);
  }

  /** Why the render loop was left. */
  datatype RenderExit =
    | StopSeen        // requestStop_ was set: the stream was torn down
    | HooksExhausted  // the modelled calls ran out; the thread would go on

  /** What the render loop did: why it ended, the calls it issued on the
   *  stream, the engine flags after it, the burst buffer it left and the
   *  number of frames the tone generators rendered. */
  datatype Rendering = Rendering(exit: RenderExit, calls: seq<Call>, flags: Flags, buffer: seq<int16>, rendered: nat)

  /** The render loop from a check of requestStop_ on. */
  function Render(f: Flags, hooks: seq<Hook>, buffer: seq<int16>, rendered: nat, tone: Tone, fpb: Pos, spf: Pos): (r: Rendering)
    ensures |r.buffer| == |buffer| && r.rendered >= rendered
    ensures r.exit == StopSeen ==> !r.flags.requestStop && !r.flags.hasStream && 2 <= |r.calls| <= |hooks| + 2
    ensures r.exit == HooksExhausted ==> r.flags.hasStream == f.hasStream && |r.calls| == |hooks|
    decreases |hooks|
  {
    if f.requestStop then
      Rendering(StopSeen, [StopCall, CloseCall], f.(requestStop := false, hasStream := false), buffer, rendered)
    else if hooks == [] then Rendering(HooksExhausted, [], f, buffer, rendered)
    else
      var b := Fill(buffer, f.playAudio, tone, rendered, spf);
      var rest := Render(Apply(f, hooks[0]), hooks[1..], b, rendered + (if f.playAudio then fpb else 0), tone, fpb, spf);
      rest.(calls := [WriteCall(fpb, b)] + rest.calls)
  }

  /** The render loop as the thread enters it, before any tone was rendered. */
  function FirstBurst(f: Flags, hooks: seq<Hook>, buffer: seq<int16>, tone: Tone, fpb: Pos, spf: Pos): Rendering
  {
    Render(f, hooks, buffer, 0, tone, fpb, spf)
  }

  /** The loop invariant: the whole rendering is the calls issued so far
   *  followed by the rendering from the current state. */
  ghost predicate Pending(whole: Rendering, calls: seq<Call>, f: Flags, hooks: seq<Hook>, buffer: seq<int16>,
                          rendered: nat, tone: Tone, fpb: Pos, spf: Pos)
  {
    var r := Render(f, hooks, buffer, rendered, tone, fpb, spf);
    whole == r.(calls := calls + r.calls)
  }

  /** One burst: the rendering from a check that finds no stop request is
   *  that burst's write followed by the rendering after the next call. */
  lemma PendingStep(whole: Rendering, calls: seq<Call>, f: Flags, hooks: seq<Hook>, buffer: seq<int16>,
                    rendered: nat, tone: Tone, fpb: Pos, spf: Pos)
    requires Pending(whole, calls, f, hooks, buffer, rendered, tone, fpb, spf)
    requires !f.requestStop && hooks != []
    ensures var b := Fill(buffer, f.playAudio, tone, rendered, spf);
            Pending(whole, calls + [WriteCall(fpb, b)], Apply(f, hooks[0]), hooks[1..], b,
                    rendered + (if f.playAudio then fpb else 0), tone, fpb, spf)
  {
    var b := Fill(buffer, f.playAudio, tone, rendered, spf);
    var rest := Render(Apply(f, hooks[0]), hooks[1..], b, rendered + (if f.playAudio then fpb else 0), tone, fpb, spf);
    assert calls + ([WriteCall(fpb, b)] + rest.calls) == calls + [WriteCall(fpb, b)] + rest.calls;
  }

  /** The last check: either a stop request, answered by stop and close, or
   *  no calls left. */
  lemma PendingDone(whole: Rendering, calls: seq<Call>, f: Flags, hooks: seq<Hook>, buffer: seq<int16>,
                    rendered: nat, tone: Tone, fpb: Pos, spf: Pos)
    requires Pending(whole, calls, f, hooks, buffer, rendered, tone, fpb, spf)
    requires f.requestStop || hooks == []
    ensures f.requestStop ==> whole.exit == StopSeen && whole.calls == calls + [StopCall, CloseCall]
                                && whole.flags == f.(requestStop := false, hasStream := false)
    ensures !f.requestStop ==> whole.exit == HooksExhausted && whole.calls == calls && whole.flags == f
  {
  }

  /** `calls` is a run of writes followed by `tail`. */
  predicate WritesThen(calls: seq<Call>, tail: seq<Call>)
  {
    && |tail| <= |calls|
    && (forall i :: 0 <= i < |tail| ==> calls[|calls| - |tail| + i] == tail[i])
    && (forall i :: 0 <= i < |calls| - |tail| ==> calls[i].WriteCall?)
  }

  lemma WritesThenCons(w: Call, calls: seq<Call>, tail: seq<Call>)
    requires w.WriteCall? && WritesThen(calls, tail)
    ensures WritesThen([w] + calls, tail)
  {
    var c := [w] + calls;
    assert forall i :: 0 < i < |c| ==> c[i] == calls[i - 1];
  }

  /** How the loop ends: on a stop request exactly when the application's
   *  calls leave one raised, and then with requestStop_ cleared and no
   *  stream held; otherwise with the flags those calls left. */
  lemma {:induction false} RenderExits(f: Flags, hooks: seq<Hook>, buffer: seq<int16>, rendered: nat,
                                       tone: Tone, fpb: Pos, spf: Pos)
    ensures var r := Render(f, hooks, buffer, rendered, tone, fpb, spf);
            && (r.exit == StopSeen <==> Replay(f, hooks).requestStop)
            && (r.exit == StopSeen ==> !r.flags.requestStop && !r.flags.hasStream)
            && (r.exit == HooksExhausted ==> r.flags == Replay(f, hooks))
    decreases |hooks|
  {
    var r := Render(f, hooks, buffer, rendered, tone, fpb, spf);
    if f.requestStop {
      ReplayKeeps(f, hooks);
    } else if hooks != [] {
      var b := Fill(buffer, f.playAudio, tone, rendered, spf);
      var next := rendered + (if f.playAudio then fpb else 0);
      RenderExits(Apply(f, hooks[0]), hooks[1..], b, next, tone, fpb, spf);
      assert Replay(f, hooks) == Replay(Apply(f, hooks[0]), hooks[1..]);
    }
  }

  /** `r` is what the loop does from the given check on; stated as a
   *  predicate so that the proofs below refer to `Render` without unfolding it. */
  ghost predicate Renders(r: Rendering, f: Flags, hooks: seq<Hook>, buffer: seq<int16>, rendered: nat,
                          tone: Tone, fpb: Pos, spf: Pos)
  {
    r == Render(f, hooks, buffer, rendered, tone, fpb, spf)
  }

  /** Teardown order: after a stop request the loop issues stop and then
   *  close, the close last, after nothing but burst writes; otherwise it
   *  wrote one burst per call. There is at most one write per call. */
  lemma RenderTeardown(f: Flags, hooks: seq<Hook>, buffer: seq<int16>, rendered: nat,
                       tone: Tone, fpb: Pos, spf: Pos)
    ensures var r := Render(f, hooks, buffer, rendered, tone, fpb, spf);
            && (r.exit == StopSeen ==> WritesThen(r.calls, [StopCall, CloseCall]) && |r.calls| - 2 <= |hooks|)
            && (r.exit == HooksExhausted ==> WritesThen(r.calls, []) && |r.calls| == |hooks|)
  {
    var r := Render(f, hooks, buffer, rendered, tone, fpb, spf);
    if r.exit == StopSeen {
      TeardownStopped(f, hooks, buffer, rendered, tone, fpb, spf, r);
    } else {
      TeardownExhausted(f, hooks, buffer, rendered, tone, fpb, spf, r);
    }
  }

  /** The loop from a check that finds no stop request, with calls left:
   *  one write, then the loop from the next check. */
  lemma RenderCons(f: Flags, hooks: seq<Hook>, buffer: seq<int16>, rendered: nat,
                   tone: Tone, fpb: Pos, spf: Pos, r: Rendering)
    requires Renders(r, f, hooks, buffer, rendered, tone, fpb, spf)
    requires !f.requestStop && hooks != []
    ensures var b := Fill(buffer, f.playAudio, tone, rendered, spf);
            var rest := Render(Apply(f, hooks[0]), hooks[1..], b, rendered + (if f.playAudio then fpb else 0), tone, fpb, spf);
            r == rest.(calls := [WriteCall(fpb, b)] + rest.calls)
  {
  }

  lemma {:induction false} TeardownStopped(f: Flags, hooks: seq<Hook>, buffer: seq<int16>, rendered: nat,
                                           tone: Tone, fpb: Pos, spf: Pos, r: Rendering)
    requires Renders(r, f, hooks, buffer, rendered, tone, fpb, spf) && r.exit == StopSeen
    ensures WritesThen(r.calls, [StopCall, CloseCall]) && |r.calls| - 2 <= |hooks|
    decreases |hooks|
  {
    if f.requestStop {
      assert r.calls == [StopCall, CloseCall];
    } else if hooks == [] {
      assert false;
    } else {
      var b := Fill(buffer, f.playAudio, tone, rendered, spf);
      var next := rendered + (if f.playAudio then fpb else 0);
      var rest := Render(Apply(f, hooks[0]), hooks[1..], b, next, tone, fpb, spf);
      RenderCons(f, hooks, buffer, rendered, tone, fpb, spf, r);
      TeardownStopped(Apply(f, hooks[0]), hooks[1..], b, next, tone, fpb, spf, rest);
      WritesThenCons(WriteCall(fpb, b), rest.calls, [StopCall, CloseCall]);
    }
  }

  lemma {:induction false} TeardownExhausted(f: Flags, hooks: seq<Hook>, buffer: seq<int16>, rendered: nat,
                                             tone: Tone, fpb: Pos, spf: Pos, r: Rendering)
    requires Renders(r, f, hooks, buffer, rendered, tone, fpb, spf) && r.exit == HooksExhausted
    ensures WritesThen(r.calls, []) && |r.calls| == |hooks|
    decreases |hooks|
  {
    if f.requestStop {
      assert false;
    } else if hooks == [] {
      assert r.calls == [];
    } else {
      var b := Fill(buffer, f.playAudio, tone, rendered, spf);
      var next := rendered + (if f.playAudio then fpb else 0);
      var rest := Render(Apply(f, hooks[0]), hooks[1..], b, next, tone, fpb, spf);
      RenderCons(f, hooks, buffer, rendered, tone, fpb, spf, r);
      TeardownExhausted(Apply(f, hooks[0]), hooks[1..], b, next, tone, fpb, spf, rest);
      WritesThenCons(WriteCall(fpb, b), rest.calls, []);
    }
  }

  /** Every burst the loop writes is one full buffer of `fpb` frames, and it
   *  is silent whenever playAudio_ was off at the check before it (the i-th
   *  burst follows the application's first i calls). */
  lemma {:induction false} RenderBursts(f: Flags, hooks: seq<Hook>, buffer: seq<int16>, rendered: nat,
                                        tone: Tone, fpb: Pos, spf: Pos)
    ensures var r := Render(f, hooks, buffer, rendered, tone, fpb, spf);
            forall i :: 0 <= i <= |hooks| && i < |r.calls| && r.calls[i].WriteCall? ==>
              && r.calls[i].frames == fpb && |r.calls[i].samples| == |buffer|
              && (!Replay(f, hooks[..i]).playAudio ==> AllZero(r.calls[i].samples))
    decreases |hooks|
  {
    var r := Render(f, hooks, buffer, rendered, tone, fpb, spf);
    if !f.requestStop && hooks != [] {
      var b := Fill(buffer, f.playAudio, tone, rendered, spf);
      var next := rendered + (if f.playAudio then fpb else 0);
      var g := Apply(f, hooks[0]);
      RenderBursts(g, hooks[1..], b, next, tone, fpb, spf);
      var rest := Render(g, hooks[1..], b, next, tone, fpb, spf);
      forall i | 0 <= i <= |hooks| && i < |r.calls| && r.calls[i].WriteCall?
        ensures r.calls[i].frames == fpb && |r.calls[i].samples| == |buffer|
        ensures !Replay(f, hooks[..i]).playAudio ==> AllZero(r.calls[i].samples)
      {
        if i == 0 {
          assert hooks[..0] == [];
        } else {
          assert r.calls[i] == rest.calls[i - 1];
          assert hooks[..i][1..] == hooks[1..][..i - 1];
        }
      }
    }
  }

  /** deleteEngine ends the rendering: with a stream held and no stop
   *  requested, if the first deleteEngine falls in hook slot k (one slot
   *  per burst, `NoHook` slots included), the loop writes exactly k + 1
   *  bursts, then stops and closes. */
  lemma {:induction false} DeleteEndsRendering(f: Flags, hooks: seq<Hook>, buffer: seq<int16>, rendered: nat,
                                               tone: Tone, fpb: Pos, spf: Pos, k: nat)
    requires f.hasStream && !f.requestStop
    requires k < |hooks| && hooks[k] == DeleteHook && DeleteHook !in hooks[..k]
    ensures var r := Render(f, hooks, buffer, rendered, tone, fpb, spf);
            r.exit == StopSeen && |r.calls| == k + 3
    decreases k
  {
    var b := Fill(buffer, f.playAudio, tone, rendered, spf);
    var next := rendered + (if f.playAudio then fpb else 0);
    var g := Apply(f, hooks[0]);
    if k == 0 {
      assert g.requestStop;
    } else {
      assert hooks[0] in hooks[..k];
      assert hooks[1..][..k - 1] == hooks[..k][1..];
      DeleteEndsRendering(g, hooks[1..], b, next, tone, fpb, spf, k - 1);
    }
  }

  /** `prev` with generator `gen`'s samples on channel `channel` of every
   *  frame that starts before `upTo`. */
  function Channel(prev: seq<int16>, gen: nat -> int16, rendered: nat, spf: Pos, channel: nat, upTo: int): (r: seq<int16>)
    ensures |r| == |prev|
    ensures forall m :: 0 <= m < |prev| && m >= upTo ==> r[m] == prev[m]
    ensures forall m :: 0 <= m < |prev| && m % spf != channel ==> r[m] == prev[m]
  {
    seq(|prev|, m requires 0 <= m < |prev| =>
          if m < upTo && m % spf == channel then gen(rendered + m / spf) else prev[m])
  }

  /** Writing channel `channel` of frame `j` extends the rendered prefix by one frame. */
  lemma ChannelStep(prev: seq<int16>, gen: nat -> int16, rendered: nat, spf: Pos, channel: nat, j: nat)
    requires channel < spf && j * spf + channel < |prev|
    ensures var k := j * spf + channel;
            Channel(prev, gen, rendered, spf, channel, k + spf)
              == Channel(prev, gen, rendered, spf, channel, k)[k := gen(rendered + j)]
  {
    DivMod(j, spf, channel);
    NextFrame(j, spf, channel);
  }

  /** A playing burst is the right channel rendered over the old buffer,
   *  then, for stereo, the left channel over that. */
  lemma FillByChannels(prev: seq<int16>, tone: Tone, rendered: nat, spf: Pos)
    ensures var right := Channel(prev, tone.right, rendered, spf, 0, |prev|);
            Fill(prev, true, tone, rendered, spf)
              == if spf == 2 then Channel(right, tone.left, rendered, spf, 1, |prev|) else right
  {
  }

  /** Fill the burst buffer: memset when muted, the tones when playing. */
  method RenderBurst(buf: array<int16>, playing: bool, tone: Tone, rendered: nat, spf: Pos)
    modifies buf
    ensures buf[..] == Fill(old(buf[..]), playing, tone, rendered, spf)
  {
    if !playing {
      ZeroFill(buf);
      assert buf[..] == Silence(buf.Length);
    } else {
      FillByChannels(buf[..], tone, rendered, spf);
      RenderChannel(buf, tone.right, rendered, spf, 0);
      if spf == 2 {
        RenderChannel(buf, tone.left, rendered, spf, 1);
      }
    }
  }

  /** memset(buf, 0, …) */
  method ZeroFill(buf: array<int16>)
    modifies buf
    ensures AllZero(buf[..])
  {
    var k := 0;
    while k < buf.Length
      invariant 0 <= k <= buf.Length
      invariant forall m :: 0 <= m < k ==> buf[m] == 0
    {
      buf[k] := 0;
      k := k + 1;
    }
  }

  /** One generator's render(buffer + channel, samplesPerFrame, frames): the
   *  generator's successive samples go to channel `channel` of every whole
   *  frame of the buffer; every other sample is left as it was. */
  method RenderChannel(buf: array<int16>, gen: nat -> int16, rendered: nat, spf: Pos, channel: nat)
    requires channel < spf
    modifies buf
    ensures buf[..] == Channel(old(buf[..]), gen, rendered, spf, channel, buf.Length)
  {
    var j := 0;
    var k := channel;
    while k < buf.Length
      invariant k == j * spf + channel
      invariant buf[..] == Channel(old(buf[..]), gen, rendered, spf, channel, k)
      decreases buf.Length - k
    {
      ChannelStep(old(buf[..]), gen, rendered, spf, channel, j);
      NextFrameStart(j, spf);
      buf[k] := gen(rendered + j);
      j := j + 1;
      k := k + spf;
    }
    assert Channel(old(buf[..]), gen, rendered, spf, channel, k) == Channel(old(buf[..]), gen, rendered, spf, channel, buf.Length);
  }

  /** The samples between channel `channel` of frame `j` and of frame `j + 1`
   *  are not in that channel. */
  lemma NextFrame(j: nat, spf: Pos, channel: nat)
    requires channel < spf
    ensures forall m :: j * spf + channel < m < (j + 1) * spf + channel ==> m % spf != channel
  {
    forall m | j * spf + channel < m < (j + 1) * spf + channel
      ensures m % spf != channel
    {
      if m < (j + 1) * spf {
        DivMod(j, spf, m - j * spf);
      } else {
        DivMod(j + 1, spf, m - (j + 1) * spf);
      }
    }
  }

  /** One pass of the loop body after the check: fill the buffer, write
   *  one burst, and then the application's next call. */
  method RenderOne(eng: Engine, stream: Stream, buf: array<int16>, tone: Tone, rendered: nat, h: Hook)
    returns (next: nat)
    requires eng.playStream == stream && stream.state != Closed
    requires buf.Length == stream.framesPerBurst * stream.samplesPerFrame
    modifies eng, stream, buf
    ensures eng.sampleRate == old(eng.sampleRate) && eng.sampleChannels == old(eng.sampleChannels)
    ensures eng.bitsPerSample == old(eng.bitsPerSample)
    ensures eng.playStream == stream && stream.state == old(stream.state)
    ensures buf[..] == Fill(old(buf[..]), old(eng.playAudio), tone, rendered, stream.samplesPerFrame)
    ensures stream.log == old(stream.log) + [WriteCall(stream.framesPerBurst, buf[..])]
    ensures stream.View() == AfterWrite(old(stream.View()), stream.device)
    ensures eng.Controls() == Apply(old(eng.Controls()), h)
    ensures next == rendered + (if old(eng.playAudio) then stream.framesPerBurst else 0)
  {
    RenderBurst(buf, eng.playAudio, tone, rendered, stream.samplesPerFrame);
    // The source asserts a positive result; in a release build the loop goes
    // on whatever the platform answered.
    var _ := stream.Write(buf, stream.framesPerBurst);
    assert buf[..stream.framesPerBurst as int * stream.samplesPerFrame as int] == buf[..];
    next := rendered;
    if eng.playAudio {
      next := rendered + stream.framesPerBurst;
    }
    eng.Handle(h);
  }

  /** One pass of the loop, with its bookkeeping: the loop invariant holds
   *  again for the calls that remain. */
  method LoopPass(eng: Engine, stream: Stream, buf: array<int16>, tone: Tone, rendered: nat, h: Hook,
                  ghost whole: Rendering, ghost calls: seq<Call>, ghost hs: seq<Hook>, ghost v0: Snapshot)
    returns (next: nat, ghost calls': seq<Call>)
    requires eng.playStream == stream && stream.state != Closed
    requires buf.Length == stream.framesPerBurst * stream.samplesPerFrame
    requires !eng.requestStop && hs != [] && hs[0] == h
    requires Advanced(stream.View(), v0, |calls|, stream.device)
    requires Pending(whole, calls, eng.Controls(), hs, buf[..], rendered, tone, stream.framesPerBurst, stream.samplesPerFrame)
    modifies eng, stream, buf
    ensures eng.sampleRate == old(eng.sampleRate) && eng.sampleChannels == old(eng.sampleChannels)
    ensures eng.bitsPerSample == old(eng.bitsPerSample)
    ensures eng.playStream == stream && stream.state == old(stream.state)
    ensures calls' == calls + [WriteCall(stream.framesPerBurst, buf[..])]
    ensures stream.log == old(stream.log) + [WriteCall(stream.framesPerBurst, buf[..])]
    ensures Advanced(stream.View(), v0, |calls'|, stream.device)
    ensures Pending(whole, calls', eng.Controls(), hs[1..], buf[..], next, tone, stream.framesPerBurst, stream.samplesPerFrame)
  {
    PendingStep(whole, calls, eng.Controls(), hs, buf[..], rendered, tone, stream.framesPerBurst, stream.samplesPerFrame);
    ghost var before := stream.View();
    next := RenderOne(eng, stream, buf, tone, rendered, h);
    AdvancedStep(stream.View(), before, v0, |calls|, stream.device);
    calls' := calls + [WriteCall(stream.framesPerBurst, buf[..])];
  }

  /** What follows the loop once requestStop_ is seen: clear the request,
   *  stop the stream, close it and drop the handle. */
  method Teardown(eng: Engine, stream: Stream)
    requires eng.playStream == stream && stream.state != Closed
    modifies eng, stream
    ensures eng.sampleRate == old(eng.sampleRate) && eng.sampleChannels == old(eng.sampleChannels)
    ensures eng.bitsPerSample == old(eng.bitsPerSample)
    ensures eng.Controls() == old(eng.Controls()).(requestStop := false, hasStream := false)
    ensures stream.log == old(stream.log) + [StopCall, CloseCall]
    ensures stream.View() == old(stream.View()).(state := Closed)
  {
    eng.requestStop := false;
    stream.RequestStop();
    stream.Close();
    eng.playStream := null;
  }

  /** The while loop of PlayAudioThreadProc and its teardown, on the
   *  engine's stream `stream`: the loop issues exactly `Render`'s calls and
   *  leaves its flags; every burst counts as one more write, the buffer size
   *  and everything but the state and the underrun count are left alone, and
   *  the stream is closed exactly when a stop request was seen. */
  method RenderLoop(eng: Engine, stream: Stream, buf: array<int16>, tone: Tone, hooks: seq<Hook>)
    requires eng.playStream == stream && stream.state != Closed
    requires buf.Length == stream.framesPerBurst * stream.samplesPerFrame
    modifies eng, stream, buf
    ensures eng.sampleRate == old(eng.sampleRate) && eng.sampleChannels == old(eng.sampleChannels)
    ensures eng.bitsPerSample == old(eng.bitsPerSample)
    ensures var r := FirstBurst(old(eng.Controls()), hooks, old(buf[..]), tone, stream.framesPerBurst, stream.samplesPerFrame);
      var writes := if r.exit == StopSeen then |r.calls| - 2 else |r.calls|;
      && eng.Controls() == r.flags
      && stream.log == old(stream.log) + r.calls
      && stream.View() == old(stream.View()).(state := if r.exit == StopSeen then Closed else old(stream.state),
                                              xRunCount := stream.xRunCount, writeCalls := stream.writeCalls)
      && stream.writeCalls == old(stream.writeCalls) + writes
      && stream.xRunCount == (if writes == 0 then old(stream.xRunCount) else stream.device.xRunsAfter(stream.writeCalls - 1))
      && (r.exit == HooksExhausted ==> eng.playStream == stream)
  {
    var fpb, spf := stream.framesPerBurst, stream.samplesPerFrame;
    ghost var whole := FirstBurst(eng.Controls(), hooks, buf[..], tone, fpb, spf);
    ghost var calls, rest;
    var rendered;
    calls, rest, rendered := BurstLoop(eng, stream, buf, tone, hooks);
    PendingDone(whole, calls, eng.Controls(), rest, buf[..], rendered, tone, fpb, spf);
    if eng.requestStop {
      Teardown(eng, stream);
      AppendAssoc(old(stream.log), calls, [StopCall, CloseCall]);
    }
  }

  /** `v` is the stream `v0` after `n` more writes: only the write count and
   *  the underrun count moved, the latter to the last write's report
   *  (kept when there was none). */
  ghost predicate Advanced(v: Snapshot, v0: Snapshot, n: nat, dev: Device)
  {
    && v == v0.(xRunCount := v.xRunCount, writeCalls := v0.writeCalls + n)
    && v.xRunCount == (if n == 0 then v0.xRunCount else dev.xRunsAfter(v.writeCalls - 1))
  }

  lemma AdvancedStep(v: Snapshot, before: Snapshot, v0: Snapshot, n: nat, dev: Device)
    requires Advanced(before, v0, n, dev) && v == AfterWrite(before, dev)
    ensures Advanced(v, v0, n + 1, dev)
  {
  }

  /** The while loop proper: it runs until it sees a stop request or the
   *  application's calls run out, writing one burst per pass; what remains
   *  of the rendering is `Render` from where it stopped. */
  method BurstLoop(eng: Engine, stream: Stream, buf: array<int16>, tone: Tone, hooks: seq<Hook>)
    returns (ghost calls: seq<Call>, ghost rest: seq<Hook>, rendered: nat)
    requires eng.playStream == stream && stream.state != Closed
    requires buf.Length == stream.framesPerBurst * stream.samplesPerFrame
    modifies eng, stream, buf
    ensures eng.sampleRate == old(eng.sampleRate) && eng.sampleChannels == old(eng.sampleChannels)
    ensures eng.bitsPerSample == old(eng.bitsPerSample)
    ensures eng.playStream == stream && (eng.requestStop || rest == [])
    ensures stream.log == old(stream.log) + calls
    ensures Advanced(stream.View(), old(stream.View()), |calls|, stream.device)
    ensures Pending(FirstBurst(old(eng.Controls()), hooks, old(buf[..]), tone, stream.framesPerBurst, stream.samplesPerFrame),
                    calls, eng.Controls(), rest, buf[..], rendered, tone, stream.framesPerBurst, stream.samplesPerFrame)
  {
    var fpb, spf := stream.framesPerBurst, stream.samplesPerFrame;
    ghost var whole := FirstBurst(eng.Controls(), hooks, buf[..], tone, fpb, spf);
    calls := [];
    rendered := 0;
    var k := 0;
    while !eng.requestStop && k < |hooks|
      invariant 0 <= k <= |hooks|
      invariant eng.playStream == stream && stream.state == old(stream.state)
      invariant eng.sampleRate == old(eng.sampleRate) && eng.sampleChannels == old(eng.sampleChannels)
      invariant eng.bitsPerSample == old(eng.bitsPerSample)
      invariant stream.log == old(stream.log) + calls
      invariant Advanced(stream.View(), old(stream.View()), |calls|, stream.device)
      invariant Pending(whole, calls, eng.Controls(), hooks[k..], buf[..], rendered, tone, fpb, spf)
      decreases |hooks| - k
    {
      assert hooks[k..][1..] == hooks[k + 1..];
      rendered, calls := LoopPass(eng, stream, buf, tone, rendered, hooks[k], whole, calls, hooks[k..], old(stream.View()));
      k := k + 1;
    }
    rest := hooks[k..];
  }

  /** PlayAudioThreadProc: tune the stream (a failed tune-up only logs a
   *  warning), allocate a burst buffer, whose contents are whatever the
   *  allocation left (`init`), and run the render loop. */
  method PlayAudioThreadProc(eng: Engine, tone: Tone, hooks: seq<Hook>) returns (ghost init: seq<int16>)
    requires eng.playStream != null && eng.playStream.state != Closed
    modifies eng, eng.playStream
    ensures eng.sampleRate == old(eng.sampleRate) && eng.sampleChannels == old(eng.sampleChannels)
    ensures eng.bitsPerSample == old(eng.bitsPerSample)
    ensures var stream := old(eng.playStream);
      var t := Tuner.Tune(old(stream.View()), stream.device);
      var r := FirstBurst(old(eng.Controls()), hooks, init, tone, stream.framesPerBurst, stream.samplesPerFrame);
      && |init| == stream.framesPerBurst * stream.samplesPerFrame
      && stream.log == old(stream.log) + t.calls + r.calls
      && eng.Controls() == r.flags
      && stream.state == (if r.exit == StopSeen then Closed else old(stream.state))
      && stream.bufferSize == t.final.bufferSize && stream.setCalls == t.final.setCalls
      && stream.writeCalls == t.final.writeCalls + (if r.exit == StopSeen then |r.calls| - 2 else |r.calls|)
      && stream.xRunCount == (if stream.writeCalls == t.final.writeCalls then t.final.xRunCount
                              else stream.device.xRunsAfter(stream.writeCalls - 1))
      && (r.exit == HooksExhausted ==> eng.playStream == stream)
  {
    var stream := eng.playStream;
    var _ := Tuner.TunePlayerForLowLatency(stream);
    var buf := new int16[stream.framesPerBurst * stream.samplesPerFrame];
    init := buf[..];
    RenderLoop(eng, stream, buf, tone, hooks);
  }
}
