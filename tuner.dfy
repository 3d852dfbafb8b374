/** TunePlayerForLowLatency: starting from one burst, grow the stream's
 *  buffer one burst at a time until a full-capacity write of silence adds
 *  no underrun; on any error, put back the size found on entry.
 *
 *  `Probe` and `Tune` say what the tuner does as a function of the stream it
 *  is given and of the platform's answers; `TunePlayerForLowLatency` is the
 *  loop itself, proved to do exactly that; the lemmas state what the tuner
 *  promises. */
module Tuner {
  import opened AAudio

  /** Why the tuner stopped. */
  datatype Exit =
    | NotStarted      // the stream was not in the STARTED state
    | SetRejected     // setBufferSizeInFrames answered <= AAUDIO_OK
    | SizeUnchanged   // the platform would not grow the buffer any further
    | NoNewUnderruns  // the last write added no underrun
    | WriteFailed     // the silent write answered a negative result
    | OverCapacity    // the next candidate is larger than the capacity
  {
    /** The exits after which the function returns true. */
    predicate Completed() { SizeUnchanged? || NoNewUnderruns? || OverCapacity? }
    /** The exits that set trainingError. */
    predicate TrainingError() { SetRejected? || WriteFailed? }
  }

  /** What the probing loop did: why it ended, the calls it issued, the
   *  successive values of prevXRun after the first, and the stream after it. */
  datatype Probing = Probing(exit: Exit, calls: seq<Call>, xRuns: seq<int32>, final: Snapshot)

  /** The outcome of one tuner run: its return value and the same record. */
  datatype Tuning = Tuning(ok: bool, exit: Exit, calls: seq<Call>, xRuns: seq<int32>, final: Snapshot)

  /** `p` preceded by calls and prevXRun values issued earlier. */
  function After(calls: seq<Call>, xRuns: seq<int32>, p: Probing): Probing
  {
    p.(calls := calls + p.calls, xRuns := xRuns + p.xRuns)
  }

  lemma AfterAfter(calls1: seq<Call>, xRuns1: seq<int32>, calls2: seq<Call>, xRuns2: seq<int32>, p: Probing)
    ensures After(calls1, xRuns1, After(calls2, xRuns2, p)) == After(calls1 + calls2, xRuns1 + xRuns2, p)
  {
    assert calls1 + (calls2 + p.calls) == calls1 + calls2 + p.calls;
    assert xRuns1 + (xRuns2 + p.xRuns) == xRuns1 + xRuns2 + p.xRuns;
  }

  /** Whether a round on a candidate within capacity goes on to the next:
   *  the request is granted, the size in force moved, the write succeeded
   *  and the underrun count rose. */
  predicate Continues(dev: Device, s: Snapshot, prevBufSize: int, prevXRun: int32)
  {
    var s1 := AfterSet(s, dev);
    && dev.setResult(s.setCalls) > Ok && s1.bufferSize != prevBufSize
    && dev.writeResult(s1.writeCalls) >= 0 && AfterWrite(s1, dev).xRunCount > prevXRun
  }

  /** The probing loop from one candidate size on: `bufSize` is the size to
   *  request next, `prevBufSize` the size applied by the previous round
   *  (0 before the first) and `prevXRun` the underrun count to beat.
   *  It terminates because it only goes round again when the 32-bit
   *  underrun count has strictly risen. */
  function Probe(dev: Device, s: Snapshot, bufSize: int, prevBufSize: int, prevXRun: int32): (p: Probing)
    ensures p.exit.Completed() || p.exit.TrainingError()
    ensures p.final.state == s.state && p.final.capacity == s.capacity
    ensures p.final.framesPerBurst == s.framesPerBurst && p.final.samplesPerFrame == s.samplesPerFrame
    ensures p.final.setCalls >= s.setCalls
    ensures p.final.setCalls == s.setCalls <==> bufSize > s.capacity
    ensures p.final.setCalls == s.setCalls ==> p.exit == OverCapacity && p.final == s && p.calls == []
    decreases 0x8000_0000 - prevXRun as int, 2
  {
    if bufSize > s.capacity then Probing(OverCapacity, [], [], s)
    else Candidate(dev, s, bufSize, prevBufSize, prevXRun)
  }

  /** One round of the probing loop for a candidate within capacity: request
   *  it and read back the size in force; if that moved, go on to the trial. */
  function Candidate(dev: Device, s: Snapshot, bufSize: int, prevBufSize: int, prevXRun: int32): (p: Probing)
    requires bufSize <= s.capacity
    ensures p.exit.Completed() || p.exit.TrainingError()
    ensures p.final.state == s.state && p.final.capacity == s.capacity
    ensures p.final.framesPerBurst == s.framesPerBurst && p.final.samplesPerFrame == s.samplesPerFrame
    ensures p.final.setCalls > s.setCalls
    decreases 0x8000_0000 - prevXRun as int, 1
  {
    var request := SetBufferSizeCall(bufSize);
    var s1 := AfterSet(s, dev);
    if dev.setResult(s.setCalls) <= Ok then Probing(SetRejected, [request], [], s1)
    else if s1.bufferSize == prevBufSize then Probing(SizeUnchanged, [request], [], s1)
    else After([request], [], Trial(dev, s1, prevXRun))
  }

  /** The second half of a round, at the size `s.bufferSize` now in force:
   *  write a full capacity of silence and compare the underrun count; if it
   *  rose, go on one burst above the size in force. */
  function Trial(dev: Device, s: Snapshot, prevXRun: int32): (p: Probing)
    ensures p.exit.Completed() || p.exit.TrainingError()
    ensures p.final.state == s.state && p.final.capacity == s.capacity
    ensures p.final.framesPerBurst == s.framesPerBurst && p.final.samplesPerFrame == s.samplesPerFrame
    ensures p.final.setCalls >= s.setCalls
    decreases 0x8000_0000 - prevXRun as int, 0
  {
    var silence := WriteCall(s.capacity, Silence(s.capacity * s.samplesPerFrame));
    var s2 := AfterWrite(s, dev);
    if dev.writeResult(s.writeCalls) < 0 then Probing(WriteFailed, [silence], [], s2)
    else if s2.xRunCount <= prevXRun then Probing(NoNewUnderruns, [silence], [], s2)
    else After([silence], [s2.xRunCount],
               Probe(dev, s2, s.bufferSize + s.framesPerBurst, s.bufferSize, s2.xRunCount))
  }

  /** One round of the probing loop, case by case. */
  lemma ProbeRound(dev: Device, s: Snapshot, bufSize: int, prevBufSize: int, prevXRun: int32)
    requires bufSize <= s.capacity
    ensures var s1 := AfterSet(s, dev);
            var s2 := AfterWrite(s1, dev);
            var request := SetBufferSizeCall(bufSize);
            var silence := WriteCall(s.capacity, Silence(s.capacity * s.samplesPerFrame));
            var p := Probe(dev, s, bufSize, prevBufSize, prevXRun);
            && (dev.setResult(s.setCalls) <= Ok ==> p == Probing(SetRejected, [request], [], s1))
            && (dev.setResult(s.setCalls) > Ok && s1.bufferSize == prevBufSize ==>
                  p == Probing(SizeUnchanged, [request], [], s1))
            && (dev.setResult(s.setCalls) > Ok && s1.bufferSize != prevBufSize ==>
                  && (dev.writeResult(s1.writeCalls) < 0 ==> p == Probing(WriteFailed, [request, silence], [], s2))
                  && (dev.writeResult(s1.writeCalls) >= 0 && s2.xRunCount <= prevXRun ==>
                        p == Probing(NoNewUnderruns, [request, silence], [], s2))
                  && (dev.writeResult(s1.writeCalls) >= 0 && s2.xRunCount > prevXRun ==>
                        p == After([request, silence], [s2.xRunCount],
                                   Probe(dev, s2, s1.bufferSize + s.framesPerBurst, s1.bufferSize, s2.xRunCount))))
  {
    var s1 := AfterSet(s, dev);
    var s2 := AfterWrite(s1, dev);
    var request := SetBufferSizeCall(bufSize);
    var silence := WriteCall(s.capacity, Silence(s.capacity * s.samplesPerFrame));
    assert Probe(dev, s, bufSize, prevBufSize, prevXRun) == Candidate(dev, s, bufSize, prevBufSize, prevXRun);
    if dev.setResult(s.setCalls) > Ok && s1.bufferSize != prevBufSize {
      assert Candidate(dev, s, bufSize, prevBufSize, prevXRun) == After([request], [], Trial(dev, s1, prevXRun));
      assert s1.capacity == s.capacity && s1.samplesPerFrame == s.samplesPerFrame && s1.writeCalls == s.writeCalls;
      if dev.writeResult(s1.writeCalls) < 0 {
        assert Trial(dev, s1, prevXRun) == Probing(WriteFailed, [silence], [], s2);
      } else if s2.xRunCount <= prevXRun {
        assert Trial(dev, s1, prevXRun) == Probing(NoNewUnderruns, [silence], [], s2);
      } else {
        AfterAfter([request], [], [silence], [s2.xRunCount],
                   Probe(dev, s2, s1.bufferSize + s.framesPerBurst, s1.bufferSize, s2.xRunCount));
      }
    }
  }

  /** A round after which the loop goes on: the probe is that round's two
   *  calls followed by the probe from the next candidate. */
  lemma ProbeContinues(dev: Device, s: Snapshot, bufSize: int, prevBufSize: int, prevXRun: int32)
    requires bufSize <= s.capacity
    requires Continues(dev, s, prevBufSize, prevXRun)
    ensures var s1 := AfterSet(s, dev);
            var s2 := AfterWrite(s1, dev);
            Probe(dev, s, bufSize, prevBufSize, prevXRun)
              == After([SetBufferSizeCall(bufSize), WriteCall(s.capacity, Silence(s.capacity * s.samplesPerFrame))],
                       [s2.xRunCount], Probe(dev, s2, s1.bufferSize + s.framesPerBurst, s1.bufferSize, s2.xRunCount))
  {
    ProbeRound(dev, s, bufSize, prevBufSize, prevXRun);
  }

  /** A round after which the loop stops: it issued the set request and at
   *  most one write, and no further underrun count was recorded. */
  lemma ProbeStops(dev: Device, s: Snapshot, bufSize: int, prevBufSize: int, prevXRun: int32)
    requires bufSize <= s.capacity
    requires !Continues(dev, s, prevBufSize, prevXRun)
    ensures var p := Probe(dev, s, bufSize, prevBufSize, prevXRun);
            var s1 := AfterSet(s, dev);
            && p.xRuns == []
            && (p.calls == [SetBufferSizeCall(bufSize)] || p.calls == [SetBufferSizeCall(bufSize), WriteCall(s.capacity, Silence(s.capacity * s.samplesPerFrame))])
            && (p.final == s1 || p.final == AfterWrite(s1, dev))
  {
    ProbeRound(dev, s, bufSize, prevBufSize, prevXRun);
  }

  /** The loop invariant of the tuner: the whole probe consists of what has
   *  been issued so far followed by the probe from the current candidate. */
  ghost predicate Remains(whole: Probing, calls: seq<Call>, xRuns: seq<int32>,
                          dev: Device, s: Snapshot, bufSize: int, prevBufSize: int, prevXRun: int32)
  {
    whole == After(calls, xRuns, Probe(dev, s, bufSize, prevBufSize, prevXRun))
  }

  /** The probing loop as the tuner enters it. */
  function FirstProbe(v: Snapshot, dev: Device): Probing
  {
    Probe(dev, v, v.framesPerBurst, 0, v.xRunCount)
  }

  /** One tuner run on a stream in state `v`. */
  function Tune(v: Snapshot, dev: Device): (t: Tuning)
    ensures t.ok <==> v.state == Started && t.exit.Completed()
    ensures !t.ok <==> t.exit == NotStarted || t.exit.TrainingError()
    ensures t.final.state == v.state && t.final.capacity == v.capacity
    ensures t.final.framesPerBurst == v.framesPerBurst && t.final.samplesPerFrame == v.samplesPerFrame
  {
    if v.state != Started then Tuning(false, NotStarted, [], [], v)
    else
      var p := FirstProbe(v, dev);
      if p.exit.TrainingError() then
        Tuning(false, p.exit, p.calls + [SetBufferSizeCall(v.bufferSize)], p.xRuns, AfterSet(p.final, dev))
      else
        Tuning(true, p.exit, p.calls, p.xRuns, p.final)
  }

  /** The sizes requested, in order, by the setBufferSizeInFrames calls of a log. */
  function SetRequests(calls: seq<Call>): (r: seq<int>)
    ensures |r| <= |calls|
  {
    if calls == [] then [] else RequestOf(calls[0]) + SetRequests(calls[1..])
  }

  function RequestOf(c: Call): seq<int>
  {
    if c.SetBufferSizeCall? then [c.frames] else []
  }

  /** The tuner itself. The scratch buffer holds `capacity` whole frames of
   *  silence (see the finding about its size in the source). */
  method TunePlayerForLowLatency(stream: Stream) returns (ok: bool)
    requires stream.state != Closed
    modifies stream
    ensures var t := Tune(old(stream.View()), stream.device);
      && ok == t.ok
      && stream.View() == t.final
      && stream.log == old(stream.log) + t.calls
    ensures stream.state == old(stream.state)
  {
    if stream.state != Started {
      return false;
    }
    var orgSize := stream.bufferSize;
    var buf := new int16[stream.capacity * stream.samplesPerFrame](_ => 0);
    assert buf[..] == Silence(buf.Length);
    var trainingError := ProbeLoop(stream, buf);
    if trainingError {
      var _ := stream.SetBufferSizeInFrames(orgSize);
      return false;
    }
    return true;
  }

  /** The while loop of the tuner: from one burst up, try candidate sizes
   *  until one of the exits of `Probe`. */
  method ProbeLoop(stream: Stream, buf: array<int16>) returns (trainingError: bool)
    requires stream.state == Started
    requires buf.Length == stream.capacity * stream.samplesPerFrame
    requires buf[..] == Silence(buf.Length)
    modifies stream
    ensures var p := FirstProbe(old(stream.View()), stream.device);
      && trainingError == p.exit.TrainingError()
      && stream.View() == p.final
      && stream.log == old(stream.log) + p.calls
  {
    var framesPerBurst := stream.framesPerBurst;
    var bufSize: int := framesPerBurst;
    var bufCap := stream.capacity;
    var prevXRun := stream.xRunCount;
    var prevBufSize := 0;
    trainingError := false;

    ghost var whole := FirstProbe(stream.View(), stream.device);
    ghost var calls: seq<Call> := [];
    ghost var xRuns: seq<int32> := [];
    while bufSize <= bufCap
      invariant stream.state == Started
      invariant buf[..] == Silence(buf.Length)
      invariant Remains(whole, calls, xRuns, stream.device, stream.View(), bufSize, prevBufSize, prevXRun)
      invariant stream.log == old(stream.log) + calls
      modifies stream
      decreases 0x8000_0000 - prevXRun as int
    {
      var done, failed, applied, curXRun, round := TryCandidate(stream, buf, bufSize, prevBufSize, prevXRun, calls, xRuns);
      AppendAssoc(old(stream.log), calls, round);
      calls := calls + round;
      if done {
        return failed;
      }
      xRuns := xRuns + [curXRun];
      prevBufSize, prevXRun := applied, curXRun;
      bufSize := applied + framesPerBurst;
    }
    assert calls + [] == calls && xRuns + [] == xRuns;
  }

  /** The body of the tuner's loop for one candidate: request `bufSize`,
   *  read back the size in force, write a full capacity of silence and read
   *  the underrun count. `done` says the loop stops after this round, and
   *  `applied` and `curXRun` are the values the next round starts from. */
  method TryCandidate(stream: Stream, buf: array<int16>, bufSize: int, prevBufSize: int, prevXRun: int32,
                      ghost calls: seq<Call>, ghost xRuns: seq<int32>)
    returns (done: bool, trainingError: bool, applied: int, curXRun: int32, ghost round: seq<Call>)
    requires stream.state == Started && bufSize <= stream.capacity
    requires buf.Length == stream.capacity * stream.samplesPerFrame
    requires buf[..] == Silence(buf.Length)
    modifies stream
    ensures stream.state == Started
    ensures stream.log == old(stream.log) + round
    ensures var whole := After(calls, xRuns, Probe(stream.device, old(stream.View()), bufSize, prevBufSize, prevXRun));
      if done then
        whole == Probing(whole.exit, calls + round, xRuns, stream.View()) && trainingError == whole.exit.TrainingError()
      else
        && prevXRun < curXRun
        && whole == After(calls + round, xRuns + [curXRun], Probe(stream.device, stream.View(), applied + stream.framesPerBurst, applied, curXRun))
  {
    ProbeRound(stream.device, stream.View(), bufSize, prevBufSize, prevXRun);
    done, trainingError, applied, curXRun := true, false, prevBufSize, prevXRun;
    var bufCap := stream.capacity;
    var result := stream.SetBufferSizeInFrames(bufSize);
    round := [SetBufferSizeCall(bufSize)];
    if result <= Ok {
      trainingError := true;
    } else {
      applied := stream.bufferSize;
      if applied != prevBufSize {
        result := stream.Write(buf, bufCap);
        assert buf[..bufCap * stream.samplesPerFrame] == Silence(bufCap * stream.samplesPerFrame);
        round := round + [WriteCall(bufCap, Silence(bufCap * stream.samplesPerFrame))];
        if result < 0 {
          trainingError := true;
        } else {
          curXRun := stream.xRunCount;
          done := curXRun <= prevXRun;
        }
      }
    }
    assert xRuns + [] == xRuns;
    if !done {
      AfterAfter(calls, xRuns, round, [curXRun],
                 Probe(stream.device, stream.View(), applied + stream.framesPerBurst, applied, curXRun));
    }
  }

  // ---------------------------------------------------------------------------
  // What the probing loop promises

  lemma {:induction false} SetRequestsAppend(a: seq<Call>, b: seq<Call>)
    ensures SetRequests(a + b) == SetRequests(a) + SetRequests(b)
    decreases |a|
  {
    if a == [] {
      assert a + b == b;
    } else {
      calc {
        SetRequests(a + b);
        { assert (a + b)[0] == a[0] && (a + b)[1..] == a[1..] + b; }
        RequestOf(a[0]) + SetRequests(a[1..] + b);
        { SetRequestsAppend(a[1..], b); }
        RequestOf(a[0]) + (SetRequests(a[1..]) + SetRequests(b));
        (RequestOf(a[0]) + SetRequests(a[1..])) + SetRequests(b);
      }
    }
  }

  /** The sizes the tuner requests, by its rule: `first`, then each size
   *  granted by set call `n`, `n + 1`, … plus one burst. */
  function Candidates(first: int, grant: nat -> int, n: nat, fpb: int, count: nat): (r: seq<int>)
    ensures |r| == count
    ensures count > 0 ==> r[0] == first
    decreases count
  {
    if count == 0 then [] else [first] + Candidates(grant(n) + fpb, grant, n + 1, fpb, count - 1)
  }

  /** The rule by index: every request after the first is the grant of the
   *  set call before it plus one burst. */
  lemma {:induction false} CandidatesAt(first: int, grant: nat -> int, n: nat, fpb: int, count: nat)
    ensures forall i :: 0 < i < count ==> Candidates(first, grant, n, fpb, count)[i] == grant(n + i - 1) + fpb
    decreases count
  {
    if count > 1 {
      CandidatesAt(grant(n) + fpb, grant, n + 1, fpb, count - 1);
      forall i | 0 < i < count
        ensures Candidates(first, grant, n, fpb, count)[i] == grant(n + i - 1) + fpb
      {
        assert Candidates(first, grant, n, fpb, count)[i] == Candidates(grant(n) + fpb, grant, n + 1, fpb, count - 1)[i - 1];
      }
    }
  }

  /** The requests `rq` follow the tuner's rule from `first` on, with the
   *  grants of set calls `n`, `n + 1`, …, stay within `cap`, and every grant
   *  that led to a further request was positive. */
  ghost predicate FollowsRule(rq: seq<int>, first: int, dev: Device, n: nat, fpb: int, cap: int)
  {
    && rq == Candidates(first, dev.setResult, n, fpb, |rq|)
    && (forall i :: 0 <= i < |rq| ==> rq[i] <= cap)
    && (forall i :: 0 < i < |rq| ==> rq[i] > fpb)
  }

  lemma FollowsRuleStep(rq: seq<int>, rest: seq<int>, first: int, dev: Device, n: nat, fpb: int, cap: int,
                        second: int, n1: nat, fpb1: int, cap1: int)
    requires rq == [first] + rest && first <= cap && dev.setResult(n) > 0
    requires second == dev.setResult(n) + fpb && n1 == n + 1 && fpb1 == fpb && cap1 == cap
    requires FollowsRule(rest, second, dev, n1, fpb1, cap1)
    ensures FollowsRule(rq, first, dev, n, fpb, cap)
  {
    forall i | 0 < i < |rq|
      ensures rq[i] == rest[i - 1]
    {
    }
  }

  /** The candidate rule: the first request is `bufSize`, every later one is
   *  the size the platform granted to the request before it plus one burst
   *  (so that grant was positive), no request exceeds the capacity, and the
   *  requests are exactly the set calls made. */
  lemma ProbeRequests(dev: Device, s: Snapshot, bufSize: int, prevBufSize: int, prevXRun: int32)
    ensures var p := Probe(dev, s, bufSize, prevBufSize, prevXRun);
            var rq := SetRequests(p.calls);
            && |rq| == p.final.setCalls - s.setCalls
            && (|rq| > 0 <==> bufSize <= s.capacity)
            && (|rq| > 0 ==> rq[0] == bufSize)
            && (forall i :: 0 < i < |rq| ==> rq[i] == dev.setResult(s.setCalls + i - 1) + s.framesPerBurst)
            && (forall i :: 0 < i < |rq| ==> rq[i] > s.framesPerBurst)
            && (forall i :: 0 <= i < |rq| ==> rq[i] <= s.capacity)
  {
    var p := Probe(dev, s, bufSize, prevBufSize, prevXRun);
    var rq := SetRequests(p.calls);
    RequestsOf(dev, s, bufSize, prevBufSize, prevXRun, p, rq);
    CandidatesAt(bufSize, dev.setResult, s.setCalls, s.framesPerBurst, |rq|);
  }

  lemma {:induction false} RequestsOf(dev: Device, s: Snapshot, bufSize: int, prevBufSize: int, prevXRun: int32,
                                      p: Probing, rq: seq<int>)
    requires Probes(p, dev, s, bufSize, prevBufSize, prevXRun) && rq == SetRequests(p.calls)
    ensures |rq| == p.final.setCalls - s.setCalls
    ensures |rq| > 0 <==> bufSize <= s.capacity
    ensures FollowsRule(rq, bufSize, dev, s.setCalls, s.framesPerBurst, s.capacity)
    decreases 0x8000_0000 - prevXRun as int, 1
  {
    if bufSize <= s.capacity {
      if Continues(dev, s, prevBufSize, prevXRun) {
        RequestsContinue(dev, s, bufSize, prevBufSize, prevXRun, p, rq);
      } else {
        ProbeStops(dev, s, bufSize, prevBufSize, prevXRun);
        SetRequestsPair(SetBufferSizeCall(bufSize), WriteCall(s.capacity, Silence(s.capacity * s.samplesPerFrame)));
      }
    }
  }

  lemma {:induction false} RequestsContinue(dev: Device, s: Snapshot, bufSize: int, prevBufSize: int, prevXRun: int32,
                                            p: Probing, rq: seq<int>)
    requires bufSize <= s.capacity && Continues(dev, s, prevBufSize, prevXRun)
    requires Probes(p, dev, s, bufSize, prevBufSize, prevXRun) && rq == SetRequests(p.calls)
    ensures |rq| == p.final.setCalls - s.setCalls && |rq| > 0
    ensures FollowsRule(rq, bufSize, dev, s.setCalls, s.framesPerBurst, s.capacity)
    decreases 0x8000_0000 - prevXRun as int, 0
  {
    var s1 := AfterSet(s, dev);
    var s2 := AfterWrite(s1, dev);
    ProbeContinues(dev, s, bufSize, prevBufSize, prevXRun);
    var rest := Probe(dev, s2, s1.bufferSize + s.framesPerBurst, s1.bufferSize, s2.xRunCount);
    var rqRest := SetRequests(rest.calls);
    RequestsOf(dev, s2, s1.bufferSize + s.framesPerBurst, s1.bufferSize, s2.xRunCount, rest, rqRest);
    RoundRequests(p, rest, bufSize, WriteCall(s.capacity, Silence(s.capacity * s.samplesPerFrame)), s2.xRunCount, rq, rqRest);
    FollowsRuleStep(rq, rqRest, bufSize, dev, s.setCalls, s.framesPerBurst, s.capacity,
                    s1.bufferSize + s.framesPerBurst, s2.setCalls, s2.framesPerBurst, s2.capacity);
  }

  /** The requests of a round that goes on: its own, then the rest's. */
  lemma RoundRequests(p: Probing, rest: Probing, bufSize: int, silence: Call, x: int32, rq: seq<int>, rqRest: seq<int>)
    requires p == After([SetBufferSizeCall(bufSize), silence], [x], rest) && silence.WriteCall?
    requires rq == SetRequests(p.calls) && rqRest == SetRequests(rest.calls)
    ensures rq == [bufSize] + rqRest && p.final == rest.final
  {
    SetRequestsPair(SetBufferSizeCall(bufSize), silence);
    SetRequestsAppend([SetBufferSizeCall(bufSize), silence], rest.calls);
  }

  lemma SetRequestsPair(request: Call, silence: Call)
    requires request.SetBufferSizeCall? && silence.WriteCall?
    ensures SetRequests([request]) == SetRequests([request, silence]) == [request.frames]
  {
    assert [request, silence][1..] == [silence];
    assert [request][1..] == [];
    assert [silence][1..] == [];
  }

  /** `p` is what the loop does from the given state; stated as a predicate so
   *  that the proofs below refer to `Probe` without unfolding it. */
  ghost predicate Probes(p: Probing, dev: Device, s: Snapshot, bufSize: int, prevBufSize: int, prevXRun: int32)
  {
    p == Probe(dev, s, bufSize, prevBufSize, prevXRun)
  }

  /** `xs` strictly increases, starting above `lo`. */
  ghost predicate Rising(xs: seq<int32>, lo: int32)
  {
    && (forall i :: 0 <= i < |xs| ==> lo < xs[i])
    && (forall i, j :: 0 <= i < j < |xs| ==> xs[i] < xs[j])
  }

  /** `xs` are the underrun counts reported after writes `n`, `n + 1`, …. */
  ghost predicate ReportedFrom(xs: seq<int32>, dev: Device, n: nat)
  {
    forall i :: 0 <= i < |xs| ==> xs[i] == dev.xRunsAfter(n + i)
  }

  lemma UnderrunsStep(xs: seq<int32>, rest: seq<int32>, x: int32, lo: int32, dev: Device, n: nat)
    requires xs == [x] + rest && lo < x && x == dev.xRunsAfter(n)
    requires Rising(rest, x) && ReportedFrom(rest, dev, n + 1)
    ensures Rising(xs, lo) && ReportedFrom(xs, dev, n)
  {
    assert forall i :: 0 < i < |xs| ==> xs[i] == rest[i - 1];
  }

  /** Underruns: the loop goes round again only when the underrun count has
   *  strictly risen, so the successive values of prevXRun strictly increase
   *  from the initial one; each is the count reported after one more write;
   *  every round but an over-capacity exit issues one set request; and the
   *  loop ends on "no new underruns" only when the last write reported no
   *  more underruns than the last value of prevXRun. */
  lemma ProbeUnderruns(dev: Device, s: Snapshot, bufSize: int, prevBufSize: int, prevXRun: int32)
    ensures var p := Probe(dev, s, bufSize, prevBufSize, prevXRun);
            && (forall i :: 0 <= i < |p.xRuns| ==> prevXRun < p.xRuns[i])
            && (forall i, j :: 0 <= i < j < |p.xRuns| ==> p.xRuns[i] < p.xRuns[j])
            && (forall i :: 0 <= i < |p.xRuns| ==> p.xRuns[i] == dev.xRunsAfter(s.writeCalls + i))
            && |SetRequests(p.calls)| == |p.xRuns| + (if p.exit == OverCapacity then 0 else 1)
            && p.final.writeCalls == s.writeCalls + |p.xRuns| + (if p.exit.WriteFailed? || p.exit.NoNewUnderruns? then 1 else 0)
            && (p.exit == NoNewUnderruns ==>
                  p.final.xRunCount <= (if p.xRuns == [] then prevXRun else p.xRuns[|p.xRuns| - 1]))
  {
    var p := Probe(dev, s, bufSize, prevBufSize, prevXRun);
    UnderrunsOf(dev, s, bufSize, prevBufSize, prevXRun, p);
    RequestsOf(dev, s, bufSize, prevBufSize, prevXRun, p, SetRequests(p.calls));
  }

  lemma {:induction false} UnderrunsOf(dev: Device, s: Snapshot, bufSize: int, prevBufSize: int, prevXRun: int32,
                                       p: Probing)
    requires Probes(p, dev, s, bufSize, prevBufSize, prevXRun)
    ensures Rising(p.xRuns, prevXRun) && ReportedFrom(p.xRuns, dev, s.writeCalls)
    ensures p.final.setCalls == s.setCalls + |p.xRuns| + (if p.exit == OverCapacity then 0 else 1)
    ensures p.final.writeCalls == s.writeCalls + |p.xRuns| + (if p.exit.WriteFailed? || p.exit.NoNewUnderruns? then 1 else 0)
    ensures p.exit == NoNewUnderruns ==>
              p.final.xRunCount <= (if p.xRuns == [] then prevXRun else p.xRuns[|p.xRuns| - 1])
    decreases 0x8000_0000 - prevXRun as int
  {
    if bufSize <= s.capacity {
      var s1 := AfterSet(s, dev);
      var s2 := AfterWrite(s1, dev);
      if Continues(dev, s, prevBufSize, prevXRun) {
        ProbeContinues(dev, s, bufSize, prevBufSize, prevXRun);
        var rest := Probe(dev, s2, s1.bufferSize + s.framesPerBurst, s1.bufferSize, s2.xRunCount);
        UnderrunsOf(dev, s2, s1.bufferSize + s.framesPerBurst, s1.bufferSize, s2.xRunCount, rest);
        UnderrunsStep(p.xRuns, rest.xRuns, s2.xRunCount, prevXRun, dev, s.writeCalls);
      } else {
        ProbeStops(dev, s, bufSize, prevBufSize, prevXRun);
        ProbeRound(dev, s, bufSize, prevBufSize, prevXRun);
      }
    }
  }

  /** The size the loop leaves in force: unless the last request was
   *  rejected, it is the size the platform granted to the last request
   *  (none was made when the first candidate is over capacity). */
  lemma {:induction false} ProbeLastGrant(dev: Device, s: Snapshot, bufSize: int, prevBufSize: int, prevXRun: int32)
    ensures var p := Probe(dev, s, bufSize, prevBufSize, prevXRun);
            p.final.setCalls > s.setCalls ==>
              && (p.exit == SetRejected <==> dev.setResult(p.final.setCalls - 1) <= Ok)
              && (p.exit != SetRejected ==> p.final.bufferSize == dev.setResult(p.final.setCalls - 1))
    decreases 0x8000_0000 - prevXRun as int
  {
    if bufSize <= s.capacity {
      ProbeRound(dev, s, bufSize, prevBufSize, prevXRun);
      var s1 := AfterSet(s, dev);
      var s2 := AfterWrite(s1, dev);
      if dev.setResult(s.setCalls) > Ok && s1.bufferSize != prevBufSize && dev.writeResult(s1.writeCalls) >= 0
         && s2.xRunCount > prevXRun
      {
        var rest := Probe(dev, s2, s1.bufferSize + s.framesPerBurst, s1.bufferSize, s2.xRunCount);
        ProbeLastGrant(dev, s2, s1.bufferSize + s.framesPerBurst, s1.bufferSize, s2.xRunCount);
        if rest.final.setCalls == s2.setCalls {
          assert rest.final == s2;
        }
      }
    }
  }

  /** Every write the loop issues is `capacity` frames of silence. */
  lemma {:induction false} ProbeWritesSilence(dev: Device, s: Snapshot, bufSize: int, prevBufSize: int, prevXRun: int32)
    ensures var p := Probe(dev, s, bufSize, prevBufSize, prevXRun);
            forall i :: 0 <= i < |p.calls| && p.calls[i].WriteCall? ==>
              p.calls[i] == WriteCall(s.capacity, Silence(s.capacity * s.samplesPerFrame))
    decreases 0x8000_0000 - prevXRun as int
  {
    if bufSize <= s.capacity {
      ProbeRound(dev, s, bufSize, prevBufSize, prevXRun);
      var s1 := AfterSet(s, dev);
      var s2 := AfterWrite(s1, dev);
      if dev.setResult(s.setCalls) > Ok && s1.bufferSize != prevBufSize && dev.writeResult(s1.writeCalls) >= 0
         && s2.xRunCount > prevXRun
      {
        ProbeWritesSilence(dev, s2, s1.bufferSize + s.framesPerBurst, s1.bufferSize, s2.xRunCount);
      }
    }
  }

  /** The return value and the restore: a stream that is not started is left
   *  untouched and the tuner fails without any call; otherwise the tuner
   *  returns true exactly on the three error-free exits, in which case it
   *  leaves in force the size the platform granted to its last request (or
   *  the size on entry when even one burst exceeds the capacity); after a
   *  rejected request or a failed write it fails, and its last call asks
   *  for the size found on entry. */
  lemma TuneOutcome(v: Snapshot, dev: Device)
    ensures var t := Tune(v, dev);
            && (v.state != Started ==> !t.ok && t.exit == NotStarted && t.calls == [] && t.xRuns == [] && t.final == v)
            && (v.state == Started ==> (t.ok <==> t.exit.Completed()) && (!t.ok <==> t.exit.TrainingError()))
            && (t.ok ==> t.final.setCalls == v.setCalls ==> t.exit == OverCapacity && t.final == v)
            && (t.ok ==> t.final.setCalls > v.setCalls ==> t.final.bufferSize == dev.setResult(t.final.setCalls - 1) > 0)
            && (v.state == Started && !t.ok ==>
                  && |t.calls| > 0 && t.calls[|t.calls| - 1] == SetBufferSizeCall(v.bufferSize)
                  && t.final.setCalls > v.setCalls + 1)
  {
    if v.state == Started {
      var p := FirstProbe(v, dev);
      ProbeLastGrant(dev, v, v.framesPerBurst, 0, v.xRunCount);
    }
  }

  /** The candidate sizes: the tuner requests one burst first, unless even
   *  that exceeds the capacity, in which case it requests nothing; every
   *  later request inside the loop is the size granted to the request
   *  before it (so a positive one, the applied size) plus one burst; no
   *  request inside the loop exceeds the capacity; and after an error the
   *  one extra request is the size found on entry. */
  lemma TuneCandidates(v: Snapshot, dev: Device)
    requires v.state == Started
    ensures var t := Tune(v, dev);
            var rq := SetRequests(t.calls);
            var loop := if t.ok then |rq| else |rq| - 1;
            && 0 <= loop <= |rq|
            && (loop > 0 <==> v.framesPerBurst <= v.capacity)
            && (loop > 0 ==> rq[0] == v.framesPerBurst)
            && (forall i :: 0 < i < loop ==> rq[i] == dev.setResult(v.setCalls + i - 1) + v.framesPerBurst)
            && (forall i :: 0 < i < loop ==> rq[i] > v.framesPerBurst)
            && (forall i :: 0 <= i < loop ==> rq[i] <= v.capacity)
            && (!t.ok ==> rq[|rq| - 1] == v.bufferSize)
  {
    var p := FirstProbe(v, dev);
    var t := Tune(v, dev);
    ProbeRequests(dev, v, v.framesPerBurst, 0, v.xRunCount);
    if p.exit.TrainingError() {
      var restore := SetBufferSizeCall(v.bufferSize);
      assert t.calls == p.calls + [restore];
      SetRequestsAppend(p.calls, [restore]);
      assert [restore][1..] == [];
      assert SetRequests(t.calls) == SetRequests(p.calls) + [v.bufferSize];
    }
  }

  /** The underrun counts: prevXRun takes only strictly larger values, each
   *  the count reported after one more silent write. */
  lemma TuneUnderruns(v: Snapshot, dev: Device)
    ensures var t := Tune(v, dev);
            && (forall i :: 0 <= i < |t.xRuns| ==> v.xRunCount < t.xRuns[i])
            && (forall i, j :: 0 <= i < j < |t.xRuns| ==> t.xRuns[i] < t.xRuns[j])
            && (forall i :: 0 <= i < |t.xRuns| ==> t.xRuns[i] == dev.xRunsAfter(v.writeCalls + i))
            && t.final.writeCalls - v.writeCalls == |t.xRuns| + (if t.exit.WriteFailed? || t.exit.NoNewUnderruns? then 1 else 0)
  {
    if v.state == Started {
      ProbeUnderruns(dev, v, v.framesPerBurst, 0, v.xRunCount);
    }
  }

  /** Every write the tuner issues is `capacity` frames of silence. */
  lemma TuneWritesSilence(v: Snapshot, dev: Device)
    ensures var t := Tune(v, dev);
            forall i :: 0 <= i < |t.calls| && t.calls[i].WriteCall? ==>
              t.calls[i] == WriteCall(v.capacity, Silence(v.capacity * v.samplesPerFrame))
  {
    if v.state == Started {
      var p := FirstProbe(v, dev);
      assert p == Probe(dev, v, v.framesPerBurst, 0, v.xRunCount);
      ProbeWritesSilence(dev, v, v.framesPerBurst, 0, v.xRunCount);
      var t := Tune(v, dev);
      if p.exit.TrainingError() {
        assert t.calls == p.calls + [SetBufferSizeCall(v.bufferSize)];
        forall i | 0 <= i < |t.calls| && t.calls[i].WriteCall?
          ensures t.calls[i] == WriteCall(v.capacity, Silence(v.capacity * v.samplesPerFrame))
        {
          assert i < |p.calls| && t.calls[i] == p.calls[i];
        }
      }
    }
  }

  /** A platform that rejects every request: if one burst fits the capacity,
   *  the tuner fails and, the restore being rejected too, the size found on
   *  entry stays in force; if even one burst exceeds the capacity, nothing is
   *  requested and the tuner succeeds with the stream untouched. */
  lemma AllRejected(v: Snapshot, dev: Device)
    requires v.state == Started && forall n :: dev.setResult(n) <= Ok
    ensures var t := Tune(v, dev);
            && (v.framesPerBurst <= v.capacity ==> !t.ok && t.exit == SetRejected && t.final.bufferSize == v.bufferSize)
            && (v.framesPerBurst > v.capacity ==> t.ok && t.exit == OverCapacity && t.final == v)
  {
    if v.framesPerBurst <= v.capacity {
      ProbeRound(dev, v, v.framesPerBurst, 0, v.xRunCount);
    }
  }

  /** The size, in bytes, of the scratch buffer as the source allocates it:
   *  `bufCap * bitsPerSample / 8`, room for `bufCap` samples of one channel. */
  function ScratchBytesAsWritten(bufCap: nat, bitsPerSample: nat): (r: nat)
    ensures r * 8 <= bufCap * bitsPerSample < r * 8 + 8
  {
    bufCap * bitsPerSample / 8
  }

  /** The bytes AAudioStream_write reads for `frames` frames of
   *  `samplesPerFrame` samples of `bitsPerSample` bits each. */
  function BytesRead(frames: nat, samplesPerFrame: nat, bitsPerSample: nat): nat
  {
    frames * samplesPerFrame * (bitsPerSample / 8)
  }

  /** The silent write of `bufCap` frames reads past the end of the scratch
   *  buffer whenever a frame holds more than one sample: for 16-bit samples
   *  the buffer holds exactly one channel's worth. A 96-frame stereo
   *  capacity, for one, gets 192 bytes while the write reads 384. */
  lemma ScratchTooSmallForStereo(bufCap: nat, samplesPerFrame: nat)
    requires bufCap > 0 && samplesPerFrame >= 2
    ensures ScratchBytesAsWritten(bufCap, 16) == BytesRead(bufCap, 1, 16)
    ensures ScratchBytesAsWritten(bufCap, 16) < BytesRead(bufCap, samplesPerFrame, 16)
  {
    assert bufCap * 16 / 8 == bufCap * 2;
    assert bufCap * samplesPerFrame * 2 >= bufCap * 2 * 2;
  }
}
