/** The loop that fetches the host's bitstream, turn by turn, and asks for a keyframe when owed one. */
module KeyframeLoop {
  import opened Options
  import opened ViewChunk
  import opened NativeDecoder

  /** How one `view_next_chunk` call ended: refused or unreadable, or with a chunk for the decoder. */
  datatype Answer = Failed | Arrived(chunk: Chunk, replies: seq<Reply>)

  datatype Event = Tick(answer: Answer) | Error(reports: bool, closes: bool)

  predicate Matching(e: Event) {
    e.Tick? && e.answer.Arrived? ==> |e.answer.replies| == |e.answer.chunk.frames|
  }

  /**
   What a turn brought: whether the stream broke, whether the codec is another than the turn before
   had, whether an error was reported since, and which frames of the stream it pushed.
   */
  datatype Turn = Turn(desync: bool, switched: bool, faulted: bool, from: nat, to: nat)

  /**
   The window's loop: its decoder, what it owes the host, and a history: the requests and turns so
   far, and since the last turn the codec it had and whether an error was reported.
   */
  datatype Loop = Loop(
    decoder: State, needKeyframe: bool, running: bool, asked: seq<bool>, turns: seq<Turn>,
    codec: Option<Codec>, faulted: bool)

  const OPENED: Loop := Loop(FRESH, true, true, [], [], None, false)

  predicate NeedsWorker(codec: Codec, native: set<Codec>) {
    codec != H264 && codec !in native
  }

  function Desynced(s: State, desync: bool): (s': State)
    requires WellTyped(s)
    ensures WellTyped(s')
  {
    if desync then Reset(s) else s
  }

  function TurnOf(l: Loop, chunk: Chunk): Turn {
    var n := |l.decoder.stream|;
    Turn(chunk.desync, l.codec.Some? && l.codec.value != chunk.codec, l.faulted, n, n + |chunk.frames|)
  }

  ghost function Ticked(l: Loop, native: set<Codec>, answer: Answer): (l': Loop)
    requires WellTyped(l.decoder) && Matching(Tick(answer))
    ensures WellTyped(l'.decoder)
  {
    if !l.running then l
    else
      var l1 := l.(asked := l.asked + [l.needKeyframe], needKeyframe := false);
      if answer.Failed? then l1.(running := false)
      else if NeedsWorker(answer.chunk.codec, native) then l1.(running := false, decoder := Reset(l.decoder))
      else
        var chunk := answer.chunk;
        var d := Desynced(l.decoder, chunk.desync);
        l1.(decoder := Push(d, chunk.frames, chunk.codec, answer.replies),
            needKeyframe := chunk.desync || NeedsKeyframe(d, chunk.frames, chunk.codec, answer.replies),
            turns := l.turns + [TurnOf(l, chunk)], codec := Some(chunk.codec), faulted := false)
  }

  ghost function Step(l: Loop, native: set<Codec>, e: Event): (l': Loop)
    requires WellTyped(l.decoder) && Matching(e)
    ensures WellTyped(l'.decoder)
  {
    match e
    case Tick(answer) => Ticked(l, native, answer)
    case Error(reports, closes) =>
      l.(decoder := Fault(l.decoder, reports, closes), faulted := l.faulted || reports)
  }

  ghost function After(l: Loop, native: set<Codec>, events: seq<Event>): (l': Loop)
    requires WellTyped(l.decoder) && forall i :: 0 <= i < |events| ==> Matching(events[i])
    ensures WellTyped(l'.decoder)
    decreases |events|
  {
    if events == [] then l else After(Step(l, native, events[0]), native, events[1..])
  }

  // ----- The loop ----------------------------------------------------------

  class Window {
    const native: set<Codec>
    const decoder: Decoder
    var needKeyframe: bool
    var running: bool
    var asked: seq<bool>
    ghost var turns: seq<Turn>
    ghost var lastCodec: Option<Codec>
    ghost var faulted: bool

    ghost function View(): Loop
      reads this, decoder
    {
      Loop(decoder.View(), needKeyframe, running, asked, turns, lastCodec, faulted)
    }

    constructor (native: set<Codec>)
      ensures View() == OPENED && this.native == native && fresh(decoder)
    {
      this.native := native;
      decoder := new Decoder();
      needKeyframe, running, asked, turns, lastCodec, faulted := true, true, [], [], None, false;
    }

    method DecoderFaults(reports: bool, closes: bool)
      requires WellTyped(decoder.View())
      modifies this`faulted, decoder
      ensures View() == old(View()).(decoder := Fault(old(decoder.View()), reports, closes),
                                     faulted := old(faulted) || reports)
    {
      decoder.TakeFault(reports, closes);
      faulted := faulted || reports;
    }

    method NativeTick(answer: Answer)
      requires Inv(decoder.View()) && Matching(Tick(answer))
      modifies this, decoder
      ensures View() == Ticked(old(View()), native, answer)
    {
      hide Inv, Push, NeedsKeyframe;
      InvIsTyped(decoder.View());
      if !running {
        return;
      }
      asked := asked + [needKeyframe];
      needKeyframe := false;
      if answer.Failed? {
        running := false;
        return;
      }
      var chunk := answer.chunk;
      if NeedsWorker(chunk.codec, native) {
        decoder.ResetDecoder();
        running := false;
        return;
      }
      ghost var turn := TurnOf(View(), chunk);
      if chunk.desync {
        ResetKeepsInv(decoder.View());
        decoder.ResetDecoder();
        needKeyframe := true;
      }
      var owes := decoder.PushBatch(chunk.frames, chunk.codec, answer.replies);
      if owes {
        needKeyframe := true;
      }
      turns, lastCodec, faulted := turns + [turn], Some(chunk.codec), false;
    }
  }

  lemma InvIsTyped(s: State)
    requires Inv(s)
    ensures WellTyped(s)
  {
  }

  // ----- Every run ---------------------------------------------------------

  lemma FaultKeepsInv(s: State, reports: bool, closes: bool)
    requires Inv(s)
    ensures Inv(Fault(s, reports, closes)) && SameCalls(s, Fault(s, reports, closes))
  {
  }

  /** Nothing attempted is forgotten, the stream only grows, and what is attempted since is new in it. */
  ghost predicate SameCalls(s: State, s': State) {
    && s.stream <= s'.stream && |s.devices| <= |s'.devices|
    && (forall d :: 0 <= d < |s.devices| ==> s.devices[d].calls <= s'.devices[d].calls)
    && (forall d, j :: 0 <= d < |s'.devices| && 0 <= j < |s'.devices[d].calls|
                       && (d >= |s.devices| || j >= |s.devices[d].calls|) ==>
          s'.devices[d].calls[j].frame >= |s.stream|)
  }

  lemma ReachedStays(s: State, s': State, i: nat)
    requires SameCalls(s, s')
    ensures Reached(s, i) ==> Reached(s', i)
    ensures i < |s.stream| && Reached(s', i) ==> Reached(s, i)
  {
    if Reached(s, i) {
      var d, j :| 0 <= d < |s.devices| && 0 <= j < |s.devices[d].calls| && s.devices[d].calls[j] == Call(i, Accepted);
      assert s'.devices[d].calls[j] == Call(i, Accepted);
    }
    if i < |s.stream| && Reached(s', i) {
      var d, j :| 0 <= d < |s'.devices| && 0 <= j < |s'.devices[d].calls|
                  && s'.devices[d].calls[j] == Call(i, Accepted);
      assert s.devices[d].calls[j] == Call(i, Accepted);
    }
  }

  lemma ResetKeepsCalls(s: State)
    requires WellTyped(s)
    ensures SameCalls(s, Reset(s)) && Reset(s).stream == s.stream
  {
  }

  lemma SameCallsTransitive(s: State, s': State, s'': State)
    requires SameCalls(s, s') && SameCalls(s', s'')
    ensures SameCalls(s, s'')
  {
  }

  lemma {:induction false} PushFramesKeepsInv(s: State, frames: seq<Frame>, codec: Codec, replies: seq<Reply>)
    requires Inv(s) && s.codec == Some(codec) && |replies| == |frames|
    ensures var s' := PushFrames(s, frames, codec, replies);
            Inv(s') && SameCalls(s, s') && |s'.stream| == |s.stream| + |frames|
    decreases |frames|
  {
    hide Inv, SameCalls, PushFrame;
    if frames == [] {
      SameCallsReflexive(s);
    } else {
      InvIsTyped(s);
      var t := PushFrame(s, frames[0], codec, replies[0]);
      PushFrameKeepsInv(s, frames[0], codec, replies[0]);
      FrameKeepsCalls(s, frames[0], codec, replies[0]);
      PushFramesKeepsInv(t, frames[1..], codec, replies[1..]);
      SameCallsTransitive(s, t, PushFrames(s, frames, codec, replies));
    }
  }

  lemma SameCallsReflexive(s: State)
    ensures SameCalls(s, s)
  {
  }

  lemma FrameKeepsCalls(s: State, frame: Frame, codec: Codec, reply: Reply)
    requires Inv(s) && s.codec == Some(codec)
    ensures SameCalls(s, PushFrame(s, frame, codec, reply))
  {
    CallsGrow(s, frame, codec, reply);
    PushFrameKeepsInv(s, frame, codec, reply);
  }

  lemma PushKeepsInv(s: State, frames: seq<Frame>, codec: Codec, replies: seq<Reply>)
    requires Inv(s) && |replies| == |frames|
    ensures var s' := Push(s, frames, codec, replies);
            Inv(s') && SameCalls(s, s') && |s'.stream| == |s.stream| + |frames|
    ensures !NeedsKeyframe(s, frames, codec, replies) ==>
              AllReached(Push(s, frames, codec, replies), |s.stream|, |s.stream| + |frames|)
  {
    PreparedKeepsInv(s, codec);
    ResetKeepsCalls(s);
    var p := Prepared(s, codec);
    PushFramesKeepsInv(p, frames, codec, replies);
    var t := PushFrames(p, frames, codec, replies);
    ResetKeepsInv(t);
    ResetKeepsCalls(t);
    hide Inv, PushFrames, Reached;
    SameCallsTransitive(s, p, t);
    SameCallsTransitive(s, t, Push(s, frames, codec, replies));
  }

  lemma FrameBreaks(s: State, frame: Frame, codec: Codec, reply: Reply)
    requires Inv(s)
    ensures var s' := PushFrame(s, frame, codec, reply);
            (s.broken ==> s'.broken) && (s'.broken && !s.broken ==> !Takes(s, frame, codec, reply))
  {
    hide HasConfig, Fed;
  }

  /** A device that throws has not taken the frame: what breaks in a batch shows in what it reaches. */
  lemma {:induction false} FramesBreak(s: State, frames: seq<Frame>, codec: Codec, replies: seq<Reply>)
    requires Inv(s) && s.codec == Some(codec) && |replies| == |frames|
    ensures var s', n := PushFrames(s, frames, codec, replies), |s.stream|;
            (s.broken ==> s'.broken) && (s'.broken && !s.broken ==> !AllReached(s', n, n + |frames|))
    decreases |frames|
  {
    if frames != [] {
      InvIsTyped(s);
      FrameBreaks(s, frames[0], codec, replies[0]);
      NewFrameReached(s, frames[0], codec, replies[0]);
      PushFrameKeepsInv(s, frames[0], codec, replies[0]);
      var t, n := PushFrame(s, frames[0], codec, replies[0]), |s.stream|;
      FramesBreak(t, frames[1..], codec, replies[1..]);
      PushFramesKeepsInv(t, frames[1..], codec, replies[1..]);
      ReachedStays(t, PushFrames(t, frames[1..], codec, replies[1..]), n);
      hide Inv, Reached, PushFrame, Takes, SameCalls;
    }
  }

  /** A batch calls for a keyframe just if an error was reported before it, or a frame of it is not reached. */
  lemma BatchCallsExactly(s: State, frames: seq<Frame>, codec: Codec, replies: seq<Reply>)
    requires Inv(s) && |replies| == |frames|
    ensures var s', n := Push(s, frames, codec, replies), |s.stream|;
            NeedsKeyframe(s, frames, codec, replies)
            <==> Prepared(s, codec).broken || !AllReached(s', n, n + |frames|)
  {
    PreparedKeepsInv(s, codec);
    var p := Prepared(s, codec);
    FramesBreak(p, frames, codec, replies);
    var t, n := PushFrames(p, frames, codec, replies), |s.stream|;
    hide Inv, Reached, PushFrames;
    forall i | n <= i < n + |frames|
      ensures Reached(Finished(t), i) <==> Reached(t, i)
    {
      FinishedReaches(t, i);
    }
  }

  /**
   Requests follow turns: the first asks, and of the others exactly those behind a turn whose
   stream broke, before which an error was reported, or of which a frame reached no live device.
   */
  ghost predicate LoopInv(l: Loop) {
    && Inv(l.decoder)
    && (l.running ==> |l.asked| == |l.turns| && l.decoder.broken == l.faulted && l.decoder.codec == l.codec)
    && (forall k :: 0 <= k < |l.turns| ==> l.turns[k].from <= l.turns[k].to <= |l.decoder.stream|)
    && |l.turns| <= |l.asked| <= |l.turns| + 1
    && (l.asked != [] ==> l.asked[0])
    && (l.turns == [] && l.running ==> l.needKeyframe)
    && (forall k :: 0 <= k < |l.turns| && (k + 1 < |l.asked| || l.running) ==> Earned(l, k))
  }

  /** Whether the request after turn `k` asks: the one already made, or the one to come. */
  function AsksAfter(l: Loop, k: nat): bool {
    if k + 1 < |l.asked| then l.asked[k + 1] else l.needKeyframe
  }

  ghost predicate Earned(l: Loop, k: nat)
    requires k < |l.turns|
  {
    var turn := l.turns[k];
    AsksAfter(l, k)
    <==> turn.desync || (turn.faulted && !turn.switched) || !AllReached(l.decoder, turn.from, turn.to)
  }

  lemma EarnedStays(l: Loop, l': Loop, k: nat)
    requires k < |l.turns| && l.turns <= l'.turns && SameCalls(l.decoder, l'.decoder)
    requires Earned(l, k) && AsksAfter(l', k) == AsksAfter(l, k) && l.turns[k].to <= |l.decoder.stream|
    ensures Earned(l', k)
  {
    hide SameCalls, Reached;
    forall i | l.turns[k].from <= i < l.turns[k].to
      ensures Reached(l'.decoder, i) <==> Reached(l.decoder, i)
    {
      ReachedStays(l.decoder, l'.decoder, i);
    }
  }

  lemma StepKeepsInv(l: Loop, native: set<Codec>, e: Event)
    requires LoopInv(l) && Matching(e)
    ensures LoopInv(Step(l, native, e))
  {
    var l' := Step(l, native, e);
    StepKeepsDecoder(l, native, e);
    TurnsCover(l, native, e);
    if l.running && l'.running {
      StepKeepsHistory(l, native, e);
    }
    hide Inv, SameCalls, Earned;
    forall k | 0 <= k < |l'.turns| && (k + 1 < |l'.asked| || l'.running)
      ensures Earned(l', k)
    {
      if k < |l.turns| {
        EarnedStays(l, l', k);
      } else {
        LastTurnEarned(l, native, e);
      }
    }
  }

  lemma StepKeepsDecoder(l: Loop, native: set<Codec>, e: Event)
    requires Inv(l.decoder) && Matching(e)
    ensures Inv(Step(l, native, e).decoder) && SameCalls(l.decoder, Step(l, native, e).decoder)
  {
    hide Inv, SameCalls, Push;
    SameCallsReflexive(l.decoder);
    match e
    case Error(reports, closes) => FaultKeepsInv(l.decoder, reports, closes);
    case Tick(answer) =>
      InvIsTyped(l.decoder);
      ResetKeepsInv(l.decoder);
      ResetKeepsCalls(l.decoder);
      if l.running && answer.Arrived? && !NeedsWorker(answer.chunk.codec, native) {
        var d := Desynced(l.decoder, answer.chunk.desync);
        PushKeepsInv(d, answer.chunk.frames, answer.chunk.codec, answer.replies);
        SameCallsTransitive(l.decoder, d, Step(l, native, e).decoder);
      }
  }

  lemma TurnsCover(l: Loop, native: set<Codec>, e: Event)
    requires LoopInv(l) && Matching(e)
    ensures var l' := Step(l, native, e);
            forall k :: 0 <= k < |l'.turns| ==> l'.turns[k].from <= l'.turns[k].to <= |l'.decoder.stream|
  {
    StepKeepsDecoder(l, native, e);
    if e.Tick? && l.running && e.answer.Arrived? && !NeedsWorker(e.answer.chunk.codec, native) {
      var chunk := e.answer.chunk;
      ResetKeepsInv(l.decoder);
      ResetKeepsCalls(l.decoder);
      hide Inv, Push, Earned;
      PushKeepsInv(Desynced(l.decoder, chunk.desync), chunk.frames, chunk.codec, e.answer.replies);
    }
  }

  lemma LastTurnEarned(l: Loop, native: set<Codec>, e: Event)
    requires Inv(l.decoder) && Matching(e) && |Step(l, native, e).turns| > |l.turns|
    requires |l.asked| == |l.turns| && l.decoder.broken == l.faulted && l.decoder.codec == l.codec
    ensures var l' := Step(l, native, e); Earned(l', |l'.turns| - 1)
  {
    var chunk := e.answer.chunk;
    ResetKeepsInv(l.decoder);
    ResetKeepsCalls(l.decoder);
    var d := Desynced(l.decoder, chunk.desync);
    assert Prepared(d, chunk.codec).broken
      <==> l.faulted && !chunk.desync && !(l.codec.Some? && l.codec.value != chunk.codec);
    hide Inv, SameCalls, Push, NeedsKeyframe, AllReached, Prepared;
    BatchCallsExactly(d, chunk.frames, chunk.codec, e.answer.replies);
  }

  lemma {:induction false} PushFramesCodec(s: State, frames: seq<Frame>, codec: Codec, replies: seq<Reply>)
    requires WellTyped(s) && |replies| == |frames|
    ensures PushFrames(s, frames, codec, replies).codec == s.codec
    decreases |frames|
  {
    hide HasConfig;
    if frames != [] {
      PushFramesCodec(PushFrame(s, frames[0], codec, replies[0]), frames[1..], codec, replies[1..]);
    }
  }

  lemma StepKeepsHistory(l: Loop, native: set<Codec>, e: Event)
    requires Inv(l.decoder) && Matching(e) && l.running && Step(l, native, e).running
    requires l.decoder.broken == l.faulted && l.decoder.codec == l.codec
    ensures var l' := Step(l, native, e); l'.decoder.broken == l'.faulted && l'.decoder.codec == l'.codec
  {
    if e.Tick? {
      var chunk, d := e.answer.chunk, Desynced(l.decoder, e.answer.chunk.desync);
      PushFramesCodec(Prepared(d, chunk.codec), chunk.frames, chunk.codec, e.answer.replies);
      hide PushFrames, Inv;
    }
  }

  lemma {:induction false} RunsKeepInv(l: Loop, native: set<Codec>, events: seq<Event>)
    requires LoopInv(l) && forall i :: 0 <= i < |events| ==> Matching(events[i])
    ensures LoopInv(After(l, native, events))
    decreases |events|
  {
    if events != [] {
      StepKeepsInv(l, native, events[0]);
      RunsKeepInv(Step(l, native, events[0]), native, events[1..]);
    }
  }

  /**
   In every run of turns and decoder errors: the first request asks for a keyframe, and a later one
   asks if and only if the turn before carried a desync, or an error had been reported and the codec
   was not changed, or a frame it pushed reached no live device.
   */
  lemma LossesAreAskedFor(native: set<Codec>, events: seq<Event>)
    requires forall i :: 0 <= i < |events| ==> Matching(events[i])
    ensures var l := After(OPENED, native, events);
            && (l.asked != [] ==> l.asked[0])
            && (forall k :: 0 <= k < |l.asked| - 1 ==>
                  && k < |l.turns|
                  && (l.asked[k + 1]
                      <==> || l.turns[k].desync
                           || (l.turns[k].faulted && !l.turns[k].switched)
                           || (exists i :: l.turns[k].from <= i < l.turns[k].to && !Reached(l.decoder, i))))
  {
    RunsKeepInv(OPENED, native, events);
    var l := After(OPENED, native, events);
    hide Inv, Reached;
    forall k | 0 <= k < |l.asked| - 1
      ensures l.asked[k + 1]
              <==> || l.turns[k].desync
                   || (l.turns[k].faulted && !l.turns[k].switched)
                   || (exists i :: l.turns[k].from <= i < l.turns[k].to && !Reached(l.decoder, i))
    {
      assert Earned(l, k);
    }
  }

  /** Nothing goes wrong: no error is reported, and no chunk says the stream broke. */
  predicate Smooth(e: Event) {
    match e
    case Error(reports, _) => !reports
    case Tick(answer) => answer.Arrived? ==> !answer.chunk.desync
  }

  ghost predicate SmoothTurns(l: Loop) {
    !l.faulted && forall k :: 0 <= k < |l.turns| ==> !l.turns[k].desync && !l.turns[k].faulted
  }

  lemma {:induction false} SmoothRun(l: Loop, native: set<Codec>, events: seq<Event>)
    requires WellTyped(l.decoder) && SmoothTurns(l)
    requires forall i :: 0 <= i < |events| ==> Matching(events[i]) && Smooth(events[i])
    ensures SmoothTurns(After(l, native, events))
    decreases |events|
  {
    if events != [] {
      var l' := Step(l, native, events[0]);
      assert SmoothTurns(l') by { hide Push, NeedsKeyframe; }
      hide Step, SmoothTurns;
      SmoothRun(l', native, events[1..]);
    }
  }

  /** So an ordinary stream, every frame of which is reached, is asked for one keyframe: the first request's. */
  lemma OrdinaryStreamAsksOnce(native: set<Codec>, events: seq<Event>)
    requires forall i :: 0 <= i < |events| ==> Matching(events[i]) && Smooth(events[i])
    requires var l := After(OPENED, native, events); AllReached(l.decoder, 0, |l.decoder.stream|)
    ensures var l := After(OPENED, native, events);
            forall k :: 0 <= k < |l.asked| ==> (l.asked[k] <==> k == 0)
  {
    SmoothRun(OPENED, native, events);
    RunsKeepInv(OPENED, native, events);
    var l := After(OPENED, native, events);
    hide Inv, Reached, After;
    forall k | 0 < k < |l.asked|
      ensures !l.asked[k]
    {
      assert Earned(l, k - 1);
    }
  }

  /** The loop goes on just as long as every answer is a chunk for this window's own decoder. */
  lemma {:induction false} RunsWhileFed(l: Loop, native: set<Codec>, events: seq<Event>)
    requires WellTyped(l.decoder) && l.running && forall i :: 0 <= i < |events| ==> Matching(events[i])
    ensures After(l, native, events).running
       <==> forall i :: 0 <= i < |events| && events[i].Tick? ==> Feeds(events[i], native)
    decreases |events|
  {
    if events != [] {
      var l' := Step(l, native, events[0]);
      assert l'.running <==> (events[0].Tick? ==> Feeds(events[0], native)) by { hide Push, NeedsKeyframe; }
      if l'.running {
        RunsWhileFed(l', native, events[1..]);
        hide Step, Feeds;
        if forall i :: 0 <= i < |events[1..]| && events[1..][i].Tick? ==> Feeds(events[1..][i], native) {
          forall i | 0 <= i < |events| && events[i].Tick?
            ensures Feeds(events[i], native)
          {
            if i > 0 { assert events[1..][i - 1] == events[i]; }
          }
        }
      } else {
        StoppedStays(l', native, events[1..]);
      }
    }
  }

  lemma {:induction false} StoppedStays(l: Loop, native: set<Codec>, events: seq<Event>)
    requires WellTyped(l.decoder) && !l.running && forall i :: 0 <= i < |events| ==> Matching(events[i])
    ensures !After(l, native, events).running
    decreases |events|
  {
    if events != [] {
      StoppedStays(Step(l, native, events[0]), native, events[1..]);
    }
  }

  /**
   In every run: what each device was given is one run of the pushed stream, in order and
   without gaps, begins with a keyframe and is all of one codec; so is, in particular, what it
   accepted before its first failure. A device no longer held has been closed.
   */
  lemma DevicesAreFedInOrder(native: set<Codec>, events: seq<Event>, d: nat)
    requires forall i :: 0 <= i < |events| ==> Matching(events[i])
    requires d < |After(OPENED, native, events).decoder.devices|
    ensures var s := After(OPENED, native, events).decoder;
            Fed(s.devices[d], s.stream) && (s.decoder != Some(d) ==> s.devices[d].closed)
  {
    RunsKeepInv(OPENED, native, events);
  }

  /** H.264 never goes to the worker, and any other codec just if this window does not decode it. */
  lemma WorkerExactly(native: set<Codec>)
    ensures !NeedsWorker(H264, native)
    ensures (NeedsWorker(Av1, native) <==> Av1 !in native) && (NeedsWorker(Vp9, native) <==> Vp9 !in native)
  {
  }

  // ----- Whether asking helps ----------------------------------------------

  /** The window still holds a device that has closed. */
  predicate HoldsClosed(s: State)
    requires WellTyped(s)
  {
    s.decoder.Some? && s.devices[s.decoder.value].closed
  }

  /** A browser that takes what it is given. */
  const TAKES: Reply := Reply(true, false, true)

  lemma FinishedReaches(s: State, i: nat)
    requires WellTyped(s)
    ensures Reached(Finished(s), i) <==> Reached(s, i)
  {
    var t := Finished(s);
    assert |t.devices| == |s.devices| && forall d :: 0 <= d < |s.devices| ==> t.devices[d].calls == s.devices[d].calls;
    if Reached(s, i) {
      var d, j :| 0 <= d < |s.devices| && 0 <= j < |s.devices[d].calls| && s.devices[d].calls[j] == Call(i, Accepted);
      assert t.devices[d].calls[j] == Call(i, Accepted);
    }
  }

  lemma {:induction false} OldFramesReached(s: State, frames: seq<Frame>, codec: Codec, replies: seq<Reply>, i: nat)
    requires Inv(s) && s.codec == Some(codec) && |replies| == |frames| && i < |s.stream|
    ensures Reached(PushFrames(s, frames, codec, replies), i) <==> Reached(s, i)
    decreases |frames|
  {
    hide Inv, PushFrame, Reached;
    if frames != [] {
      InvIsTyped(s);
      OldFrameReached(s, frames[0], codec, replies[0], i);
      PushFrameKeepsInv(s, frames[0], codec, replies[0]);
      OldFramesReached(PushFrame(s, frames[0], codec, replies[0]), frames[1..], codec, replies[1..], i);
    }
  }

  /** A batch that begins with a keyframe which says what it is and which the browser takes. */
  predicate Offers(frames: seq<Frame>, codec: Codec, replies: seq<Reply>) {
    |replies| == |frames| && frames != [] && frames[0].keyframe && HasConfig(codec, frames[0]) && replies[0] == TAKES
  }

  lemma KeyframeReached(s: State, frames: seq<Frame>, codec: Codec, replies: seq<Reply>)
    requires Inv(s) && Offers(frames, codec, replies)
    ensures Reached(Push(s, frames, codec, replies), |s.stream|) <==> !(HoldsClosed(s) && s.codec == Some(codec))
  {
    var p := Prepared(s, codec);
    PreparedKeepsInv(s, codec);
    assert HoldsClosed(p) <==> HoldsClosed(s) && s.codec == Some(codec);
    NewFrameReached(p, frames[0], codec, TAKES);
    PushFrameKeepsInv(p, frames[0], codec, TAKES);
    hide Reached, HasConfig, Inv, PushFrame, Finished, Prepared;
    InvIsTyped(p);
    var t := PushFrame(p, frames[0], codec, TAKES);
    OldFramesReached(t, frames[1..], codec, replies[1..], |s.stream|);
    FinishedReaches(PushFrames(p, frames, codec, replies), |s.stream|);
  }

  /** A turn whose chunk goes to the decoder of this window. */
  predicate Feeds(e: Event, native: set<Codec>) {
    e.Tick? && Matching(e) && e.answer.Arrived? && !NeedsWorker(e.answer.chunk.codec, native)
  }

  predicate OffersKeyframe(e: Event, native: set<Codec>) {
    Feeds(e, native) && Offers(e.answer.chunk.frames, e.answer.chunk.codec, e.answer.replies)
  }

  lemma KeyframeTurn(l: Loop, native: set<Codec>, e: Event)
    requires Inv(l.decoder) && l.running && OffersKeyframe(e, native)
    ensures var chunk := e.answer.chunk;
            Reached(Step(l, native, e).decoder, |l.decoder.stream|)
            <==> chunk.desync || !(HoldsClosed(l.decoder) && l.decoder.codec == Some(chunk.codec))
  {
    var chunk := e.answer.chunk;
    ResetKeepsInv(l.decoder);
    hide Inv, Reached, Push, Offers;
    InvIsTyped(l.decoder);
    KeyframeReached(Desynced(l.decoder, chunk.desync), chunk.frames, chunk.codec, e.answer.replies);
  }

  /**
   In every run: a turn that begins with a keyframe the browser takes reaches it, if and only if it
   carries a desync or another codec or the device held then is not closed, reported or not.
   */
  lemma KeyframeRecovers(native: set<Codec>, events: seq<Event>, e: Event)
    requires forall i :: 0 <= i < |events| ==> Matching(events[i])
    requires After(OPENED, native, events).running && OffersKeyframe(e, native)
    ensures var l := After(OPENED, native, events);
            Reached(Step(l, native, e).decoder, |l.decoder.stream|)
            <==> || e.answer.chunk.desync
                 || !(HoldsClosed(l.decoder) && l.decoder.codec == Some(e.answer.chunk.codec))
  {
    RunsKeepInv(OPENED, native, events);
    KeyframeTurn(After(OPENED, native, events), native, e);
  }

  /** A device has closed and no error says so. */
  predicate Stuck(s: State, codec: Codec) {
    WellTyped(s) && HoldsClosed(s) && !s.broken && s.codec == Some(codec)
  }

  /** No device closes of itself under these replies. */
  predicate NoneCloses(replies: seq<Reply>) {
    forall i :: 0 <= i < |replies| ==> !replies[i].closed
  }

  lemma ClosedStays(s: State, frame: Frame, codec: Codec, reply: Reply)
    requires WellTyped(s) && !reply.closed
    ensures var s' := PushFrame(s, frame, codec, reply);
            && (HoldsClosed(s') <==> HoldsClosed(s))
            && (HoldsClosed(s) ==> s'.broken == s.broken)
  {
    hide HasConfig;
  }

  lemma {:induction false} ClosedStaysThrough(s: State, frames: seq<Frame>, codec: Codec, replies: seq<Reply>)
    requires WellTyped(s) && |replies| == |frames| && NoneCloses(replies)
    ensures var s' := PushFrames(s, frames, codec, replies);
            && s'.codec == s.codec
            && (HoldsClosed(s') <==> HoldsClosed(s))
            && (HoldsClosed(s) ==> s'.broken == s.broken)
    decreases |frames|
  {
    hide HasConfig, HoldsClosed;
    if frames != [] {
      ClosedStays(s, frames[0], codec, replies[0]);
      ClosedStaysThrough(PushFrame(s, frames[0], codec, replies[0]), frames[1..], codec, replies[1..]);
    }
  }

  lemma ClosedAfterPush(s: State, frames: seq<Frame>, codec: Codec, replies: seq<Reply>)
    requires Inv(s) && |replies| == |frames| && NoneCloses(replies)
    ensures var s' := Push(s, frames, codec, replies);
            s'.codec == Some(codec) && (HoldsClosed(s') <==> Stuck(s, codec))
  {
    hide PushFrames;
    ClosedStaysThrough(Prepared(s, codec), frames, codec, replies);
  }

  /** A turn that carries no desync, in this codec, under which no device closes of itself. */
  predicate Plain(e: Event, native: set<Codec>, codec: Codec) {
    Feeds(e, native) && !e.answer.chunk.desync && e.answer.chunk.codec == codec && NoneCloses(e.answer.replies)
  }

  /**
   In every run: of two turns in one codec with no error between them, the second reaches the
   keyframe it begins with, if and only if the first did not begin with a device closed and no
   error reported. A reported one costs the first keyframe and is replaced behind it.
   */
  lemma NextKeyframeRecovers(native: set<Codec>, events: seq<Event>, first: Event, second: Event, codec: Codec)
    requires forall i :: 0 <= i < |events| ==> Matching(events[i])
    requires After(OPENED, native, events).running
    requires Plain(first, native, codec) && Plain(second, native, codec) && OffersKeyframe(second, native)
    ensures var l := After(OPENED, native, events);
            var l' := Step(l, native, first);
            Reached(Step(l', native, second).decoder, |l'.decoder.stream|) <==> !Stuck(l.decoder, codec)
  {
    RunsKeepInv(OPENED, native, events);
    TwoTurns(After(OPENED, native, events), native, first, second, codec);
  }

  lemma TwoTurns(l: Loop, native: set<Codec>, first: Event, second: Event, codec: Codec)
    requires Inv(l.decoder) && l.running
    requires Plain(first, native, codec) && Plain(second, native, codec) && OffersKeyframe(second, native)
    ensures var l' := Step(l, native, first);
            Reached(Step(l', native, second).decoder, |l'.decoder.stream|) <==> !Stuck(l.decoder, codec)
  {
    ClosedAfterPush(l.decoder, first.answer.chunk.frames, codec, first.answer.replies);
    StepKeepsDecoder(l, native, first);
    hide Inv, Reached, Push, Stuck, HoldsClosed, Offers;
    KeyframeTurn(Step(l, native, first), native, second);
  }

  /** A browser that calls back when it closes a decoder: none is found closed before its error is reported. */
  predicate CallsBack(e: Event) {
    match e
    case Error(reports, closes) => closes ==> reports
    case Tick(answer) => answer.Arrived? ==> NoneCloses(answer.replies)
  }

  /** A device that is closed was reported. */
  predicate Reported(s: State) { WellTyped(s) && (HoldsClosed(s) ==> s.broken) }

  lemma StepKeepsReported(l: Loop, native: set<Codec>, e: Event)
    requires Inv(l.decoder) && Reported(l.decoder) && Matching(e) && CallsBack(e)
    ensures Reported(Step(l, native, e).decoder)
  {
    if e.Tick? && l.running && e.answer.Arrived? && !NeedsWorker(e.answer.chunk.codec, native) {
      var chunk := e.answer.chunk;
      ResetKeepsInv(l.decoder);
      ClosedAfterPush(Desynced(l.decoder, chunk.desync), chunk.frames, chunk.codec, e.answer.replies);
      hide Inv, Push;
    }
  }

  lemma {:induction false} RunsKeepReported(l: Loop, native: set<Codec>, events: seq<Event>)
    requires Inv(l.decoder) && Reported(l.decoder)
    requires forall i :: 0 <= i < |events| ==> Matching(events[i]) && CallsBack(events[i])
    ensures Reported(After(l, native, events).decoder)
    decreases |events|
  {
    hide Inv, Reported, CallsBack, Step;
    if events != [] {
      InvIsTyped(l.decoder);
      StepKeepsReported(l, native, events[0]);
      StepKeepsDecoder(l, native, events[0]);
      RunsKeepReported(Step(l, native, events[0]), native, events[1..]);
    }
  }

  /**
   Over a browser that calls back, asking for a keyframe brings the picture back in two turns at
   most: whatever came before, the second of two with no error between them reaches its keyframe.
   */
  lemma CallingBackRecovers(native: set<Codec>, events: seq<Event>, first: Event, second: Event, codec: Codec)
    requires forall i :: 0 <= i < |events| ==> Matching(events[i]) && CallsBack(events[i])
    requires After(OPENED, native, events).running
    requires Plain(first, native, codec) && Plain(second, native, codec) && OffersKeyframe(second, native)
    ensures var l' := Step(After(OPENED, native, events), native, first);
            Reached(Step(l', native, second).decoder, |l'.decoder.stream|)
  {
    NextKeyframeRecovers(native, events, first, second, codec);
    RunsKeepReported(OPENED, native, events);
  }

  /** No frame is reached that was not before. */
  ghost predicate NothingNew(s: State, s': State) {
    forall i: nat :: Reached(s', i) ==> Reached(s, i)
  }

  lemma NoneReachedAhead(s: State)
    requires Inv(s)
    ensures forall i: nat :: Reached(s, i) ==> i < |s.stream|
  {
    EarlierCalls(s);
  }

  lemma StuckFrame(s: State, frame: Frame, codec: Codec, reply: Reply)
    requires Inv(s) && Stuck(s, codec)
    ensures var s' := PushFrame(s, frame, codec, reply);
            Stuck(s', codec) && NothingNew(s, s')
  {
    var s' := PushFrame(s, frame, codec, reply);
    NewFrameReached(s, frame, codec, reply);
    PushFrameKeepsInv(s, frame, codec, reply);
    NoneReachedAhead(s');
    hide HasConfig, Reached;
    forall i: nat | Reached(s', i)
      ensures Reached(s, i)
    {
      if i < |s.stream| {
        OldFrameReached(s, frame, codec, reply, i);
      }
    }
  }

  /** However many frames follow, keyframes among them, and whatever the browser would do with them. */
  lemma {:induction false} StuckFrames(s: State, frames: seq<Frame>, codec: Codec, replies: seq<Reply>)
    requires Inv(s) && Stuck(s, codec) && |replies| == |frames|
    ensures var s' := PushFrames(s, frames, codec, replies);
            Inv(s') && Stuck(s', codec) && |s'.stream| == |s.stream| + |frames| && NothingNew(s, s')
    decreases |frames|
  {
    hide Inv, PushFrame, Reached, HoldsClosed;
    if frames != [] {
      var t := PushFrame(s, frames[0], codec, replies[0]);
      StuckFrame(s, frames[0], codec, replies[0]);
      PushFrameKeepsInv(s, frames[0], codec, replies[0]);
      StuckFrames(t, frames[1..], codec, replies[1..]);
    }
  }

  /** A turn or an event that neither breaks the stream, changes the codec nor reports an error. */
  predicate Quiet(e: Event, native: set<Codec>, codec: Codec) {
    match e
    case Tick(answer) =>
      && Matching(e) && answer.Arrived? && !answer.chunk.desync
      && answer.chunk.codec == codec && !NeedsWorker(codec, native)
    case Error(reports, closes) => !reports
  }

  lemma StuckStep(l: Loop, native: set<Codec>, codec: Codec, e: Event)
    requires Inv(l.decoder) && Stuck(l.decoder, codec) && l.running && Quiet(e, native, codec)
    ensures var l' := Step(l, native, e);
            && Inv(l'.decoder) && Stuck(l'.decoder, codec) && l'.running
            && NothingNew(l.decoder, l'.decoder)
            && (e.Tick? && e.answer.chunk.frames != [] ==> l'.needKeyframe)
  {
    match e
    case Error(reports, closes) =>
      FaultKeepsInv(l.decoder, reports, closes);
      FaultReaches(l.decoder, reports, closes);
    case Tick(answer) =>
      var chunk, n := answer.chunk, |l.decoder.stream|;
      NoneReachedAhead(l.decoder);
      hide Inv;
      StuckFrames(l.decoder, chunk.frames, codec, answer.replies);
      if chunk.frames != [] {
        hide Reached, PushFrames;
        var t := PushFrames(l.decoder, chunk.frames, codec, answer.replies);
        assert !Reached(t, n);
        assert !AllReached(t, n, n + |chunk.frames|);
      }
  }

  lemma FaultReaches(s: State, reports: bool, closes: bool)
    requires WellTyped(s)
    ensures NothingNew(s, Fault(s, reports, closes))
  {
    var t := Fault(s, reports, closes);
    assert |t.devices| == |s.devices| && forall d :: 0 <= d < |s.devices| ==> t.devices[d].calls == s.devices[d].calls;
  }

  lemma {:induction false} StuckForGood(l: Loop, native: set<Codec>, codec: Codec, events: seq<Event>)
    requires Inv(l.decoder) && Stuck(l.decoder, codec) && l.running
    requires forall i :: 0 <= i < |events| ==> Quiet(events[i], native, codec) && Matching(events[i])
    ensures var l' := After(l, native, events);
            && Inv(l'.decoder) && Stuck(l'.decoder, codec) && l'.running
            && NothingNew(l.decoder, l'.decoder)
    decreases |events|
  {
    if events != [] {
      StuckStep(l, native, codec, events[0]);
      hide Inv, Reached, Stuck, Quiet, Step;
      StuckForGood(Step(l, native, events[0]), native, codec, events[1..]);
    }
  }

  /** The turns made since bring frames from here on. */
  ghost predicate TurnsAhead(l: Loop, l': Loop) {
    && |l.decoder.stream| <= |l'.decoder.stream| && |l.turns| <= |l'.turns|
    && forall k :: |l.turns| <= k < |l'.turns| ==> |l.decoder.stream| <= l'.turns[k].from
  }

  lemma StepTurnsAhead(l: Loop, native: set<Codec>, e: Event)
    requires Inv(l.decoder) && Matching(e)
    ensures TurnsAhead(l, Step(l, native, e)) && l.turns <= Step(l, native, e).turns
  {
    StepKeepsDecoder(l, native, e);
    hide Inv, Push, NeedsKeyframe;
  }

  lemma {:induction false} RunTurnsAhead(l: Loop, native: set<Codec>, events: seq<Event>)
    requires Inv(l.decoder) && forall i :: 0 <= i < |events| ==> Matching(events[i])
    ensures TurnsAhead(l, After(l, native, events)) && l.turns <= After(l, native, events).turns
    decreases |events|
  {
    if events != [] {
      StepTurnsAhead(l, native, events[0]);
      StepKeepsDecoder(l, native, events[0]);
      hide Inv, Step;
      RunTurnsAhead(Step(l, native, events[0]), native, events[1..]);
    }
  }

  /**
   Such a device is held for good: in every run without a desync, a change of codec or a reported
   error, no frame is reached any more, keyframe or not, though every turn that brings one makes
   the next request ask.
   */
  lemma ClosedDeviceIsKept(l: Loop, native: set<Codec>, codec: Codec, events: seq<Event>)
    requires Inv(l.decoder) && Stuck(l.decoder, codec) && l.running
    requires forall i :: 0 <= i < |events| ==> Quiet(events[i], native, codec) && Matching(events[i])
    ensures var l' := After(l, native, events);
            && Stuck(l'.decoder, codec) && l'.running
            && NothingNew(l.decoder, l'.decoder)
            && (LoopInv(l) ==> forall k :: |l.turns| <= k < |l'.turns| && l'.turns[k].from < l'.turns[k].to ==>
                                 AsksAfter(l', k))
  {
    StuckForGood(l, native, codec, events);
    var l' := After(l, native, events);
    if LoopInv(l) {
      RunsKeepInv(l, native, events);
      RunTurnsAhead(l, native, events);
      NoneReachedAhead(l.decoder);
      hide Inv, Reached, Stuck, Quiet, After;
      forall k | |l.turns| <= k < |l'.turns| && l'.turns[k].from < l'.turns[k].to
        ensures AsksAfter(l', k)
      {
        assert Earned(l', k);
        assert !Reached(l'.decoder, l'.turns[k].from);
      }
    }
  }

  const INTRA: Frame := Frame(true, 0, [])
  const INTRAS: Chunk := Chunk(Live, false, false, false, Av1, [INTRA])

  /** A turn that brings one AV1 keyframe. */
  function Brings(reply: Reply): Event { Tick(Arrived(INTRAS, [reply])) }

  lemma BringsOne(l: Loop, reply: Reply)
    requires WellTyped(l.decoder) && l.running && (l.decoder.codec.Some? ==> l.decoder.codec == Some(Av1))
    ensures var d := l.decoder.(codec := Some(Av1));
            Step(l, {Av1}, Brings(reply)).decoder == Finished(PushFrame(d, INTRA, Av1, reply))
            && Step(l, {Av1}, Brings(reply)).running
  {
    hide PushFrame, Finished, NeedsKeyframe;
    var d := l.decoder.(codec := Some(Av1));
    assert [INTRA][1..] == [] && [reply][1..] == [];
    var t := PushFrame(d, INTRA, Av1, reply);
    assert PushFrames(t, [], Av1, []) == t;
    assert PushFrames(d, [INTRA], Av1, [reply]) == t;
  }

  /** A run that loses the keyframe asked for: the device closes with its error reported in between. */
  lemma ReportedCloseLosesAKeyframe()
    ensures var events := [Brings(TAKES), Error(true, true), Brings(TAKES)];
            var l := After(OPENED, {Av1}, events);
            && l.running && |l.decoder.stream| == 2 && !Reached(l.decoder, 1)
            && Reached(Step(l, {Av1}, Brings(TAKES)).decoder, 2)
  {
    var events := [Brings(TAKES), Error(true, true), Brings(TAKES)];
    var l1 := Step(OPENED, {Av1}, events[0]);
    var l2 := Step(l1, {Av1}, events[1]);
    var l3 := Step(l2, {Av1}, events[2]);
    assert events[1..][1..] == [events[2]] && [events[2]][1..] == [];
    assert After(OPENED, {Av1}, events) == After(l1, {Av1}, events[1..]) == After(l2, {Av1}, [events[2]]) == l3;
    BringsOne(OPENED, TAKES);
    BringsOne(l2, TAKES);
    RunsKeepInv(OPENED, {Av1}, events);
    assert [INTRA][0] == INTRA && OffersKeyframe(Brings(TAKES), {Av1});
    hide Inv, Reached;
    KeyframeTurn(l3, {Av1}, Brings(TAKES));
  }

  /** A run that ends on a device closed with no error: the browser closes it and does not call back. */
  lemma SilentCloseSticks()
    ensures var l := After(OPENED, {Av1}, [Brings(Reply(true, true, true))]);
            Stuck(l.decoder, Av1) && l.running
  {
    var e := Brings(Reply(true, true, true));
    assert [e][1..] == [];
    BringsOne(OPENED, Reply(true, true, true));
  }
}
