/**
 The decoder that turns the host's bitstream into pictures. The browser's decoder is an object that
 may fail to configure, throw on any call, close at any point and report an error at any time.
 */
module NativeDecoder {
  import opened Options
  import opened ViewChunk
  import AnnexB

  /** What the browser does with one frame: how configuring and decoding turn out. */
  datatype Reply = Reply(configures: bool, closed: bool, decodes: bool)

  datatype Outcome = Accepted | Threw | FoundClosed

  /** One attempt to decode: the frame's place in the pushed stream, and how it ended. */
  datatype Call = Call(frame: nat, outcome: Outcome)

  /** A browser decoder, and every attempt made on it. */
  datatype Device = Device(codec: Codec, closed: bool, calls: seq<Call>)

  datatype Pushed = Pushed(frame: Frame, codec: Codec)

  /** The decoder with the stream pushed so far and every device it ever built. */
  datatype State = State(
    decoder: Option<nat>, broken: bool, codec: Option<Codec>,
    devices: seq<Device>, stream: seq<Pushed>)

  const FRESH: State := State(None, false, None, [], [])

  predicate WellTyped(s: State) {
    s.decoder.Some? ==> s.decoder.value < |s.devices|
  }

  /** Whether the stream names a configuration: H.264 must carry a parameter set. */
  predicate HasConfig(codec: Codec, frame: Frame) {
    codec.H264? ==> AnnexB.Chosen(AnnexB.Units(frame.data, 0), |frame.data|).Some?
  }

  // ----- Steps -------------------------------------------------------------

  function Reset(s: State): (s': State)
    requires WellTyped(s)
    ensures WellTyped(s')
  {
    if s.decoder.None? then s.(broken := false)
    else
      var d := s.decoder.value;
      s.(decoder := None, broken := false, devices := s.devices[d := s.devices[d].(closed := true)])
  }

  /** The asynchronous error callback, or a device that closes under the window. */
  function Fault(s: State, reports: bool, closes: bool): (s': State)
    requires WellTyped(s)
    ensures WellTyped(s')
  {
    var s' := s.(broken := s.broken || reports);
    if s.decoder.None? || !closes then s'
    else
      var d := s.decoder.value;
      s'.(devices := s.devices[d := s.devices[d].(closed := true)])
  }

  function Decode(s: State, i: nat, reply: Reply): (s': State)
    requires WellTyped(s) && s.decoder.Some?
    ensures WellTyped(s')
  {
    var d := s.decoder.value;
    var device := s.devices[d];
    if device.closed || reply.closed then
      s.(devices := s.devices[d := device.(closed := true, calls := device.calls + [Call(i, FoundClosed)])])
    else if reply.decodes then
      s.(devices := s.devices[d := device.(calls := device.calls + [Call(i, Accepted)])])
    else
      s.(broken := true, devices := s.devices[d := device.(calls := device.calls + [Call(i, Threw)])])
  }

  /** One turn of the loop in `push`: the frame joins the stream and is tried, skipped or starts a device. */
  function PushFrame(s: State, frame: Frame, codec: Codec, reply: Reply): (s': State)
    requires WellTyped(s)
    ensures WellTyped(s')
  {
    var i := |s.stream|;
    var t := s.(stream := s.stream + [Pushed(frame, codec)]);
    if s.decoder.Some? then Decode(t, i, reply)
    else if !frame.keyframe || !HasConfig(codec, frame) || !reply.configures then t
    else Decode(t.(decoder := Some(|s.devices|), devices := s.devices + [Device(codec, false, [])]), i, reply)
  }

  function PushFrames(s: State, frames: seq<Frame>, codec: Codec, replies: seq<Reply>): (s': State)
    requires WellTyped(s) && |replies| == |frames|
    ensures WellTyped(s')
    decreases |frames|
  {
    if frames == [] then s
    else PushFrames(PushFrame(s, frames[0], codec, replies[0]), frames[1..], codec, replies[1..])
  }

  function Prepared(s: State, codec: Codec): (s': State)
    requires WellTyped(s)
    ensures WellTyped(s')
  {
    (if s.codec.Some? && s.codec.value != codec then Reset(s) else s).(codec := Some(codec))
  }

  function Finished(s: State): (s': State)
    requires WellTyped(s)
    ensures WellTyped(s')
  {
    if s.broken then Reset(s) else s
  }

  function Push(s: State, frames: seq<Frame>, codec: Codec, replies: seq<Reply>): (s': State)
    requires WellTyped(s) && |replies| == |frames|
    ensures WellTyped(s')
  {
    Finished(PushFrames(Prepared(s, codec), frames, codec, replies))
  }

  /** Frame `i` of the stream was taken by a live device. */
  ghost predicate Reached(s: State, i: nat) {
    exists d, j :: 0 <= d < |s.devices| && 0 <= j < |s.devices[d].calls| && s.devices[d].calls[j] == Call(i, Accepted)
  }

  // ----- The decoder -------------------------------------------------------

  class Decoder {
    var decoder: Option<nat>
    var broken: bool
    var codec: Option<Codec>
    var devices: seq<Device>
    var stream: seq<Pushed>

    ghost function View(): State
      reads this
    {
      State(decoder, broken, codec, devices, stream)
    }

    constructor ()
      ensures View() == FRESH
    {
      decoder, broken, codec, devices, stream := None, false, None, [], [];
    }

    method ResetDecoder()
      requires WellTyped(View())
      modifies this
      ensures View() == Reset(old(View()))
    {
      if decoder.Some? {
        var d := decoder.value;
        devices := devices[d := devices[d].(closed := true)];
      }
      decoder, broken := None, false;
    }

    /** The browser's error callback, and a device closing under the window. */
    method TakeFault(reports: bool, closes: bool)
      requires WellTyped(View())
      modifies this`broken, this`devices
      ensures View() == Fault(old(View()), reports, closes)
    {
      if reports {
        broken := true;
      }
      if decoder.Some? && closes {
        var d := decoder.value;
        devices := devices[d := devices[d].(closed := true)];
      }
    }

    method DecodeFrame(i: nat, reply: Reply) returns (taken: bool)
      requires WellTyped(View()) && decoder.Some?
      modifies this`devices, this`broken
      ensures View() == Decode(old(View()), i, reply)
      ensures decoder.value < |devices| && devices[decoder.value].calls != []
      ensures taken <==> devices[decoder.value].calls[|devices[decoder.value].calls| - 1] == Call(i, Accepted)
    {
      var d := decoder.value;
      var device := devices[d];
      if device.closed || reply.closed {
        devices := devices[d := device.(closed := true, calls := device.calls + [Call(i, FoundClosed)])];
        return false;
      }
      if !reply.decodes {
        devices := devices[d := device.(calls := device.calls + [Call(i, Threw)])];
        broken := true;
        return false;
      }
      devices := devices[d := device.(calls := device.calls + [Call(i, Accepted)])];
      taken := true;
    }

    /** Builds a device for the stream this keyframe describes, if it describes one. */
    method Configure(frame: Frame, reply: Reply) returns (ok: bool)
      requires WellTyped(View()) && decoder.None? && codec.Some?
      modifies this`devices, this`decoder
      ensures ok <==> HasConfig(codec.value, frame) && reply.configures
      ensures ok ==> decoder == Some(|old(devices)|) && devices == old(devices) + [Device(codec.value, false, [])]
      ensures !ok ==> View() == old(View())
    {
      var config := AnnexB.ConfigStringFor(codec.value, frame.data);
      if config.None? || !reply.configures {
        return false;
      }
      decoder := Some(|devices|);
      devices := devices + [Device(codec.value, false, [])];
      ok := true;
    }

    /** One frame of a batch: tried on the device there is, or the start of a new one, or dropped. */
    method PushOne(frame: Frame, reply: Reply) returns (taken: bool)
      requires WellTyped(View()) && codec.Some?
      modifies this`stream, this`devices, this`decoder, this`broken
      ensures View() == PushFrame(old(View()), frame, codec.value, reply)
      ensures taken <==> Takes(old(View()), frame, codec.value, reply)
    {
      hide HasConfig;
      var i := |stream|;
      stream := stream + [Pushed(frame, codec.value)];
      taken := false;
      if decoder.Some? {
        taken := DecodeFrame(i, reply);
      } else if frame.keyframe {
        var ok := Configure(frame, reply);
        if ok {
          taken := DecodeFrame(i, reply);
        }
      }
    }

    /** Feeds one batch, and says whether the host owes a keyframe. */
    method PushBatch(frames: seq<Frame>, wire: Codec, replies: seq<Reply>) returns (needKeyframe: bool)
      requires WellTyped(View()) && |replies| == |frames| && Inv(View())
      modifies this
      ensures WellTyped(View()) && View() == Push(old(View()), frames, wire, replies)
      ensures needKeyframe <==> NeedsKeyframe(old(View()), frames, wire, replies)
    {
      hide Inv, HasConfig, Reached, AllReached, PushFrame, Takes;
      ghost var before := View();
      if codec.Some? && codec.value != wire {
        ResetDecoder();
      }
      codec := Some(wire);
      assert View() == Prepared(before, wire);
      ghost var prepared := View();
      PreparedKeepsInv(before, wire);
      needKeyframe := false;
      NoneToReach(View(), |stream|);
      for k := 0 to |frames|
        invariant WellTyped(View()) && Inv(View()) && codec == Some(wire)
        invariant |stream| == |prepared.stream| + k
        invariant PushFrames(View(), frames[k..], wire, replies[k..]) == PushFrames(prepared, frames, wire, replies)
        invariant needKeyframe <==> !AllReached(View(), |prepared.stream|, |stream|)
      {
        ghost var s := View();
        assert frames[k..][1..] == frames[k + 1..] && replies[k..][1..] == replies[k + 1..];
        var taken := PushOne(frames[k], replies[k]);
        PushFrameKeepsInv(s, frames[k], wire, replies[k]);
        ReachedByFrame(s, frames[k], wire, replies[k], |prepared.stream|);
        if !taken {
          needKeyframe := true;
        }
      }
      assert frames[|frames|..] == [] && replies[|frames|..] == [];
      if broken {
        ResetDecoder();
        needKeyframe := true;
      }
    }
  }

  /** Whether the frame about to be pushed is taken by a live device. */
  predicate Takes(s: State, frame: Frame, codec: Codec, reply: Reply)
    requires WellTyped(s)
  {
    && reply.decodes && !reply.closed
    && (if s.decoder.Some? then !s.devices[s.decoder.value].closed
        else frame.keyframe && HasConfig(codec, frame) && reply.configures)
  }

  ghost predicate AllReached(s: State, lo: nat, hi: nat) {
    forall i :: lo <= i < hi ==> Reached(s, i)
  }

  lemma NoneToReach(s: State, n: nat)
    ensures AllReached(s, n, n)
  {
  }

  /** Some frame of the batch reached no live device, or an error was reported. */
  ghost predicate NeedsKeyframe(s: State, frames: seq<Frame>, codec: Codec, replies: seq<Reply>)
    requires WellTyped(s) && |replies| == |frames|
  {
    var t := PushFrames(Prepared(s, codec), frames, codec, replies);
    t.broken || !AllReached(t, |s.stream|, |s.stream| + |frames|)
  }

  // ----- What every run keeps ----------------------------------------------

  /** A device's attempts: one after another in the stream, a keyframe first, one codec. */
  ghost predicate Fed(device: Device, stream: seq<Pushed>) {
    && device.calls != []
    && (forall j :: 0 <= j < |device.calls| ==>
          && device.calls[j].frame == device.calls[0].frame + j < |stream|
          && stream[device.calls[j].frame].codec == device.codec)
    && stream[device.calls[0].frame].frame.keyframe
  }

  ghost predicate Inv(s: State) {
    && WellTyped(s)
    && (forall d :: 0 <= d < |s.devices| ==> Fed(s.devices[d], s.stream))
    && (forall d :: 0 <= d < |s.devices| && s.decoder != Some(d) ==> s.devices[d].closed)
    && (s.decoder.Some? ==>
          var device := s.devices[s.decoder.value];
          s.codec == Some(device.codec) && device.calls[0].frame + |device.calls| == |s.stream|)
  }

  lemma FedOnLongerStream(device: Device, stream: seq<Pushed>, p: Pushed)
    requires Fed(device, stream)
    ensures Fed(device, stream + [p])
  {
    assert forall j :: 0 <= j < |device.calls| ==>
        (stream + [p])[device.calls[j].frame] == stream[device.calls[j].frame];
  }

  lemma FedOneMore(device: Device, stream: seq<Pushed>, p: Pushed, call: Call, closed: bool)
    requires device.calls == [] ==> p.frame.keyframe
    requires device.calls != [] ==> Fed(device, stream) && device.calls[0].frame + |device.calls| == |stream|
    requires call.frame == |stream| && p.codec == device.codec
    ensures Fed(device.(closed := closed, calls := device.calls + [call]), stream + [p])
  {
    var device', stream' := device.(closed := closed, calls := device.calls + [call]), stream + [p];
    forall j | 0 <= j < |device'.calls|
      ensures device'.calls[j].frame == device'.calls[0].frame + j < |stream'|
      ensures stream'[device'.calls[j].frame].codec == device'.codec
    {
      if j < |device.calls| {
        assert device'.calls[j] == device.calls[j];
        assert stream'[device.calls[j].frame] == stream[device.calls[j].frame];
      }
    }
  }

  lemma ResetKeepsInv(s: State)
    requires Inv(s)
    ensures Inv(Reset(s))
  {
  }

  lemma PreparedKeepsInv(s: State, codec: Codec)
    requires Inv(s)
    ensures Inv(Prepared(s, codec)) && Prepared(s, codec).stream == s.stream
  {
    ResetKeepsInv(s);
  }

  /** A device fed up to frame `|stream|`, or one not fed yet that a keyframe starts, is fed that frame. */
  lemma DecodeKeepsInv(t: State, stream: seq<Pushed>, p: Pushed, reply: Reply)
    requires WellTyped(t) && t.decoder.Some? && t.stream == stream + [p] && t.codec == Some(p.codec)
    requires forall d :: 0 <= d < |t.devices| && d != t.decoder.value ==>
               Fed(t.devices[d], t.stream) && t.devices[d].closed
    requires var device := t.devices[t.decoder.value];
             && device.codec == p.codec
             && (device.calls == [] ==> p.frame.keyframe)
             && (device.calls != [] ==>
                   Fed(device, stream) && device.calls[0].frame + |device.calls| == |stream|)
    ensures Inv(Decode(t, |stream|, reply))
  {
    hide Fed;
    var t', d := Decode(t, |stream|, reply), t.decoder.value;
    var device := t.devices[d];
    var call := Call(|stream|, t'.devices[d].calls[|device.calls|].outcome);
    FedOneMore(device, stream, p, call, t'.devices[d].closed);
    assert t'.devices[d] == device.(closed := t'.devices[d].closed, calls := device.calls + [call]);
  }

  lemma PushFrameKeepsInv(s: State, frame: Frame, codec: Codec, reply: Reply)
    requires Inv(s) && s.codec == Some(codec)
    ensures Inv(PushFrame(s, frame, codec, reply))
    ensures PushFrame(s, frame, codec, reply).codec == s.codec
    ensures PushFrame(s, frame, codec, reply).stream == s.stream + [Pushed(frame, codec)]
  {
    var p := Pushed(frame, codec);
    var t := s.(stream := s.stream + [p]);
    forall d | 0 <= d < |s.devices|
      ensures Fed(s.devices[d], t.stream)
    {
      FedOnLongerStream(s.devices[d], s.stream, p);
    }
    hide HasConfig, Fed;
    if s.decoder.Some? {
      DecodeKeepsInv(t, s.stream, p, reply);
    } else if frame.keyframe {
      DecodeKeepsInv(t.(decoder := Some(|s.devices|), devices := s.devices + [Device(codec, false, [])]),
                     s.stream, p, reply);
    }
  }

  /** Of the frames from `lo` on, the new one is reached just if it is taken, and the others as before. */
  lemma ReachedByFrame(s: State, frame: Frame, codec: Codec, reply: Reply, lo: nat)
    requires Inv(s) && lo <= |s.stream|
    ensures var s' := PushFrame(s, frame, codec, reply);
            AllReached(s', lo, |s.stream| + 1)
            <==> AllReached(s, lo, |s.stream|) && Takes(s, frame, codec, reply)
  {
    var s', n := PushFrame(s, frame, codec, reply), |s.stream|;
    forall i | 0 <= i < n
      ensures Reached(s', i) <==> Reached(s, i)
    {
      OldFrameReached(s, frame, codec, reply, i);
    }
    NewFrameReached(s, frame, codec, reply);
    hide Reached, Takes, PushFrame, Inv;
    assert AllReached(s', lo, n + 1) <==> AllReached(s', lo, n) && Reached(s', n);
  }

  /** A frame adds at most one attempt, its own, to at most one device. */
  lemma CallsGrow(s: State, frame: Frame, codec: Codec, reply: Reply)
    requires WellTyped(s)
    ensures var s' := PushFrame(s, frame, codec, reply);
            && |s.devices| <= |s'.devices|
            && (forall d :: 0 <= d < |s.devices| ==> s.devices[d].calls <= s'.devices[d].calls)
            && (forall d, j :: 0 <= d < |s'.devices| && 0 <= j < |s'.devices[d].calls|
                               && (d >= |s.devices| || j >= |s.devices[d].calls|) ==>
                  && s'.devices[d].calls[j].frame == |s.stream|
                  && (s'.devices[d].calls[j].outcome.Accepted? ==> Takes(s, frame, codec, reply)))
  {
    hide HasConfig;
  }

  lemma OldFrameReached(s: State, frame: Frame, codec: Codec, reply: Reply, i: nat)
    requires Inv(s) && i < |s.stream|
    ensures Reached(PushFrame(s, frame, codec, reply), i) <==> Reached(s, i)
  {
    CallsGrow(s, frame, codec, reply);
    hide PushFrame, Fed;
    var s' := PushFrame(s, frame, codec, reply);
    if Reached(s, i) {
      var d, j :| 0 <= d < |s.devices| && 0 <= j < |s.devices[d].calls| && s.devices[d].calls[j] == Call(i, Accepted);
      assert s'.devices[d].calls[j] == Call(i, Accepted);
    }
    if Reached(s', i) {
      var d, j :| 0 <= d < |s'.devices| && 0 <= j < |s'.devices[d].calls|
                  && s'.devices[d].calls[j] == Call(i, Accepted);
      assert s.devices[d].calls[j] == Call(i, Accepted);
    }
  }

  lemma NewFrameReached(s: State, frame: Frame, codec: Codec, reply: Reply)
    requires Inv(s)
    ensures Reached(PushFrame(s, frame, codec, reply), |s.stream|) <==> Takes(s, frame, codec, reply)
  {
    var s', n := PushFrame(s, frame, codec, reply), |s.stream|;
    if Takes(s, frame, codec, reply) {
      TakenIsLast(s, frame, codec, reply);
    }
    CallsGrow(s, frame, codec, reply);
    EarlierCalls(s);
    hide PushFrame, Fed, Takes;
    if Reached(s', n) {
      var d, j :| 0 <= d < |s'.devices| && 0 <= j < |s'.devices[d].calls|
                  && s'.devices[d].calls[j] == Call(n, Accepted);
      assert d >= |s.devices| || j >= |s.devices[d].calls|;
    }
  }

  lemma TakenIsLast(s: State, frame: Frame, codec: Codec, reply: Reply)
    requires WellTyped(s) && Takes(s, frame, codec, reply)
    ensures Reached(PushFrame(s, frame, codec, reply), |s.stream|)
  {
    hide HasConfig;
    var s' := PushFrame(s, frame, codec, reply);
    var d := s'.decoder.value;
    assert s'.devices[d].calls[|s'.devices[d].calls| - 1] == Call(|s.stream|, Accepted);
  }

  lemma EarlierCalls(s: State)
    requires Inv(s)
    ensures forall d, j :: 0 <= d < |s.devices| && 0 <= j < |s.devices[d].calls| ==>
              s.devices[d].calls[j].frame < |s.stream|
  {
    forall d, j | 0 <= d < |s.devices| && 0 <= j < |s.devices[d].calls|
      ensures s.devices[d].calls[j].frame < |s.stream|
    {
      assert Fed(s.devices[d], s.stream);
    }
  }
}
