/** The binary answer of `view_next_chunk`, and the strict reader of it. */
module ViewChunk {
  import opened Bytes
  import opened Options

  datatype Status =
    | Waiting | Live | Reconnecting | Lost | NoCapture | NoEncoder | SecureDesktop
    | CaptureDenied | EncoderFailed

  datatype Codec = H264 | Av1 | Vp9

  datatype Frame = Frame(keyframe: bool, timestampUs: nat, data: seq<byte>)

  datatype Chunk = Chunk(
    status: Status, input: bool, recording: bool, desync: bool, codec: Codec, frames: seq<Frame>)

  datatype Error =
    | TooShort(length: nat)
    | UnknownStatus(code: byte)
    | UnknownCodec(code: byte)
    | RanOut(count: nat, after: nat)
    | MissingBytes(frame: nat, length: nat)

  datatype Result<+T> = Ok(value: T) | Err(error: Error)

  const HEADER_BYTES: nat := 9
  const FRAME_HEADER_BYTES: nat := 13

  function StatusOf(code: byte): Option<Status> {
    match code
    case 0 => Some(Waiting)
    case 1 => Some(Live)
    case 2 => Some(Reconnecting)
    case 3 => Some(Lost)
    case 4 => Some(NoCapture)
    case 5 => Some(NoEncoder)
    case 6 => Some(SecureDesktop)
    case 7 => Some(CaptureDenied)
    case 8 => Some(EncoderFailed)
    case _ => None
  }

  /** Byte 2 was a codec once and stays unassigned. */
  function CodecOf(code: byte): Option<Codec> {
    match code
    case 0 => Some(H264)
    case 1 => Some(Av1)
    case 3 => Some(Vp9)
    case _ => None
  }

  // ----- Timestamps as doubles ---------------------------------------------

  const TWO_53: nat := 0x20_0000_0000_0000

  /** The spacing of double-precision numbers around `v`. */
  function Spacing(v: nat): (u: nat)
    ensures u >= 1 && (v < TWO_53 ==> u == 1)
  {
    if v < TWO_53 then 1 else 2 * Spacing(v / 2)
  }

  /** `Number` of a 64-bit count: to the nearest double, ties to even. */
  function ToNumber(v: nat): nat {
    var u := Spacing(v);
    var q, r := v / u, v % u;
    if 2 * r > u || (2 * r == u && q % 2 == 1) then (q + 1) * u else q * u
  }

  lemma QuotientRemainder(v: nat, u: nat)
    requires u >= 1
    ensures v == v / u * u + v % u
  {
  }

  /** The conversion is off by at most half the spacing, and exact just on multiples of it. */
  lemma ToNumberIsNearest(v: nat)
    ensures 2 * v <= 2 * ToNumber(v) + Spacing(v) && 2 * ToNumber(v) <= 2 * v + Spacing(v)
    ensures ToNumber(v) == v <==> v % Spacing(v) == 0
    ensures v < TWO_53 ==> ToNumber(v) == v
  {
    var u := Spacing(v);
    QuotientRemainder(v, u);
    assert (v / u + 1) * u == v / u * u + u;
  }

  // ----- Reading -----------------------------------------------------------

  function FrameAt(b: seq<byte>, at: nat, length: nat): Frame
    requires at + FRAME_HEADER_BYTES + length <= |b|
  {
    Frame(b[at] != 0, ToNumber(U64(b, at + 1)),
          b[at + FRAME_HEADER_BYTES..at + FRAME_HEADER_BYTES + length])
  }

  /** Frames `i` to `count` from `at` on, and the offset just past the last. */
  function Frames(b: seq<byte>, at: nat, i: nat, count: nat): Result<(seq<Frame>, nat)>
    requires i <= count
    decreases count - i
  {
    if i == count then Ok(([], at))
    else if at + FRAME_HEADER_BYTES > |b| then Err(RanOut(count, i))
    else
      var length := U32(b, at + 9);
      if at + FRAME_HEADER_BYTES + length > |b| then Err(MissingBytes(i, length))
      else match Frames(b, at + FRAME_HEADER_BYTES + length, i + 1, count)
        case Err(e) => Err(e)
        case Ok((rest, end)) => Ok(([FrameAt(b, at, length)] + rest, end))
  }

  /** The chunk a buffer holds, and how many of its bytes that takes. */
  function Decoded(b: seq<byte>): Result<(Chunk, nat)> {
    if |b| < HEADER_BYTES then Err(TooShort(|b|))
    else if StatusOf(b[0]).None? then Err(UnknownStatus(b[0]))
    else if CodecOf(b[8]).None? then Err(UnknownCodec(b[8]))
    else match Frames(b, HEADER_BYTES, 0, U16(b, 2))
      case Err(e) => Err(e)
      case Ok((frames, end)) =>
        Ok((Chunk(StatusOf(b[0]).value, b[1] % 2 != 0, b[1] / 2 % 2 != 0, b[1] / 4 % 2 != 0,
                  CodecOf(b[8]).value, frames), end))
  }

  function Prepended(frames: seq<Frame>, r: Result<(seq<Frame>, nat)>): Result<(seq<Frame>, nat)> {
    match r
    case Err(e) => Err(e)
    case Ok((rest, end)) => Ok((frames + rest, end))
  }

  lemma PrependNothing(r: Result<(seq<Frame>, nat)>)
    ensures Prepended([], r) == r
  {
    if r.Ok? {
      assert [] + r.value.0 == r.value.0;
    }
  }

  lemma PrependOne(frames: seq<Frame>, f: Frame, r: Result<(seq<Frame>, nat)>)
    ensures Prepended(frames, Prepended([f], r)) == Prepended(frames + [f], r)
  {
    if r.Ok? {
      assert frames + ([f] + r.value.0) == frames + [f] + r.value.0;
    }
  }

  method DecodeViewChunk(b: seq<byte>) returns (r: Result<Chunk>)
    ensures r == match Decoded(b) case Ok((chunk, _)) => Ok(chunk) case Err(e) => Err(e)
  {
    hide U16, U32, U64, ToNumber, StatusOf, CodecOf;
    if |b| < HEADER_BYTES {
      return Err(TooShort(|b|));
    }
    var status := StatusOf(b[0]);
    if status.None? {
      return Err(UnknownStatus(b[0]));
    }
    var flags: int := b[1];
    var count := U16(b, 2);
    var codec := CodecOf(b[8]);
    if codec.None? {
      return Err(UnknownCodec(b[8]));
    }
    var frames := [];
    var at: nat := HEADER_BYTES;
    PrependNothing(Frames(b, at, 0, count));
    for i := 0 to count
      invariant Frames(b, HEADER_BYTES, 0, count) == Prepended(frames, Frames(b, at, i, count))
    {
      if at + FRAME_HEADER_BYTES > |b| {
        return Err(RanOut(count, i));
      }
      var length := U32(b, at + 9);
      var start := at + FRAME_HEADER_BYTES;
      if start + length > |b| {
        return Err(MissingBytes(i, length));
      }
      PrependOne(frames, FrameAt(b, at, length), Frames(b, start + length, i + 1, count));
      frames := frames + [FrameAt(b, at, length)];
      at := start + length;
    }
    assert frames + [] == frames;
    return Ok(Chunk(status.value, flags % 2 != 0, flags / 2 % 2 != 0, flags / 4 % 2 != 0,
                    codec.value, frames));
  }

  // ----- Any buffer --------------------------------------------------------

  lemma {:induction false} FramesOfPrefix(b: seq<byte>, p: nat, at: nat, i: nat, count: nat)
    requires at <= p <= |b| && i <= count && Frames(b, at, i, count).Ok?
    ensures at <= Frames(b, at, i, count).value.1 <= |b|
    ensures p < Frames(b, at, i, count).value.1 ==> Frames(b[..p], at, i, count).Err?
    ensures p >= Frames(b, at, i, count).value.1 ==> Frames(b[..p], at, i, count) == Frames(b, at, i, count)
    decreases count - i
  {
    hide U32, U64, ToNumber;
    if i < count {
      var c, length := b[..p], U32(b, at + 9);
      var next := at + FRAME_HEADER_BYTES + length;
      if at + FRAME_HEADER_BYTES <= p {
        PrefixReads(b, p, at + 9);
        PrefixReads(b, p, at + 1);
        if next <= p {
          FramesOfPrefix(b, p, next, i + 1, count);
          assert FrameAt(c, at, length) == FrameAt(b, at, length) by {
            assert c[at + FRAME_HEADER_BYTES..next] == b[at + FRAME_HEADER_BYTES..next];
          }
        } else {
          FramesOfPrefix(b, |b|, next, i + 1, count);
        }
      } else {
        FramesOfPrefix(b, |b|, next, i + 1, count);
      }
    }
  }

  /**
   Of any buffer that is accepted, every shorter prefix than the bytes it takes is refused,
   and every longer one gives the same chunk: nothing is half-read, nothing past the end matters.
   */
  lemma PrefixesOfAccepted(b: seq<byte>, p: nat)
    requires p <= |b| && Decoded(b).Ok?
    ensures HEADER_BYTES <= Decoded(b).value.1 <= |b|
    ensures p < Decoded(b).value.1 ==> Decoded(b[..p]).Err?
    ensures p >= Decoded(b).value.1 ==> Decoded(b[..p]) == Decoded(b)
  {
    hide U16, U32, U64, ToNumber, Frames, StatusOf, CodecOf;
    FramesOfPrefix(b, |b|, HEADER_BYTES, 0, U16(b, 2));
    if p >= HEADER_BYTES {
      PrefixReads(b, p, 2);
      FramesOfPrefix(b, p, HEADER_BYTES, 0, U16(b, 2));
    }
  }

  // ----- The documented layout ---------------------------------------------

  function StatusCode(s: Status): (code: byte)
    ensures StatusOf(code) == Some(s)
  {
    match s
    case Waiting => 0
    case Live => 1
    case Reconnecting => 2
    case Lost => 3
    case NoCapture => 4
    case NoEncoder => 5
    case SecureDesktop => 6
    case CaptureDenied => 7
    case EncoderFailed => 8
  }

  function CodecCode(c: Codec): (code: byte)
    ensures CodecOf(code) == Some(c)
  {
    match c
    case H264 => 0
    case Av1 => 1
    case Vp9 => 3
  }

  predicate FrameFits(f: Frame) {
    f.timestampUs < 0x1_0000_0000_0000_0000 && |f.data| < 0x1_0000_0000
  }

  ghost predicate WellFormed(c: Chunk) {
    |c.frames| < 0x1_0000 && forall i :: 0 <= i < |c.frames| ==> FrameFits(c.frames[i])
  }

  function EncodeFrame(f: Frame): (b: seq<byte>)
    requires FrameFits(f)
    ensures |b| == FRAME_HEADER_BYTES + |f.data|
  {
    [if f.keyframe then 1 else 0] + LE64(f.timestampUs) + LE32(|f.data|) + f.data
  }

  function EncodeFrames(fs: seq<Frame>): seq<byte>
    requires forall i :: 0 <= i < |fs| ==> FrameFits(fs[i])
  {
    if fs == [] then [] else EncodeFrame(fs[0]) + EncodeFrames(fs[1..])
  }

  function Flags(c: Chunk): (r: byte)
    ensures (r % 2 != 0) == c.input && (r / 2 % 2 != 0) == c.recording && (r / 4 % 2 != 0) == c.desync
  {
    (if c.input then 1 else 0) + (if c.recording then 2 else 0) + (if c.desync then 4 else 0)
  }

  function Header(c: Chunk, reserved: nat): (b: seq<byte>)
    requires |c.frames| < 0x1_0000 && reserved < 0x1_0000_0000
    ensures |b| == HEADER_BYTES
  {
    [StatusCode(c.status), Flags(c)] + LE16(|c.frames|) + LE32(reserved) + [CodecCode(c.codec)]
  }

  /** A chunk as the host writes it; readers ignore the reserved word. */
  function Encode(c: Chunk, reserved: nat): seq<byte>
    requires WellFormed(c) && reserved < 0x1_0000_0000
  {
    Header(c, reserved) + EncodeFrames(c.frames)
  }

  function Rounded(f: Frame): Frame { f.(timestampUs := ToNumber(f.timestampUs)) }

  function AllRounded(fs: seq<Frame>): (r: seq<Frame>)
    ensures |r| == |fs| && forall i :: 0 <= i < |fs| ==> r[i] == Rounded(fs[i])
  {
    if fs == [] then [] else [Rounded(fs[0])] + AllRounded(fs[1..])
  }

  lemma FrameReads(b: seq<byte>, at: nat, f: Frame)
    requires FrameFits(f) && at + FRAME_HEADER_BYTES + |f.data| <= |b|
    requires b[at..at + FRAME_HEADER_BYTES + |f.data|] == EncodeFrame(f)
    ensures U32(b, at + 9) == |f.data| && FrameAt(b, at, |f.data|) == Rounded(f)
  {
    hide U32, U64, ToNumber, LE32, LE64;
    var e := EncodeFrame(f);
    assert forall j :: 0 <= j < |e| ==> b[at + j] == e[j];
    assert b[at + 1..at + 9] == e[1..9] == LE64(f.timestampUs);
    assert b[at + 9..at + 13] == e[9..13] == LE32(|f.data|);
    assert b[at + 13..at + 13 + |f.data|] == e[13..] == f.data;
    Read64(b, at + 1, f.timestampUs);
    Read32(b, at + 9, |f.data|);
  }

  lemma {:induction false} FramesRead(b: seq<byte>, at: nat, fs: seq<Frame>, i: nat, count: nat)
    requires forall k :: 0 <= k < |fs| ==> FrameFits(fs[k])
    requires at <= |b| && b[at..] == EncodeFrames(fs) && i + |fs| == count
    ensures Frames(b, at, i, count) == Ok((AllRounded(fs), |b|))
    decreases |fs|
  {
    hide U32, ToNumber, EncodeFrame, FrameAt;
    if fs != [] {
      var first, rest := EncodeFrame(fs[0]), EncodeFrames(fs[1..]);
      CutOfSum(b, at, first, rest, |b| - at, 0);
      FrameReads(b, at, fs[0]);
      assert rest[..|rest|] == rest;
      FramesRead(b, at + |first|, fs[1..], i + 1, count);
    }
  }

  lemma HeaderReads(c: Chunk, reserved: nat)
    requires WellFormed(c) && reserved < 0x1_0000_0000
    ensures var b := Encode(c, reserved);
            && |b| >= HEADER_BYTES && b[0] == StatusCode(c.status) && b[1] == Flags(c)
            && b[8] == CodecCode(c.codec) && U16(b, 2) == |c.frames|
            && b[HEADER_BYTES..] == EncodeFrames(c.frames)
  {
    hide U16, LE16, LE32, StatusCode, CodecCode, Flags;
    var b := Encode(c, reserved);
    assert b[2..4] == LE16(|c.frames|);
    Read16(b, 2, |c.frames|);
  }

  /**
   Reading an encoded chunk gives it back, each timestamp as the nearest double; so exactly,
   if and only if every timestamp is one. Every proper prefix of the encoding is refused.
   */
  lemma DecodeInvertsLayout(c: Chunk, reserved: nat, p: nat)
    requires WellFormed(c) && reserved < 0x1_0000_0000 && p < |Encode(c, reserved)|
    ensures var b := Encode(c, reserved);
            Decoded(b) == Ok((c.(frames := AllRounded(c.frames)), |b|))
    ensures Decoded(Encode(c, reserved)[..p]).Err?
    ensures Decoded(Encode(c, reserved)) == Ok((c, |Encode(c, reserved)|))
            <==> forall i :: 0 <= i < |c.frames| ==>
                   c.frames[i].timestampUs % Spacing(c.frames[i].timestampUs) == 0
  {
    hide U16, U32, U64, ToNumber, Frames, Header, EncodeFrames, LE16, LE32, Spacing;
    var b := Encode(c, reserved);
    HeaderReads(c, reserved);
    FramesRead(b, HEADER_BYTES, c.frames, 0, |c.frames|);
    PrefixesOfAccepted(b, p);
    ExactlyWhenRepresentable(c.frames);
  }

  lemma ExactlyWhenRepresentable(fs: seq<Frame>)
    ensures AllRounded(fs) == fs <==>
            forall i :: 0 <= i < |fs| ==> fs[i].timestampUs % Spacing(fs[i].timestampUs) == 0
  {
    hide ToNumber, Spacing;
    var r := AllRounded(fs);
    forall i | 0 <= i < |fs|
      ensures r[i] == fs[i] <==> fs[i].timestampUs % Spacing(fs[i].timestampUs) == 0
    {
      ToNumberIsNearest(fs[i].timestampUs);
    }
    if forall i :: 0 <= i < |fs| ==> fs[i].timestampUs % Spacing(fs[i].timestampUs) == 0 {
      assert forall i :: 0 <= i < |fs| ==> r[i] == fs[i];
    }
  }

  /** The complaint about frames cut off after `room` bytes. */
  function CutError(fs: seq<Frame>, room: nat, i: nat, count: nat): Error
    requires fs != []
  {
    var size := 13 + |fs[0].data|;
    if room < 13 then RanOut(count, i)
    else if room < size then MissingBytes(i, |fs[0].data|)
    else if |fs| == 1 then RanOut(count, i + 1)
    else CutError(fs[1..], room - size, i + 1, count)
  }

  lemma {:induction false} CutFrames(b: seq<byte>, at: nat, fs: seq<Frame>, i: nat, count: nat)
    requires (forall k :: 0 <= k < |fs| ==> FrameFits(fs[k])) && i + |fs| == count && at <= |b|
    requires |b| - at < |EncodeFrames(fs)| && b[at..] == EncodeFrames(fs)[..|b| - at]
    ensures fs != [] && Frames(b, at, i, count) == Err(CutError(fs, |b| - at, i, count))
    decreases |fs|
  {
    hide U32, ToNumber, EncodeFrame, FrameAt, LE32;
    var room := |b| - at;
    if room >= 13 {
      var first, rest := EncodeFrame(fs[0]), EncodeFrames(fs[1..]);
      CutOfSum(b, at, first, rest, room, 13);
      CutHeaderReads(b, at, fs[0]);
      if room >= |first| {
        FrameReads(b, at, fs[0]);
        CutFrames(b, at + |first|, fs[1..], i + 1, count);
      }
    }
  }

  lemma CutHeaderReads(b: seq<byte>, at: nat, f: Frame)
    requires FrameFits(f) && at + 13 <= |b| && b[at..at + 13] == EncodeFrame(f)[..13]
    ensures U32(b, at + 9) == |f.data|
  {
    hide U32, LE32, LE64;
    var h := b[at..at + 13];
    assert b[at + 9..at + 13] == h[9..13] == LE32(|f.data|);
    Read32(b, at + 9, |f.data|);
  }

  /** A chunk cut short is refused for where it is cut: in its header, or in which frame and what of it. */
  lemma CutSaysWhere(c: Chunk, reserved: nat, p: nat)
    requires WellFormed(c) && reserved < 0x1_0000_0000 && p < |Encode(c, reserved)|
    ensures p < 9 ==> Decoded(Encode(c, reserved)[..p]) == Err(TooShort(p))
    ensures p >= 9 ==>
              c.frames != []
              && Decoded(Encode(c, reserved)[..p]) == Err(CutError(c.frames, p - 9, 0, |c.frames|))
  {
    hide U16, U32, ToNumber, Frames, EncodeFrames, LE16, LE32, Header, StatusCode, CodecCode, Flags;
    if p >= 9 {
      var whole := Encode(c, reserved);
      var b := whole[..p];
      HeaderReads(c, reserved);
      PrefixReads(whole, p, 2);
      assert b[9..] == whole[9..][..p - 9];
      CutFrames(b, 9, c.frames, 0, |c.frames|);
      CodesAreKnown(c);
    }
  }

  lemma CodesAreKnown(c: Chunk)
    ensures StatusOf(StatusCode(c.status)) == Some(c.status) && CodecOf(CodecCode(c.codec)) == Some(c.codec)
  {
  }

  /** A header that is all there is refused just for a status past 8, or else a codec other than 0, 1 and 3. */
  lemma HeaderRefusedExactly(b: seq<byte>)
    requires |b| >= 9
    ensures Decoded(b) == Err(UnknownStatus(b[0])) <==> b[0] > 8
    ensures Decoded(b) == Err(UnknownCodec(b[8])) <==> b[0] <= 8 && b[8] != 0 && b[8] != 1 && b[8] != 3
  {
    hide U16;
    FramesComplain(b, 9, 0, U16(b, 2));
    hide Frames;
  }

  lemma {:induction false} FramesComplain(b: seq<byte>, at: nat, i: nat, count: nat)
    requires i <= count
    ensures Frames(b, at, i, count).Err? ==>
              Frames(b, at, i, count).error.RanOut? || Frames(b, at, i, count).error.MissingBytes?
    decreases count - i
  {
    hide U32, ToNumber, FrameAt;
    if i < count && at + FRAME_HEADER_BYTES <= |b| {
      FramesComplain(b, at + FRAME_HEADER_BYTES + U32(b, at + 9), i + 1, count);
    }
  }

  const LATE: Chunk := Chunk(Live, false, false, false, H264, [Frame(true, TWO_53 + 1, [])])

  /** A chunk that does not come back: one microsecond past 2^53 is no double, and is read as 2^53. */
  lemma LateTimestampIsRounded()
    ensures WellFormed(LATE)
    ensures var r := Decoded(Encode(LATE, 0));
            && r.Ok? && |r.value.0.frames| == 1
            && r.value.0.frames[0].timestampUs == TWO_53 != LATE.frames[0].timestampUs
  {
    hide Decoded, Encode;
    assert Encode(LATE, 0) != [] by { HeaderReads(LATE, 0); }
    DecodeInvertsLayout(LATE, 0, 0);
    assert (TWO_53 + 1) / 2 < TWO_53 && Spacing(TWO_53 + 1) == 2;
    assert ToNumber(TWO_53 + 1) == TWO_53;
  }
}
