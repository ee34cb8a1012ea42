/**
 The walk over the NAL units of an Annex B byte stream (ITU-T H.264) and the codec string it
 yields for a decoder (RFC 6381, section 3.3).
 */
module AnnexB {
  import opened Bytes
  import opened Options
  import ViewChunk

  /** A NAL unit as the walk reports it: its type, and the offset of its header byte. */
  datatype Unit = Unit(kind: nat, start: nat)

  const SPS: nat := 7

  /** The length of the start code at `i`, or zero. */
  function StartCode(data: seq<byte>, i: nat): (n: nat)
    requires i + 3 <= |data|
    ensures n == 0 || (n >= 3 && i + n <= |data|)
  {
    if data[i] == 0 && data[i + 1] == 0 && data[i + 2] == 1 then 3
    else if i + 4 <= |data| && data[i] == 0 && data[i + 1] == 0 && data[i + 2] == 0 && data[i + 3] == 1 then 4
    else 0
  }

  function Units(data: seq<byte>, i: nat): seq<Unit>
    decreases |data| - i
  {
    if i + 3 > |data| then []
    else
      var n := StartCode(data, i);
      if n == 0 then Units(data, i + 1)
      else if i + n == |data| then []
      else [Unit(data[i + n] % 32, i + n)] + Units(data, i + n + 1)
  }

  method AnnexBNalUnits(data: seq<byte>) returns (units: seq<Unit>)
    ensures units == Units(data, 0)
  {
    hide StartCode;
    units := [];
    var i: nat := 0;
    while i + 3 <= |data|
      invariant units + Units(data, i) == Units(data, 0)
      decreases |data| - i
    {
      var n := StartCode(data, i);
      if n != 0 {
        var start := i + n;
        if start == |data| {
          return;
        }
        units := units + [Unit(data[start] % 32, start)];
        i := start;
      }
      i := i + 1;
    }
  }

  // ----- Streams that obey Annex B -----------------------------------------

  /**
   A NAL unit with the zero bytes and the one that announce it: two zeros make a three-byte
   start code, three a four-byte one, and more are the trailing zeros Annex B allows.
   */
  datatype Nal = Nal(zeros: nat, bytes: seq<byte>)

  ghost predicate Proper(nal: Nal) {
    && nal.zeros >= 2 && nal.bytes != [] && nal.bytes[|nal.bytes| - 1] != 0
    && forall i :: 0 <= i < |nal.bytes| - 2 ==> !Emulates(nal.bytes, i)
  }

  /** A NAL unit that obeys Annex B. */
  type ProperNal = nal: Nal | Proper(nal) witness Nal(2, [1])

  /** A start code, or the beginning of one, inside a unit. */
  predicate Emulates(b: seq<byte>, i: nat)
    requires i + 2 < |b|
  {
    b[i] == 0 && b[i + 1] == 0 && b[i + 2] <= 1
  }

  function Zeros(n: nat): (r: seq<byte>)
    ensures |r| == n && forall i :: 0 <= i < n ==> r[i] == 0
  {
    seq(n, _ => 0)
  }

  function Announced(nal: Nal): (r: seq<byte>)
    ensures |r| == nal.zeros + 1 + |nal.bytes|
  {
    Zeros(nal.zeros) + [1] + nal.bytes
  }

  /** A byte stream: units, and the zero bytes that may trail the last. */
  function Stream(nals: seq<ProperNal>, tail: nat): seq<byte> {
    if nals == [] then Zeros(tail) else Announced(nals[0]) + Stream(nals[1..], tail)
  }

  /** The units of a stream laid out from `at`: every type and header offset, in order. */
  function Layout(nals: seq<ProperNal>, at: nat): seq<Unit>
  {
    if nals == [] then []
    else
      var start := at + nals[0].zeros + 1;
      [Unit(nals[0].bytes[0] % 32, start)] + Layout(nals[1..], start + |nals[0].bytes|)
  }

  /** What the head of a stream looks like in the buffer. */
  ghost predicate LiesAt(data: seq<byte>, at: nat, nal: Nal) {
    && at + nal.zeros + 1 + |nal.bytes| <= |data|
    && (forall j :: at <= j < at + nal.zeros ==> data[j] == 0)
    && data[at + nal.zeros] == 1
    && (forall j :: 0 <= j < |nal.bytes| ==> data[at + nal.zeros + 1 + j] == nal.bytes[j])
  }

  lemma HeadLies(data: seq<byte>, at: nat, nals: seq<ProperNal>, tail: nat)
    requires nals != [] && at <= |data| && data[at..] == Stream(nals, tail)
    ensures LiesAt(data, at, nals[0])
    ensures data[at + nals[0].zeros + 1 + |nals[0].bytes|..] == Stream(nals[1..], tail)
  {
    var first, rest := Announced(nals[0]), Stream(nals[1..], tail);
    CutOfSum(data, at, first, rest, |data| - at, 0);
    assert rest[..|rest|] == rest;
    assert forall j :: 0 <= j < |first| ==> data[at + j] == data[at..at + |first|][j] == first[j];
  }

  lemma {:induction false} WalkZeros(data: seq<byte>, at: nat, zeros: nat)
    requires zeros >= 2 && at + zeros + 1 < |data| && data[at + zeros] == 1
    requires forall j :: at <= j < at + zeros ==> data[j] == 0
    ensures Units(data, at)
         == [Unit(data[at + zeros + 1] % 32, at + zeros + 1)] + Units(data, at + zeros + 2)
    decreases zeros
  {
    assert StartCode(data, at) == if zeros == 2 then 3 else if zeros == 3 then 4 else 0;
    WalkStep(data, at);
    hide Units, StartCode;
    if zeros > 3 {
      WalkZeros(data, at + 1, zeros - 1);
    }
  }

  lemma WalkStep(data: seq<byte>, at: nat)
    requires at + 3 <= |data|
    ensures var n := StartCode(data, at);
            && (n == 0 ==> Units(data, at) == Units(data, at + 1))
            && (n != 0 && at + n < |data| ==>
                  Units(data, at) == [Unit(data[at + n] % 32, at + n)] + Units(data, at + n + 1))
  {
    hide StartCode;
  }

  lemma {:induction false} WalkBody(data: seq<byte>, j: nat, end: nat)
    requires j <= end <= |data|
    requires j < end ==> data[end - 1] != 0
    requires forall k :: j <= k < end - 2 ==> !Emulates(data, k)
    ensures Units(data, j) == Units(data, end)
    decreases end - j
  {
    if j < end {
      WalkBody(data, j + 1, end);
      if j + 3 <= |data| {
        assert StartCode(data, j) == 0 by {
          if j + 2 < end { assert !Emulates(data, j); }
        }
      }
    }
  }

  lemma BodyIsQuiet(data: seq<byte>, at: nat, nal: Nal)
    requires LiesAt(data, at, nal) && Proper(nal)
    ensures var start := at + nal.zeros + 1;
            && data[start + |nal.bytes| - 1] != 0
            && forall k :: start <= k < start + |nal.bytes| - 2 ==> !Emulates(data, k)
  {
    var start := at + nal.zeros + 1;
    assert data[start + (|nal.bytes| - 1)] == nal.bytes[|nal.bytes| - 1];
    forall k | start <= k < start + |nal.bytes| - 2
      ensures !Emulates(data, k)
    {
      var i := k - start;
      assert !Emulates(nal.bytes, i);
      assert data[start + i] == nal.bytes[i] && data[start + (i + 1)] == nal.bytes[i + 1]
          && data[start + (i + 2)] == nal.bytes[i + 2];
    }
  }

  /** The walk finds exactly the units of the stream, from wherever it starts. */
  lemma {:induction false} WalkFindsUnits(data: seq<byte>, at: nat, nals: seq<ProperNal>, tail: nat)
    requires at <= |data| && data[at..] == Stream(nals, tail)
    ensures Units(data, at) == Layout(nals, at)
    decreases |nals|
  {
    hide LiesAt, Announced, Units, Proper;
    if nals == [] {
      WalkTail(data, at);
    } else {
      var end := at + nals[0].zeros + 1 + |nals[0].bytes|;
      HeadLies(data, at, nals, tail);
      WalkOne(data, at, nals[0], end);
      WalkFindsUnits(data, end, nals[1..], tail);
    }
  }

  lemma {:induction false} WalkTail(data: seq<byte>, at: nat)
    requires at <= |data| && data[at..] == Zeros(|data| - at)
    ensures Units(data, at) == []
    decreases |data| - at
  {
    if at < |data| {
      assert forall j :: at <= j < |data| ==> data[j] == data[at..][j - at] == 0;
      assert data[at + 1..] == Zeros(|data| - (at + 1));
      WalkTail(data, at + 1);
    }
  }

  lemma WalkOne(data: seq<byte>, at: nat, nal: ProperNal, end: nat)
    requires LiesAt(data, at, nal) && end == at + nal.zeros + 1 + |nal.bytes|
    ensures Units(data, at) == [Unit(nal.bytes[0] % 32, at + nal.zeros + 1)] + Units(data, end)
  {
    var start := at + nal.zeros + 1;
    WalkZeros(data, at, nal.zeros);
    assert data[start] == data[start + 0] == nal.bytes[0];
    BodyIsQuiet(data, at, nal);
    hide Units, Emulates;
    WalkBody(data, start + 1, end);
  }

  // ----- The codec string --------------------------------------------------

  function Chosen(units: seq<Unit>, length: nat): Option<nat> {
    if units == [] then None
    else if units[0].kind == SPS && units[0].start + 3 < length then Some(units[0].start)
    else Chosen(units[1..], length)
  }

  function HexDigit(d: nat): char
    requires d < 16
  {
    "0123456789abcdef"[d]
  }

  function Hex(b: byte): (r: string)
    ensures |r| == 2
  {
    [HexDigit(b / 16), HexDigit(b % 16)]
  }

  function Spelled(profile: byte, constraints: byte, level: byte): string {
    "avc1." + Hex(profile) + Hex(constraints) + Hex(level)
  }

  /** The bytes spelled are the three behind the header of the parameter set chosen. */
  ghost predicate IsCodecString(data: seq<byte>, r: Option<string>) {
    var at := Chosen(Units(data, 0), |data|);
    && (at.None? ==> r.None?)
    && (at.Some? ==> at.value + 3 < |data|
                     && r == Some(Spelled(data[at.value + 1], data[at.value + 2], data[at.value + 3])))
  }

  method AvcCodecString(data: seq<byte>) returns (r: Option<string>)
    ensures IsCodecString(data, r)
  {
    hide Units, Spelled;
    var units := AnnexBNalUnits(data);
    for i := 0 to |units|
      invariant Chosen(units, |data|) == Chosen(units[i..], |data|)
    {
      var start := units[i].start;
      if units[i].kind == SPS && start + 3 < |data| {
        return Some(Spelled(data[start + 1], data[start + 2], data[start + 3]));
      }
      assert units[i..][1..] == units[i + 1..];
    }
    r := None;
  }

  method ConfigStringFor(codec: ViewChunk.Codec, data: seq<byte>) returns (r: Option<string>)
    ensures codec.Av1? ==> r == Some("av01.0.09M.08")
    ensures codec.Vp9? ==> r == Some("vp09.00.10.08")
    ensures codec.H264? ==> IsCodecString(data, r)
  {
    match codec {
      case H264 => r := AvcCodecString(data);
      case Av1 => r := Some("av01.0.09M.08");
      case Vp9 => r := Some("vp09.00.10.08");
    }
  }

  lemma HexInjective(a: byte, b: byte)
    requires Hex(a) == Hex(b)
    ensures a == b
  {
    assert HexDigit(a / 16) == Hex(a)[0] == Hex(b)[0] == HexDigit(b / 16);
    assert HexDigit(a % 16) == Hex(a)[1] == Hex(b)[1] == HexDigit(b % 16);
    DigitInjective(a / 16, b / 16);
    DigitInjective(a % 16, b % 16);
  }

  lemma DigitInjective(a: nat, b: nat)
    requires a < 16 && b < 16 && HexDigit(a) == HexDigit(b)
    ensures a == b
  {
  }

  /** The string tells the three bytes it was spelled from. */
  lemma SpellingIsFaithful(p: byte, c: byte, l: byte, p': byte, c': byte, l': byte)
    requires Spelled(p, c, l) == Spelled(p', c', l')
    ensures p == p' && c == c' && l == l'
  {
    var s := Spelled(p, c, l);
    assert Hex(p) == s[5..7] == Hex(p') && Hex(c) == s[7..9] == Hex(c') && Hex(l) == s[9..11] == Hex(l');
    HexInjective(p, p');
    HexInjective(c, c');
    HexInjective(l, l');
  }

  /** What a hexadecimal digit is worth. */
  function DigitValue(c: char): nat {
    if '0' <= c <= '9' then c as int - '0' as int
    else if 'a' <= c <= 'f' then c as int - 'a' as int + 10
    else 16
  }

  /** A hexadecimal number, its first digit the highest. */
  function HexValue(s: string): nat {
    if s == "" then 0 else HexValue(s[..|s| - 1]) * 16 + DigitValue(s[|s| - 1])
  }

  lemma HexReads(b: byte)
    ensures forall i :: 0 <= i < 2 ==> DigitValue(Hex(b)[i]) < 16
    ensures DigitValue(Hex(b)[0]) * 16 + DigitValue(Hex(b)[1]) == b
  {
    DigitReads(b / 16);
    DigitReads(b % 16);
  }

  lemma DigitReads(d: nat)
    requires d < 16
    ensures DigitValue(HexDigit(d)) == d
  {
  }

  /** The string is the prefix and a number of six digits: profile, then constraints, then level. */
  lemma SpellingReads(profile: byte, constraints: byte, level: byte)
    ensures var s := Spelled(profile, constraints, level);
            && |s| == 11 && s[..5] == "avc1."
            && (forall i :: 5 <= i < 11 ==> DigitValue(s[i]) < 16)
            && HexValue(s[5..]) == profile * 65536 + constraints * 256 + level
  {
    HexReads(profile);
    HexReads(constraints);
    HexReads(level);
    var s, p, c, l := Spelled(profile, constraints, level), Hex(profile), Hex(constraints), Hex(level);
    assert s[5..] == [p[0], p[1], c[0], c[1], l[0], l[1]];
    hide Hex, DigitValue;
    SixDigits(p[0], p[1], c[0], c[1], l[0], l[1]);
  }

  lemma SixDigits(a: char, b: char, c: char, d: char, e: char, f: char)
    ensures HexValue([a, b, c, d, e, f])
         == (DigitValue(a) * 16 + DigitValue(b)) * 65536 + (DigitValue(c) * 16 + DigitValue(d)) * 256
            + DigitValue(e) * 16 + DigitValue(f)
  {
    hide DigitValue;
    var s := [a, b, c, d, e, f];
    assert s[..5] == [a, b, c, d, e] && s[..5][..4] == [a, b, c, d] && [a, b, c, d][..3] == [a, b, c];
    assert [a, b, c][..2] == [a, b] && [a, b][..1] == [a] && [a][..0] == [];
    assert HexValue([a]) == DigitValue(a);
    assert HexValue([a, b]) == HexValue([a]) * 16 + DigitValue(b);
    assert HexValue([a, b, c]) == HexValue([a, b]) * 16 + DigitValue(c);
    assert HexValue([a, b, c, d]) == HexValue([a, b, c]) * 16 + DigitValue(d);
    assert HexValue([a, b, c, d, e]) == HexValue([a, b, c, d]) * 16 + DigitValue(e);
  }

  predicate IsSps(nal: ProperNal) {
    nal.bytes[0] % 32 == SPS
  }

  /** The offset of the first parameter set that holds all three bytes itself. */
  function FirstFull(nals: seq<ProperNal>, at: nat): Option<nat>
  {
    if nals == [] then None
    else
      var start := at + nals[0].zeros + 1;
      if IsSps(nals[0]) && |nals[0].bytes| >= 4 then Some(start)
      else FirstFull(nals[1..], start + |nals[0].bytes|)
  }

  /** A parameter set too short to hold them comes before, and three bytes follow its header: any three. */
  predicate CutShort(nals: seq<ProperNal>, tail: nat) {
    nals != [] && (if IsSps(nals[0]) && |nals[0].bytes| >= 4 then false
                   else (IsSps(nals[0]) && |nals[0].bytes| + |Stream(nals[1..], tail)| > 3)
                        || CutShort(nals[1..], tail))
  }

  /**
   On any stream that obeys Annex B, the codec string is taken from the first parameter set
   holding its own three bytes if and only if no shorter one with three bytes behind its header
   comes first: the length the code checks is the buffer's, not the unit's.
   */
  lemma ReadsFirstFullSps(nals: seq<ProperNal>, tail: nat)
    ensures var data := Stream(nals, tail);
            Chosen(Units(data, 0), |data|) == FirstFull(nals, 0) <==> !CutShort(nals, tail)
  {
    hide Units;
    var data := Stream(nals, tail);
    assert data[0..] == data;
    WalkFindsUnits(data, 0, nals, tail);
    ChosenInLayout(nals, tail, 0, |data|);
  }

  lemma {:induction false} ChosenInLayout(nals: seq<ProperNal>, tail: nat, at: nat, length: nat)
    requires length == at + |Stream(nals, tail)|
    ensures Chosen(Layout(nals, at), length) == FirstFull(nals, at) <==> !CutShort(nals, tail)
    ensures FirstFull(nals, at).Some? ==> FirstFull(nals, at).value > at
    decreases |nals|
  {
    hide Announced, Proper;
    if nals != [] {
      var end := at + nals[0].zeros + 1 + |nals[0].bytes|;
      ChosenInLayout(nals[1..], tail, end, length);
      assert nals[0].bytes != [] by { ProperHasBytes(nals[0]); }
      assert Layout(nals, at)[1..] == Layout(nals[1..], end);
    }
  }

  lemma ProperHasBytes(nal: ProperNal)
    ensures nal.bytes != []
  {
  }

  /** The bytes a full parameter set holds are the ones that are spelled. */
  lemma {:induction false} FullSpsHoldsItsBytes(data: seq<byte>, at: nat, nals: seq<ProperNal>, tail: nat)
    returns (k: nat)
    requires at <= |data| && data[at..] == Stream(nals, tail)
    requires FirstFull(nals, at).Some?
    ensures k < |nals| && IsSps(nals[k]) && |nals[k].bytes| >= 4
    ensures forall i :: 0 <= i < k ==> !(IsSps(nals[i]) && |nals[i].bytes| >= 4)
    ensures var start := FirstFull(nals, at).value;
            start + 3 < |data| && data[start + 1..start + 4] == nals[k].bytes[1..4]
    decreases |nals|
  {
    hide LiesAt, Announced, Stream;
    HeadLies(data, at, nals, tail);
    var nal := nals[0];
    if IsSps(nal) && |nal.bytes| >= 4 {
      k := 0;
      HeaderBytes(data, at, nal);
    } else {
      var k' := FullSpsHoldsItsBytes(data, at + nal.zeros + 1 + |nal.bytes|, nals[1..], tail);
      k := k' + 1;
    }
  }

  lemma HeaderBytes(data: seq<byte>, at: nat, nal: ProperNal)
    requires LiesAt(data, at, nal) && |nal.bytes| >= 4
    ensures var start := at + nal.zeros + 1;
            start + 3 < |data| && data[start + 1..start + 4] == nal.bytes[1..4]
  {
    assert forall j :: 1 <= j < 4 ==> data[at + nal.zeros + 1 + j] == nal.bytes[j];
  }

  const SHORT: ProperNal := Nal(2, [0x67])
  const FULL: ProperNal := Nal(2, [0x67, 0x42, 0xE0, 0x1E])

  lemma ShortThenFull()
    ensures Stream([SHORT, FULL], 0) == [0, 0, 1, 0x67, 0, 0, 1, 0x67, 0x42, 0xE0, 0x1E]
  {
    var data: seq<byte> := [0, 0, 1, 0x67, 0, 0, 1, 0x67, 0x42, 0xE0, 0x1E];
    assert Announced(SHORT) == data[..4] && Announced(FULL) == data[4..];
    assert [SHORT, FULL][1..] == [FULL];
    assert Stream([FULL], 0) == Announced(FULL) + Zeros(0);
  }

  /** A stream on which they differ: the start code behind a one-byte parameter set is spelled. */
  lemma ShortSpsIsMisread()
    ensures var data := Stream([SHORT, FULL], 0);
            && |data| == 11
            && Chosen(Units(data, 0), |data|) == Some(3)
            && FirstFull([SHORT, FULL], 0) == Some(7)
            && data[4..7] == [0, 0, 1]
  {
    hide Units, Stream;
    ShortThenFull();
    var data: seq<byte> := [0, 0, 1, 0x67, 0, 0, 1, 0x67, 0x42, 0xE0, 0x1E];
    WalkZeros(data, 0, 2);
    assert Units(data, 0)[0] == Unit(7, 3);
    assert [SHORT, FULL][1..] == [FULL];
    assert FirstFull([FULL], 4) == Some(7);
  }

  /** Another, with no unit behind at all: the zeros that trail a one-byte parameter set are spelled. */
  lemma TrailingZerosAreMisread()
    ensures var data := Stream([SHORT], 3);
            && data == [0, 0, 1, 0x67, 0, 0, 0]
            && Chosen(Units(data, 0), |data|) == Some(3)
            && FirstFull([SHORT], 0) == None
  {
    var data: seq<byte> := [0, 0, 1, 0x67, 0, 0, 0];
    assert Announced(SHORT) == data[..4] && Stream([], 3) == data[4..];
    assert Stream([SHORT], 3) == data;
    hide Units, Stream;
    WalkZeros(data, 0, 2);
    assert Units(data, 0)[0] == Unit(7, 3);
  }
}
