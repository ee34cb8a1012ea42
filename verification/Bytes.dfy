/** Bytes, and little-endian unsigned integers in them. */
module Bytes {
  type byte = b: int | 0 <= b < 256

  function U16(b: seq<byte>, at: nat): (v: nat)
    requires at + 2 <= |b|
    ensures v < 0x1_0000
  {
    b[at] as int + 256 * (b[at + 1] as int)
  }

  function U32(b: seq<byte>, at: nat): (v: nat)
    requires at + 4 <= |b|
    ensures v < 0x1_0000_0000
  {
    U16(b, at) + 0x1_0000 * U16(b, at + 2)
  }

  function U64(b: seq<byte>, at: nat): (v: nat)
    requires at + 8 <= |b|
    ensures v < 0x1_0000_0000_0000_0000
  {
    U32(b, at) + 0x1_0000_0000 * U32(b, at + 4)
  }

  function LE16(v: nat): (r: seq<byte>)
    requires v < 0x1_0000
    ensures |r| == 2
  {
    [v % 256, v / 256]
  }

  function LE32(v: nat): (r: seq<byte>)
    requires v < 0x1_0000_0000
    ensures |r| == 4
  {
    LE16(v % 0x1_0000) + LE16(v / 0x1_0000)
  }

  function LE64(v: nat): (r: seq<byte>)
    requires v < 0x1_0000_0000_0000_0000
    ensures |r| == 8
  {
    LE32(v % 0x1_0000_0000) + LE32(v / 0x1_0000_0000)
  }

  lemma Read16(b: seq<byte>, at: nat, v: nat)
    requires at + 2 <= |b| && v < 0x1_0000 && b[at..at + 2] == LE16(v)
    ensures U16(b, at) == v
  {
    assert b[at] == b[at..at + 2][0] && b[at + 1] == b[at..at + 2][1];
  }

  lemma Read32(b: seq<byte>, at: nat, v: nat)
    requires at + 4 <= |b| && v < 0x1_0000_0000 && b[at..at + 4] == LE32(v)
    ensures U32(b, at) == v
  {
    assert b[at..at + 2] == b[at..at + 4][..2];
    assert b[at + 2..at + 4] == b[at..at + 4][2..];
    Read16(b, at, v % 0x1_0000);
    Read16(b, at + 2, v / 0x1_0000);
  }

  lemma Read64(b: seq<byte>, at: nat, v: nat)
    requires at + 8 <= |b| && v < 0x1_0000_0000_0000_0000 && b[at..at + 8] == LE64(v)
    ensures U64(b, at) == v
  {
    assert b[at..at + 4] == b[at..at + 8][..4];
    assert b[at + 4..at + 8] == b[at..at + 8][4..];
    Read32(b, at, v % 0x1_0000_0000);
    Read32(b, at + 4, v / 0x1_0000_0000);
  }

  /** A read within a prefix sees what the whole shows there. */
  lemma PrefixReads(b: seq<byte>, p: nat, at: nat)
    requires p <= |b|
    ensures at + 2 <= p ==> U16(b[..p], at) == U16(b, at)
    ensures at + 4 <= p ==> U32(b[..p], at) == U32(b, at)
    ensures at + 8 <= p ==> U64(b[..p], at) == U64(b, at)
  {
  }

  /** The first bytes of a concatenation, laid out from `at` to the end of a buffer. */
  lemma CutOfSum(b: seq<byte>, at: nat, first: seq<byte>, rest: seq<byte>, room: nat, k: nat)
    requires room <= |first| + |rest| && at + room == |b| && b[at..] == (first + rest)[..room]
    requires k <= |first| && k <= room
    ensures b[at..at + k] == first[..k]
    ensures room >= |first| ==> b[at..at + |first|] == first && b[at + |first|..] == rest[..room - |first|]
  {
    assert forall j :: 0 <= j < room ==> b[at + j] == b[at..][j] == (first + rest)[j];
  }
}
