/** The body of a `terminal_poll` answer, and the lenient reader of it. */
module TerminalPoll {
  import opened Bytes

  datatype Refusal = NotGranted | TooMany | CannotDropPrivileges | Unavailable

  datatype Event =
    | Output(shell: nat, data: seq<byte>)
    | Opened(shell: nat)
    | Closed(shell: nat)
    | Refused(reason: Refusal)

  const COUNT_BYTES: nat := 2
  const RECORD_HEADER_BYTES: nat := 9

  /** What one record says; nothing, for an event byte this build has never heard of. */
  function Meaning(shell: nat, event: byte, payload: seq<byte>): seq<Event> {
    if event == 0 then [Output(shell, payload)]
    else if event == 1 then [Opened(shell)]
    else if event == 2 then [Closed(shell)]
    else if event == 3 then [Refused(NotGranted)]
    else if event == 4 then [Refused(TooMany)]
    else if event == 5 then [Refused(CannotDropPrivileges)]
    else if event == 6 then [Refused(Unavailable)]
    else []
  }

  /** The events of at most `n` records from `at` on, up to the first that is not whole. */
  function Records(b: seq<byte>, at: nat, n: nat): seq<Event>
    decreases n
  {
    if n == 0 || at + RECORD_HEADER_BYTES > |b| then []
    else
      var start, length := at + RECORD_HEADER_BYTES, U32(b, at + 5);
      if start + length > |b| then []
      else Meaning(U32(b, at), b[at + 4], b[start..start + length]) + Records(b, start + length, n - 1)
  }

  function Decoded(b: seq<byte>): seq<Event> {
    if |b| < COUNT_BYTES then [] else Records(b, COUNT_BYTES, U16(b, 0))
  }

  method DecodeTerminalPoll(b: seq<byte>) returns (events: seq<Event>)
    ensures events == Decoded(b)
  {
    hide U16, U32, Meaning;
    events := [];
    if |b| < COUNT_BYTES {
      return;
    }
    var count := U16(b, 0);
    var at: nat := COUNT_BYTES;
    var i: nat := 0;
    while i < count
      invariant i <= count
      invariant events + Records(b, at, count - i) == Records(b, COUNT_BYTES, count)
    {
      if at + RECORD_HEADER_BYTES > |b| {
        break;
      }
      var shell, event, length := U32(b, at), b[at + 4], U32(b, at + 5);
      var start := at + RECORD_HEADER_BYTES;
      if start + length > |b| {
        break;
      }
      events := events + Meaning(shell, event, b[start..start + length]);
      at := start + length;
      i := i + 1;
    }
  }

  // ----- The documented layout ---------------------------------------------

  /** A record as the host writes it; the event byte may be one from a later build. */
  datatype Raw = Raw(shell: nat, event: byte, payload: seq<byte>)

  predicate Fits(r: Raw) {
    r.shell < 0x1_0000_0000 && |r.payload| < 0x1_0000_0000
  }

  function EncodeRecord(r: Raw): (b: seq<byte>)
    requires Fits(r)
    ensures |b| == RECORD_HEADER_BYTES + |r.payload|
  {
    LE32(r.shell) + [r.event] + LE32(|r.payload|) + r.payload
  }

  function EncodeRecords(rs: seq<Raw>): seq<byte>
    requires forall i :: 0 <= i < |rs| ==> Fits(rs[i])
  {
    if rs == [] then [] else EncodeRecord(rs[0]) + EncodeRecords(rs[1..])
  }

  ghost predicate WellFormed(rs: seq<Raw>) {
    |rs| < 0x1_0000 && forall i :: 0 <= i < |rs| ==> Fits(rs[i])
  }

  function Encode(rs: seq<Raw>): seq<byte>
    requires WellFormed(rs)
  {
    LE16(|rs|) + EncodeRecords(rs)
  }

  function Events(rs: seq<Raw>): seq<Event> {
    if rs == [] then [] else Meaning(rs[0].shell, rs[0].event, rs[0].payload) + Events(rs[1..])
  }

  /** How many of the records lie whole in the first `room` bytes of their encoding. */
  function Whole(rs: seq<Raw>, room: int): (k: nat)
    ensures k <= |rs|
  {
    if rs == [] || room < RECORD_HEADER_BYTES + |rs[0].payload| then 0
    else 1 + Whole(rs[1..], room - RECORD_HEADER_BYTES - |rs[0].payload|)
  }

  lemma RecordReads(b: seq<byte>, at: nat, r: Raw)
    requires Fits(r) && at + RECORD_HEADER_BYTES <= |b|
    requires b[at..at + RECORD_HEADER_BYTES] == EncodeRecord(r)[..RECORD_HEADER_BYTES]
    ensures U32(b, at) == r.shell && b[at + 4] == r.event && U32(b, at + 5) == |r.payload|
  {
    var h := b[at..at + RECORD_HEADER_BYTES];
    assert b[at..at + 4] == h[..4] == LE32(r.shell);
    assert b[at + 4] == h[4];
    assert b[at + 5..at + 9] == h[5..9] == LE32(|r.payload|);
    Read32(b, at, r.shell);
    Read32(b, at + 5, |r.payload|);
  }

  /** An encoding of some records, cut after `room` bytes, at the end of a buffer. */
  ghost predicate CutAt(b: seq<byte>, at: nat, rs: seq<Raw>, room: nat) {
    && (forall i :: 0 <= i < |rs| ==> Fits(rs[i]))
    && room <= |EncodeRecords(rs)| && at + room == |b| && b[at..] == EncodeRecords(rs)[..room]
  }

  lemma WholeRecordReads(b: seq<byte>, at: nat, rs: seq<Raw>, room: nat)
    requires rs != [] && CutAt(b, at, rs, room) && RECORD_HEADER_BYTES + |rs[0].payload| <= room
    ensures var size := RECORD_HEADER_BYTES + |rs[0].payload|;
            && CutAt(b, at + size, rs[1..], room - size)
            && Records(b, at, |rs|) == Meaning(rs[0].shell, rs[0].event, rs[0].payload)
                                       + Records(b, at + size, |rs| - 1)
  {
    hide U32, Meaning, EncodeRecord;
    CutOfSum(b, at, EncodeRecord(rs[0]), EncodeRecords(rs[1..]), room, RECORD_HEADER_BYTES);
    RecordReads(b, at, rs[0]);
    PayloadReads(b, at, rs[0]);
  }

  lemma CutRecordStops(b: seq<byte>, at: nat, rs: seq<Raw>, room: nat)
    requires rs != [] && CutAt(b, at, rs, room) && room < RECORD_HEADER_BYTES + |rs[0].payload|
    ensures Records(b, at, |rs|) == []
  {
    hide U32, Meaning, EncodeRecord;
    if room >= RECORD_HEADER_BYTES {
      CutOfSum(b, at, EncodeRecord(rs[0]), EncodeRecords(rs[1..]), room, RECORD_HEADER_BYTES);
      RecordReads(b, at, rs[0]);
    }
  }

  /** Cut anywhere, an encoding still gives exactly the records that are whole. */
  lemma {:induction false} RecordsOfCut(b: seq<byte>, at: nat, rs: seq<Raw>, room: nat)
    requires CutAt(b, at, rs, room)
    ensures Records(b, at, |rs|) == Events(rs[..Whole(rs, room)])
    decreases |rs|
  {
    hide *;
    WholeCases(rs, room);
    var k := Whole(rs, room);
    if k == 0 {
      NothingWhole(b, at, rs, room);
      assert rs[..k] == [];
    } else {
      var size := RECORD_HEADER_BYTES + |rs[0].payload|;
      WholeRecordReads(b, at, rs, room);
      RecordsOfCut(b, at + size, rs[1..], room - size);
      EventsOfOneMore(rs, k - 1);
    }
  }

  lemma WholeCases(rs: seq<Raw>, room: nat)
    ensures Whole(rs, room) == 0 <==> rs == [] || room < RECORD_HEADER_BYTES + |rs[0].payload|
    ensures Whole(rs, room) > 0 ==>
              Whole(rs, room) == 1 + Whole(rs[1..], room - RECORD_HEADER_BYTES - |rs[0].payload|)
  {
  }

  lemma NothingWhole(b: seq<byte>, at: nat, rs: seq<Raw>, room: nat)
    requires CutAt(b, at, rs, room) && (rs == [] || room < RECORD_HEADER_BYTES + |rs[0].payload|)
    ensures Records(b, at, |rs|) == [] == Events([])
  {
    hide CutAt, Meaning, U32;
    if rs != [] {
      CutRecordStops(b, at, rs, room);
    }
  }

  lemma EventsOfOneMore(rs: seq<Raw>, k: nat)
    requires rs != [] && k < |rs|
    ensures Events(rs[..1 + k]) == Meaning(rs[0].shell, rs[0].event, rs[0].payload) + Events(rs[1..][..k])
  {
    hide Meaning;
    assert rs[..1 + k][1..] == rs[1..][..k];
  }

  lemma PayloadReads(b: seq<byte>, at: nat, r: Raw)
    requires Fits(r)
    requires at + RECORD_HEADER_BYTES + |r.payload| <= |b|
    requires b[at..at + RECORD_HEADER_BYTES + |r.payload|] == EncodeRecord(r)
    ensures b[at + RECORD_HEADER_BYTES..at + RECORD_HEADER_BYTES + |r.payload|] == r.payload
  {
    assert EncodeRecord(r)[RECORD_HEADER_BYTES..] == r.payload;
    assert b[at + RECORD_HEADER_BYTES..at + RECORD_HEADER_BYTES + |r.payload|]
        == b[at..at + RECORD_HEADER_BYTES + |r.payload|][RECORD_HEADER_BYTES..];
  }

  lemma {:induction false} WholeOfAll(rs: seq<Raw>)
    requires forall i :: 0 <= i < |rs| ==> Fits(rs[i])
    ensures Whole(rs, |EncodeRecords(rs)|) == |rs|
  {
    if rs != [] {
      WholeOfAll(rs[1..]);
    }
  }

  /** The reader inverts the layout, cut off after any number of bytes past the count. */
  lemma DecodeInvertsLayout(rs: seq<Raw>, p: nat)
    requires WellFormed(rs) && p <= |Encode(rs)|
    ensures Decoded(Encode(rs)[..p]) == Events(rs[..Whole(rs, p - COUNT_BYTES)])
    ensures Decoded(Encode(rs)) == Events(rs)
  {
    LayoutOfCut(rs, p);
    LayoutOfCut(rs, |Encode(rs)|);
    WholeOfAll(rs);
    assert rs[..|rs|] == rs && Encode(rs)[..|Encode(rs)|] == Encode(rs);
  }

  lemma LayoutOfCut(rs: seq<Raw>, p: nat)
    requires WellFormed(rs) && p <= |Encode(rs)|
    ensures Decoded(Encode(rs)[..p]) == Events(rs[..Whole(rs, p - COUNT_BYTES)])
  {
    var whole, b := Encode(rs), Encode(rs)[..p];
    if p >= COUNT_BYTES {
      assert b[0..2] == LE16(|rs|);
      Read16(b, 0, |rs|);
      assert b[COUNT_BYTES..] == EncodeRecords(rs)[..p - COUNT_BYTES];
      RecordsOfCut(b, COUNT_BYTES, rs, p - COUNT_BYTES);
    }
  }

  // ----- Events by their documented codes ----------------------------------

  function RefusalCode(reason: Refusal): byte {
    match reason
    case NotGranted => 3
    case TooMany => 4
    case CannotDropPrivileges => 5
    case Unavailable => 6
  }

  /** The record an event travels as; a refusal names no shell. */
  function RecordOf(e: Event): Raw {
    match e
    case Output(shell, data) => Raw(shell, 0, data)
    case Opened(shell) => Raw(shell, 1, [])
    case Closed(shell) => Raw(shell, 2, [])
    case Refused(reason) => Raw(0, RefusalCode(reason), [])
  }

  function RecordsOf(events: seq<Event>): (r: seq<Raw>)
    ensures |r| == |events| && forall i :: 0 <= i < |events| ==> r[i] == RecordOf(events[i])
  {
    if events == [] then [] else [RecordOf(events[0])] + RecordsOf(events[1..])
  }

  lemma {:induction false} EventsOfRecords(events: seq<Event>)
    ensures Events(RecordsOf(events)) == events
  {
    if events != [] {
      EventsOfRecords(events[1..]);
      var e := RecordOf(events[0]);
      assert Meaning(e.shell, e.event, e.payload) == [events[0]];
      assert RecordsOf(events)[1..] == RecordsOf(events[1..]);
    }
  }

  /** Events written by their documented codes are read back, every one. */
  lemma EventsAreReadBack(events: seq<Event>)
    requires WellFormed(RecordsOf(events))
    ensures Decoded(Encode(RecordsOf(events))) == events
  {
    hide WellFormed, Encode, Decoded, Events;
    DecodeInvertsLayout(RecordsOf(events), 0);
    EventsOfRecords(events);
  }

  /** Any body at all, truncated anywhere: a prefix of the whole body's events. */
  lemma TruncationGivesPrefix(b: seq<byte>, p: nat)
    requires p <= |b|
    ensures Decoded(b[..p]) <= Decoded(b)
  {
    if p >= COUNT_BYTES {
      PrefixReads(b, p, 0);
      TruncatedRecords(b, p, COUNT_BYTES, U16(b, 0));
    }
  }

  lemma {:induction false} TruncatedRecords(b: seq<byte>, p: nat, at: nat, n: nat)
    requires p <= |b|
    ensures Records(b[..p], at, n) <= Records(b, at, n)
    decreases n
  {
    hide U32, Meaning;
    var c := b[..p];
    if n > 0 && at + RECORD_HEADER_BYTES <= p {
      PrefixReads(b, p, at);
      PrefixReads(b, p, at + 5);
      var start, length := at + RECORD_HEADER_BYTES, U32(b, at + 5);
      if start + length <= p {
        TruncatedRecords(b, p, start + length, n - 1);
        assert c[start..start + length] == b[start..start + length];
      }
    }
  }
}
