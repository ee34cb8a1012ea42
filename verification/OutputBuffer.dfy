/**
 The libaom wrapper's output buffer: a byte buffer that grows to hold one temporal unit and is
 reused for the next. Allocation may fail; sizes are unbounded integers.
 */
module OutputBuffer {
  import opened Bytes

  /** A packet out of the encoder; only frame packets carry bitstream. */
  datatype Packet = FramePacket(data: seq<byte>, isKey: bool) | OtherPacket

  datatype Encoded = Unit(length: nat, isKey: bool) | EncodeFailed | OutOfMemory(packet: nat)

  /** One picture to encode: whether libaom takes it, its packets, and which allocations would succeed. */
  datatype Picture = Picture(encodes: bool, packets: seq<Packet>, allocations: seq<bool>)

  predicate Allocates(p: Picture, k: nat) { k < |p.allocations| && p.allocations[k] }

  /** The temporal unit a list of packets makes. */
  function Bitstream(packets: seq<Packet>): seq<byte> {
    if packets == [] then []
    else
      var last := packets[|packets| - 1];
      Bitstream(packets[..|packets| - 1]) + if last.FramePacket? then last.data else []
  }

  /** The room asked for on the way: the length of the unit so far, at each frame packet. */
  function Needs(packets: seq<Packet>): seq<nat> {
    if packets == [] then []
    else
      Needs(packets[..|packets| - 1])
      + if packets[|packets| - 1].FramePacket? then [|Bitstream(packets)|] else []
  }

  ghost predicate HasKey(packets: seq<Packet>) {
    exists i :: 0 <= i < |packets| && packets[i].FramePacket? && packets[i].isKey
  }

  // ----- Capacity over an encoder's life -----------------------------------

  /** The capacity after making room for `need` bytes. */
  function Grown(cap: nat, need: nat): nat {
    if need > cap then need * 2 else cap
  }

  function CapAfter(needs: seq<nat>): nat {
    if needs == [] then 0 else Grown(CapAfter(needs[..|needs| - 1]), needs[|needs| - 1])
  }

  function Reallocations(needs: seq<nat>): nat {
    if needs == [] then 0
    else
      var before := needs[..|needs| - 1];
      Reallocations(before) + if needs[|needs| - 1] > CapAfter(before) then 1 else 0
  }

  /** Bytes the reallocations had to move, at most: each moves the whole old buffer. */
  function Moved(needs: seq<nat>): nat {
    if needs == [] then 0
    else
      var before := needs[..|needs| - 1];
      Moved(before) + if needs[|needs| - 1] > CapAfter(before) then CapAfter(before) else 0
  }

  function Largest(needs: seq<nat>): nat {
    if needs == [] then 0
    else
      var m := Largest(needs[..|needs| - 1]);
      if needs[|needs| - 1] > m then needs[|needs| - 1] else m
  }

  function Pow2(n: nat): nat {
    if n == 0 then 1 else 2 * Pow2(n - 1)
  }

  lemma {:induction false} RoomBounds(needs: seq<nat>)
    ensures Largest(needs) <= CapAfter(needs) <= 2 * Largest(needs)
    ensures Reallocations(needs) > 0 ==> Pow2(Reallocations(needs)) <= CapAfter(needs)
    ensures Reallocations(needs) == 0 ==> CapAfter(needs) == 0
    ensures Moved(needs) <= CapAfter(needs)
  {
    if needs != [] {
      RoomBounds(needs[..|needs| - 1]);
    }
  }

  // ----- Units over an encoder's life --------------------------------------

  /** Packet `k` needs room there is not, and none can be had, after `needs` and the packets before it. */
  predicate Fails(needs: seq<nat>, p: Picture, k: nat)
    requires k < |p.packets|
  {
    && p.packets[k].FramePacket? && !Allocates(p, k)
    && |Bitstream(p.packets[..k + 1])| > CapAfter(needs + Needs(p.packets[..k]))
  }

  /** How many of the first `n` packets are taken before an allocation fails. */
  function Taken(needs: seq<nat>, p: Picture, n: nat): (t: nat)
    requires n <= |p.packets|
    ensures t <= n
    ensures t < n ==> Fails(needs, p, t)
  {
    if n == 0 then 0
    else
      var t := Taken(needs, p, n - 1);
      if t < n - 1 || Fails(needs, p, n - 1) then t else n
  }

  /** The packets a picture's unit was assembled from: all, those up to a failed allocation, or none. */
  function Assembled(needs: seq<nat>, p: Picture): seq<Packet> {
    if p.encodes then p.packets[..Taken(needs, p, |p.packets|)] else []
  }

  function LifeNeeds(life: seq<Picture>): seq<nat> {
    if life == [] then []
    else
      var before := LifeNeeds(life[..|life| - 1]);
      before + Needs(Assembled(before, life[|life| - 1]))
  }

  /** The longest unit assembled, one that an allocation cut off included. */
  function LargestUnit(life: seq<Picture>): nat {
    if life == [] then 0
    else
      var before := life[..|life| - 1];
      Larger(LargestUnit(before), |Bitstream(Assembled(LifeNeeds(before), life[|life| - 1]))|)
  }

  function Larger(a: nat, b: nat): nat { if b > a then b else a }

  /**
   Over an encoder's whole life, failed pictures and failed allocations included: the capacity
   holds every unit assembled and is at most twice the largest, the reallocations are at most its
   logarithm, and the bytes they moved at most its size.
   */
  lemma LifeBounds(life: seq<Picture>)
    ensures var needs := LifeNeeds(life);
            && LargestUnit(life) <= CapAfter(needs) <= 2 * LargestUnit(life)
            && (Reallocations(needs) > 0 ==> Pow2(Reallocations(needs)) <= CapAfter(needs))
            && (Reallocations(needs) == 0 ==> CapAfter(needs) == 0)
            && Moved(needs) <= CapAfter(needs)
  {
    LargestOfLife(life);
    RoomBounds(LifeNeeds(life));
  }

  lemma {:induction false} LargestOfLife(life: seq<Picture>)
    ensures Largest(LifeNeeds(life)) == LargestUnit(life)
  {
    hide Assembled;
    if life != [] {
      var before := life[..|life| - 1];
      LargestOfLife(before);
      var unit := Assembled(LifeNeeds(before), life[|life| - 1]);
      LargestOfSum(LifeNeeds(before), Needs(unit));
      LargestOfNeeds(unit);
    }
  }

  lemma {:induction false} LargestOfSum(a: seq<nat>, b: seq<nat>)
    ensures Largest(a + b) == Larger(Largest(a), Largest(b))
  {
    if b == [] {
      assert a + b == a;
    } else {
      LargestOfSum(a, b[..|b| - 1]);
      assert (a + b)[..|a + b| - 1] == a + b[..|b| - 1];
    }
  }

  lemma {:induction false} LargestOfNeeds(packets: seq<Packet>)
    ensures Largest(Needs(packets)) == |Bitstream(packets)|
  {
    if packets != [] {
      var before := packets[..|packets| - 1];
      LargestOfNeeds(before);
      if packets[|packets| - 1].FramePacket? {
        var need := |Bitstream(packets)|;
        assert [need][..0] == [] && Largest([need]) == need;
        LargestOfSum(Needs(before), [need]);
      } else {
        assert Needs(packets) == Needs(before) + [] == Needs(before);
      }
    }
  }

  lemma {:induction false} TakenStays(needs: seq<nat>, p: Picture, k: nat, n: nat)
    requires k < n <= |p.packets| && Taken(needs, p, k) == k && Fails(needs, p, k)
    ensures Taken(needs, p, n) == k
    decreases n
  {
    hide Fails;
    if n > k + 1 {
      TakenStays(needs, p, k, n - 1);
    }
  }

  lemma OneMoreInUnit(packets: seq<Packet>, k: nat)
    requires k < |packets|
    ensures Bitstream(packets[..k + 1])
         == Bitstream(packets[..k]) + if packets[k].FramePacket? then packets[k].data else []
    ensures Needs(packets[..k + 1])
         == Needs(packets[..k]) + if packets[k].FramePacket? then [|Bitstream(packets[..k + 1])|] else []
  {
    assert packets[..k + 1][..k] == packets[..k];
  }

  lemma OneMoreKey(packets: seq<Packet>, k: nat)
    requires k < |packets|
    ensures HasKey(packets[..k + 1]) <==> HasKey(packets[..k]) || (packets[k].FramePacket? && packets[k].isKey)
  {
    assert forall i :: 0 <= i < k ==> packets[..k + 1][i] == packets[..k][i];
  }

  /** One packet more, of a unit that was whole so far. */
  lemma OnePacketMore(needs: seq<nat>, p: Picture, k: nat)
    requires k < |p.packets| && Taken(needs, p, k) == k
    ensures !Fails(needs, p, k) ==> Taken(needs, p, k + 1) == k + 1
    ensures Fails(needs, p, k) ==> Taken(needs, p, |p.packets|) == k
  {
    hide Fails;
    if Fails(needs, p, k) {
      TakenStays(needs, p, k, |p.packets|);
    }
  }

  // ----- The buffer --------------------------------------------------------

  /** `memcpy` into the buffer. */
  method Write(buffer: array<byte>, at: nat, data: seq<byte>)
    requires at + |data| <= buffer.Length
    modifies buffer
    ensures buffer[..at + |data|] == old(buffer[..at]) + data
  {
    forall i | 0 <= i < |data| {
      buffer[at + i] := data[i];
    }
  }

  /** `realloc` to a larger size: the old bytes come along. */
  method Enlarged(buffer: array<byte>, cap: nat) returns (grown: array<byte>)
    requires buffer.Length <= cap
    ensures fresh(grown) && grown.Length == cap && grown[..buffer.Length] == buffer[..]
  {
    grown := new byte[cap];
    forall i | 0 <= i < buffer.Length {
      grown[i] := buffer[i];
    }
  }

  class Shim {
    var out: array<byte>
    var outCap: nat
    /** Every picture given to the encoder, each amount of room made, and what making it cost. */
    ghost var life: seq<Picture>
    ghost var needs: seq<nat>
    ghost var reallocations: nat
    ghost var moved: nat

    /** The buffer as the room made so far leaves it. */
    ghost predicate Sized()
      reads this
    {
      outCap == out.Length == CapAfter(needs) && reallocations == Reallocations(needs) && moved == Moved(needs)
    }

    ghost predicate Valid()
      reads this
    {
      Sized() && needs == LifeNeeds(life)
    }

    constructor ()
      ensures Valid() && life == [] && fresh(out)
    {
      out := new byte[0];
      outCap, life, needs, reallocations, moved := 0, [], [], 0, 0;
    }

    /** Makes room for `need` bytes, keeping the first `used`: the buffer there is, or one twice as large as needed. */
    method Reserve(need: nat, used: nat, allocates: bool) returns (ok: bool)
      requires Sized() && used <= out.Length && used <= need
      modifies this`out, this`outCap, this`needs, this`reallocations, this`moved
      ensures Sized() && (out == old(out) || fresh(out))
      ensures ok <==> need <= old(outCap) || allocates
      ensures ok ==> need <= outCap && out[..used] == old(out[..used]) && needs == old(needs) + [need]
      ensures !ok ==> out == old(out) && outCap == old(outCap) && needs == old(needs)
    {
      RoomMade(needs, need);
      hide CapAfter, Reallocations, Moved;
      if need > outCap {
        var cap := need * 2;
        if !allocates {
          return false;
        }
        reallocations, moved := reallocations + 1, moved + outCap;
        var grown := Enlarged(out, cap);
        assert grown[..used] == grown[..out.Length][..used] == out[..used];
        out := grown;
        outCap := cap;
      }
      needs := needs + [need];
      ok := true;
    }

    /** Appends `data` after the first `used` bytes, growing the buffer if it must and can. */
    method Append(data: seq<byte>, used: nat, allocates: bool) returns (ok: bool)
      requires Sized() && used <= out.Length
      modifies this`out, this`outCap, this`needs, this`reallocations, this`moved, out
      ensures Sized() && (out == old(out) || fresh(out))
      ensures ok <==> used + |data| <= old(outCap) || allocates
      ensures ok ==> used + |data| <= outCap && out[..used + |data|] == old(out[..used]) + data
      ensures needs == if ok then old(needs) + [used + |data|] else old(needs)
      ensures !ok ==> out == old(out) && out[..] == old(out[..]) && outCap == old(outCap)
    {
      hide CapAfter, Reallocations, Moved;
      ok := Reserve(used + |data|, used, allocates);
      if ok {
        Write(out, used, data);
      }
    }

    /**
     Encodes one picture: the buffer then starts with exactly the frame packets, in order. Only a
     packet that needs room which cannot be had ends it early.
     */
    method Encode(p: Picture) returns (r: Encoded)
      requires Valid()
      modifies this, out
      ensures Valid() && life == old(life) + [p] && (out == old(out) || fresh(out))
      ensures needs == old(needs) + Needs(Assembled(old(needs), p))
      ensures LargestUnit(life) <= outCap <= 2 * LargestUnit(life)
      ensures LargestUnit(life) == Larger(LargestUnit(old(life)), |Bitstream(Assembled(old(needs), p))|)
      ensures r.Unit? ==> Assembled(old(needs), p) == p.packets
      ensures r.EncodeFailed? <==> !p.encodes
      ensures r.OutOfMemory? <==> p.encodes && Taken(old(needs), p, |p.packets|) < |p.packets|
      ensures r.OutOfMemory? ==> r.packet == Taken(old(needs), p, |p.packets|)
      ensures r.Unit? ==> r.length == |Bitstream(p.packets)| <= outCap && out[..r.length] == Bitstream(p.packets)
      ensures r.Unit? ==> (r.isKey <==> HasKey(p.packets))
    {
      hide CapAfter, Reallocations, Moved, LifeNeeds, LargestUnit, Assembled, Needs, Taken, Bitstream;
      r := EncodePackets(p);
      LifeGrows(life, p);
      life := life + [p];
      LifeBounds(life);
    }

    method EncodePackets(p: Picture) returns (r: Encoded)
      requires Sized()
      modifies this`out, this`outCap, this`needs, this`reallocations, this`moved, out
      ensures Sized() && (out == old(out) || fresh(out))
      ensures needs == old(needs) + Needs(Assembled(old(needs), p))
      ensures r.EncodeFailed? <==> !p.encodes
      ensures r.Unit? ==> Assembled(old(needs), p) == p.packets
      ensures r.OutOfMemory? <==> p.encodes && Taken(old(needs), p, |p.packets|) < |p.packets|
      ensures r.OutOfMemory? ==> r.packet == Taken(old(needs), p, |p.packets|)
      ensures r.Unit? ==> r.length == |Bitstream(p.packets)| <= outCap && out[..r.length] == Bitstream(p.packets)
      ensures r.Unit? ==> (r.isKey <==> HasKey(p.packets))
    {
      if !p.encodes {
        return EncodeFailed;
      }
      hide CapAfter, Reallocations, Moved, Bitstream, Needs, Taken, HasKey, Fails;
      ghost var before := needs;
      var used := 0;
      var key := false;
      NoPacketsYet(before, p);
      for k := 0 to |p.packets|
        invariant Sized() && (out == old(out) || fresh(out))
        invariant Holds(before, p, k, used)
        invariant key <==> HasKey(p.packets[..k])
      {
        OnePacketMore(before, p, k);
        OneMoreKey(p.packets, k);
        var ok;
        ok, used := TakePacket(p, k, used, before);
        if !ok {
          return OutOfMemory(k);
        }
        if p.packets[k].FramePacket? && p.packets[k].isKey {
          key := true;
        }
      }
      assert p.packets[..|p.packets|] == p.packets;
      r := Unit(used, key);
    }

    /** The first `k` packets are all in the buffer, in its first `used` bytes. */
    ghost predicate Holds(before: seq<nat>, p: Picture, k: nat, used: nat)
      requires k <= |p.packets|
      reads this, out
    {
      && Taken(before, p, k) == k && needs == before + Needs(p.packets[..k])
      && used == |Bitstream(p.packets[..k])| <= out.Length && out[..used] == Bitstream(p.packets[..k])
    }

    /** One packet of the loop: passed over, appended, or the one there is no room for. */
    method TakePacket(p: Picture, k: nat, used: nat, ghost before: seq<nat>) returns (ok: bool, grown: nat)
      requires Sized() && k < |p.packets| && Holds(before, p, k, used)
      modifies this`out, this`outCap, this`needs, this`reallocations, this`moved, out
      ensures Sized() && (out == old(out) || fresh(out))
      ensures ok <==> !Fails(before, p, k)
      ensures ok ==> Holds(before, p, k + 1, grown)
      ensures !ok ==> needs == old(needs)
    {
      hide CapAfter, Reallocations, Moved, Bitstream, Needs, Taken, HasKey;
      OnePacketMore(before, p, k);
      OneMoreInUnit(p.packets, k);
      if !p.packets[k].FramePacket? {
        return true, used;
      }
      ok := Append(p.packets[k].data, used, Allocates(p, k));
      grown := used + |p.packets[k].data|;
    }
  }

  lemma NoPacketsYet(needs: seq<nat>, p: Picture)
    ensures Taken(needs, p, 0) == 0 && Needs(p.packets[..0]) == [] && Bitstream(p.packets[..0]) == []
    ensures !HasKey(p.packets[..0])
  {
  }

  lemma RoomMade(needs: seq<nat>, need: nat)
    ensures CapAfter(needs + [need]) == Grown(CapAfter(needs), need)
    ensures Reallocations(needs + [need]) == Reallocations(needs) + if need > CapAfter(needs) then 1 else 0
    ensures Moved(needs + [need]) == Moved(needs) + if need > CapAfter(needs) then CapAfter(needs) else 0
  {
    assert (needs + [need])[..|needs|] == needs;
  }

  lemma LifeGrows(life: seq<Picture>, p: Picture)
    ensures LifeNeeds(life + [p]) == LifeNeeds(life) + Needs(Assembled(LifeNeeds(life), p))
    ensures LargestUnit(life + [p]) == Larger(LargestUnit(life), |Bitstream(Assembled(LifeNeeds(life), p))|)
  {
    hide Assembled, Needs, Bitstream;
    assert (life + [p])[..|life|] == life;
  }
}
