/** The keys the window has told the host to hold down, and how it lets go of them. */
module HeldKeys {
  import opened KeyTable
  import opened Options

  /**
   One keyboard event as the forwarder sees it: `logical` is the character it carries, zero
   for none, and `mine` is whether it is the window's own - a hotkey, or typed into a field.
   */
  datatype Key = Key(code: Code, logical: nat, modifiers: nat, pressed: bool, mine: bool)

  datatype Event = Keyboard(key: Key) | Button(logical: nat, modifiers: nat, pressed: bool) | Blur | Enable(on: bool)

  /** What the host is sent. */
  datatype Press = Press(logical: nat, scancode: nat, modifiers: nat, pressed: bool)

  datatype Held = Held(code: Code, logical: nat, scancode: nat)

  /** The window's map of held keys in insertion order, whether it listens, and what it sent. */
  datatype State = State(attached: bool, held: seq<Held>, sent: seq<Press>)

  const DETACHED: State := State(false, [], [])

  // ----- The held map ------------------------------------------------------

  function Find(held: seq<Held>, code: Code): (i: nat)
    ensures i <= |held|
    ensures forall j :: 0 <= j < i ==> held[j].code != code
    ensures i < |held| ==> held[i].code == code
  {
    if held == [] || held[0].code == code then 0 else 1 + Find(held[1..], code)
  }

  /** `Map.set`: a key already there keeps its place. */
  function Put(held: seq<Held>, h: Held): seq<Held> {
    var i := Find(held, h.code);
    if i < |held| then held[i := h] else held + [h]
  }

  /** `Map.delete`. */
  function Remove(held: seq<Held>, code: Code): seq<Held> {
    var i := Find(held, code);
    if i < |held| then held[..i] + held[i + 1..] else held
  }

  function Releases(held: seq<Held>): (r: seq<Press>)
    ensures |r| == |held|
    ensures forall i :: 0 <= i < |held| ==> r[i] == Press(held[i].logical, held[i].scancode, 0, false)
  {
    seq(|held|, i requires 0 <= i < |held| => Press(held[i].logical, held[i].scancode, 0, false))
  }

  // ----- Steps -------------------------------------------------------------

  function ReleaseHeld(s: State): State {
    s.(held := [], sent := s.sent + Releases(s.held))
  }

  function ForwardKey(s: State, key: Key): State {
    var scancode := EvdevOfCode(key.code);
    if key.mine || (key.logical == 0 && scancode == 0) then s
    else
      s.(held := if key.pressed then Put(s.held, Held(key.code, key.logical, scancode)) else Remove(s.held, key.code),
         sent := s.sent + [Press(key.logical, scancode, key.modifiers, key.pressed)])
  }

  function Step(s: State, e: Event): State {
    match e
    case Keyboard(key) => if s.attached then ForwardKey(s, key) else s
    case Button(logical, modifiers, pressed) =>
      if s.attached then s.(sent := s.sent + [Press(logical, 0, modifiers, pressed)]) else s
    case Blur => if s.attached then ReleaseHeld(s) else s
    case Enable(on) =>
      if on == s.attached then s else if on then s.(attached := true) else ReleaseHeld(s.(attached := false))
  }

  function After(s: State, events: seq<Event>): State {
    if events == [] then s else Step(After(s, events[..|events| - 1]), events[|events| - 1])
  }

  class ViewInput {
    var attached: bool
    var held: seq<Held>
    var sent: seq<Press>

    ghost function View(): State
      reads this
    {
      State(attached, held, sent)
    }

    constructor ()
      ensures View() == DETACHED
    {
      attached, held, sent := false, [], [];
    }

    method Forward(key: Key)
      requires attached
      modifies this
      ensures View() == Step(old(View()), Keyboard(key))
    {
      if key.mine {
        return;
      }
      var scancode := EvdevOfCode(key.code);
      if key.logical == 0 && scancode == 0 {
        return;
      }
      if key.pressed {
        held := Put(held, Held(key.code, key.logical, scancode));
      } else {
        held := Remove(held, key.code);
      }
      sent := sent + [Press(key.logical, scancode, key.modifiers, key.pressed)];
    }

    method Release()
      modifies this
      ensures View() == ReleaseHeld(old(View()))
    {
      for i := 0 to |held|
        invariant held == old(held) && attached == old(attached)
        invariant sent == old(sent) + Releases(held[..i])
      {
        sent := sent + [Press(held[i].logical, held[i].scancode, 0, false)];
        assert Releases(held[..i + 1]) == Releases(held[..i]) + [Press(held[i].logical, held[i].scancode, 0, false)];
      }
      assert held[..|held|] == held;
      held := [];
    }

    method SetEnabled(on: bool)
      modifies this
      ensures View() == Step(old(View()), Enable(on))
    {
      if on == attached {
        return;
      }
      attached := on;
      if !on {
        Release();
      }
    }
  }

  // ----- The host's side ---------------------------------------------------

  /** The physical keys the host holds down after some presses and releases. */
  function HostHolds(sent: seq<Press>): set<nat> {
    if sent == [] then {}
    else
      var before, last := HostHolds(sent[..|sent| - 1]), sent[|sent| - 1];
      if last.scancode == 0 then before
      else if last.pressed then before + {last.scancode} else before - {last.scancode}
  }

  /** The physical keys in the window's map. */
  function KnownKeys(held: seq<Held>): set<nat> {
    set i | 0 <= i < |held| && held[i].scancode != 0 :: held[i].scancode
  }

  ghost predicate Mapped(held: seq<Held>) {
    && (forall i :: 0 <= i < |held| ==> held[i].scancode == EvdevOfCode(held[i].code))
    && (forall i, j :: 0 <= i < j < |held| ==> held[i].code != held[j].code)
  }

  /** The window's map and the host agree on every physical key. */
  ghost predicate Agrees(s: State) {
    && Mapped(s.held)
    && HostHolds(s.sent) == KnownKeys(s.held)
    && (!s.attached ==> s.held == [])
  }

  lemma HostAfterOne(sent: seq<Press>, p: Press)
    ensures HostHolds(sent + [p])
         == if p.scancode == 0 then HostHolds(sent)
            else if p.pressed then HostHolds(sent) + {p.scancode} else HostHolds(sent) - {p.scancode}
  {
    assert (sent + [p])[..|sent|] == sent;
  }

  lemma {:induction false} HostAfterReleases(sent: seq<Press>, held: seq<Held>)
    ensures HostHolds(sent + Releases(held)) == HostHolds(sent) - KnownKeys(held)
  {
    if held == [] {
      assert sent + Releases(held) == sent;
      assert KnownKeys(held) == {};
    } else {
      var n := |held| - 1;
      HostAfterReleases(sent, held[..n]);
      var last := Press(held[n].logical, held[n].scancode, 0, false);
      assert sent + Releases(held) == (sent + Releases(held[..n])) + [last];
      HostAfterOne(sent + Releases(held[..n]), last);
      assert KnownKeys(held) == KnownKeys(held[..n]) + if held[n].scancode != 0 then {held[n].scancode} else {};
    }
  }

  lemma PutAgrees(held: seq<Held>, h: Held)
    requires Mapped(held) && h.scancode == EvdevOfCode(h.code)
    ensures Mapped(Put(held, h))
    ensures KnownKeys(Put(held, h)) == KnownKeys(held) + if h.scancode != 0 then {h.scancode} else {}
  {
    hide EvdevOfCode;
    var i, held' := Find(held, h.code), Put(held, h);
    var at := if i < |held| then i else |held|;
    assert held'[at] == h;
    assert forall k :: 0 <= k < |held| && k != at ==> held'[k] == held[k];
    forall s | s in KnownKeys(held)
      ensures s in KnownKeys(held')
    {
      var k :| 0 <= k < |held| && held[k].scancode == s;
      assert held'[k].scancode == s;
    }
  }

  lemma RemoveAgrees(held: seq<Held>, code: Code)
    requires Mapped(held)
    ensures Mapped(Remove(held, code))
    ensures KnownKeys(Remove(held, code))
         == KnownKeys(held) - if EvdevOfCode(code) != 0 then {EvdevOfCode(code)} else {}
  {
    hide EvdevOfCode;
    var i, held', gone := Find(held, code), Remove(held, code), EvdevOfCode(code);
    forall s
      ensures s in KnownKeys(held') <==> s in KnownKeys(held) && (s != gone || gone == 0)
    {
      if s in KnownKeys(held') {
        var k :| 0 <= k < |held'| && held'[k].scancode == s && s != 0;
        var k' := if k < i then k else if i < |held| then k + 1 else k;
        assert held[k'] == held'[k];
        if s == gone { NoTwoCodesShareAKey(held[k'].code, code); }
      }
      if s in KnownKeys(held) && (s != gone || gone == 0) {
        var k :| 0 <= k < |held| && held[k].scancode == s && s != 0;
        assert k != i;
        assert held'[if k < i then k else k - 1] == held[k];
      }
    }
  }

  lemma ForwardKeyAgrees(s: State, key: Key)
    requires Agrees(s) && s.attached
    ensures Agrees(ForwardKey(s, key))
  {
    hide EvdevOfCode, HostHolds, KnownKeys, Mapped;
    var scancode := EvdevOfCode(key.code);
    HostAfterOne(s.sent, Press(key.logical, scancode, key.modifiers, key.pressed));
    PutAgrees(s.held, Held(key.code, key.logical, scancode));
    RemoveAgrees(s.held, key.code);
  }

  lemma ReleaseAgrees(s: State)
    requires Mapped(s.held) && HostHolds(s.sent) == KnownKeys(s.held)
    ensures Agrees(ReleaseHeld(s)) && HostHolds(ReleaseHeld(s).sent) == {}
  {
    HostAfterReleases(s.sent, s.held);
    assert KnownKeys([]) == {};
  }

  /**
   In every run of key events, forwarded or skipped, repeated or unmatched, of buttons, blurs
   and switches, the host holds down exactly the physical keys in the window's map.
   */
  lemma {:induction false} HostHoldsWhatWindowHolds(events: seq<Event>)
    ensures Agrees(After(DETACHED, events))
  {
    if events == [] {
      assert KnownKeys([]) == {};
    } else {
      var n := |events| - 1;
      HostHoldsWhatWindowHolds(events[..n]);
      var s := After(DETACHED, events[..n]);
      match events[n]
      case Keyboard(key) => if s.attached { ForwardKeyAgrees(s, key); }
      case Button(logical, modifiers, pressed) => HostAfterOne(s.sent, Press(logical, 0, modifiers, pressed));
      case Blur => ReleaseAgrees(s);
      case Enable(on) => ReleaseAgrees(s.(attached := false));
    }
  }

  // ----- What the events call for ------------------------------------------

  /** Whether the window listens after some events: it was switched on last. */
  function On(events: seq<Event>): bool {
    if events == [] then false
    else
      var last := events[|events| - 1];
      if last.Enable? then last.on else On(events[..|events| - 1])
  }

  /** A key that is neither the window's own nor without character and position. */
  predicate Means(key: Key) { !key.mine && (key.logical != 0 || EvdevOfCode(key.code) != 0) }

  /** The physical keys down at the window's keyboard, as far as it listens and since it last let go. */
  function Down(events: seq<Event>): set<nat> {
    if events == [] then {}
    else
      var before, last := events[..|events| - 1], events[|events| - 1];
      match last
      case Keyboard(key) =>
        var scancode := EvdevOfCode(key.code);
        if !On(before) || !Means(key) || scancode == 0 then Down(before)
        else if key.pressed then Down(before) + {scancode} else Down(before) - {scancode}
      case Button(_, _, _) => Down(before)
      case Blur => {}
      case Enable(on) => if on then Down(before) else {}
  }

  /** The character a key had when it was last pressed. */
  function PressedAs(events: seq<Event>, code: Code): Option<nat> {
    if events == [] then None
    else
      var before, last := events[..|events| - 1], events[|events| - 1];
      if last.Keyboard? && last.key.code == code && last.key.pressed && On(before) && Means(last.key)
      then Some(last.key.logical) else PressedAs(before, code)
  }

  ghost predicate Tracks(s: State, events: seq<Event>) {
    && s.attached == On(events) && KnownKeys(s.held) == Down(events)
    && forall i :: 0 <= i < |s.held| ==> PressedAs(events, s.held[i].code) == Some(s.held[i].logical)
  }

  lemma PutTracks(held: seq<Held>, h: Held)
    ensures forall i :: 0 <= i < |Put(held, h)| ==> Put(held, h)[i] == h || Put(held, h)[i] in held
    ensures forall i :: 0 <= i < |Put(held, h)| && Put(held, h)[i].code == h.code && Mapped(held) ==>
              Put(held, h)[i] == h
  {
    hide EvdevOfCode;
  }

  lemma KeyTracks(s: State, events: seq<Event>, key: Key)
    requires Agrees(s) && Tracks(s, events) && s.attached
    ensures Tracks(ForwardKey(s, key), events + [Keyboard(key)])
  {
    hide EvdevOfCode, HostHolds;
    assert (events + [Keyboard(key)])[..|events|] == events;
    var scancode := EvdevOfCode(key.code);
    PutAgrees(s.held, Held(key.code, key.logical, scancode));
    RemoveAgrees(s.held, key.code);
    PutTracks(s.held, Held(key.code, key.logical, scancode));
  }

  lemma {:induction false} EventsAreTracked(events: seq<Event>)
    ensures Tracks(After(DETACHED, events), events)
  {
    hide EvdevOfCode;
    if events == [] {
      assert KnownKeys([]) == {};
    } else {
      var n := |events| - 1;
      var before := events[..n];
      EventsAreTracked(before);
      HostHoldsWhatWindowHolds(before);
      var s := After(DETACHED, before);
      assert events == before + [events[n]];
      assert KnownKeys([]) == {};
      if events[n].Keyboard? && s.attached {
        KeyTracks(s, before, events[n].key);
      }
      hide HostHolds, ForwardKey;
    }
  }

  /**
   In every run the host holds down exactly the physical keys that are down at this window's keyboard,
   as far as it listens and since it last let go; and the window would let go of each as the character
   it was pressed as.
   */
  lemma HostHoldsWhatIsDown(events: seq<Event>)
    ensures var s := After(DETACHED, events);
            && HostHolds(s.sent) == Down(events)
            && forall i :: 0 <= i < |s.held| ==> PressedAs(events, s.held[i].code) == Some(s.held[i].logical)
  {
    EventsAreTracked(events);
    HostHoldsWhatWindowHolds(events);
    hide EvdevOfCode, HostHolds, KnownKeys, After, Down;
  }

  /** A key or button the window forwards reaches the host as it was: character, position, modifiers. */
  lemma EachKeyIsTold(events: seq<Event>, e: Event)
    requires On(events) && ((e.Keyboard? && Means(e.key)) || e.Button?)
    ensures var press := if e.Button? then Press(e.logical, 0, e.modifiers, e.pressed)
                         else Press(e.key.logical, EvdevOfCode(e.key.code), e.key.modifiers, e.key.pressed);
            After(DETACHED, events + [e]).sent == After(DETACHED, events).sent + [press]
  {
    EventsAreTracked(events);
    assert (events + [e])[..|events|] == events;
    hide EvdevOfCode;
  }

  /** After a blur or a withdrawn grant, whatever happened before, the host holds no physical key. */
  lemma NothingStaysDown(events: seq<Event>, e: Event)
    requires e == Blur || e == Enable(false)
    ensures HostHolds(Step(After(DETACHED, events), e).sent) == {}
  {
    HostHoldsWhatWindowHolds(events);
    var s := After(DETACHED, events);
    assert KnownKeys([]) == {};
    ReleaseAgrees(s);
    ReleaseAgrees(s.(attached := false));
  }
}
