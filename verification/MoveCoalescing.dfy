/** The window's input sink: pointer moves are sent at most once a frame, newest position only. */
module MoveCoalescing {
  import opened Options
  import HeldKeys

  datatype Move = Move(x: int, y: int, modifiers: nat)
  datatype Wheel = Wheel(dx: int, dy: int, modifiers: nat)

  /** What happens to the sink: the three kinds of input, and the animation frame it asked for. */
  datatype Event = Moves(move: Move) | Presses(press: HeldKeys.Press) | Wheels(wheel: Wheel) | Frame

  /** What the host is sent. */
  datatype Message = MoveMessage(move: Move) | PressMessage(press: HeldKeys.Press) | WheelMessage(wheel: Wheel)

  datatype State = State(pending: Option<Move>, scheduled: bool, sent: seq<Message>)

  const IDLE: State := State(None, false, [])

  function Flush(s: State): State {
    State(None, false, if s.pending.Some? then s.sent + [MoveMessage(s.pending.value)] else s.sent)
  }

  function Step(s: State, e: Event): State {
    match e
    case Moves(move) => s.(pending := Some(move), scheduled := true)
    case Presses(press) => var f := Flush(s); f.(sent := f.sent + [PressMessage(press)])
    case Wheels(wheel) => s.(sent := s.sent + [WheelMessage(wheel)])
    case Frame => if s.scheduled then Flush(s) else s
  }

  function After(s: State, events: seq<Event>): State {
    if events == [] then s
    else Step(After(s, events[..|events| - 1]), events[|events| - 1])
  }

  class Sink {
    var pendingMove: Option<Move>
    var moveFrame: bool
    var sent: seq<Message>

    ghost function View(): State
      reads this
    {
      State(pendingMove, moveFrame, sent)
    }

    constructor ()
      ensures View() == IDLE
    {
      pendingMove, moveFrame, sent := None, false, [];
    }

    method FlushMove()
      modifies this
      ensures View() == Flush(old(View()))
    {
      moveFrame := false;
      var move := pendingMove;
      pendingMove := None;
      if move.Some? {
        sent := sent + [MoveMessage(move.value)];
      }
    }

    method PointerMove(move: Move)
      modifies this
      ensures View() == Step(old(View()), Moves(move))
    {
      pendingMove := Some(move);
      if !moveFrame {
        moveFrame := true;
      }
    }

    method PressKey(press: HeldKeys.Press)
      modifies this
      ensures View() == Step(old(View()), Presses(press))
    {
      FlushMove();
      sent := sent + [PressMessage(press)];
    }

    method TurnWheel(wheel: Wheel)
      modifies this
      ensures View() == Step(old(View()), Wheels(wheel))
    {
      sent := sent + [WheelMessage(wheel)];
    }

    /** The frame callback; it comes only while one is scheduled. */
    method AnimationFrame()
      requires moveFrame
      modifies this
      ensures View() == Step(old(View()), Frame)
      ensures pendingMove.None? && !moveFrame
    {
      moveFrame := false;
      FlushMove();
    }
  }

  // ----- Against sending every move ----------------------------------------

  /** The sink that coalesces nothing. */
  function Direct(events: seq<Event>): seq<Message> {
    if events == [] then []
    else
      Direct(events[..|events| - 1]) +
      match events[|events| - 1]
      case Moves(move) => [MoveMessage(move)]
      case Presses(press) => [PressMessage(press)]
      case Wheels(wheel) => [WheelMessage(wheel)]
      case Frame => []
  }

  /** Where the pointer is at the host after some messages. */
  function Position(messages: seq<Message>): Option<Move> {
    if messages == [] then None
    else if messages[|messages| - 1].MoveMessage? then Some(messages[|messages| - 1].move)
    else Position(messages[..|messages| - 1])
  }

  /** Every press the host sees, with the pointer position it lands on. */
  function Clicks(messages: seq<Message>): seq<(HeldKeys.Press, Option<Move>)> {
    if messages == [] then []
    else
      var before, last := messages[..|messages| - 1], messages[|messages| - 1];
      Clicks(before) + if last.PressMessage? then [(last.press, Position(before))] else []
  }

  function MovesIn(messages: seq<Message>): seq<Move> {
    if messages == [] then []
    else
      var before, last := messages[..|messages| - 1], messages[|messages| - 1];
      MovesIn(before) + if last.MoveMessage? then [last.move] else []
  }

  /** Everything but the moves, in order. */
  function Others(messages: seq<Message>): seq<Message> {
    if messages == [] then []
    else
      var before, last := messages[..|messages| - 1], messages[|messages| - 1];
      Others(before) + if last.MoveMessage? then [] else [last]
  }

  /** `s` can be had from `t` by leaving elements out. */
  predicate Subsequence(s: seq<Move>, t: seq<Move>) {
    s == [] || (t != [] && (if s[|s| - 1] == t[|t| - 1] && Subsequence(s[..|s| - 1], t[..|t| - 1]) then true
                            else Subsequence(s, t[..|t| - 1])))
  }

  function Waiting(s: State): seq<Move> {
    if s.pending.Some? then [s.pending.value] else []
  }

  lemma AppendMessage(messages: seq<Message>, m: Message)
    ensures Position(messages + [m]) == if m.MoveMessage? then Some(m.move) else Position(messages)
    ensures Clicks(messages + [m])
         == Clicks(messages) + if m.PressMessage? then [(m.press, Position(messages))] else []
    ensures MovesIn(messages + [m]) == MovesIn(messages) + if m.MoveMessage? then [m.move] else []
    ensures Others(messages + [m]) == Others(messages) + if m.MoveMessage? then [] else [m]
  {
    assert (messages + [m])[..|messages|] == messages;
  }

  lemma SubsequenceExtends(s: seq<Move>, t: seq<Move>, m: Move)
    requires Subsequence(s, t)
    ensures Subsequence(s, t + [m]) && Subsequence(s + [m], t + [m])
  {
    assert (t + [m])[..|t|] == t && (s + [m])[..|s|] == s;
  }

  lemma {:induction false} SubsequenceDropsLast(s: seq<Move>, t: seq<Move>)
    requires s != [] && Subsequence(s, t)
    ensures Subsequence(s[..|s| - 1], t)
    decreases |t|
  {
    var s', t' := s[..|s| - 1], t[..|t| - 1];
    if s[|s| - 1] == t[|t| - 1] && Subsequence(s', t') {
      if s' != [] {
        assert Subsequence(s', t');
        SubsequenceOfLonger(s', t);
      }
    } else {
      SubsequenceDropsLast(s, t');
      SubsequenceOfLonger(s', t);
    }
  }

  lemma SubsequenceOfLonger(s: seq<Move>, t: seq<Move>)
    requires t != [] && Subsequence(s, t[..|t| - 1])
    ensures Subsequence(s, t)
  {
  }

  /**
   What every run keeps against the sink that sends each move: the same clicks on the same
   positions, the same presses and wheel turns in order, the same last position once nothing waits,
   and of the moves only some left out.
   */
  ghost predicate Refines(s: State, direct: seq<Message>) {
    && (s.pending.Some? <==> s.scheduled)
    && Clicks(s.sent) == Clicks(direct) && Others(s.sent) == Others(direct)
    && (if s.pending.Some? then s.pending == Position(direct) else Position(s.sent) == Position(direct))
    && Subsequence(MovesIn(s.sent) + Waiting(s), MovesIn(direct))
  }

  lemma FlushRefines(s: State, direct: seq<Message>)
    requires Refines(s, direct)
    ensures Refines(Flush(s), direct) && Flush(s).pending.None?
  {
    if s.pending.Some? {
      AppendMessage(s.sent, MoveMessage(s.pending.value));
    }
    assert MovesIn(Flush(s).sent) + Waiting(Flush(s)) == MovesIn(s.sent) + Waiting(s);
  }

  lemma MoveRefines(s: State, direct: seq<Message>, move: Move)
    requires Refines(s, direct)
    ensures Refines(Step(s, Moves(move)), direct + [MoveMessage(move)])
  {
    AppendMessage(direct, MoveMessage(move));
    var was := MovesIn(s.sent) + Waiting(s);
    if s.pending.Some? {
      SubsequenceDropsLast(was, MovesIn(direct));
      assert was[..|was| - 1] == MovesIn(s.sent);
    } else {
      assert was == MovesIn(s.sent);
    }
    SubsequenceExtends(MovesIn(s.sent), MovesIn(direct), move);
  }

  lemma OtherRefines(s: State, direct: seq<Message>, m: Message)
    requires Refines(s, direct) && !m.MoveMessage? && (m.PressMessage? ==> s.pending.None?)
    ensures Refines(s.(sent := s.sent + [m]), direct + [m])
  {
    AppendMessage(s.sent, m);
    AppendMessage(direct, m);
    assert MovesIn(s.sent + [m]) == MovesIn(s.sent) && MovesIn(direct + [m]) == MovesIn(direct);
  }

  /** How often moves may go out: with each frame, and ahead of each press. */
  function Flushes(events: seq<Event>): nat {
    if events == [] then 0
    else
      var last := events[|events| - 1];
      Flushes(events[..|events| - 1]) + if last.Frame? || last.Presses? then 1 else 0
  }

  /** Moves are coalesced: however many are reported, at most one goes out a frame, and one a press. */
  lemma {:induction false} AtMostOneMoveAFlush(events: seq<Event>)
    ensures |MovesIn(After(IDLE, events).sent)| <= Flushes(events)
  {
    if events != [] {
      var before, e := events[..|events| - 1], events[|events| - 1];
      AtMostOneMoveAFlush(before);
      var s := After(IDLE, before);
      if s.pending.Some? {
        AppendMessage(s.sent, MoveMessage(s.pending.value));
      }
      if e.Presses? {
        AppendMessage(Flush(s).sent, PressMessage(e.press));
      } else if e.Wheels? {
        AppendMessage(s.sent, WheelMessage(e.wheel));
      }
    }
  }

  lemma NothingRefinesNothing()
    ensures Refines(IDLE, [])
  {
  }

  /** Coalescing refines sending every move, over every run of the window. */
  lemma {:induction false} CoalescingRefinesDirect(events: seq<Event>)
    ensures Refines(After(IDLE, events), Direct(events))
  {
    hide Refines, Flush;
    if events == [] {
      NothingRefinesNothing();
    } else {
      var before, e := events[..|events| - 1], events[|events| - 1];
      CoalescingRefinesDirect(before);
      var s, direct := After(IDLE, before), Direct(before);
      match e
      case Moves(move) => MoveRefines(s, direct, move);
      case Presses(press) =>
        FlushRefines(s, direct);
        assert Step(s, e) == Flush(s).(sent := Flush(s).sent + [PressMessage(press)]);
        OtherRefines(Flush(s), direct, PressMessage(press));
      case Wheels(wheel) => OtherRefines(s, direct, WheelMessage(wheel));
      case Frame =>
        assert direct + [] == direct;
        FlushRefines(s, direct);
    }
  }

  /**
   A wheel turn is sent without flushing, so it is not covered by that: it reaches the host at
   the reported position if and only if no move that differs from the host's position waits.
   */
  lemma WheelSeesReportedPosition(events: seq<Event>)
    ensures var s := After(IDLE, events);
            Position(s.sent) == Position(Direct(events))
            <==> s.pending.None? || s.pending == Position(s.sent)
  {
    CoalescingRefinesDirect(events);
  }

  /** A run on which it does not: a move, then a wheel turn in the same frame. */
  lemma WheelCanLag(move: Move, wheel: Wheel)
    ensures var events := [Moves(move), Wheels(wheel)];
            && Position(After(IDLE, events).sent) == None
            && Position(Direct(events)) == Some(move)
  {
    var events := [Moves(move), Wheels(wheel)];
    assert events[..1] == [Moves(move)] && [Moves(move)][..0] == [];
    assert After(IDLE, [Moves(move)]) == State(Some(move), true, []);
    assert After(IDLE, events).sent == [WheelMessage(wheel)];
    assert Direct([Moves(move)]) == [MoveMessage(move)];
    assert Direct(events) == [MoveMessage(move), WheelMessage(wheel)];
    assert Direct(events)[..1] == [MoveMessage(move)];
  }
}
