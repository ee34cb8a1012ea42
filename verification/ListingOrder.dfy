/**
 Orders the listing protocol keeps with its asks taken apart: that of the roots, whatever calls
 come ahead of the start, and that of the calls, when a session that is gone sends asks back.
 */
module ListingOrder {
  import opened Options
  import opened RemoteListing
  import opened ListingAwaits

  // ----- Roots, with calls ahead of the start ------------------------------

  /** What may come ahead of the start: calls, their awaits and the host's answers; nothing is polled yet. */
  predicate IsEarly(m: Move) {
    match m
    case Outer(e) => e.Calls? || e.Answers?
    case Starts(_, _) => false
    case Counts(_) => true
    case Sends(_) => true
    case Notes(_, _) => true
    case Rejects(_, _) => false
  }

  /** However it goes on with nothing crossing and no await throwing, the roots are asked for in order. */
  ghost predicate AlwaysAscends(s: State) {
    forall moves :: AllAble(s, moves) && Careful(s, moves) && (forall i :: 0 <= i < |moves| ==> Goes(moves[i])) ==>
      RootsAscend(AfterMoves(s, moves).asked)
  }

  /** The request noted is answered already, and not by a refusal that goes on to the next root. */
  predicate AnsweredForGood(s: State)
    requires s.ask.Some?
  {
    s.listing.answered != s.ask.value.before && (s.listing.refused.None? || s.listing.refused == Some(NotGranted))
  }

  lemma ProbesKeepTime(a: State, b: State)
    requires ProbesGoOut(a) && SameButTime(b, a)
    ensures ProbesGoOut(b)
  {
  }

  lemma FollowsKeepsProbes(a: State, m: Move, b: State)
    requires ProbesGoOut(a) && Follows(a, m, b)
    ensures ProbesGoOut(b)
  {
    if b != a.(connected := true, polled := None) {
      hide ProbesGoOut, SameButTime, Step;
      if SameButTime(b, a) {
        ProbesKeepTime(a, b);
      } else {
        StepKeepsProbes(a, m.event);
        ProbesKeepTime(Step(a, m.event), b);
      }
    }
  }

  ghost predicate ProbesInv(s: State) { Single(s) && ProbesGoOut(Settled(s, 0)) }

  lemma MoveKeepsProbes(s: State, m: Move)
    requires ProbesInv(s) && Able(s, m) && Goes(m) && !Crosses(s, m)
    ensures ProbesInv(Next(s, m))
  {
    hide Single, ProbesGoOut, Overlaps, Strands, Follows;
    MoveKeepsSingle(s, m);
    MoveFollows(s, m);
    FollowsKeepsProbes(Settled(s, 0), m, Settled(Next(s, m), 0));
  }

  lemma {:induction false} UncrossedRunsKeepProbes(s: State, moves: seq<Move>)
    requires ProbesInv(s) && AllAble(s, moves) && Careful(s, moves)
    requires forall i :: 0 <= i < |moves| ==> Goes(moves[i])
    ensures ProbesInv(AfterMoves(s, moves))
    decreases |moves|
  {
    hide ProbesInv, Able, Crosses, Next;
    if moves != [] {
      MoveKeepsProbes(s, moves[0]);
      UncrossedRunsKeepProbes(Next(s, moves[0]), moves[1..]);
    }
  }

  lemma ProbesAlwaysAscend(s: State)
    requires ProbesInv(s)
    ensures AlwaysAscends(s)
  {
    forall moves | AllAble(s, moves) && Careful(s, moves) && (forall i :: 0 <= i < |moves| ==> Goes(moves[i]))
      ensures RootsAscend(AfterMoves(s, moves).asked)
    {
      UncrossedRunsKeepProbes(s, moves);
      AscendsUnsettled(AfterMoves(s, moves));
    }
  }

  // An early call answered ahead of the start ends the probing: the one probe made waits behind it.

  /** At most the first root is asked for, or waits, and no other. */
  ghost predicate FirstRootOnly(s: State) {
    || (Roots(s.asked) == [] && (s.next.Some? && s.next.value.who.Root? ==> s.next.value.who.index == 0))
    || (Roots(s.asked) == [0] && (s.next.Some? ==> !s.next.value.who.Root?))
  }

  /** Probing is over, or the answer that ends it is in. */
  ghost predicate Spent(s: State) {
    && s.oneStep && FirstRootOnly(s)
    && (s.probing ==>
          && s.ask.Some? && s.outstanding == [] && Roots(s.asked) == [] && AnsweredForGood(s)
          && (s.polled.Some? ==> s.polled.value.answered == s.ask.value.before || s.polled.value == s.listing))
  }

  lemma OpenKeepsFirstRoot(s: State, path: string, pushBack: bool, who: Who, now: int)
    requires FirstRootOnly(s) && s.oneStep
    requires who.Root? ==> who.index == 0 && Roots(s.asked) == [] && s.next.None?
    ensures FirstRootOnly(OpenRemote(s, path, pushBack, who, now))
  {
    RootsAfterOne(s.asked, Request(who, path));
  }

  lemma SendKeepsFirstRoot(s: State, now: int)
    requires FirstRootOnly(s) && s.oneStep
    ensures FirstRootOnly(SendNextRemote(s, now))
  {
    if s.next.Some? {
      OpenKeepsFirstRoot(s.(next := None), s.next.value.path, s.next.value.pushBack, s.next.value.who, now);
    }
  }

  lemma ApplyKeepsSpent(s: State, report: Listing, now: int)
    requires Spent(s) && s.polled.None?
    requires s.probing ==> report.answered == s.ask.value.before || report == s.listing
    requires s.ask.Some? && report.answered == s.ask.value.before ==> now - s.ask.value.at <= REMOTE_LIST_TIMEOUT_MS
    ensures Spent(ApplyRemoteAnswer(s, report, now))
  {
    if s.ask.Some? && report.answered != s.ask.value.before {
      var t := Processed(s).(probing := false, pane := Shown(s.pane, s.ask.value, report));
      SendKeepsFirstRoot(t, now);
      hide Roots, Shown, FirstRootOnly;
    }
  }

  lemma ReconnectKeepsSpent(s: State, now: int)
    requires Spent(s)
    ensures var u := Reconnected(s, now);
            && Spent(u) && u.polled.None? && u.probing == s.probing && u.listing == s.listing
            && (s.ask.Some? ==> u.ask == s.ask)
            && (s.ask.None? && u.ask.Some? ==> u.ask.value.at == now)
  {
    var t := s.(connected := true, polled := None);
    SendKeepsFirstRoot(t, now);
    OpenKeepsFirstRoot(t.(calls := s.calls + 1), s.pane.path, false, Caller(s.calls), now);
    hide Roots, FirstRootOnly;
  }

  lemma StepKeepsSpent(s: State, e: Event)
    requires Spent(s) && Possible(s, e)
    ensures Spent(Step(s, e))
  {
    match e
    case Calls(path, pushBack, now) =>
      OpenKeepsFirstRoot(s.(calls := s.calls + 1), path, pushBack, Caller(s.calls), now);
      hide Roots, FirstRootOnly;
    case Answers(refused, path) =>
    case Reads =>
    case Fails =>
    case Applies(now) =>
      ReconnectKeepsSpent(s, now);
      hide Reconnected, Roots, FirstRootOnly, ApplyRemoteAnswer;
      ApplyKeepsSpent(Reconnected(s, now), s.polled.value, now);
  }

  lemma FollowsKeepsSpent(a: State, m: Move, b: State)
    requires Spent(a) && Follows(a, m, b)
    ensures Spent(b)
  {
    hide Roots, Step;
    if b != a.(connected := true, polled := None) && !SameButTime(b, a) {
      StepKeepsSpent(a, m.event);
    }
  }

  ghost predicate SpentInv(s: State) { Single(s) && Spent(Settled(s, 0)) }

  lemma MoveKeepsSpent(s: State, m: Move)
    requires SpentInv(s) && Able(s, m) && Goes(m) && !Crosses(s, m)
    ensures SpentInv(Next(s, m))
  {
    hide Single, Spent, Overlaps, Strands, Follows;
    MoveKeepsSingle(s, m);
    MoveFollows(s, m);
    FollowsKeepsSpent(Settled(s, 0), m, Settled(Next(s, m), 0));
  }

  lemma {:induction false} UncrossedRunsKeepSpent(s: State, moves: seq<Move>)
    requires SpentInv(s) && AllAble(s, moves) && Careful(s, moves)
    requires forall i :: 0 <= i < |moves| ==> Goes(moves[i])
    ensures SpentInv(AfterMoves(s, moves))
    decreases |moves|
  {
    hide SpentInv, Able, Crosses, Next;
    if moves != [] {
      MoveKeepsSpent(s, moves[0]);
      UncrossedRunsKeepSpent(Next(s, moves[0]), moves[1..]);
    }
  }

  lemma SpentAlwaysAscends(s: State)
    requires SpentInv(s)
    ensures AlwaysAscends(s)
  {
    forall moves | AllAble(s, moves) && Careful(s, moves) && (forall i :: 0 <= i < |moves| ==> Goes(moves[i]))
      ensures RootsAscend(AfterMoves(s, moves).asked)
    {
      UncrossedRunsKeepSpent(s, moves);
      AscendsUnsettled(AfterMoves(s, moves));
    }
  }

  // And one that goes on to the next root skips the first.

  lemma NotYetAscending(s: State, m: Move)
    requires Able(s, m) && !Crosses(s, m) && Goes(m) && !AlwaysAscends(Next(s, m))
    ensures !AlwaysAscends(s)
  {
    hide Able, Next, Crosses, RootsAscend;
    var moves :| AllAble(Next(s, m), moves) && Careful(Next(s, m), moves)
                 && (forall i :: 0 <= i < |moves| ==> Goes(moves[i]))
                 && !RootsAscend(AfterMoves(Next(s, m), moves).asked);
    var all := [m] + moves;
    assert all[1..] == moves;
    assert AllAble(s, all) && Careful(s, all) && AfterMoves(s, all) == AfterMoves(Next(s, m), moves);
  }

  lemma NotAscendingNow(s: State)
    requires !RootsAscend(s.asked)
    ensures !AlwaysAscends(s)
  {
    hide RootsAscend;
    assert AllAble(s, []) && Careful(s, []) && AfterMoves(s, []) == s;
  }

  /** The second root is on its way, and the first never went out. */
  lemma SecondRootGoesFirst(s: State)
    requires !s.oneStep && |s.flights| == 1 && s.flights[0].stage.Entered? && s.flights[0].who == Root(1)
    requires Roots(s.asked) == []
    ensures !AlwaysAscends(s)
  {
    hide AlwaysAscends, Roots;
    var s1 := Next(s, Counts(0));
    var s2 := Next(s1, Sends(0));
    var probe := Request(Root(1), s.flights[0].path);
    assert s2.asked == s.asked + [probe];
    RootsAfterOne(s.asked, probe);
    assert Roots(s2.asked) == [1] && Counting(1)[0] == 0;
    NotAscendingNow(s2);
    NotYetAscending(s1, Sends(0));
    NotYetAscending(s, Counts(0));
  }

  /** The answer in refuses the early call: the poll probes on, though the first root still waits. */
  lemma RefusedCallSkipsARoot(s: State)
    requires !s.oneStep && s.flights == [] && s.connected && s.probing && s.probed == 1 && s.polled.None?
    requires s.ask.Some? && s.listing.answered != s.ask.value.before && Roots(s.asked) == []
    requires s.listing.refused.Some? && s.listing.refused != Some(NotGranted)
    ensures !AlwaysAscends(s)
  {
    hide AlwaysAscends, Roots;
    var s1 := Next(s, Outer(Reads));
    SecondRootGoesFirst(Next(s1, Outer(Applies(0))));
    NotYetAscending(s1, Outer(Applies(0)));
    NotYetAscending(s, Outer(Reads));
  }

  lemma UnansweredCallSkipsARoot(s: State)
    requires !s.oneStep && s.flights == [] && s.connected && s.probing && s.probed == 1 && s.polled.None?
    requires s.ask.Some? && s.listing.answered == s.ask.value.before && s.outstanding != [] && Roots(s.asked) == []
    ensures !AlwaysAscends(s)
  {
    hide AlwaysAscends, Roots;
    var answer := Outer(Answers(Some(Unreadable), ""));
    RefusedCallSkipsARoot(Next(s, answer));
    NotYetAscending(s, answer);
  }

  /** The window ahead of its start. */
  ghost predicate EarlyInv(s: State) {
    ProbesInv(s) && s.probed == 0 && s.probing && s.connected && s.polled.None?
  }

  lemma EarlyMoveKeepsInv(s: State, m: Move)
    requires EarlyInv(s) && Able(s, m) && IsEarly(m) && !Crosses(s, m)
    ensures EarlyInv(Next(s, m))
  {
    EarlyFields(s, m);
    hide ProbesInv, Next, Able, Crosses;
    MoveKeepsProbes(s, m);
  }

  lemma EarlyFields(s: State, m: Move)
    requires IsEarly(m)
    ensures var s' := Next(s, m);
            s'.probed == s.probed && s'.probing == s.probing && s'.connected == s.connected && s'.polled == s.polled
  {
  }

  lemma {:induction false} EarlyRunsKeepInv(s: State, moves: seq<Move>)
    requires EarlyInv(s) && AllAble(s, moves) && Careful(s, moves)
    requires forall i :: 0 <= i < |moves| ==> IsEarly(moves[i])
    ensures EarlyInv(AfterMoves(s, moves))
    decreases |moves|
  {
    hide EarlyInv, Able, Crosses, Next;
    if moves != [] {
      EarlyMoveKeepsInv(s, moves[0]);
      EarlyRunsKeepInv(Next(s, moves[0]), moves[1..]);
    }
  }

  lemma OpenedIsEarly()
    ensures EarlyInv(OPENED)
  {
    OpenedIsSingle();
    assert Roots([]) == Counting(0);
  }

  lemma StartAscendsExactly(s: State, remembered: Option<string>, now: int)
    requires EarlyInv(s) && !Overlaps(s, Starts(remembered, now))
    ensures AlwaysAscends(Start(s, remembered, now))
       <==> remembered.Some? || s.ask.None? || AnsweredForGood(s)
  {
    var s' := Start(s, remembered, now);
    assert s.flights == [];
    StartKeepsSingle(s, remembered, now);
    StartFollows(s, remembered, now);
    SettledTimes(s', now, 0);
    hide AlwaysAscends;
    if remembered.Some? {
      OpenKeepsProbes(s.(oneStep := true), remembered.value, false, Remembered, now);
      hide Single, ProbesGoOut, SameButTime, Settled;
      ProbesKeepTime(Settled(s', now), Settled(s', 0));
      ProbesAlwaysAscend(s');
    } else if s.ask.None? {
      ProbeKeepsProbes(s.(oneStep := true), now);
      hide Single, ProbesGoOut, SameButTime, Settled;
      ProbesKeepTime(Settled(s', now), Settled(s', 0));
      ProbesAlwaysAscend(s');
    } else {
      StartBehindACall(s, now);
    }
  }

  /** The first probe waits behind the request noted. */
  lemma StartBehindACall(s: State, now: int)
    requires EarlyInv(s) && s.flights == [] && s.ask.Some?
    ensures AlwaysAscends(Start(s, None, now)) <==> AnsweredForGood(s)
  {
    hide AlwaysAscends;
    var s' := Start(s, None, now);
    assert Roots(s.asked) == [] && s'.asked == s.asked && s'.ask == s.ask && s'.flights == [];
    StartKeepsSingle(s, None, now);
    if AnsweredForGood(s) {
      assert Spent(Settled(s', 0));
      SpentAlwaysAscends(s');
    } else if s.listing.answered == s.ask.value.before {
      UnansweredCallSkipsARoot(s');
    } else {
      RefusedCallSkipsARoot(s');
    }
  }

  /**
   With asks taken apart: whatever calls come ahead of the start, polled by nobody, the roots are
   asked for in order however the run goes on with nothing crossing and no await throwing, if and
   only if a folder is remembered, or no request is noted at the start, or the one noted is
   answered already by something else than a refusal to list it.
   */
  lemma RootOrderUncrossed(early: seq<Move>, remembered: Option<string>, now: int)
    requires AllAble(OPENED, early) && Careful(OPENED, early) && forall i :: 0 <= i < |early| ==> IsEarly(early[i])
    requires !Overlaps(AfterMoves(OPENED, early), Starts(remembered, now))
    ensures var s := AfterMoves(OPENED, early);
            AlwaysAscends(Start(s, remembered, now))
            <==> remembered.Some? || s.ask.None? || AnsweredForGood(s)
  {
    OpenedIsEarly();
    EarlyRunsKeepInv(OPENED, early);
    StartAscendsExactly(AfterMoves(OPENED, early), remembered, now);
  }

  /** A call overlaps the first probe and is noted before it; refused, it sends the second probe out. */
  const NOTED_FIRST: seq<Move> :=
    [Starts(None, 0), Outer(Calls("/a", true, 0)), Counts(1), Sends(1), Notes(1, 0)]
  const PROBED_ON: seq<Move> :=
    [Outer(Answers(Some(Unreadable), "")), Outer(Reads), Outer(Applies(0)), Counts(1), Sends(1)]

  const SKIPPING: seq<Request> := [Request(Caller(0), "/a"), Request(Root(1), "/")]

  /** A run with no early call and no folder remembered that skips the first root all the same. */
  lemma OverlapSkipsARoot()
    ensures AllAble(OPENED, NOTED_FIRST + PROBED_ON)
    ensures var s := AfterMoves(OPENED, NOTED_FIRST + PROBED_ON);
            s.asked == SKIPPING && !RootsAscend(s.asked)
  {
    CallIsNotedFirst();
    SecondProbeGoesOut(AfterMoves(OPENED, NOTED_FIRST));
    OnlyTheSecondRoot();
    hide *;
    Joins(OPENED, NOTED_FIRST, PROBED_ON);
  }

  lemma OnlyTheSecondRoot()
    ensures !RootsAscend(SKIPPING)
  {
    RootsAfterOne([], SKIPPING[0]);
    RootsAfterOne([SKIPPING[0]], SKIPPING[1]);
    assert [] + [SKIPPING[0]] == [SKIPPING[0]] && [SKIPPING[0]] + [SKIPPING[1]] == SKIPPING;
    assert Roots(SKIPPING) == [1] && Counting(1)[0] == 0;
  }

  /** What the first half of that run leaves: the call noted, and the first probe still on its way. */
  ghost predicate CallNoted(s: State) {
    && !s.oneStep && s.connected && s.probing && s.probed == 1 && s.polled.None? && s.next.None?
    && s.ask.Some? && s.ask.value.before == s.listing.answered == 0 && s.ask.value.who == Caller(0)
    && |s.flights| == 1 && s.outstanding == s.asked == [SKIPPING[0]]
  }

  lemma CallIsNotedFirst()
    ensures AllAble(OPENED, NOTED_FIRST) && CallNoted(AfterMoves(OPENED, NOTED_FIRST))
  {
    var moves := NOTED_FIRST;
    var s1 := Next(OPENED, moves[0]);
    var s2 := Next(s1, moves[1]);
    var s3 := Next(s2, moves[2]);
    var s4 := Next(s3, moves[3]);
    var s5 := Next(s4, moves[4]);
    Unfold(OPENED, moves);
    Unfold(s1, moves[1..]);
    Unfold(s2, moves[2..]);
    Unfold(s3, moves[3..]);
    Unfold(s4, moves[4..]);
    Unfold(s5, moves[5..]);
  }

  lemma SecondProbeGoesOut(s: State)
    requires CallNoted(s)
    ensures AllAble(s, PROBED_ON) && AfterMoves(s, PROBED_ON).asked == SKIPPING
  {
    var moves := PROBED_ON;
    var s1 := Next(s, moves[0]);
    var s2 := Next(s1, moves[1]);
    var s3 := Next(s2, moves[2]);
    var s4 := Next(s3, moves[3]);
    var s5 := Next(s4, moves[4]);
    Unfold(s, moves);
    Unfold(s1, moves[1..]);
    Unfold(s2, moves[2..]);
    Unfold(s3, moves[3..]);
    Unfold(s4, moves[4..]);
    Unfold(s5, moves[5..]);
  }

  lemma Joins(s: State, first: seq<Move>, second: seq<Move>)
    ensures AfterMoves(s, first + second) == AfterMoves(AfterMoves(s, first), second)
    ensures AllAble(s, first + second) <==> AllAble(s, first) && AllAble(AfterMoves(s, first), second)
  {
    hide Able, Next;
    SplitAt(s, first + second, |first|);
    assert (first + second)[..|first|] == first && (first + second)[|first|..] == second;
  }

  lemma {:induction false} SplitAt(s: State, moves: seq<Move>, k: nat)
    requires k <= |moves|
    ensures AfterMoves(s, moves) == AfterMoves(AfterMoves(s, moves[..k]), moves[k..])
    ensures AllAble(s, moves) <==> AllAble(s, moves[..k]) && AllAble(AfterMoves(s, moves[..k]), moves[k..])
    decreases |moves|
  {
    hide Able, Next;
    if k == 0 {
      assert moves[..0] == [] && moves[0..] == moves;
    } else {
      SplitAt(Next(s, moves[0]), moves[1..], k - 1);
      assert moves[..k][0] == moves[0] && moves[..k][1..] == moves[1..][..k - 1] && moves[1..][k - 1..] == moves[k..];
    }
  }

  // ----- Calls, when the session goes --------------------------------------

  /** A move of a run whose asks are sent back only by a session that is gone, before they go out. */
  predicate GoesOrGone(s: State, m: Move) {
    Goes(m) || (m.Rejects? && m.why.Gone? && m.k < |s.flights| && !s.flights[m.k].stage.Sent?)
  }

  predicate AllGoOrGone(s: State, moves: seq<Move>)
    decreases |moves|
  {
    moves == [] || (GoesOrGone(s, moves[0]) && AllGoOrGone(Next(s, moves[0]), moves[1..]))
  }

  /** A call comes through the guard, or an ask is sent back, while another request waits. */
  predicate Jumps(s: State, m: Move) {
    s.next.Some? && (m.Rejects? || (m.Outer? && m.event.Calls? && s.ask.None?))
  }

  predicate Orderly(s: State, moves: seq<Move>)
    decreases |moves|
  {
    moves == [] || (!Jumps(s, moves[0]) && Orderly(Next(s, moves[0]), moves[1..]))
  }

  /** A request sent back waits for the session, with nothing noted or on its way. */
  predicate Parked(s: State) { s.flights == [] && s.ask.None? && s.next.Some? }

  /** The state with such a request on its way again. */
  function Unparked(s: State): State { if Parked(s) then SendNextRemote(s, 0) else s }

  ghost predicate GoneInv(s: State) {
    Single(s) && Inv(Settled(Unparked(s), 0)) && (Parked(s) ==> !s.connected)
  }

  lemma NothingParked(s: State)
    requires Inv(Settled(s, 0))
    ensures !Parked(s)
  {
  }

  lemma RejectParks(s: State, m: Move)
    requires GoneInv(s) && Able(s, m) && m.Rejects? && GoesOrGone(s, m) && !Jumps(s, m)
    ensures Parked(Next(s, m)) && !Next(s, m).connected
    ensures Settled(Unparked(Next(s, m)), 0) == Settled(s, 0).(connected := false)
  {
    hide Roots, Counting;
    var s', f := Next(s, m), s.flights[0];
    assert s'.flights == [] && s'.next == Some(Wait(f.path, f.pushBack, f.who));
  }

  lemma ParkedMove(s: State, m: Move)
    requires GoneInv(s) && Parked(s) && Able(s, m) && GoesOrGone(s, m) && !Crosses(s, m) && !Jumps(s, m)
    ensures var a, b := Settled(Unparked(s), 0), Settled(Unparked(Next(s, m)), 0);
            b == a.(connected := true, polled := None) || b == PollReads(a) || b == PollFails(a)
    ensures Parked(Next(s, m)) ==> !Next(s, m).connected
  {
    if m.Outer? && m.event.Applies? {
      hide Inv, OneOutstanding, ReportHolds, ApplyRemoteAnswer;
      InertApply(Reconnected(s, m.event.now), s.polled.value, m.event.now);
    } else {
      hide Inv;
      assert m.Outer? && (m.event.Reads? || m.event.Fails?);
    }
  }

  lemma ParkedInv(a: State, b: State)
    requires Inv(a)
    requires b == a.(connected := true, polled := None) || b == PollReads(a) || b == PollFails(a)
             || b == a.(connected := false)
    ensures Inv(b)
  {
    assert ReportHolds(b) by { hide NewestWaits, CallsInOrder, RootsInOrder; }
    hide Inv, ReportHolds;
    SameButPoll(a, b);
  }

  lemma MoveKeepsGone(s: State, m: Move)
    requires GoneInv(s) && Able(s, m) && GoesOrGone(s, m) && !Crosses(s, m) && !Jumps(s, m)
    ensures GoneInv(Next(s, m))
  {
    MoveKeepsSingle(s, m);
    if Parked(s) {
      ParkedMove(s, m);
      hide Inv, Single, Next;
      ParkedInv(Settled(Unparked(s), 0), Settled(Unparked(Next(s, m)), 0));
    } else if m.Rejects? {
      RejectParks(s, m);
      hide Inv, Single, Next;
      ParkedInv(Settled(s, 0), Settled(Unparked(Next(s, m)), 0));
    } else {
      hide Inv, Single, Next, Crosses;
      MoveKeepsSettled(s, m);
      NothingParked(Next(s, m));
    }
  }

  lemma {:induction false} OrderlyRunsKeepGone(s: State, moves: seq<Move>)
    requires GoneInv(s) && AllAble(s, moves) && Careful(s, moves) && AllGoOrGone(s, moves) && Orderly(s, moves)
    ensures GoneInv(AfterMoves(s, moves))
    decreases |moves|
  {
    hide GoneInv, Able, Crosses, Next, GoesOrGone, Jumps;
    if moves != [] {
      MoveKeepsGone(s, moves[0]);
      OrderlyRunsKeepGone(Next(s, moves[0]), moves[1..]);
    }
  }

  /** Nothing is noted, on its way or waiting. */
  predicate Idle(s: State) { s.ask.None? && s.flights == [] && s.next.None? }

  /** The last answer processed is the newest call's. */
  predicate NewestDone(s: State) {
    s.calls > 0 ==> s.processed != [] && s.processed[|s.processed| - 1] == Caller(s.calls - 1)
  }

  ghost predicate Continues(s: State, moves: seq<Move>) {
    AllAble(s, moves) && Careful(s, moves) && AllGoOrGone(s, moves) && Orderly(s, moves)
  }

  /** However it goes on in order, once nothing is left the last answer processed is the newest call's. */
  ghost predicate NewestAlways(s: State) {
    forall moves :: Continues(s, moves) && Idle(AfterMoves(s, moves)) ==> NewestDone(AfterMoves(s, moves))
  }

  lemma InOrder(s: State)
    requires GoneInv(s)
    ensures Idle(s) ==> s.processed != [] && NewestDone(s)
    ensures forall i, j :: 0 <= i < j < |s.processed| && s.processed[i].Caller? && s.processed[j].Caller? ==>
              s.processed[i].number < s.processed[j].number
  {
    hide Roots, Counting, OneOutstanding, ReportHolds;
  }

  lemma RootsInOrderThoughGone(s: State)
    requires GoneInv(s)
    ensures RootsAscend(s.asked)
  {
    assert RootsAscend(Settled(Unparked(s), 0).asked) by {
      hide OneOutstanding, ReportHolds, NewestWaits, CallsInOrder;
    }
    hide Roots, Counting, Inv, OneOutstanding, ReportHolds;
    AscendsUnsettled(Unparked(s));
  }

  lemma GoneIsNewest(s: State)
    requires GoneInv(s)
    ensures NewestAlways(s)
  {
    forall moves | Continues(s, moves) && Idle(AfterMoves(s, moves))
      ensures NewestDone(AfterMoves(s, moves))
    {
      OrderlyRunsKeepGone(s, moves);
      InOrder(AfterMoves(s, moves));
    }
  }

  lemma NotYetNewest(s: State, m: Move)
    requires Able(s, m) && !Crosses(s, m) && GoesOrGone(s, m) && !Jumps(s, m) && !NewestAlways(Next(s, m))
    ensures !NewestAlways(s)
  {
    hide Able, Next, Crosses, Idle, NewestDone, GoesOrGone, Jumps;
    var moves :| Continues(Next(s, m), moves) && Idle(AfterMoves(Next(s, m), moves))
                 && !NewestDone(AfterMoves(Next(s, m), moves));
    var all := [m] + moves;
    assert all[1..] == moves;
    assert Continues(s, all) && AfterMoves(s, all) == AfterMoves(Next(s, m), moves);
  }

  lemma NotNewestNow(s: State)
    requires Idle(s) && !NewestDone(s)
    ensures !NewestAlways(s)
  {
    assert Continues(s, []) && AfterMoves(s, []) == s;
  }

  /** A state in which one ask has just come through the guard, and the host holds nothing. */
  predicate OneEntered(s: State) {
    && !s.oneStep && s.ask.None? && |s.flights| == 1 && s.flights[0].stage.Entered?
    && s.outstanding == [] && s.polled.None?
  }

  /** Where it is once that ask is listed: what waited is on its way, if anything did. */
  predicate Listed(s: State, t: State)
    requires s.flights != []
  {
    && t.processed == s.processed + [s.flights[0].who] && t.calls == s.calls && t.next.None?
    && !t.oneStep && t.ask.None? && t.outstanding == [] && t.polled.None? && t.connected
    && t.flights == if s.next.None? then []
                    else [Flight(s.next.value.path, s.next.value.pushBack, s.next.value.who, Entered)]
  }

  /** Its request goes out and is noted, and nothing else changes. */
  lemma AskGoesOut(s: State) returns (t: State)
    requires OneEntered(s)
    ensures var f := s.flights[0];
            t == s.(flights := [], outstanding := [Request(f.who, f.path)], asked := s.asked + [Request(f.who, f.path)],
                    ask := Some(Ask(f.path, s.listing.answered, 0, f.pushBack, f.who)))
    ensures !NewestAlways(t) ==> !NewestAlways(s)
  {
    hide NewestAlways;
    var s1 := Next(s, Counts(0));
    var s2 := Next(s1, Sends(0));
    t := Next(s2, Notes(0, 0));
    if !NewestAlways(t) {
      NotYetNewest(s2, Notes(0, 0));
      NotYetNewest(s1, Sends(0));
      NotYetNewest(s, Counts(0));
    }
  }

  /** The host lists what was asked for, and a poll reads it. */
  lemma HostLists(s: State) returns (t: State)
    requires !s.oneStep && s.outstanding != [] && s.polled.None? && s.flights == []
    ensures t == PollReads(HostAnswers(s, None, ""))
    ensures !NewestAlways(t) ==> !NewestAlways(s)
  {
    hide NewestAlways;
    var s1 := Next(s, Outer(Answers(None, "")));
    t := Next(s1, Outer(Reads));
    if !NewestAlways(t) {
      NotYetNewest(s1, Outer(Reads));
      NotYetNewest(s, Outer(Answers(None, "")));
    }
  }

  lemma PollIsUncrossed(s: State)
    requires !s.oneStep && s.flights == [] && s.polled.Some? && s.ask.Some?
    requires s.polled.value.answered != s.ask.value.before && !NewestAlways(PollApplies(s, 0))
    ensures !NewestAlways(s)
  {
    hide NewestAlways, PollApplies;
    NotYetNewest(s, Outer(Applies(0)));
  }

  lemma ListsOne(s: State) returns (t: State)
    requires OneEntered(s) && (s.connected || s.next.Some?)
    ensures Listed(s, t) && (!NewestAlways(t) ==> !NewestAlways(s))
  {
    hide NewestAlways, PollApplies;
    var s1 := AskGoesOut(s);
    var s2 := HostLists(s1);
    t := PollApplies(s2, 0);
    AnswerListed(s2);
    if !NewestAlways(t) {
      PollIsUncrossed(s2);
    }
  }

  lemma AnswerListed(s: State)
    requires !s.oneStep && s.flights == [] && s.ask.Some? && s.outstanding == []
    requires s.polled.Some? && s.polled.value.answered != s.ask.value.before && s.polled.value.refused.None?
    requires s.connected || s.next.Some?
    ensures var t := PollApplies(s, 0);
            && t.processed == s.processed + [s.ask.value.who] && t.calls == s.calls && t.next.None?
            && !t.oneStep && t.ask.None? && t.outstanding == [] && t.polled.None? && t.connected
            && t.flights == if s.next.None? then []
                            else [Flight(s.next.value.path, s.next.value.pushBack, s.next.value.who, Entered)]
  {
    hide Shown;
    assert Reconnected(s, 0) == s.(connected := true, polled := None);
  }

  /** A call that comes through while an older request waits is listed before it. */
  lemma CallJumpsAhead(s: State)
    requires !s.oneStep && s.ask.None? && s.outstanding == [] && |s.flights| == 1 && s.flights[0].stage.Entered?
    requires s.calls > 0 && s.next.Some? && s.next.value.who != Caller(s.calls - 1)
    ensures !NewestAlways(s)
  {
    hide NewestAlways;
    var s1 := Next(s, Outer(Fails));
    var t := ListsOne(s1);
    var u := ListsOne(t);
    NotNewestNow(u);
    NotYetNewest(s, Outer(Fails));
  }

  /** An ask sent back takes the place of the newer call that waited. */
  lemma RejectDropsTheNewest(s: State)
    requires !s.oneStep && Parked(s) && s.outstanding == []
    requires s.calls > 0 && s.next.value.who != Caller(s.calls - 1)
    ensures !NewestAlways(s)
  {
    hide NewestAlways;
    var s1 := Next(s, Outer(Fails));
    var s2 := Next(s1, Outer(Reads));
    var s3 := Next(s2, Outer(Applies(0)));
    InertApply(Reconnected(s2, 0), s2.polled.value, 0);
    assert OneEntered(s3) && s3.connected && s3.next.None?;
    var t := ListsOne(s3);
    NotNewestNow(t);
    NotYetNewest(s2, Outer(Applies(0)));
    NotYetNewest(s1, Outer(Reads));
    NotYetNewest(s, Outer(Fails));
  }

  lemma JumpLosesTheNewest(s: State, m: Move)
    requires GoneInv(s) && Able(s, m) && GoesOrGone(s, m) && !Crosses(s, m) && Jumps(s, m)
    ensures !NewestAlways(Next(s, m))
  {
    hide NewestAlways, Roots, Counting;
    if m.Rejects? {
      assert !Parked(s);
      RejectDropsTheNewest(Next(s, m));
    } else {
      assert s.flights == [] && Parked(s);
      CallJumpsAhead(Next(s, m));
    }
  }

  ghost predicate NewestAllThrough(s: State, moves: seq<Move>) {
    forall k :: 0 <= k <= |moves| ==> NewestAlways(AfterMoves(s, moves[..k]))
  }

  lemma {:induction false} NewestFrom(s: State, moves: seq<Move>)
    requires GoneInv(s) && AllAble(s, moves) && Careful(s, moves) && AllGoOrGone(s, moves)
    ensures NewestAllThrough(s, moves) <==> Orderly(s, moves)
    decreases |moves|
  {
    GoneIsNewest(s);
    hide GoneInv, NewestAlways, NewestAllThrough, Able, Crosses, GoesOrGone, Jumps, Next;
    ThroughFirst(s, moves);
    if moves != [] {
      if Jumps(s, moves[0]) {
        JumpLosesTheNewest(s, moves[0]);
        ThroughFirst(Next(s, moves[0]), moves[1..]);
      } else {
        MoveKeepsGone(s, moves[0]);
        NewestFrom(Next(s, moves[0]), moves[1..]);
      }
    }
  }

  lemma ThroughFirst(s: State, moves: seq<Move>)
    ensures NewestAllThrough(s, moves) ==> NewestAlways(s)
    ensures NewestAlways(s) && moves == [] ==> NewestAllThrough(s, moves)
    ensures moves != [] ==>
              (NewestAllThrough(s, moves) <==> NewestAlways(s) && NewestAllThrough(Next(s, moves[0]), moves[1..]))
  {
    hide NewestAlways, Next;
    assert moves[..0] == [] && AfterMoves(s, []) == s;
    if moves != [] {
      var s' := Next(s, moves[0]);
      if NewestAllThrough(s, moves) {
        forall k | 0 <= k <= |moves[1..]|
          ensures NewestAlways(AfterMoves(s', moves[1..][..k]))
        {
          AfterFirst(s, moves, k);
        }
      }
      if NewestAlways(s) && NewestAllThrough(s', moves[1..]) {
        forall k | 0 <= k <= |moves|
          ensures NewestAlways(AfterMoves(s, moves[..k]))
        {
          if k > 0 { AfterFirst(s, moves, k - 1); }
        }
      }
    }
  }

  /**
   With asks taken apart, and sent back only by a session that is gone: the newest call wins, in a
   run in which nothing crosses and every way it goes on in order, if and only if no call comes
   through the guard and no ask is sent back while another request waits.
   */
  lemma NewestExactly(remembered: Option<string>, now: int, moves: seq<Move>)
    requires var s := Start(OPENED, remembered, now);
             AllAble(s, moves) && Careful(s, moves) && AllGoOrGone(s, moves)
    ensures var s := Start(OPENED, remembered, now);
            NewestAllThrough(s, moves) <==> Orderly(s, moves)
  {
    var s := Start(OPENED, remembered, now);
    StartSettles(remembered, now);
    NothingParked(s);
    NewestFrom(s, moves);
  }

  /** And in such runs that are in order, roots are asked for in order and calls processed as they were made. */
  lemma OrdersHoldThoughGone(remembered: Option<string>, now: int, moves: seq<Move>)
    requires Continues(Start(OPENED, remembered, now), moves)
    ensures var s := AfterMoves(Start(OPENED, remembered, now), moves);
            && |s.outstanding| <= 1 && RootsAscend(s.asked)
            && (forall i, j :: 0 <= i < j < |s.processed| && s.processed[i].Caller? && s.processed[j].Caller? ==>
                  s.processed[i].number < s.processed[j].number)
            && (Idle(s) ==> s.processed != [] && NewestDone(s))
  {
    var start := Start(OPENED, remembered, now);
    StartSettles(remembered, now);
    NothingParked(start);
    OrderlyRunsKeepGone(start, moves);
    var s := AfterMoves(start, moves);
    hide Start, AfterMoves, Continues, RootsAscend;
    InOrder(s);
    RootsInOrderThoughGone(s);
    SingleIsOne(s);
    hide Single, Inv, Idle, NewestDone;
  }

  /** A run on which it does not: the session goes under the first probe, and a call comes through before it is back. */
  lemma OlderRequestIsListedLast()
    ensures var s, moves := Start(OPENED, None, 0), [Rejects(0, Gone), Outer(Calls("/b", true, 0))];
            && AllAble(s, moves) && Careful(s, moves) && AllGoOrGone(s, moves)
            && !NewestAlways(AfterMoves(s, moves))
  {
    var s, moves := Start(OPENED, None, 0), [Rejects(0, Gone), Outer(Calls("/b", true, 0))];
    var s1 := Next(s, moves[0]);
    var s2 := Next(s1, moves[1]);
    assert moves[1..] == [moves[1]] && [moves[1]][1..] == [];
    Unfold(s, moves);
    Unfold(s1, [moves[1]]);
    Unfold(s2, []);
    hide NewestAlways;
    CallJumpsAhead(s2);
  }
}
