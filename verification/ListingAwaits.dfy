/**
 The listing protocol with its asks taken apart. `openRemote` looks at `remoteAsk`, then waits for
 the answer count, then for the request to go out, and only then sets `remoteAsk`; calls, polls and
 the host go on in between. What one request at a time depends on is that no call comes through
 the guard while another ask is on its way from there to the assignment, and that none throws
 behind a request that is still out.
 */
module ListingAwaits {
  import opened Options
  import opened RemoteListing

  const OPENED: State := BLANK.(oneStep := false)

  /** What happens: all that does when asks are one step, the window's start, and the awaits of an ask. */
  datatype Move =
    | Outer(event: Event)
    | Starts(remembered: Option<string>, now: int)
    | Counts(k: nat)
    | Sends(k: nat)
    | Notes(k: nat, now: int)
    | Rejects(k: nat, why: Rejection)

  predicate Able(s: State, m: Move) {
    match m
    case Outer(e) => Possible(s, e)
    case Starts(_, _) => true
    case Counts(k) => k < |s.flights| && s.flights[k].stage.Entered?
    case Sends(k) => k < |s.flights| && s.flights[k].stage.Counted?
    case Notes(k, _) => k < |s.flights| && s.flights[k].stage.Sent?
    case Rejects(k, _) => k < |s.flights|
  }

  /** A move that is not possible changes nothing. */
  function Next(s: State, m: Move): State {
    if !Able(s, m) then s
    else match m
      case Outer(e) => Step(s, e)
      case Starts(remembered, now) => Start(s, remembered, now)
      case Counts(k) => Count(s, k)
      case Sends(k) => Dispatch(s, k)
      case Notes(k, now) => Note(s, k, now)
      case Rejects(k, why) => Reject(s, k, why)
  }

  function AfterMoves(s: State, moves: seq<Move>): State
    decreases |moves|
  {
    if moves == [] then s else AfterMoves(Next(s, moves[0]), moves[1..])
  }

  predicate AllAble(s: State, moves: seq<Move>)
    decreases |moves|
  {
    moves == [] || (Able(s, moves[0]) && AllAble(Next(s, moves[0]), moves[1..]))
  }

  /** A call comes through the guard while another ask is between guard and assignment. */
  predicate Overlaps(s: State, m: Move) {
    s.flights != [] && |Next(s, m).flights| > |s.flights|
  }

  /**
   An ask throws though its request reached the host, and nobody waits for it any more: it is not
   answered yet, or a poll holds a report from before the answer.
   */
  predicate Strands(s: State, m: Move) {
    && m.Rejects? && m.k < |s.flights| && s.flights[m.k].stage.Sent?
    && var before := s.flights[m.k].stage.before;
       s.listing.answered == before || (s.polled.Some? && s.polled.value.answered == before)
  }

  predicate Crosses(s: State, m: Move) { Overlaps(s, m) || Strands(s, m) }

  predicate Careful(s: State, moves: seq<Move>)
    decreases |moves|
  {
    moves == [] || (!Crosses(s, moves[0]) && Careful(Next(s, moves[0]), moves[1..]))
  }

  // ----- Runs in which nothing crosses -------------------------------------

  function CountOf(s: State, f: Flight): nat {
    if f.stage.Entered? then s.listing.answered else f.stage.before
  }

  /** The state as it would be had the ask in flight been one step. */
  function Settled(s: State, at: int): State {
    if s.flights == [] then s.(oneStep := true)
    else
      var f := s.flights[0];
      s.(oneStep := true, flights := [],
         ask := Some(Ask(f.path, CountOf(s, f), at, f.pushBack, f.who)),
         outstanding := if f.stage.Sent? then s.outstanding else s.outstanding + [Request(f.who, f.path)],
         asked := if f.stage.Sent? then s.asked else s.asked + [Request(f.who, f.path)])
  }

  /** One request, noted or in flight; the host holds it or has just answered it. */
  ghost predicate Single(s: State) {
    && !s.oneStep && |s.flights| <= 1 && (s.flights != [] ==> s.ask.None?)
    && (s.flights != [] && !s.flights[0].stage.Sent? ==>
          s.outstanding == [] && CountOf(s, s.flights[0]) == s.listing.answered)
    && OneOutstanding(Settled(s, 0)) && ReportHolds(Settled(s, 0))
  }

  /** Nothing else in the state matters to it, and neither does a report dropped. */
  lemma SameSingle(s: State, s': State)
    requires Single(s) && s'.oneStep == s.oneStep && s'.flights == s.flights && s'.ask == s.ask
    requires s'.outstanding == s.outstanding && s'.listing == s.listing
    requires s'.polled == s.polled || s'.polled.None?
    ensures Single(s')
  {
  }

  lemma OpenKeepsSingle(s: State, path: string, pushBack: bool, who: Who, now: int)
    requires Single(s) && s.flights == []
    ensures Single(OpenRemote(s, path, pushBack, who, now))
  {
  }

  lemma ProbeKeepsSingle(s: State, now: int)
    requires Single(s) && s.flights == []
    ensures Single(ProbeNextRoot(s, now))
  {
    hide OpenRemote, Single;
    SameSingle(s, s.(probed := s.probed + 1));
    SameSingle(s, s.(probed := s.probed + 1, probing := false));
    if s.probed < |REMOTE_ROOTS| {
      OpenKeepsSingle(s.(probed := s.probed + 1), REMOTE_ROOTS[s.probed], false, Root(s.probed), now);
    }
  }

  lemma SendKeepsSingle(s: State, now: int)
    requires Single(s) && s.flights == []
    ensures Single(SendNextRemote(s, now))
  {
    hide OpenRemote, Single;
    SameSingle(s, s.(next := None));
    if s.next.Some? {
      OpenKeepsSingle(s.(next := None), s.next.value.path, s.next.value.pushBack, s.next.value.who, now);
    }
  }

  lemma CallKeepsSingle(s: State, path: string, pushBack: bool, now: int)
    requires Single(s) && s.flights == []
    ensures Single(Call(s, path, pushBack, now))
  {
    hide OpenRemote, Single;
    SameSingle(s, s.(calls := s.calls + 1));
    OpenKeepsSingle(s.(calls := s.calls + 1), path, pushBack, Caller(s.calls), now);
  }

  lemma ApplyKeepsSingle(s: State, report: Listing, now: int)
    requires Single(s) && s.polled.None? && s.flights == []
    requires ReportHolds(s.(polled := Some(report)))
    requires s.ask.Some? && report.answered == s.ask.value.before ==> now - s.ask.value.at <= REMOTE_LIST_TIMEOUT_MS
    ensures Single(ApplyRemoteAnswer(s, report, now))
  {
    if s.ask.Some? && report.answered != s.ask.value.before {
      var t := Processed(s);
      assert Single(t);
      hide Single, ProbeNextRoot, SendNextRemote, Shown, OneOutstanding, ReportHolds;
      var probing, shown := t.(pane := s.pane.(loading := false)),
                            t.(probing := false, pane := Shown(s.pane, s.ask.value, report));
      SameSingle(t, probing);
      SameSingle(t, shown);
      ProbeKeepsSingle(probing, now);
      SendKeepsSingle(shown, now);
    }
  }

  /** A poll that ends while an ask is in flight leaves it alone. */
  lemma AppliesInFlight(s: State, now: int)
    requires Single(s) && s.flights != [] && s.polled.Some? && !Overlaps(s, Outer(Applies(now)))
    requires Possible(s, Applies(now))
    ensures PollApplies(s, now) == s.(connected := true, polled := None)
  {
    hide OneOutstanding, ReportHolds, ApplyRemoteAnswer;
    var u := Reconnected(s, now);
    InertApply(u, s.polled.value, now);
    assert |u.flights| > |s.flights| || u == s.(connected := true, polled := None);
  }

  lemma InertApply(s: State, report: Listing, now: int)
    ensures s.ask.None? ==> ApplyRemoteAnswer(s, report, now) == s
  {
  }

  lemma AppliesKeepsSingle(s: State, now: int)
    requires Single(s) && Possible(s, Applies(now)) && !Overlaps(s, Outer(Applies(now)))
    ensures Single(PollApplies(s, now))
  {
    var t := s.(connected := true, polled := None);
    SameSingle(s, t);
    if s.flights != [] {
      AppliesInFlight(s, now);
    } else if !s.connected && s.next.Some? {
      SendKeepsSingle(t, now);
      ReopenedReport(s, t.(next := None), s.next.value.path, s.next.value.pushBack, s.next.value.who, now);
      AppliesAfter(SendNextRemote(t, now), s.polled.value, now);
    } else if !s.connected && s.pane.path != "" {
      CallKeepsSingle(t, s.pane.path, false, now);
      ReopenedReport(s, t.(calls := s.calls + 1), s.pane.path, false, Caller(s.calls), now);
      AppliesAfter(Call(t, s.pane.path, false, now), s.polled.value, now);
    } else {
      AppliesAfter(t, s.polled.value, now);
    }
  }

  /** What is asked for at a reconnect leaves the report of that poll as true as it was. */
  lemma ReopenedReport(s: State, t: State, path: string, pushBack: bool, who: Who, now: int)
    requires Single(s) && s.flights == [] && s.polled.Some?
    requires t == s.(connected := true, polled := None, next := t.next, calls := t.calls)
    ensures var u := OpenRemote(t, path, pushBack, who, now);
            && (u.flights != [] ==> u.ask.None?)
            && (u.flights == [] ==> u.ask == s.ask && ReportHolds(u.(polled := s.polled)))
  {
  }

  lemma AppliesAfter(u: State, report: Listing, now: int)
    requires Single(u) && u.polled.None? && (u.flights != [] ==> u.ask.None?)
    requires u.flights == [] ==> ReportHolds(u.(polled := Some(report)))
    requires u.ask.Some? && report.answered == u.ask.value.before ==> now - u.ask.value.at <= REMOTE_LIST_TIMEOUT_MS
    ensures Single(ApplyRemoteAnswer(u, report, now))
  {
    if u.flights == [] {
      ApplyKeepsSingle(u, report, now);
    } else {
      InertApply(u, report, now);
    }
  }

  lemma StartKeepsSingle(s: State, remembered: Option<string>, now: int)
    requires Single(s) && !Overlaps(s, Starts(remembered, now))
    ensures Single(Start(s, remembered, now))
  {
    if s.flights == [] {
      hide Single, OpenRemote;
      ProbeKeepsSingle(s, now);
      if remembered.Some? {
        OpenKeepsSingle(s, remembered.value, false, Remembered, now);
      }
    } else {
      SameSingle(s, s.(probed := s.probed + 1, probing := false));
    }
  }

  lemma AwaitKeepsSingle(s: State, m: Move)
    requires Single(s) && Able(s, m) && !m.Outer? && !m.Starts? && !Strands(s, m)
    ensures Single(Next(s, m))
  {
  }

  lemma EventKeepsSingle(s: State, e: Event)
    requires Single(s) && Possible(s, e) && !Overlaps(s, Outer(e))
    ensures Single(Step(s, e))
  {
    match e
    case Calls(path, pushBack, now) => if s.flights == [] { CallKeepsSingle(s, path, pushBack, now); }
    case Answers(refused, path) =>
    case Reads =>
    case Fails =>
    case Applies(now) =>
      AppliesKeepsSingle(s, now);
      hide Single;
  }

  lemma MoveKeepsSingle(s: State, m: Move)
    requires Single(s) && Able(s, m) && !Crosses(s, m)
    ensures Single(Next(s, m))
  {
    hide Single, Overlaps, Strands;
    match m
    case Outer(e) => EventKeepsSingle(s, e);
    case Starts(remembered, now) => StartKeepsSingle(s, remembered, now);
    case Counts(k) => AwaitKeepsSingle(s, m);
    case Sends(k) => AwaitKeepsSingle(s, m);
    case Notes(k, now) => AwaitKeepsSingle(s, m);
    case Rejects(k, why) => AwaitKeepsSingle(s, m);
  }

  lemma {:induction false} CarefulRunsKeepSingle(s: State, moves: seq<Move>)
    requires Single(s) && AllAble(s, moves) && Careful(s, moves)
    ensures Single(AfterMoves(s, moves))
    decreases |moves|
  {
    if moves != [] {
      MoveKeepsSingle(s, moves[0]);
      CarefulRunsKeepSingle(Next(s, moves[0]), moves[1..]);
    }
  }

  lemma SingleIsOne(s: State)
    requires Single(s)
    ensures |s.outstanding| <= 1
  {
  }

  // ----- Exactly when one listing is out -----------------------------------

  /** However it goes on with nothing crossing any more, the host never holds more than one request. */
  ghost predicate AlwaysOne(s: State) {
    forall moves :: AllAble(s, moves) && Careful(s, moves) ==> |AfterMoves(s, moves).outstanding| <= 1
  }

  lemma SingleIsAlwaysOne(s: State)
    requires Single(s)
    ensures AlwaysOne(s)
  {
    forall moves | AllAble(s, moves) && Careful(s, moves)
      ensures |AfterMoves(s, moves).outstanding| <= 1
    {
      CarefulRunsKeepSingle(s, moves);
      SingleIsOne(AfterMoves(s, moves));
    }
  }

  /** Two requests can be out after some moves, then also before the first of them. */
  lemma NotYetOne(s: State, m: Move)
    requires Able(s, m) && !Crosses(s, m) && !AlwaysOne(Next(s, m))
    ensures !AlwaysOne(s)
  {
    hide Able, Next, Crosses;
    var moves :| AllAble(Next(s, m), moves) && Careful(Next(s, m), moves)
                 && |AfterMoves(Next(s, m), moves).outstanding| > 1;
    var all := [m] + moves;
    assert all[1..] == moves;
    assert AllAble(s, all) && Careful(s, all) && AfterMoves(s, all) == AfterMoves(Next(s, m), moves);
  }

  lemma TwoIsNotOne(s: State)
    requires |s.outstanding| > 1
    ensures !AlwaysOne(s)
  {
    assert AllAble(s, []) && Careful(s, []) && AfterMoves(s, []) == s;
  }

  /** An ask not yet counted, with a request out: it goes out too. */
  lemma OneMoreGoesOut(s: State, k: nat)
    requires k < |s.flights| && s.flights[k].stage.Entered? && |s.outstanding| == 1
    ensures !AlwaysOne(s)
  {
    hide AlwaysOne;
    var s1 := Next(s, Counts(k));
    TwoIsNotOne(Next(s1, Sends(k)));
    NotYetOne(s1, Sends(k));
    NotYetOne(s, Counts(k));
  }

  lemma FirstGoesOut(s: State)
    requires |s.flights| == 2 && s.flights[1].stage.Entered? && s.outstanding == []
    requires !s.flights[0].stage.Sent?
    ensures !AlwaysOne(s)
  {
    hide AlwaysOne;
    if s.flights[0].stage.Entered? {
      var s1 := Next(s, Counts(0));
      OneMoreGoesOut(Next(s1, Sends(0)), 1);
      NotYetOne(s1, Sends(0));
      NotYetOne(s, Counts(0));
    } else {
      OneMoreGoesOut(Next(s, Sends(0)), 1);
      NotYetOne(s, Sends(0));
    }
  }

  /** A poll takes an answer for that of the request noted, which is still out, and the next ask goes out. */
  lemma WrongAnswerLetsOneOut(s: State)
    requires !s.oneStep && s.flights == [] && |s.outstanding| == 1 && s.polled.Some?
    requires s.ask.Some? && s.polled.value.answered != s.ask.value.before
    ensures !AlwaysOne(s)
  {
    hide AlwaysOne;
    var s' := Next(s, Outer(Applies(0)));
    PollTakesAnswer(s);
    if s'.flights == [] {
      AnyCallGoesOut(s');
    } else {
      OneMoreGoesOut(s', 0);
    }
    NotYetOne(s, Outer(Applies(0)));
  }

  lemma AnyCallGoesOut(s: State)
    requires !s.oneStep && s.ask.None? && s.flights == [] && |s.outstanding| == 1
    ensures !AlwaysOne(s)
  {
    hide AlwaysOne;
    OneMoreGoesOut(Next(s, Outer(Calls("", false, 0))), 0);
    NotYetOne(s, Outer(Calls("", false, 0)));
  }

  /** With the wrong request noted, its answer is read as that of the one out. */
  lemma WrongNoteLetsOneOut(s: State)
    requires !s.oneStep && s.flights == [] && |s.outstanding| == 1
    requires s.ask.Some? && s.listing.answered != s.ask.value.before
    ensures !AlwaysOne(s)
  {
    hide AlwaysOne;
    var s1 := Next(s, Outer(Fails));
    WrongAnswerLetsOneOut(Next(s1, Outer(Reads)));
    NotYetOne(s1, Outer(Reads));
    NotYetOne(s, Outer(Fails));
  }

  lemma PollTakesAnswer(s: State)
    requires !s.oneStep && s.flights == [] && s.polled.Some?
    requires s.ask.Some? && s.polled.value.answered != s.ask.value.before
    ensures var s' := PollApplies(s, 0);
            && s'.ask.None? && s'.outstanding == s.outstanding && |s'.flights| <= 1 && !s'.oneStep
            && (s'.flights != [] ==> s'.flights[0].stage.Entered?)
  {
    ReconnectWaits(s, 0);
    hide Reconnected;
    AnswerTaken(Reconnected(s, 0), s.polled.value, 0);
  }

  /** With a request noted, what a reconnect asks for waits. */
  lemma ReconnectWaits(s: State, now: int)
    requires s.ask.Some?
    ensures var u := Reconnected(s, now);
            u.ask == s.ask && u.flights == s.flights && u.outstanding == s.outstanding && u.oneStep == s.oneStep
  {
  }

  lemma AnswerTaken(s: State, report: Listing, now: int)
    requires !s.oneStep && s.flights == [] && s.ask.Some? && report.answered != s.ask.value.before
    ensures var s' := ApplyRemoteAnswer(s, report, now);
            && s'.ask.None? && s'.outstanding == s.outstanding && |s'.flights| <= 1 && !s'.oneStep
            && (s'.flights != [] ==> s'.flights[0].stage.Entered?)
  {
    hide Shown;
  }

  /** The first ask is answered already: the second goes out and is noted before it. */
  lemma NotesCross(s: State)
    requires !s.oneStep && |s.flights| == 2 && s.flights[1].stage.Entered? && s.outstanding == []
    requires s.flights[0].stage.Sent? && s.flights[0].stage.before != s.listing.answered
    ensures !AlwaysOne(s)
  {
    hide AlwaysOne;
    var s1 := Next(s, Counts(1));
    var s2 := Next(s1, Sends(1));
    var s3 := Next(s2, Notes(1, 0));
    assert s3.flights == [s.flights[0]];
    WrongNoteLetsOneOut(Next(s3, Notes(0, 0)));
    NotYetOne(s3, Notes(0, 0));
    NotYetOne(s2, Notes(1, 0));
    NotYetOne(s1, Sends(1));
    NotYetOne(s, Counts(1));
  }

  /** At most one ask comes through the guard, and nothing reaches the host. */
  ghost predicate Enters(s: State, s': State) {
    && !s'.oneStep && s'.ask.None? && s'.outstanding == s.outstanding && s'.listing == s.listing
    && |s.flights| <= |s'.flights| <= |s.flights| + 1 && s'.flights[..|s.flights|] == s.flights
    && (|s'.flights| > |s.flights| ==> s'.flights[|s.flights|].stage.Entered?)
  }

  lemma OpenEnters(s: State, path: string, pushBack: bool, who: Who, now: int)
    requires !s.oneStep && s.ask.None?
    ensures Enters(s, OpenRemote(s, path, pushBack, who, now))
  {
  }

  lemma ReconnectEnters(s: State, now: int)
    requires !s.oneStep && s.ask.None?
    ensures Enters(s, Reconnected(s, now))
  {
    hide OpenRemote;
    var t := s.(connected := true, polled := None);
    if s.next.Some? {
      OpenEnters(t.(next := None), s.next.value.path, s.next.value.pushBack, s.next.value.who, now);
    }
    OpenEnters(t.(calls := s.calls + 1), s.pane.path, false, Caller(s.calls), now);
  }

  lemma StartEnters(s: State, remembered: Option<string>, now: int)
    requires !s.oneStep && s.ask.None?
    ensures Enters(s, Start(s, remembered, now))
  {
    hide OpenRemote;
    if remembered.Some? {
      OpenEnters(s, remembered.value, false, Remembered, now);
    } else if s.probed < |REMOTE_ROOTS| {
      OpenEnters(s.(probed := s.probed + 1), REMOTE_ROOTS[s.probed], false, Root(s.probed), now);
    }
  }

  lemma OverlapEnters(s: State, m: Move)
    requires !s.oneStep && s.ask.None? && Able(s, m) && Overlaps(s, m)
    ensures Enters(s, Next(s, m))
  {
    hide Enters, ApplyRemoteAnswer, Reconnected, OpenRemote, Start;
    match m
    case Outer(e) =>
      if e.Applies? {
        ReconnectEnters(s, e.now);
        EntersNoAsk(s, Reconnected(s, e.now));
        InertApply(Reconnected(s, e.now), s.polled.value, e.now);
      } else if e.Calls? {
        OpenEnters(s.(calls := s.calls + 1), e.path, e.pushBack, Caller(s.calls), e.now);
        EntersAnyCalls(s, s.calls + 1, Next(s, m));
      }
    case Starts(remembered, now) => StartEnters(s, remembered, now);
    case Counts(k) =>
    case Sends(k) =>
    case Notes(k, now) =>
    case Rejects(k, why) => RejectShrinks(s, k, why);
  }

  lemma EntersNoAsk(s: State, s': State)
    requires Enters(s, s')
    ensures s'.ask.None?
  {
  }

  lemma EntersAnyCalls(s: State, calls: nat, s': State)
    requires Enters(s.(calls := calls), s')
    ensures Enters(s, s')
  {
  }

  lemma RejectShrinks(s: State, k: nat, why: Rejection)
    requires k < |s.flights|
    ensures |Reject(s, k, why).flights| < |s.flights|
  {
  }

  lemma OverlapLetsTwoOut(s: State, m: Move)
    requires Single(s) && Able(s, m) && Overlaps(s, m)
    ensures !AlwaysOne(Next(s, m))
  {
    OverlapEnters(s, m);
    hide AlwaysOne, Next, Able;
    var s' := Next(s, m);
    assert s'.flights[0] == s'.flights[..1][0] == s.flights[0];
    if !s.flights[0].stage.Sent? {
      FirstGoesOut(s');
    } else if s.outstanding != [] {
      OneMoreGoesOut(s', 1);
    } else {
      NotesCross(s');
    }
  }

  /** A call behind an ask that threw: its request goes out next to the one nobody waits for, or is taken for it. */
  lemma StrandLetsTwoOut(s: State, m: Move)
    requires Single(s) && Able(s, m) && Strands(s, m)
    ensures !AlwaysOne(Next(s, m))
  {
    hide AlwaysOne;
    var s' := Next(s, m);
    assert s'.ask.None? && s'.flights == [] && s'.outstanding == s.outstanding && s'.polled == s.polled;
    if s.outstanding != [] {
      AnyCallGoesOut(s');
    } else {
      StaleReportLetsTwoOut(s');
    }
  }

  lemma StaleReportLetsTwoOut(s: State)
    requires !s.oneStep && s.ask.None? && s.flights == [] && s.outstanding == []
    requires s.polled.Some? && s.polled.value.answered != s.listing.answered
    ensures !AlwaysOne(s)
  {
    hide AlwaysOne;
    var s1 := Next(s, Outer(Calls("", false, 0)));
    var s2 := Next(s1, Counts(0));
    var s3 := Next(s2, Sends(0));
    WrongAnswerLetsOneOut(Next(s3, Notes(0, 0)));
    NotYetOne(s3, Notes(0, 0));
    NotYetOne(s2, Sends(0));
    NotYetOne(s1, Counts(0));
    NotYetOne(s, Outer(Calls("", false, 0)));
  }

  ghost predicate OneAllThrough(s: State, moves: seq<Move>) {
    forall k :: 0 <= k <= |moves| ==> AlwaysOne(AfterMoves(s, moves[..k]))
  }

  lemma AfterFirst(s: State, moves: seq<Move>, k: nat)
    requires k < |moves|
    ensures AfterMoves(s, moves[..k + 1]) == AfterMoves(Next(s, moves[0]), moves[1..][..k])
  {
    hide Next;
    assert moves[..k + 1][1..] == moves[1..][..k];
  }

  lemma {:induction false} OneListingFrom(s: State, moves: seq<Move>)
    requires Single(s) && AllAble(s, moves)
    ensures OneAllThrough(s, moves) <==> Careful(s, moves)
    decreases |moves|
  {
    SingleIsAlwaysOne(s);
    if moves != [] {
      var s' := Next(s, moves[0]);
      AfterFirst(s, moves, 0);
      assert AfterMoves(s', moves[1..][..0]) == s';
      if Overlaps(s, moves[0]) {
        OverlapLetsTwoOut(s, moves[0]);
      } else if Strands(s, moves[0]) {
        StrandLetsTwoOut(s, moves[0]);
      } else {
        MoveKeepsSingle(s, moves[0]);
        OneListingFrom(s', moves[1..]);
        hide Next, AlwaysOne, Single, Overlaps, Strands;
        if OneAllThrough(s, moves) {
          forall k | 0 <= k <= |moves[1..]|
            ensures AlwaysOne(AfterMoves(s', moves[1..][..k]))
          {
            AfterFirst(s, moves, k);
          }
        }
        if OneAllThrough(s', moves[1..]) {
          forall k | 0 <= k <= |moves|
            ensures AlwaysOne(AfterMoves(s, moves[..k]))
          {
            if k > 0 { AfterFirst(s, moves, k - 1); }
          }
        }
      }
    }
  }

  lemma OpenedIsSingle()
    ensures Single(OPENED)
  {
  }

  /**
   One listing at a time is kept exactly by the runs in which no call comes through the guard
   while another ask is between guard and assignment, and no ask throws behind a request that is
   still out or whose answer a poll is about to miss. Such a run holds at most one request at the
   host, and so does every way it goes on; after one that crosses, some way it goes on holds two,
   though nothing crosses any more. Other awaits may throw, and the start come late or twice.
   */
  lemma OneListingExactly(moves: seq<Move>)
    requires AllAble(OPENED, moves)
    ensures OneAllThrough(OPENED, moves) <==> Careful(OPENED, moves)
  {
    OpenedIsSingle();
    OneListingFrom(OPENED, moves);
  }

  /** A run with two requests at the host: a call while the first root's ask waits for the count. */
  lemma TwoListingsOut()
    ensures var moves := [Starts(None, 0), Outer(Calls("/home", true, 0)), Counts(0), Sends(0), Counts(1), Sends(1)];
            && AllAble(OPENED, moves)
            && AfterMoves(OPENED, moves).outstanding == [Request(Root(0), "C:\\"), Request(Caller(0), "/home")]
  {
    var moves := [Starts(None, 0), Outer(Calls("/home", true, 0)), Counts(0), Sends(0), Counts(1), Sends(1)];
    var s1 := Next(OPENED, moves[0]);
    var s2 := Next(s1, moves[1]);
    var s3 := Next(s2, moves[2]);
    var s4 := Next(s3, moves[3]);
    var s5 := Next(s4, moves[4]);
    var s6 := Next(s5, moves[5]);
    assert s6.outstanding == [Request(Root(0), "C:\\"), Request(Caller(0), "/home")];
    Unfold(OPENED, moves);
    Unfold(s1, moves[1..]);
    Unfold(s2, moves[2..]);
    Unfold(s3, moves[3..]);
    Unfold(s4, moves[4..]);
    Unfold(s5, moves[5..]);
    Unfold(s6, moves[6..]);
  }

  /** Another: the first root's ask throws behind its request, and a call goes out next to it. */
  lemma LateRejectionLeavesTwoOut()
    ensures var moves := [Starts(None, 0), Counts(0), Sends(0), Rejects(0, Core), Outer(Calls("/home", true, 0)),
                          Counts(0), Sends(0)];
            && AllAble(OPENED, moves)
            && AfterMoves(OPENED, moves).outstanding == [Request(Root(0), "C:\\"), Request(Caller(0), "/home")]
  {
    var moves := [Starts(None, 0), Counts(0), Sends(0), Rejects(0, Core), Outer(Calls("/home", true, 0)),
                  Counts(0), Sends(0)];
    var s1 := Next(OPENED, moves[0]);
    var s2 := Next(s1, moves[1]);
    var s3 := Next(s2, moves[2]);
    var s4 := Next(s3, moves[3]);
    var s5 := Next(s4, moves[4]);
    var s6 := Next(s5, moves[5]);
    var s7 := Next(s6, moves[6]);
    assert s7.outstanding == [Request(Root(0), "C:\\"), Request(Caller(0), "/home")];
    Unfold(OPENED, moves);
    Unfold(s1, moves[1..]);
    Unfold(s2, moves[2..]);
    Unfold(s3, moves[3..]);
    Unfold(s4, moves[4..]);
    Unfold(s5, moves[5..]);
    Unfold(s6, moves[6..]);
    Unfold(s7, moves[7..]);
  }

  lemma Unfold(s: State, moves: seq<Move>)
    ensures moves == [] ==> AllAble(s, moves) && AfterMoves(s, moves) == s
    ensures moves != [] ==>
              && (AllAble(s, moves) <==> Able(s, moves[0]) && AllAble(Next(s, moves[0]), moves[1..]))
              && AfterMoves(s, moves) == AfterMoves(Next(s, moves[0]), moves[1..])
  {
  }

  // ----- Asks taken apart do what asks of one step do ----------------------

  lemma OpenSettles(s: State, path: string, pushBack: bool, who: Who, now: int)
    requires !s.oneStep && s.flights == []
    ensures Settled(OpenRemote(s, path, pushBack, who, now), now)
         == OpenRemote(s.(oneStep := true), path, pushBack, who, now)
  {
  }

  lemma ProbeSettles(s: State, now: int)
    requires !s.oneStep && s.flights == []
    ensures Settled(ProbeNextRoot(s, now), now) == ProbeNextRoot(s.(oneStep := true), now)
  {
    hide OpenRemote;
    if s.probed < |REMOTE_ROOTS| {
      OpenSettles(s.(probed := s.probed + 1), REMOTE_ROOTS[s.probed], false, Root(s.probed), now);
    }
  }

  lemma SendSettles(s: State, now: int)
    requires !s.oneStep && s.flights == []
    ensures Settled(SendNextRemote(s, now), now) == SendNextRemote(s.(oneStep := true), now)
  {
    hide OpenRemote;
    if s.next.Some? {
      OpenSettles(s.(next := None), s.next.value.path, s.next.value.pushBack, s.next.value.who, now);
    }
  }

  lemma ApplySettles(s: State, report: Listing, now: int)
    requires !s.oneStep && s.flights == []
    ensures Settled(ApplyRemoteAnswer(s, report, now), now) == ApplyRemoteAnswer(s.(oneStep := true), report, now)
  {
    hide ProbeNextRoot, SendNextRemote, Shown;
    if s.ask.Some? {
      var t := Processed(s);
      ProbeSettles(t.(pane := s.pane.(loading := false)), now);
      SendSettles(t.(probing := false, pane := Shown(s.pane, s.ask.value, report)), now);
      var pane := s.pane.(loading := false,
                          problem := if s.pane.path == "" then Some(NoAnswer) else s.pane.problem);
      SendSettles(s.(ask := None, pane := pane, probing := false), now);
    }
  }

  lemma ReconnectSettles(s: State, now: int)
    requires !s.oneStep && s.flights == []
    ensures Settled(Reconnected(s, now), now) == Reconnected(s.(oneStep := true), now)
    ensures var u := Reconnected(s, now);
            u.flights != [] ==>
              s.ask.None? && u.ask.None? && CountOf(u, u.flights[0]) == s.listing.answered
  {
    var t := s.(connected := true, polled := None);
    SendSettles(t, now);
    OpenSettles(t.(calls := s.calls + 1), s.pane.path, false, Caller(s.calls), now);
  }

  lemma AppliesSettles(s: State, now: int)
    requires Single(s) && s.flights == [] && s.polled.Some?
    ensures Settled(PollApplies(s, now), now) == PollApplies(s.(oneStep := true), now)
  {
    var report, u := s.polled.value, Reconnected(s, now);
    ReconnectSettles(s, now);
    assert s.ask.None? ==> report.answered == s.listing.answered;
    hide Single, ApplyRemoteAnswer;
    if u.flights == [] {
      assert !u.oneStep by { hide Settled; }
      ApplySettles(u, report, now);
    } else {
      InertApply(u, report, now);
      hide Reconnected;
      EarlyApply(Settled(u, now), report, now);
    }
  }

  lemma EarlyApply(s: State, report: Listing, now: int)
    requires s.ask.Some? && s.ask.value.before == report.answered && s.ask.value.at == now
    ensures ApplyRemoteAnswer(s, report, now) == s
  {
  }

  /** The same state, but for when its request was noted. */
  predicate SameButTime(a: State, b: State) {
    a == b || (a.ask.Some? && b.ask.Some? && a == b.(ask := Some(b.ask.value.(at := a.ask.value.at))))
  }

  /** A move of the run proper: not the start over again, and no await that throws. */
  predicate Goes(m: Move) { !m.Starts? && !m.Rejects? }

  /** Settled, a move is nothing, what the same event does when asks are one step, or a poll that is dropped. */
  ghost predicate Follows(a: State, m: Move, b: State) {
    || SameButTime(b, a)
    || (m.Outer? && Possible(a, m.event) && SameButTime(b, Step(a, m.event)))
    || b == a.(connected := true, polled := None)
  }

  lemma PollFollows(s: State, now: int)
    requires Single(s) && Possible(s, Applies(now)) && !Overlaps(s, Outer(Applies(now)))
    ensures Follows(Settled(s, 0), Outer(Applies(now)), Settled(PollApplies(s, now), 0))
  {
    if s.flights == [] {
      AppliesSettles(s, now);
      hide Single, Reconnected, ApplyRemoteAnswer;
    } else {
      AppliesInFlight(s, now);
      hide Single, PollApplies;
    }
  }

  lemma EventFollows(s: State, e: Event)
    requires Single(s) && Possible(s, e) && !Overlaps(s, Outer(e)) && !e.Applies?
    ensures Follows(Settled(s, 0), Outer(e), Settled(Step(s, e), 0))
  {
    hide OneOutstanding, ReportHolds;
    match e
    case Calls(path, pushBack, now) => CallFollows(s, path, pushBack, now);
    case Answers(refused, path) => AnswerFollows(s, refused, path);
    case Reads => ReadFollows(s);
    case Fails => ReadFollows(s);
  }

  lemma CallFollows(s: State, path: string, pushBack: bool, now: int)
    requires Single(s) && !Overlaps(s, Outer(Calls(path, pushBack, now)))
    ensures Follows(Settled(s, 0), Outer(Calls(path, pushBack, now)), Settled(Call(s, path, pushBack, now), 0))
  {
    hide OneOutstanding, ReportHolds;
    assert s.flights == [];
    OpenSettles(s.(calls := s.calls + 1), path, pushBack, Caller(s.calls), now);
    hide OpenRemote;
  }

  lemma AnswerFollows(s: State, refused: Option<Refusal>, path: string)
    requires Single(s) && s.outstanding != []
    ensures Follows(Settled(s, 0), Outer(Answers(refused, path)), Settled(HostAnswers(s, refused, path), 0))
  {
    hide OneOutstanding, ReportHolds;
    assert Settled(HostAnswers(s, refused, path), 0) == HostAnswers(Settled(s, 0), refused, path);
  }

  lemma ReadFollows(s: State)
    ensures Settled(PollReads(s), 0) == PollReads(Settled(s, 0))
    ensures Settled(PollFails(s), 0) == PollFails(Settled(s, 0))
  {
  }

  /** The simulation: while nothing crosses, asks taken apart do, settled, what asks of one step do. */
  lemma MoveFollows(s: State, m: Move)
    requires Single(s) && Able(s, m) && Goes(m) && !Overlaps(s, m)
    ensures Follows(Settled(s, 0), m, Settled(Next(s, m), 0))
  {
    if m.Outer? {
      hide Single, Follows, Overlaps;
      if m.event.Applies? {
        PollFollows(s, m.event.now);
      } else {
        EventFollows(s, m.event);
      }
    } else {
      hide OneOutstanding, ReportHolds;
      assert SameButTime(Settled(Next(s, m), 0), Settled(s, 0));
    }
  }

  // ----- The newest call, in runs without an overlap -----------------------

  ghost predicate SettledInv(s: State) {
    Single(s) && Inv(Settled(s, 0))
  }

  lemma TimeDoesNotMatter(a: State, b: State)
    requires Inv(a) && SameButTime(b, a)
    ensures Inv(b)
  {
    hide Roots, Counting;
  }

  lemma FollowsKeepsInv(a: State, m: Move, b: State)
    requires Inv(a) && Follows(a, m, b)
    ensures Inv(b)
  {
    hide Inv, SameButTime, Step;
    if b == a.(connected := true, polled := None) {
      SameButPoll(a, b);
    } else if SameButTime(b, a) {
      TimeDoesNotMatter(a, b);
    } else {
      StepKeepsInv(a, m.event);
      TimeDoesNotMatter(Step(a, m.event), b);
    }
  }

  /** Whether the session is there, and what a poll has read, matter only to whether the report is true. */
  lemma SameButPoll(a: State, b: State)
    requires Inv(a) && b == a.(connected := b.connected, polled := b.polled) && ReportHolds(b)
    ensures Inv(b)
  {
    NewestSameButPoll(a, b);
    OrderSameButPoll(a, b);
    hide CallsInOrder, NewestWaits, ReportHolds, Roots, Counting;
  }

  lemma NewestSameButPoll(a: State, b: State)
    requires NewestWaits(a) && b == a.(connected := b.connected, polled := b.polled)
    ensures NewestWaits(b)
  {
  }

  lemma OrderSameButPoll(a: State, b: State)
    requires CallsInOrder(a) && b == a.(connected := b.connected, polled := b.polled)
    ensures CallsInOrder(b)
  {
  }

  lemma MoveKeepsSettled(s: State, m: Move)
    requires SettledInv(s) && Able(s, m) && Goes(m) && !Crosses(s, m)
    ensures SettledInv(Next(s, m))
  {
    hide Single, Inv, Overlaps, Strands, Follows;
    MoveKeepsSingle(s, m);
    MoveFollows(s, m);
    FollowsKeepsInv(Settled(s, 0), m, Settled(Next(s, m), 0));
  }

  lemma {:induction false} CarefulRunsKeepSettled(s: State, moves: seq<Move>)
    requires SettledInv(s) && AllAble(s, moves) && Careful(s, moves)
    requires forall i :: 0 <= i < |moves| ==> Goes(moves[i])
    ensures SettledInv(AfterMoves(s, moves))
    decreases |moves|
  {
    hide SettledInv, Able, Crosses, Next;
    if moves != [] {
      MoveKeepsSettled(s, moves[0]);
      CarefulRunsKeepSettled(Next(s, moves[0]), moves[1..]);
    }
  }

  lemma StartFollows(s: State, remembered: Option<string>, now: int)
    requires !s.oneStep && s.flights == []
    ensures Settled(Start(s, remembered, now), now) == Start(s.(oneStep := true), remembered, now)
  {
    hide OpenRemote, ProbeNextRoot;
    ProbeSettles(s, now);
    if remembered.Some? {
      OpenSettles(s, remembered.value, false, Remembered, now);
    }
  }

  lemma SettledTimes(s: State, at: int, at': int)
    ensures SameButTime(Settled(s, at'), Settled(s, at))
  {
  }

  lemma StartSettles(remembered: Option<string>, now: int)
    ensures SettledInv(Start(OPENED, remembered, now))
  {
    OpenedIsSingle();
    StartKeepsSingle(OPENED, remembered, now);
    StartFollows(OPENED, remembered, now);
    hide Single, Inv, Start, SameButTime, Settled;
    StartKeepsInv(remembered, now);
    var s := Start(OPENED, remembered, now);
    SettledTimes(s, now, 0);
    TimeDoesNotMatter(Settled(s, now), Settled(s, 0));
  }

  /**
   With asks taken apart, in every run without an overlap whose awaits do not throw: roots are asked
   for in order and each at most once, calls are processed in the order they were made, and once
   nothing is out or in flight nothing waits and the last answer processed is the newest call's.
   */
  lemma NewestCallWinsUncrossed(remembered: Option<string>, now: int, moves: seq<Move>)
    requires AllAble(Start(OPENED, remembered, now), moves) && Careful(Start(OPENED, remembered, now), moves)
    requires forall i :: 0 <= i < |moves| ==> Goes(moves[i])
    ensures var s := AfterMoves(Start(OPENED, remembered, now), moves);
            && |s.outstanding| <= 1
            && s.probed <= |REMOTE_ROOTS| && RootsAscend(s.asked)
            && (forall i, j :: 0 <= i < j < |s.processed| && s.processed[i].Caller? && s.processed[j].Caller? ==>
                  s.processed[i].number < s.processed[j].number)
            && (s.ask.None? && s.flights == [] ==>
                  && s.next.None? && s.processed != [] && !s.pane.loading
                  && (s.calls > 0 ==> s.processed[|s.processed| - 1] == Caller(s.calls - 1)))
  {
    StartSettles(remembered, now);
    CarefulRunsKeepSettled(Start(OPENED, remembered, now), moves);
    var s := AfterMoves(Start(OPENED, remembered, now), moves);
    SingleIsOne(s);
    RootsOfSettled(s);
    hide Start, AfterMoves, AllAble, Careful, Roots, Counting, RootsAscend, Single;
  }

  /** What is asked for is what has gone out and what is on its way. */
  lemma AscendsUnsettled(s: State)
    requires |s.flights| <= 1 && RootsAscend(Settled(s, 0).asked)
    ensures RootsAscend(s.asked)
  {
    if s.flights != [] && !s.flights[0].stage.Sent? {
      var f := s.flights[0];
      RootsAfterOne(s.asked, Request(f.who, f.path));
      var all := Roots(s.asked + [Request(f.who, f.path)]);
      var n := |Roots(s.asked)|;
      assert Roots(s.asked) == all[..n] == Counting(|all|)[..n] == Counting(n);
    }
  }

  lemma RootsOfSettled(s: State)
    requires SettledInv(s)
    ensures RootsAscend(s.asked)
  {
    hide OneOutstanding, ReportHolds;
    AscendsUnsettled(s);
  }

  /**
   In every run in which nothing crosses, awaits that throw included: an answer a poll acts on is
   the answer to the request the window waits for.
   */
  lemma UncrossedAnswersAreAttributed(moves: seq<Move>)
    requires AllAble(OPENED, moves) && Careful(OPENED, moves)
    ensures var s := AfterMoves(OPENED, moves);
            s.polled.Some? && s.ask.Some? && s.polled.value.answered != s.ask.value.before
            ==> s.polled.value.who == Some(s.ask.value.who)
  {
    OpenedIsSingle();
    CarefulRunsKeepSingle(OPENED, moves);
    hide AllAble, Careful, AfterMoves;
  }
}
