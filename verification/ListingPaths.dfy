/**
 What the listing protocol asks the host for and what it shows: every request names the folder it
 is for, asks one step or taken apart, and the pane ends on what the newest call's answer reported.
 */
module ListingPaths {
  import opened Options
  import opened RemoteListing
  import opened ListingAwaits

  /** A window with the paths of its calls, the folders remembered at its starts, and the reports acted on. */
  datatype Trace = Trace(state: State, called: seq<string>, folders: seq<string>, reports: seq<Listing>)

  function Traced(t: Trace, m: Move): Trace {
    var s, s' := t.state, Next(t.state, m);
    Trace(s',
          if s'.calls == s.calls then t.called
          else t.called + [if m.Outer? && m.event.Calls? then m.event.path else s.pane.path],
          if m.Starts? && m.remembered.Some? then t.folders + [m.remembered.value] else t.folders,
          if |s'.processed| > |s.processed| && s.polled.Some? then t.reports + [s.polled.value] else t.reports)
  }

  function TraceOf(t: Trace, moves: seq<Move>): Trace
    decreases |moves|
  {
    if moves == [] then t else TraceOf(Traced(t, moves[0]), moves[1..])
  }

  function From(s: State): Trace { Trace(s, [], [], []) }

  // ----- Paths -------------------------------------------------------------

  /** The path a request is to carry: its root, the folder its call named, or a folder remembered. */
  predicate Names(called: seq<string>, folders: seq<string>, who: Who, path: string) {
    match who
    case Root(i) => (i == 0 && path == "C:\\") || (i == 1 && path == "/")
    case Caller(n) => n < |called| && path == called[n]
    case Remembered => path in folders
  }

  /** Every request at the host or ever sent, noted, waiting or on its way carries the path it is to. */
  ghost predicate PathsInv(t: Trace) {
    var s := t.state;
    && |t.called| == s.calls
    && (forall i :: 0 <= i < |s.outstanding| ==>
          Names(t.called, t.folders, s.outstanding[i].who, s.outstanding[i].path))
    && (forall i :: 0 <= i < |s.asked| ==> Names(t.called, t.folders, s.asked[i].who, s.asked[i].path))
    && (s.ask.Some? ==> Names(t.called, t.folders, s.ask.value.who, s.ask.value.path))
    && (s.next.Some? ==> Names(t.called, t.folders, s.next.value.who, s.next.value.path))
    && (forall i :: 0 <= i < |s.flights| ==> Names(t.called, t.folders, s.flights[i].who, s.flights[i].path))
  }

  /** What is named stays named as calls are made and folders remembered. */
  ghost predicate Knows(t: Trace, t': Trace) {
    t.called <= t'.called && t.folders <= t'.folders
  }

  lemma PathsKept(t: Trace, t': Trace)
    requires PathsInv(t) && Knows(t, t') && |t'.called| == t'.state.calls
    requires t'.state.outstanding == t.state.outstanding && t'.state.asked == t.state.asked
    requires t'.state.ask == t.state.ask || t'.state.ask.None?
    requires t'.state.next == t.state.next || t'.state.next.None?
    requires t'.state.flights == t.state.flights
    ensures PathsInv(t')
  {
  }

  lemma OpenKeepsPaths(t: Trace, path: string, pushBack: bool, who: Who, now: int)
    requires PathsInv(t) && Names(t.called, t.folders, who, path)
    ensures PathsInv(t.(state := OpenRemote(t.state, path, pushBack, who, now)))
  {
    hide Names;
  }

  lemma ProbeKeepsPaths(t: Trace, now: int)
    requires PathsInv(t)
    ensures PathsInv(t.(state := ProbeNextRoot(t.state, now)))
  {
    hide OpenRemote;
    var s := t.state;
    PathsKept(t, t.(state := s.(probed := s.probed + 1)));
    PathsKept(t, t.(state := s.(probed := s.probed + 1, probing := false)));
    if s.probed < |REMOTE_ROOTS| {
      OpenKeepsPaths(t.(state := s.(probed := s.probed + 1)), REMOTE_ROOTS[s.probed], false, Root(s.probed), now);
    }
    hide PathsInv;
  }

  lemma SendKeepsPaths(t: Trace, now: int)
    requires PathsInv(t)
    ensures PathsInv(t.(state := SendNextRemote(t.state, now)))
  {
    hide OpenRemote, Names;
    var s := t.state;
    var t' := t.(state := s.(next := None));
    PathsKept(t, t');
    if s.next.Some? {
      SameNames(t, t', s.next.value.who, s.next.value.path);
      OpenKeepsPaths(t', s.next.value.path, s.next.value.pushBack, s.next.value.who, now);
    }
    hide PathsInv;
  }

  lemma SameNames(t: Trace, t': Trace, who: Who, path: string)
    requires Names(t.called, t.folders, who, path) && Knows(t, t')
    ensures Names(t'.called, t'.folders, who, path)
  {
  }

  /** A call, with its path added to those called. */
  lemma CallKeepsPaths(t: Trace, path: string, pushBack: bool, now: int)
    requires PathsInv(t)
    ensures PathsInv(t.(state := Call(t.state, path, pushBack, now), called := t.called + [path]))
  {
    hide OpenRemote;
    var s := t.state;
    var t' := t.(state := s.(calls := s.calls + 1), called := t.called + [path]);
    PathsKept(t, t');
    OpenKeepsPaths(t', path, pushBack, Caller(s.calls), now);
    hide PathsInv;
  }

  lemma ApplyKeepsPaths(t: Trace, report: Listing, now: int)
    requires PathsInv(t)
    ensures PathsInv(t.(state := ApplyRemoteAnswer(t.state, report, now)))
  {
    var s := t.state;
    if s.ask.Some? {
      var u := Processed(s);
      var probing, shown := u.(pane := s.pane.(loading := false)),
                            u.(probing := false, pane := Shown(s.pane, s.ask.value, report));
      var pane := s.pane.(loading := false,
                          problem := if s.pane.path == "" then Some(NoAnswer) else s.pane.problem);
      var late := s.(ask := None, pane := pane, probing := false);
      hide ProbeNextRoot, SendNextRemote, Shown, Names;
      PathsKept(t, t.(state := probing));
      PathsKept(t, t.(state := shown));
      PathsKept(t, t.(state := late));
      hide PathsInv;
      ProbeKeepsPaths(t.(state := probing), now);
      SendKeepsPaths(t.(state := shown), now);
      SendKeepsPaths(t.(state := late), now);
    }
  }

  /** The path of the call a reconnect makes, if it makes one. */
  function Refreshed(t: Trace, s': State): seq<string> {
    if s'.calls == t.state.calls then t.called else t.called + [t.state.pane.path]
  }

  lemma ReconnectKeepsPaths(t: Trace, now: int)
    requires PathsInv(t)
    ensures var u := Reconnected(t.state, now);
            PathsInv(t.(state := u, called := Refreshed(t, u)))
  {
    var s := t.state;
    var t' := t.(state := s.(connected := true, polled := None));
    PathsKept(t, t');
    SendKeepsPaths(t', now);
    CallKeepsPaths(t', s.pane.path, false, now);
    SendCalls(t'.state, now);
    hide PathsInv, OpenRemote;
    OpenCalls(t'.state.(calls := s.calls + 1), s.pane.path, false, Caller(s.calls), now);
  }

  lemma OpenCalls(s: State, path: string, pushBack: bool, who: Who, now: int)
    ensures OpenRemote(s, path, pushBack, who, now).calls == s.calls
  {
  }

  lemma SendCalls(s: State, now: int)
    ensures SendNextRemote(s, now).calls == s.calls
  {
  }

  lemma ApplyCalls(s: State, report: Listing, now: int)
    ensures ApplyRemoteAnswer(s, report, now).calls == s.calls
  {
    hide Shown;
  }

  lemma StartKeepsPaths(t: Trace, remembered: Option<string>, now: int)
    requires PathsInv(t)
    ensures var folders := if remembered.Some? then t.folders + [remembered.value] else t.folders;
            PathsInv(t.(state := Start(t.state, remembered, now), folders := folders))
  {
    if remembered.Some? {
      var t' := t.(folders := t.folders + [remembered.value]);
      PathsKept(t, t');
      OpenKeepsPaths(t', remembered.value, false, Remembered, now);
      hide PathsInv, OpenRemote;
    } else {
      ProbeKeepsPaths(t, now);
      hide PathsInv, ProbeNextRoot;
    }
  }

  lemma StartCalls(s: State, remembered: Option<string>, now: int)
    ensures Start(s, remembered, now).calls == s.calls
  {
  }

  lemma AwaitKeepsPaths(t: Trace, m: Move)
    requires PathsInv(t) && !m.Outer? && !m.Starts?
    ensures PathsInv(t.(state := Next(t.state, m))) && Next(t.state, m).calls == t.state.calls
  {
    hide Names;
    if Able(t.state, m) {
      hide PathsInv;
      match m
      case Counts(k) => CountKeepsPaths(t, k);
      case Sends(k) => DispatchKeepsPaths(t, k);
      case Notes(k, now) => NoteKeepsPaths(t, k, now);
      case Rejects(k, why) => RejectKeepsPaths(t, k, why);
    }
  }

  lemma CountKeepsPaths(t: Trace, k: nat)
    requires PathsInv(t) && k < |t.state.flights| && t.state.flights[k].stage.Entered?
    ensures PathsInv(t.(state := Count(t.state, k)))
  {
    hide Names;
  }

  lemma DispatchKeepsPaths(t: Trace, k: nat)
    requires PathsInv(t) && k < |t.state.flights| && t.state.flights[k].stage.Counted?
    ensures PathsInv(t.(state := Dispatch(t.state, k)))
  {
    hide Names;
  }

  lemma NoteKeepsPaths(t: Trace, k: nat, now: int)
    requires PathsInv(t) && k < |t.state.flights| && t.state.flights[k].stage.Sent?
    ensures PathsInv(t.(state := Note(t.state, k, now)))
  {
    hide Names;
  }

  lemma RejectKeepsPaths(t: Trace, k: nat, why: Rejection)
    requires PathsInv(t) && k < |t.state.flights|
    ensures PathsInv(t.(state := Reject(t.state, k, why)))
  {
    hide Names;
  }

  /** Reports kept or not, the paths are as they are. */
  lemma ReportsDoNotMatter(t: Trace, t': Trace)
    requires PathsInv(t) && t'.state == t.state && t'.called == t.called && t'.folders == t.folders
    ensures PathsInv(t')
  {
    PathsKept(t, t');
  }

  lemma MoveKeepsPaths(t: Trace, m: Move)
    requires PathsInv(t)
    ensures PathsInv(Traced(t, m))
  {
    var s, t' := t.state, Traced(t, m);
    if !Able(s, m) {
      ReportsDoNotMatter(t, t');
    } else if m.Outer? {
      EventKeepsPaths(t, m.event);
    } else if m.Starts? {
      StartKeepsPaths(t, m.remembered, m.now);
      StartCalls(s, m.remembered, m.now);
      hide PathsInv, Start;
      ReportsDoNotMatter(t'.(reports := t.reports), t');
    } else {
      AwaitKeepsPaths(t, m);
      hide PathsInv;
      ReportsDoNotMatter(t.(state := Next(s, m)), t');
    }
  }

  lemma EventKeepsPaths(t: Trace, e: Event)
    requires PathsInv(t) && Possible(t.state, e)
    ensures PathsInv(Traced(t, Outer(e)))
  {
    var s, t' := t.state, Traced(t, Outer(e));
    match e
    case Calls(path, pushBack, now) =>
      CallKeepsPaths(t, path, pushBack, now);
      OpenCalls(s.(calls := s.calls + 1), path, pushBack, Caller(s.calls), now);
      hide PathsInv, OpenRemote;
      ReportsDoNotMatter(t'.(reports := t.reports), t');
    case Answers(refused, path) => AnswerKeepsPaths(t, refused, path);
    case Reads => PathsKept(t, t');
    case Fails => PathsKept(t, t');
    case Applies(now) =>
      ReconnectKeepsPaths(t, now);
      var u := Reconnected(s, now);
      ApplyKeepsPaths(t.(state := u, called := Refreshed(t, u)), s.polled.value, now);
      ApplyCalls(u, s.polled.value, now);
      hide PathsInv, ApplyRemoteAnswer, Reconnected;
      ReportsDoNotMatter(t'.(reports := t.reports), t');
  }

  lemma AnswerKeepsPaths(t: Trace, refused: Option<Refusal>, path: string)
    requires PathsInv(t) && t.state.outstanding != []
    ensures PathsInv(Traced(t, Outer(Answers(refused, path))))
  {
    hide Names;
    var t' := Traced(t, Outer(Answers(refused, path)));
    assert t'.called == t.called && t'.folders == t.folders;
  }

  lemma {:induction false} RunsKeepPaths(t: Trace, moves: seq<Move>)
    requires PathsInv(t)
    ensures PathsInv(TraceOf(t, moves))
    decreases |moves|
  {
    hide PathsInv, Traced;
    if moves != [] {
      MoveKeepsPaths(t, moves[0]);
      RunsKeepPaths(Traced(t, moves[0]), moves[1..]);
    }
  }

  /**
   In every run, asks one step or taken apart, crossing or not: what the host is asked for is, for
   each root that root, for each call the folder that call named, and for the folder remembered it.
   */
  lemma RequestsNameTheirFolders(oneStep: bool, moves: seq<Move>)
    ensures var t := TraceOf(From(BLANK.(oneStep := oneStep)), moves);
            && |t.called| == t.state.calls
            && (forall i :: 0 <= i < |t.state.asked| ==>
                  Names(t.called, t.folders, t.state.asked[i].who, t.state.asked[i].path))
            && (forall i :: 0 <= i < |t.state.outstanding| ==>
                  Names(t.called, t.folders, t.state.outstanding[i].who, t.state.outstanding[i].path))
  {
    RunsKeepPaths(From(BLANK.(oneStep := oneStep)), moves);
    hide TraceOf, Names;
  }

  // ----- What is shown -----------------------------------------------------

  /** The last folder listed, refusals passed over. */
  function LastListed(reports: seq<Listing>): Option<string> {
    if reports == [] then None
    else
      var last := reports[|reports| - 1];
      if last.refused.None? then Some(last.path) else LastListed(reports[..|reports| - 1])
  }

  lemma ListedAfterOne(reports: seq<Listing>, report: Listing)
    ensures LastListed(reports + [report]) == if report.refused.None? then Some(report.path) else LastListed(reports)
  {
    assert (reports + [report])[..|reports|] == reports;
  }

  /** Each report acted on answers the request it was taken for, and the last folder listed is the one shown. */
  ghost predicate ReportsInv(t: Trace) {
    && |t.reports| == |t.state.processed|
    && (forall k :: 0 <= k < |t.reports| ==> t.reports[k].who == Some(t.state.processed[k]))
    && (t.reports != [] && t.reports[|t.reports| - 1].refused.None? ==>
          t.state.pane.path == t.reports[|t.reports| - 1].path)
    && (LastListed(t.reports).Some? && LastListed(t.reports).value != "" ==>
          t.state.pane.path == LastListed(t.reports).value)
  }

  predicate SamePane(s: State, s': State) {
    s'.processed == s.processed && s'.pane.path == s.pane.path && s'.pane.back == s.pane.back
  }

  lemma OpenSamePane(s: State, path: string, pushBack: bool, who: Who, now: int)
    ensures SamePane(s, OpenRemote(s, path, pushBack, who, now))
  {
  }

  lemma SendSamePane(s: State, now: int)
    ensures SamePane(s, SendNextRemote(s, now))
  {
  }

  lemma ProbeSamePane(s: State, now: int)
    ensures SamePane(s, ProbeNextRoot(s, now))
  {
  }

  /** What an answer makes of the pane: the folder it reports, the one left behind it, unless it refuses. */
  lemma AnswerShown(s: State, report: Listing, now: int)
    ensures var s' := ApplyRemoteAnswer(s, report, now);
            if s.ask.Some? && report.answered != s.ask.value.before
            then && s'.processed == s.processed + [s.ask.value.who]
                 && (report.refused.None? ==>
                       && s'.pane.path == report.path && s'.pane.problem.None?
                       && s'.pane.back == if s.ask.value.pushBack && s.pane.path != "" && s.pane.path != report.path
                                          then s.pane.back + [s.pane.path] else s.pane.back)
                 && (report.refused.Some? ==> s'.pane.back == s.pane.back)
                 && (report.refused == Some(NotGranted) ==> s'.pane.problem == Some(Denied(NotGranted)))
                 && (report.refused.Some? && s.pane.path != "" ==> s'.pane.path == s.pane.path)
            else SamePane(s, s')
  {
    if s.ask.Some? {
      var u := Processed(s);
      var pane := s.pane.(loading := false,
                          problem := if s.pane.path == "" then Some(NoAnswer) else s.pane.problem);
      hide ProbeNextRoot, SendNextRemote;
      ProbeSamePane(u.(pane := s.pane.(loading := false)), now);
      SendSamePane(u.(probing := false, pane := Shown(s.pane, s.ask.value, report)), now);
      SendSamePane(s.(ask := None, pane := pane, probing := false), now);
    }
  }

  /** A poll that finds the session back asks for what waited, or again for the folder shown. */
  lemma ReconnectAsksAgain(s: State, now: int)
    requires !s.oneStep && !s.connected
    ensures var u := Reconnected(s, now);
            && u.connected
            && (s.next.Some? && s.ask.None? ==>
                  var w := s.next.value;
                  u.flights == s.flights + [Flight(w.path, w.pushBack, w.who, Entered)])
            && (s.next.None? && s.pane.path != "" ==>
                  && u.calls == s.calls + 1
                  && (s.ask.None? ==> u.flights == s.flights + [Flight(s.pane.path, false, Caller(s.calls), Entered)])
                  && (s.ask.Some? ==> u.next == Some(Wait(s.pane.path, false, Caller(s.calls)))))
  {
  }

  /**
   What a rejection leaves: a session that is gone takes the request back to wait for it and goes on
   probing; any other drops the request and ends the probing, and says so if nothing is shown, or if
   the host is too old.
   */
  lemma RejectionLeaves(s: State, k: nat, why: Rejection)
    requires k < |s.flights|
    ensures var s', f := Reject(s, k, why), s.flights[k];
            && |s'.flights| == |s.flights| - 1 && !s'.pane.loading && SamePane(s, s') && s'.asked == s.asked
            && (why.Gone? ==> s'.next == Some(Wait(f.path, f.pushBack, f.who)) && s'.probing == s.probing)
            && (!why.Gone? ==> s'.next == s.next && !s'.probing)
            && (why.TooOld? ==> s'.pane.problem == Some(HostTooOld))
            && (why.Core? && s.pane.path == "" ==> s'.pane.problem == Some(Denied(BadPath)))
            && (why.Gone? || (why.Core? && s.pane.path != "") ==> s'.pane.problem == s.pane.problem)
  {
  }

  /** Whether the session was there when the window last heard: of a poll, or of an ask sent back. */
  function LastSeen(s: State, moves: seq<Move>, seen: bool): bool
    decreases |moves|
  {
    if moves == [] then seen
    else
      var m := moves[0];
      var now := if !Able(s, m) then seen
                 else if m == Outer(Fails) || (m.Rejects? && m.why.Gone?) then false
                 else if m.Outer? && m.event.Applies? then true
                 else seen;
      LastSeen(Next(s, m), moves[1..], now)
  }

  lemma {:induction false} ConnectedAsLastSeen(s: State, moves: seq<Move>)
    ensures AfterMoves(s, moves).connected == LastSeen(s, moves, s.connected)
    decreases |moves|
  {
    if moves != [] {
      ConnectedNext(s, moves[0]);
      hide Next, Able;
      ConnectedAsLastSeen(Next(s, moves[0]), moves[1..]);
    }
  }

  lemma ConnectedNext(s: State, m: Move)
    ensures Next(s, m).connected
         == if !Able(s, m) then s.connected
            else if m == Outer(Fails) || (m.Rejects? && m.why.Gone?) then false
            else if m.Outer? && m.event.Applies? then true
            else s.connected
  {
    if m.Outer? && m.event.Applies? && Able(s, m) {
      ReconnectConnects(s, m.event.now);
      hide Reconnected;
      ApplyConnected(Reconnected(s, m.event.now), s.polled.value, m.event.now);
      hide ApplyRemoteAnswer;
    }
  }

  lemma ReconnectConnects(s: State, now: int)
    ensures Reconnected(s, now).connected
  {
  }

  lemma ApplyConnected(s: State, report: Listing, now: int)
    ensures ApplyRemoteAnswer(s, report, now).connected == s.connected
  {
    hide Shown;
  }

  lemma ReconnectSamePane(s: State, now: int)
    requires !s.oneStep
    ensures var u := Reconnected(s, now); SamePane(s, u) && u.ask == s.ask
  {
  }

  lemma OtherSamePane(s: State, m: Move)
    requires Able(s, m) && !(m.Outer? && m.event.Applies?)
    ensures SamePane(s, Next(s, m))
  {
    if m.Starts? {
      hide OpenRemote;
      ProbeSamePane(s, m.now);
      if m.remembered.Some? {
        OpenSamePane(s, m.remembered.value, false, Remembered, m.now);
      }
      hide ProbeNextRoot;
    }
  }

  lemma MoveKeepsReports(t: Trace, m: Move)
    requires Single(t.state) && ReportsInv(t) && Able(t.state, m)
    ensures ReportsInv(Traced(t, m))
  {
    var s, t' := t.state, Traced(t, m);
    if m.Outer? && m.event.Applies? {
      AppliesKeepsReports(t, m.event.now);
    } else {
      OtherSamePane(s, m);
      hide Next, Single, Able;
    }
  }

  lemma AppliesKeepsReports(t: Trace, now: int)
    requires Single(t.state) && ReportsInv(t) && Possible(t.state, Applies(now))
    ensures ReportsInv(Traced(t, Outer(Applies(now))))
  {
    var s, t' := t.state, Traced(t, Outer(Applies(now)));
    var report := s.polled.value;
    ReconnectSamePane(s, now);
    AnswerShown(Reconnected(s, now), report, now);
    ListedAfterOne(t.reports, report);
    assert s.ask.Some? && report.answered != s.ask.value.before ==> report.who == Some(s.ask.value.who);
    hide Reconnected, ApplyRemoteAnswer, Single, LastListed;
  }

  lemma {:induction false} UncrossedRunsKeepReports(t: Trace, moves: seq<Move>)
    requires Single(t.state) && ReportsInv(t) && AllAble(t.state, moves) && Careful(t.state, moves)
    ensures TraceOf(t, moves).state == AfterMoves(t.state, moves) && ReportsInv(TraceOf(t, moves))
    decreases |moves|
  {
    if moves != [] {
      MoveKeepsSingle(t.state, moves[0]);
      MoveKeepsReports(t, moves[0]);
      hide Single, ReportsInv, Able, Crosses, Next;
      UncrossedRunsKeepReports(Traced(t, moves[0]), moves[1..]);
    }
  }

  /**
   With asks taken apart, in every run in which nothing crosses and no await throws: each report acted
   on answers the request it was taken for; and once nothing is out, the pane shows the folder the
   newest call's answer reported, if that answer is a listing.
   */
  lemma PaneShowsTheNewest(remembered: Option<string>, now: int, moves: seq<Move>)
    requires AllAble(Start(OPENED, remembered, now), moves) && Careful(Start(OPENED, remembered, now), moves)
    requires forall i :: 0 <= i < |moves| ==> Goes(moves[i])
    ensures var t := TraceOf(From(Start(OPENED, remembered, now)), moves);
            && |t.reports| == |t.state.processed|
            && (forall k :: 0 <= k < |t.reports| ==> t.reports[k].who == Some(t.state.processed[k]))
            && (t.state.ask.None? && t.state.flights == [] ==>
                  && t.reports != []
                  && var last := t.reports[|t.reports| - 1];
                     && (t.state.calls > 0 ==> last.who == Some(Caller(t.state.calls - 1)))
                     && (last.refused.None? ==> t.state.pane.path == last.path))
  {
    var s := Start(OPENED, remembered, now);
    OpenedIsSingle();
    StartKeepsSingle(OPENED, remembered, now);
    assert ReportsInv(From(s));
    UncrossedRunsKeepReports(From(s), moves);
    NewestCallWinsUncrossed(remembered, now, moves);
    hide Single, Start, AfterMoves, AllAble, Careful, TraceOf, LastListed, RootsAscend;
  }
}
