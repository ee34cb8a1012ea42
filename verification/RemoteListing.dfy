/**
 The remote pane's listing protocol: one request at the host at a time, only the newest of those
 waiting is kept, and the host's roots are probed until one answers. An ask - reading the answer
 count, sending the request, noting it - is one step in the results here; `ListingAwaits` takes it
 apart at its two awaits.
 */
module RemoteListing {
  import opened Options

  datatype Refusal = NotGranted | BadPath | Unreadable
  datatype Problem = Denied(why: Refusal) | NoAnswer | HostTooOld

  /** Who a request is from: the folder remembered from last time, a root probe, or a call. */
  datatype Who = Remembered | Root(index: nat) | Caller(number: nat)

  datatype Ask = Ask(path: string, before: nat, at: int, pushBack: bool, who: Who)
  datatype Wait = Wait(path: string, pushBack: bool, who: Who)

  /** A request as the host gets it. */
  datatype Request = Request(who: Who, path: string)

  /** An ask between its guard and its note: suspended on the count, then on the request. */
  datatype Stage = Entered | Counted(before: nat) | Sent(before: nat)
  /** Why an await throws: the host is too old, the actor will not send this, or the session is gone. */
  datatype Rejection = TooOld | Core | Gone

  datatype Flight = Flight(path: string, pushBack: bool, who: Who, stage: Stage)

  /** What the host reports: how many listings it answered, and what the last one was. */
  datatype Listing = Listing(answered: nat, refused: Option<Refusal>, path: string, who: Option<Who>)

  datatype Pane = Pane(path: string, back: seq<string>, loading: bool, problem: Option<Problem>)

  /**
   The window's state, the host's, and a history: the snapshot a poll in progress works from,
   every ask sent, every answer processed, and how many calls came from outside. Asks are one
   step, or there are those now in flight.
   */
  datatype State = State(
    ask: Option<Ask>, next: Option<Wait>, probed: nat, probing: bool, connected: bool, pane: Pane,
    listing: Listing, outstanding: seq<Request>,
    polled: Option<Listing>, asked: seq<Request>, processed: seq<Who>, calls: nat,
    oneStep: bool, flights: seq<Flight>)

  const REMOTE_ROOTS: seq<string> := ["C:\\", "/"]
  const REMOTE_LIST_TIMEOUT_MS: int := 15_000

  const BLANK: State :=
    State(None, None, 0, true, true, Pane("", [], false, None), Listing(0, None, "", None), [],
          None, [], [], 0, true, [])

  // ----- The methods -------------------------------------------------------

  function OpenRemote(s: State, path: string, pushBack: bool, who: Who, now: int): State {
    if s.ask.Some? then s.(next := Some(Wait(path, pushBack, who)))
    else if !s.oneStep then
      s.(pane := s.pane.(loading := true), flights := s.flights + [Flight(path, pushBack, who, Entered)])
    else s.(ask := Some(Ask(path, s.listing.answered, now, pushBack, who)),
            pane := s.pane.(loading := true),
            outstanding := s.outstanding + [Request(who, path)], asked := s.asked + [Request(who, path)])
  }

  /** The awaits of an ask in flight, when asks are not one step: the count is in. */
  function Count(s: State, k: nat): State
    requires k < |s.flights| && s.flights[k].stage.Entered?
  {
    s.(flights := s.flights[k := s.flights[k].(stage := Counted(s.listing.answered))])
  }

  /** The request reaches the host. */
  function Dispatch(s: State, k: nat): State
    requires k < |s.flights| && s.flights[k].stage.Counted?
  {
    var f := s.flights[k];
    s.(flights := s.flights[k := f.(stage := Sent(f.stage.before))],
       outstanding := s.outstanding + [Request(f.who, f.path)], asked := s.asked + [Request(f.who, f.path)])
  }

  /** The ask resumes, and notes what it waits for. */
  function Note(s: State, k: nat, now: int): State
    requires k < |s.flights| && s.flights[k].stage.Sent?
  {
    var f := s.flights[k];
    s.(flights := s.flights[..k] + s.flights[k + 1..],
       ask := Some(Ask(f.path, f.stage.before, now, f.pushBack, f.who)))
  }

  /** An await throws, the last one perhaps after the request went out; a session that is gone leaves it waiting. */
  function Reject(s: State, k: nat, why: Rejection): State
    requires k < |s.flights|
  {
    var f := s.flights[k];
    var t := s.(flights := s.flights[..k] + s.flights[k + 1..], pane := s.pane.(loading := false));
    match why
    case TooOld => t.(probing := false, pane := t.pane.(problem := Some(HostTooOld)))
    case Core => t.(probing := false,
                    pane := if t.pane.path == "" then t.pane.(problem := Some(Denied(BadPath))) else t.pane)
    case Gone => t.(connected := false, next := Some(Wait(f.path, f.pushBack, f.who)))
  }

  function ProbeNextRoot(s: State, now: int): State {
    var s' := s.(probed := s.probed + 1);
    if s.probed >= |REMOTE_ROOTS| then s'.(probing := false)
    else OpenRemote(s', REMOTE_ROOTS[s.probed], false, Root(s.probed), now)
  }

  function SendNextRemote(s: State, now: int): State {
    var s' := s.(next := None);
    if s.next.None? then s' else OpenRemote(s', s.next.value.path, s.next.value.pushBack, s.next.value.who, now)
  }

  /** The pane after an answer to `ask`. */
  function Shown(pane: Pane, ask: Ask, listing: Listing): Pane {
    if listing.refused.Some? then
      if listing.refused == Some(NotGranted) || pane.path == "" then
        pane.(loading := false, problem := Some(Denied(listing.refused.value)),
              path := if pane.path == "" then ask.path else pane.path)
      else pane.(loading := false)
    else
      pane.(loading := false, problem := None, path := listing.path,
            back := if ask.pushBack && pane.path != "" && pane.path != listing.path
                    then pane.back + [pane.path] else pane.back)
  }

  function ApplyRemoteAnswer(s: State, listing: Listing, now: int): State {
    if s.ask.None? then s
    else
      var ask := s.ask.value;
      if listing.answered == ask.before then
        if now - ask.at > REMOTE_LIST_TIMEOUT_MS then
          var pane := s.pane.(loading := false,
                              problem := if s.pane.path == "" then Some(NoAnswer) else s.pane.problem);
          SendNextRemote(s.(ask := None, pane := pane, probing := false), now)
        else s
      else
        var t := s.(ask := None, processed := s.processed + [ask.who]);
        if listing.refused.Some? && s.probing && listing.refused != Some(NotGranted)
           && s.probed < |REMOTE_ROOTS| then
          ProbeNextRoot(t.(pane := s.pane.(loading := false)), now)
        else
          SendNextRemote(t.(probing := false, pane := Shown(s.pane, ask, listing)), now)
  }

  /** A call from outside: a person, a refresh, a folder something landed in. */
  function Call(s: State, path: string, pushBack: bool, now: int): State {
    OpenRemote(s.(calls := s.calls + 1), path, pushBack, Caller(s.calls), now)
  }

  function Start(s: State, remembered: Option<string>, now: int): State {
    if remembered.Some? then OpenRemote(s, remembered.value, false, Remembered, now)
    else ProbeNextRoot(s, now)
  }

  /** The first half of a poll: it reads the host's report, and then waits for the transfer list. */
  function PollReads(s: State): State {
    s.(polled := Some(s.listing))
  }

  function PollFails(s: State): State {
    s.(connected := false, polled := None)
  }

  /** What a poll does ahead of its answer: nothing, or what a reconnect asks for. */
  function Reconnected(s: State, now: int): State {
    var t := s.(connected := true, polled := None);
    if !s.connected && s.next.Some? then SendNextRemote(t, now)
    else if !s.connected && s.pane.path != "" then Call(t, s.pane.path, false, now)
    else t
  }

  /** The second half: what the report read earlier makes of the window. */
  function PollApplies(s: State, now: int): State
    requires s.polled.Some?
  {
    ApplyRemoteAnswer(Reconnected(s, now), s.polled.value, now)
  }

  /** The host answers the request it has. */
  function HostAnswers(s: State, refused: Option<Refusal>, path: string): State
    requires s.outstanding != []
  {
    s.(listing := Listing(s.listing.answered + 1, refused, path, Some(s.outstanding[0].who)),
       outstanding := s.outstanding[1..])
  }

  // ----- Runs --------------------------------------------------------------

  datatype Event =
    | Calls(path: string, pushBack: bool, now: int)
    | Answers(refused: Option<Refusal>, path: string)
    | Reads
    | Fails
    | Applies(now: int)

  /**
   Polls follow one another, the host answers only what it was asked, and it answers in time: a
   poll that still finds no answer comes within the 15 seconds.
   */
  predicate Possible(s: State, e: Event) {
    match e
    case Calls(_, _, _) => true
    case Answers(_, _) => s.outstanding != []
    case Reads => s.polled.None?
    case Fails => true
    case Applies(now) =>
      s.polled.Some? && (s.ask.Some? && s.polled.value.answered == s.ask.value.before ==>
                           now - s.ask.value.at <= REMOTE_LIST_TIMEOUT_MS)
  }

  function Step(s: State, e: Event): State
    requires Possible(s, e)
  {
    match e
    case Calls(path, pushBack, now) => Call(s, path, pushBack, now)
    case Answers(refused, path) => HostAnswers(s, refused, path)
    case Reads => PollReads(s)
    case Fails => PollFails(s)
    case Applies(now) => PollApplies(s, now)
  }

  predicate AllPossible(s: State, events: seq<Event>)
    decreases |events|
  {
    events == [] || (Possible(s, events[0]) && AllPossible(Step(s, events[0]), events[1..]))
  }

  function After(s: State, events: seq<Event>): State
    requires AllPossible(s, events)
    decreases |events|
  {
    if events == [] then s else After(Step(s, events[0]), events[1..])
  }

  // ----- What every run keeps ----------------------------------------------

  /** The host holds the one request the window waits for, or has just answered it. */
  ghost predicate OneOutstanding(s: State) {
    if s.ask.None? then s.outstanding == []
    else
      var ask := s.ask.value;
      || (s.outstanding == [Request(ask.who, ask.path)] && s.listing.answered == ask.before)
      || (s.outstanding == [] && s.listing.answered == ask.before + 1 && s.listing.who == Some(ask.who))
  }

  /** A report read earlier is still true of the request the window waits for now. */
  ghost predicate ReportHolds(s: State) {
    s.polled.Some? ==>
      var report := s.polled.value;
      if s.ask.None? then report.answered == s.listing.answered
      else
        || report.answered == s.ask.value.before
        || (report.answered == s.listing.answered == s.ask.value.before + 1 && report == s.listing)
  }

  /** While probing, the request out is the probe; only the newest call waits, behind a request. */
  ghost predicate NewestWaits(s: State) {
    && (s.probing ==> s.ask.Some? && s.ask.value.who == if s.probed == 0 then Remembered else Root(s.probed - 1))
    && (s.next.Some? ==> s.ask.Some? && s.calls > 0 && s.next.value.who == Caller(s.calls - 1))
    && (s.ask.Some? && !s.ask.value.who.Caller? ==> (s.calls == 0 <==> s.next.None?))
    && (s.ask.Some? && s.ask.value.who.Caller? ==>
          && !s.probing && s.ask.value.who.number < s.calls
          && (s.ask.value.who.number == s.calls - 1 <==> s.next.None?))
    && (s.ask.None? ==> s.processed != [] && (s.calls > 0 ==> s.processed[|s.processed| - 1] == Caller(s.calls - 1)))
    && s.pane.loading == s.ask.Some?
  }

  /** Zero, one, two and so on. */
  function Counting(n: nat): (r: seq<nat>)
    ensures |r| == n && forall i :: 0 <= i < n ==> r[i] == i
  {
    seq(n, i => i)
  }

  function Roots(asked: seq<Request>): seq<nat> {
    if asked == [] then []
    else
      var last := asked[|asked| - 1].who;
      Roots(asked[..|asked| - 1]) + if last.Root? then [last.index] else []
  }

  /** The roots were asked for from the first on, each once. */
  ghost predicate RootsInOrder(s: State) {
    s.probed <= |REMOTE_ROOTS| && Roots(s.asked) == Counting(s.probed)
  }

  /** Calls are processed in the order they were made. */
  ghost predicate CallsInOrder(s: State) {
    && (forall i, j :: 0 <= i < j < |s.processed| && s.processed[i].Caller? && s.processed[j].Caller? ==>
          s.processed[i].number < s.processed[j].number)
    && (forall i :: 0 <= i < |s.processed| && s.processed[i].Caller? ==>
          && s.processed[i].number < s.calls
          && (s.ask.Some? && s.ask.value.who.Caller? ==> s.processed[i].number < s.ask.value.who.number)
          && (s.next.Some? ==> s.processed[i].number < s.calls - 1))
  }

  ghost predicate Inv(s: State) {
    s.oneStep && OneOutstanding(s) && ReportHolds(s) && NewestWaits(s) && RootsInOrder(s) && CallsInOrder(s)
  }

  lemma RootsAfterOne(asked: seq<Request>, request: Request)
    ensures Roots(asked + [request]) == Roots(asked) + if request.who.Root? then [request.who.index] else []
  {
    assert (asked + [request])[..|asked|] == asked;
  }

  lemma StartKeepsInv(remembered: Option<string>, now: int)
    ensures Inv(Start(BLANK, remembered, now))
  {
    var s := Start(BLANK, remembered, now);
    var first := if remembered.Some? then Request(Remembered, remembered.value) else Request(Root(0), REMOTE_ROOTS[0]);
    RootsAfterOne([], first);
    assert s.asked == [] + [first];
    assert Roots(s.asked) == Counting(s.probed);
  }

  lemma CallKeepsInv(s: State, path: string, pushBack: bool, now: int)
    requires Inv(s)
    ensures Inv(Call(s, path, pushBack, now))
  {
    assert Call(s, path, pushBack, now).oneStep;
    CallKeepsOrder(s, path, pushBack, now);
    CallKeepsRoots(s, path, pushBack, now);
    CallKeepsReport(s, path, pushBack, now);
    CallKeepsNewest(s, path, pushBack, now);
    hide *;
    InvIs(s);
    InvIs(Call(s, path, pushBack, now));
  }

  lemma InvIs(s: State)
    ensures Inv(s) <==>
              s.oneStep && OneOutstanding(s) && ReportHolds(s) && NewestWaits(s) && RootsInOrder(s) && CallsInOrder(s)
  {
  }

  lemma CallKeepsRoots(s: State, path: string, pushBack: bool, now: int)
    requires s.oneStep && RootsInOrder(s)
    ensures RootsInOrder(Call(s, path, pushBack, now))
  {
    RootsAfterOne(s.asked, Request(Caller(s.calls), path));
    hide Roots, Counting;
    assert Roots(s.asked) + [] == Roots(s.asked);
  }

  lemma CallKeepsReport(s: State, path: string, pushBack: bool, now: int)
    requires s.oneStep && OneOutstanding(s) && ReportHolds(s)
    ensures OneOutstanding(Call(s, path, pushBack, now)) && ReportHolds(Call(s, path, pushBack, now))
  {
  }

  lemma CallKeepsNewest(s: State, path: string, pushBack: bool, now: int)
    requires s.oneStep && NewestWaits(s)
    ensures NewestWaits(Call(s, path, pushBack, now))
  {
  }

  lemma CallKeepsOrder(s: State, path: string, pushBack: bool, now: int)
    requires s.oneStep && CallsInOrder(s)
    ensures CallsInOrder(Call(s, path, pushBack, now))
  {
  }

  lemma AnswerKeepsInv(s: State, refused: Option<Refusal>, path: string)
    requires Inv(s) && s.outstanding != []
    ensures Inv(HostAnswers(s, refused, path))
  {
  }

  /** Processing an answer: it is the answer to the request waited for, and what follows is in order. */
  lemma ApplyKeepsInv(s: State, report: Listing, now: int)
    requires Inv(s) && s.polled.None?
    requires ReportHolds(s.(polled := Some(report)))
    requires s.ask.Some? && report.answered == s.ask.value.before ==> now - s.ask.value.at <= REMOTE_LIST_TIMEOUT_MS
    ensures Inv(ApplyRemoteAnswer(s, report, now))
    ensures s.ask.Some? && report.answered != s.ask.value.before ==> report.who == Some(s.ask.value.who)
  {
    if s.ask.Some? && report.answered != s.ask.value.before {
      if report.refused.Some? && s.probing && report.refused != Some(NotGranted) && s.probed < |REMOTE_ROOTS| {
        ProbeKeepsInv(s, now);
      } else {
        NextKeepsInv(s, Shown(s.pane, s.ask.value, report), now);
      }
    }
  }

  /** The run once the answer waited for is in. */
  function Processed(s: State): State
    requires s.ask.Some?
  {
    s.(ask := None, processed := s.processed + [s.ask.value.who])
  }

  lemma ProbeKeepsInv(s: State, now: int)
    requires Inv(s) && s.polled.None? && s.ask.Some? && s.outstanding == []
    requires s.probing && s.probed < |REMOTE_ROOTS|
    ensures Inv(ProbeNextRoot(Processed(s).(pane := s.pane.(loading := false)), now))
  {
    var s' := ProbeNextRoot(Processed(s).(pane := s.pane.(loading := false)), now);
    ProbedRoots(s, s', now);
    ProcessedInOrder(s, s');
    hide CallsInOrder, RootsInOrder;
  }

  lemma ProbedRoots(s: State, s': State, now: int)
    requires s.oneStep && RootsInOrder(s) && s.ask.Some? && s.probed < |REMOTE_ROOTS|
    requires s' == ProbeNextRoot(Processed(s).(pane := s.pane.(loading := false)), now)
    ensures RootsInOrder(s')
  {
    hide Roots;
    RootsAfterOne(s.asked, Request(Root(s.probed), REMOTE_ROOTS[s.probed]));
    assert Roots(s.asked) + [s.probed] == Counting(s.probed + 1);
  }

  /** One more call processed, in its turn. */
  lemma ProcessedInOrder(s: State, s': State)
    requires CallsInOrder(s) && NewestWaits(s) && s.ask.Some?
    requires s'.processed == Processed(s).processed && s'.calls == s.calls
    requires || (s'.next == s.next && s'.ask.Some? && !s'.ask.value.who.Caller?)
             || (s'.next.None? && (s'.ask.Some? ==> s.next.Some? && s'.ask.value.who == s.next.value.who))
    ensures CallsInOrder(s')
  {
  }

  lemma NextKeepsInv(s: State, pane: Pane, now: int)
    requires Inv(s) && s.polled.None? && s.ask.Some? && s.outstanding == [] && !pane.loading
    ensures Inv(SendNextRemote(Processed(s).(probing := false, pane := pane), now))
  {
    var t := Processed(s).(probing := false, pane := pane);
    var s' := SendNextRemote(t, now);
    SentRoots(t, s', now);
    ProcessedInOrder(s, s');
    hide CallsInOrder, RootsInOrder;
  }

  lemma SentRoots(t: State, s': State, now: int)
    requires t.oneStep && RootsInOrder(t) && s' == SendNextRemote(t, now)
    requires t.next.Some? ==> t.next.value.who.Caller?
    ensures RootsInOrder(s')
  {
    if t.next.Some? {
      RootsAfterOne(t.asked, Request(t.next.value.who, t.next.value.path));
    }
  }

  lemma AppliesKeepsInv(s: State, now: int)
    requires Inv(s) && Possible(s, Applies(now))
    ensures Inv(PollApplies(s, now))
  {
    var t := s.(connected := true, polled := None);
    assert Inv(t) && ReportHolds(t.(polled := s.polled));
    if !s.connected && s.next.Some? {
      assert SendNextRemote(t, now) == t;
      hide Inv;
      ApplyKeepsInv(t, s.polled.value, now);
    } else if !s.connected && s.pane.path != "" {
      var u := Call(t, s.pane.path, false, now);
      CallKeepsInv(t, s.pane.path, false, now);
      assert ReportHolds(u.(polled := s.polled));
      hide Inv;
      ApplyKeepsInv(u, s.polled.value, now);
    } else {
      hide Inv;
      ApplyKeepsInv(t, s.polled.value, now);
    }
  }

  lemma StepKeepsInv(s: State, e: Event)
    requires Inv(s) && Possible(s, e)
    ensures Inv(Step(s, e))
  {
    match e
    case Calls(path, pushBack, now) => CallKeepsInv(s, path, pushBack, now);
    case Answers(refused, path) => AnswerKeepsInv(s, refused, path);
    case Reads =>
    case Fails =>
    case Applies(now) =>
      AppliesKeepsInv(s, now);
      hide Inv;
  }

  lemma {:induction false} RunsKeepInv(s: State, events: seq<Event>)
    requires Inv(s) && AllPossible(s, events)
    ensures Inv(After(s, events))
    decreases |events|
  {
    if events != [] {
      StepKeepsInv(s, events[0]);
      RunsKeepInv(Step(s, events[0]), events[1..]);
    }
  }

  /**
   In every run: the host never holds more than one request, the roots are asked for in order and
   each at most once, calls are processed in the order they were made, and once nothing is out
   nothing waits and the last answer processed is the newest call's.
   */
  lemma NewestCallWins(remembered: Option<string>, now: int, events: seq<Event>)
    requires AllPossible(Start(BLANK, remembered, now), events)
    ensures var s := After(Start(BLANK, remembered, now), events);
            && |s.outstanding| <= 1
            && s.probed <= |REMOTE_ROOTS| && Roots(s.asked) == Counting(s.probed)
            && (forall i, j :: 0 <= i < j < |s.processed| && s.processed[i].Caller? && s.processed[j].Caller? ==>
                  s.processed[i].number < s.processed[j].number)
            && (s.ask.None? ==>
                  && s.next.None? && s.processed != [] && !s.pane.loading
                  && (s.calls > 0 ==> s.processed[|s.processed| - 1] == Caller(s.calls - 1)))
  {
    StartKeepsInv(remembered, now);
    RunsKeepInv(Start(BLANK, remembered, now), events);
    hide Start, After, AllPossible, Roots, Counting;
  }

  /** In every run: an answer a poll acts on is the answer to the request the window waits for. */
  lemma AnswersAreAttributed(remembered: Option<string>, now: int, events: seq<Event>)
    requires AllPossible(Start(BLANK, remembered, now), events)
    ensures var s := After(Start(BLANK, remembered, now), events);
            s.polled.Some? && s.ask.Some? && s.polled.value.answered != s.ask.value.before
            ==> s.polled.value.who == Some(s.ask.value.who)
  {
    StartKeepsInv(remembered, now);
    RunsKeepInv(Start(BLANK, remembered, now), events);
  }

  /** The window has nothing out any more: what waited has gone out, or nothing did. */
  predicate GivesUp(s: State, s': State)
    requires s.ask.Some?
  {
    && !s'.probing && s'.next.None? && s'.processed == s.processed && s'.pane.path == s.pane.path
    && (s.pane.path == "" ==> s'.pane.problem == Some(NoAnswer))
    && (if s.next.None? then s'.ask.None? && !s'.pane.loading && s'.asked == s.asked
        else s'.ask.Some? && s'.ask.value.who == s.next.value.who && s'.ask.value.path == s.next.value.path
             && s'.asked == s.asked + [Request(s.next.value.who, s.next.value.path)])
  }

  /** A request with no answer is given up just if it was noted more than 15 seconds ago. */
  lemma GivenUpExactly(s: State, report: Listing, now: int)
    requires s.oneStep && s.ask.Some? && report.answered == s.ask.value.before
    ensures var s' := ApplyRemoteAnswer(s, report, now);
            && (now - s.ask.value.at > 15_000 ==> GivesUp(s, s'))
            && (now - s.ask.value.at <= 15_000 ==> s' == s)
  {
  }

  // ----- Calls ahead of the start ------------------------------------------

  /** The window after some calls made before it starts; nothing polls yet. */
  function Early(paths: seq<string>): State {
    if paths == [] then BLANK else Call(Early(paths[..|paths| - 1]), paths[|paths| - 1], true, 0)
  }

  /** The roots asked for were the first, the second and so on. */
  ghost predicate RootsAscend(asked: seq<Request>) {
    Roots(asked) == Counting(|Roots(asked)|)
  }

  ghost predicate AlwaysAscend(s: State) {
    forall events :: AllPossible(s, events) ==> RootsAscend(After(s, events).asked)
  }

  /** As long as no probe waits behind another request, roots go out as they are probed. */
  ghost predicate ProbesGoOut(s: State) {
    && s.oneStep && s.probed <= |REMOTE_ROOTS| && Roots(s.asked) == Counting(s.probed)
    && (s.next.Some? ==> !s.next.value.who.Root?)
  }

  lemma OpenKeepsProbes(s: State, path: string, pushBack: bool, who: Who, now: int)
    requires ProbesGoOut(s) && !who.Root?
    ensures ProbesGoOut(OpenRemote(s, path, pushBack, who, now))
  {
    RootsAfterOne(s.asked, Request(who, path));
  }

  lemma ProbeKeepsProbes(s: State, now: int)
    requires ProbesGoOut(s) && s.ask.None? && s.probed < |REMOTE_ROOTS|
    ensures ProbesGoOut(ProbeNextRoot(s, now))
  {
    RootsAfterOne(s.asked, Request(Root(s.probed), REMOTE_ROOTS[s.probed]));
    assert Roots(s.asked) + [s.probed] == Counting(s.probed + 1);
  }

  lemma SendKeepsProbes(s: State, now: int)
    requires ProbesGoOut(s)
    ensures ProbesGoOut(SendNextRemote(s, now))
  {
    if s.next.Some? {
      OpenKeepsProbes(s.(next := None), s.next.value.path, s.next.value.pushBack, s.next.value.who, now);
    }
  }

  lemma ApplyKeepsProbes(s: State, report: Listing, now: int)
    requires ProbesGoOut(s)
    ensures ProbesGoOut(ApplyRemoteAnswer(s, report, now))
  {
    if s.ask.Some? {
      var ask := s.ask.value;
      var t := Processed(s);
      if report.answered == ask.before {
        var pane := s.pane.(loading := false,
                            problem := if s.pane.path == "" then Some(NoAnswer) else s.pane.problem);
        SendKeepsProbes(s.(ask := None, pane := pane, probing := false), now);
      } else {
        if s.probed < |REMOTE_ROOTS| {
          ProbeKeepsProbes(t.(pane := s.pane.(loading := false)), now);
        }
        SendKeepsProbes(t.(probing := false, pane := Shown(s.pane, ask, report)), now);
      }
    }
  }

  lemma StepKeepsProbes(s: State, e: Event)
    requires ProbesGoOut(s) && Possible(s, e)
    ensures ProbesGoOut(Step(s, e))
  {
    hide ApplyRemoteAnswer, SendNextRemote;
    match e
    case Calls(path, pushBack, now) =>
      OpenKeepsProbes(s.(calls := s.calls + 1), path, pushBack, Caller(s.calls), now);
    case Answers(refused, path) =>
    case Reads =>
    case Fails =>
    case Applies(now) =>
      var t := s.(connected := true, polled := None);
      SendKeepsProbes(t, now);
      OpenKeepsProbes(t.(calls := t.calls + 1), s.pane.path, false, Caller(t.calls), now);
      ApplyKeepsProbes(t, s.polled.value, now);
      ApplyKeepsProbes(SendNextRemote(t, now), s.polled.value, now);
      ApplyKeepsProbes(Call(t, s.pane.path, false, now), s.polled.value, now);
  }

  lemma {:induction false} RunsKeepProbes(s: State, events: seq<Event>)
    requires ProbesGoOut(s) && AllPossible(s, events)
    ensures ProbesGoOut(After(s, events))
    decreases |events|
  {
    if events != [] {
      StepKeepsProbes(s, events[0]);
      RunsKeepProbes(Step(s, events[0]), events[1..]);
    }
  }

  lemma {:induction false} EarlyShape(paths: seq<string>)
    ensures ProbesGoOut(Early(paths))
    ensures var s := Early(paths);
            && s.probed == 0 && s.probing && s.connected && s.polled.None? && s.listing == BLANK.listing
            && (paths != [] ==> s.ask.Some? && s.ask.value.before == 0 && s.ask.value.at == 0
                                && s.asked == s.outstanding == [Request(Caller(0), paths[0])])
            && (paths == [] ==> s == BLANK)
  {
    if paths != [] {
      var n := |paths| - 1;
      EarlyShape(paths[..n]);
      var s := Early(paths[..n]);
      OpenKeepsProbes(s.(calls := s.calls + 1), paths[n], true, Caller(s.calls), 0);
      if n == 0 {
        assert s == BLANK;
      }
    } else {
      assert Roots([]) == Counting(0);
    }
  }

  lemma EarlyCallSkipsARoot(paths: seq<string>)
    requires paths != []
    ensures !AlwaysAscend(Start(Early(paths), None, 0))
  {
    EarlyShape(paths);
    var s := Start(Early(paths), None, 0);
    RefusedCallIsPassed(s);
    hide Start, Step, Possible, Roots;
    var e1, e2, e3 := Answers(Some(Unreadable), ""), Reads, Applies(1);
    ThreeSteps(s, e1, e2, e3);
    assert !RootsAscend(After(s, [e1, e2, e3]).asked);
  }

  lemma ThreeSteps(s: State, e1: Event, e2: Event, e3: Event)
    requires Possible(s, e1) && Possible(Step(s, e1), e2) && Possible(Step(Step(s, e1), e2), e3)
    ensures AllPossible(s, [e1, e2, e3])
    ensures After(s, [e1, e2, e3]) == Step(Step(Step(s, e1), e2), e3)
  {
    hide Step, Possible;
    var s1, s2 := Step(s, e1), Step(Step(s, e1), e2);
    var s3 := Step(s2, e3);
    assert [e1, e2, e3][1..] == [e2, e3] && [e2, e3][1..] == [e3] && [e3][1..] == [];
    assert AllPossible(s3, []) && After(s3, []) == s3;
    assert AllPossible(s2, [e3]) && After(s2, [e3]) == s3;
    assert AllPossible(s1, [e2, e3]) && After(s1, [e2, e3]) == s3;
  }

  lemma RefusedCallIsPassed(s: State)
    requires s.ask.Some? && s.ask.value.before == 0 && s.ask.value.at == 0 && s.listing.answered == 0
    requires s.asked == s.outstanding && |s.asked| == 1 && s.asked[0].who == Caller(0)
    requires s.oneStep && s.probed == 1 && s.probing && s.connected && s.polled.None?
    ensures var e1, e2, e3 := Answers(Some(Unreadable), ""), Reads, Applies(1);
            && Possible(s, e1) && Possible(Step(s, e1), e2) && Possible(Step(Step(s, e1), e2), e3)
            && !RootsAscend(Step(Step(Step(s, e1), e2), e3).asked)
  {
    var p := PollApplies(PollReads(HostAnswers(s, Some(Unreadable), "")), 1);
    assert p.asked == s.asked + [Request(Root(1), REMOTE_ROOTS[1])];
    RootsAfterOne(s.asked, Request(Root(1), REMOTE_ROOTS[1]));
    RootsAfterOne([], s.asked[0]);
    assert [] + [s.asked[0]] == s.asked;
    assert Roots(p.asked) == [1] && Counting(1)[0] == 0;
  }

  /**
   With each ask one step: whatever calls come ahead of the start, the roots are asked for in order
   in every run if and only if there are none, or a remembered folder is asked for first. Otherwise
   the first probe is left waiting behind a call, and a refusal of that call sends the second one
   past it.
   */
  lemma RootOrderExactly(paths: seq<string>, remembered: Option<string>)
    ensures AlwaysAscend(Start(Early(paths), remembered, 0)) <==> paths == [] || remembered.Some?
  {
    hide AlwaysAscend, OpenRemote;
    var early := Early(paths);
    EarlyShape(paths);
    if remembered.Some? {
      OpenKeepsProbes(early, remembered.value, false, Remembered, 0);
      GoingOutAscends(Start(early, remembered, 0));
    } else if paths == [] {
      ProbeKeepsProbes(early, 0);
      GoingOutAscends(Start(early, remembered, 0));
    } else {
      EarlyCallSkipsARoot(paths);
    }
  }

  lemma GoingOutAscends(s: State)
    requires ProbesGoOut(s)
    ensures AlwaysAscend(s)
  {
    forall events | AllPossible(s, events)
      ensures RootsAscend(After(s, events).asked)
    {
      RunsKeepProbes(s, events);
    }
  }

  // ----- The window --------------------------------------------------------

  class FileManager {
    var remoteAsk: Option<Ask>
    var remoteNext: Option<Wait>
    var probed: nat
    var probing: bool
    var connected: bool
    var pane: Pane
    /** What the host would report now, and what the poll in progress read. */
    var listing: Listing
    var polled: Option<Listing>
    /** The requests at the host, and the history of the run. */
    var outstanding: seq<Request>
    var asked: seq<Request>
    var processed: seq<Who>
    var calls: nat
    /** Whether an ask is one step, and otherwise the ones suspended at an await. */
    const oneStep: bool
    var flights: seq<Flight>

    ghost function View(): State
      reads this
    {
      State(remoteAsk, remoteNext, probed, probing, connected, pane, listing, outstanding,
            polled, asked, processed, calls, oneStep, flights)
    }

    constructor (oneStep: bool)
      ensures View() == BLANK.(oneStep := oneStep)
    {
      this.oneStep, flights := oneStep, [];
      remoteAsk, remoteNext, probed, probing, connected := None, None, 0, true, true;
      pane, listing, polled := Pane("", [], false, None), Listing(0, None, "", None), None;
      outstanding, asked, processed, calls := [], [], [], 0;
    }

    method OpenDirectory(path: string, pushBack: bool, who: Who, now: int)
      modifies this
      ensures View() == OpenRemote(old(View()), path, pushBack, who, now)
    {
      if remoteAsk.Some? {
        remoteNext := Some(Wait(path, pushBack, who));
        return;
      }
      pane := pane.(loading := true);
      if !oneStep {
        flights := flights + [Flight(path, pushBack, who, Entered)];
        return;
      }
      var before := listing.answered;
      outstanding, asked := outstanding + [Request(who, path)], asked + [Request(who, path)];
      remoteAsk := Some(Ask(path, before, now, pushBack, who));
    }

    method ResumeWithCount(k: nat)
      requires k < |flights| && flights[k].stage.Entered?
      modifies this`flights
      ensures View() == Count(old(View()), k)
    {
      flights := flights[k := flights[k].(stage := Counted(listing.answered))];
    }

    method SendRequest(k: nat)
      requires k < |flights| && flights[k].stage.Counted?
      modifies this`flights, this`outstanding, this`asked
      ensures View() == Dispatch(old(View()), k)
    {
      var f := flights[k];
      flights := flights[k := f.(stage := Sent(f.stage.before))];
      outstanding, asked := outstanding + [Request(f.who, f.path)], asked + [Request(f.who, f.path)];
    }

    method NoteAsk(k: nat, now: int)
      requires k < |flights| && flights[k].stage.Sent?
      modifies this`flights, this`remoteAsk
      ensures View() == Note(old(View()), k, now)
    {
      var f := flights[k];
      flights := flights[..k] + flights[k + 1..];
      remoteAsk := Some(Ask(f.path, f.stage.before, now, f.pushBack, f.who));
    }

    method CatchRejection(k: nat, why: Rejection)
      requires k < |flights|
      modifies this
      ensures View() == Reject(old(View()), k, why)
    {
      var f := flights[k];
      flights := flights[..k] + flights[k + 1..];
      pane := pane.(loading := false);
      match why {
        case TooOld =>
          probing := false;
          pane := pane.(problem := Some(HostTooOld));
        case Core =>
          probing := false;
          if pane.path == "" {
            pane := pane.(problem := Some(Denied(BadPath)));
          }
        case Gone =>
          connected := false;
          remoteNext := Some(Wait(f.path, f.pushBack, f.who));
      }
    }

    method ProbeNext(now: int)
      modifies this
      ensures View() == ProbeNextRoot(old(View()), now)
    {
      var k := probed;
      probed := probed + 1;
      if k >= |REMOTE_ROOTS| {
        probing := false;
        return;
      }
      OpenDirectory(REMOTE_ROOTS[k], false, Root(k), now);
    }

    method SendNext(now: int)
      modifies this
      ensures View() == SendNextRemote(old(View()), now)
    {
      var next := remoteNext;
      remoteNext := None;
      if next.Some? {
        OpenDirectory(next.value.path, next.value.pushBack, next.value.who, now);
      }
    }

    method ApplyAnswer(status: Listing, now: int)
      modifies this
      ensures View() == ApplyRemoteAnswer(old(View()), status, now)
    {
      hide OpenRemote;
      if remoteAsk.None? {
        return;
      }
      var ask := remoteAsk.value;
      if status.answered == ask.before {
        if now - ask.at > REMOTE_LIST_TIMEOUT_MS {
          remoteAsk := None;
          pane := pane.(loading := false, problem := if pane.path == "" then Some(NoAnswer) else pane.problem);
          probing := false;
          SendNext(now);
        }
        return;
      }
      remoteAsk := None;
      processed := processed + [ask.who];
      if status.refused.Some? && probing && status.refused != Some(NotGranted) && probed < |REMOTE_ROOTS| {
        pane := pane.(loading := false);
        ProbeNext(now);
        return;
      }
      probing := false;
      pane := Shown(pane, ask, status);
      SendNext(now);
    }

    /** A poll's second half, on the report its first half read. */
    method FinishPoll(now: int)
      requires polled.Some?
      modifies this
      ensures View() == PollApplies(old(View()), now)
    {
      hide OpenRemote, ApplyRemoteAnswer;
      var status := polled.value;
      polled := None;
      var reconnected := !connected;
      connected := true;
      if reconnected && remoteNext.Some? {
        SendNext(now);
      } else if reconnected && pane.path != "" {
        var number := calls;
        calls := calls + 1;
        OpenDirectory(pane.path, false, Caller(number), now);
      }
      ApplyAnswer(status, now);
    }
  }
}
