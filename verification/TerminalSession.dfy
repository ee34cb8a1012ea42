/**
 One terminal window's session: the shell the host named, what is drawn of it, and the chain
 of promises that keeps keystrokes in order.
 */
module TerminalSession {
  import opened Bytes
  import opened Options
  import opened TerminalPoll

  datatype Status = Idle | Opening | Open | Ended | RefusedByHost

  /** What reaches the screen: a shell's bytes, or a line of the window's own. */
  datatype Drawn = ShellBytes(shell: nat, data: seq<byte>) | EndedLine | RefusalLine(reason: Refusal)

  datatype State = State(shell: Option<nat>, status: Status, refusal: Option<Refusal>, drawn: seq<Drawn>)

  const NEW: State := State(None, Idle, None, [])

  // ----- Steps -------------------------------------------------------------

  /** Whether an ask goes out; a second one while the first is in flight is dropped. */
  predicate Asks(s: State) { !s.status.Opening? && !s.status.Open? }

  function AskOpen(s: State): State {
    if Asks(s) then s.(status := Opening, refusal := None) else s
  }

  function ApplyOne(s: State, e: Event): State {
    match e
    case Opened(shell) => s.(shell := Some(shell), status := Open)
    case Output(shell, data) =>
      if s.shell == Some(shell) then s.(drawn := s.drawn + [ShellBytes(shell, data)]) else s
    case Closed(shell) =>
      if s.shell == Some(shell) then s.(shell := None, status := Ended, drawn := s.drawn + [EndedLine]) else s
    case Refused(reason) =>
      s.(status := RefusedByHost, refusal := Some(reason), drawn := s.drawn + [RefusalLine(reason)])
  }

  function Apply(s: State, events: seq<Event>): State {
    if events == [] then s else ApplyOne(Apply(s, events[..|events| - 1]), events[|events| - 1])
  }

  function Close(s: State): State {
    if s.shell.None? then s else s.(shell := None, status := Ended)
  }

  // ----- Polls -------------------------------------------------------------

  /** Poll bodies applied one after another, each through the reader. */
  function ApplyBodies(s: State, bodies: seq<seq<byte>>): State {
    if bodies == [] then s
    else Apply(ApplyBodies(s, bodies[..|bodies| - 1]), Decoded(bodies[|bodies| - 1]))
  }

  /** The bodies the host writes for some batches of records. */
  function Bodies(batches: seq<seq<Raw>>): (r: seq<seq<byte>>)
    requires forall i :: 0 <= i < |batches| ==> WellFormed(batches[i])
    ensures |r| == |batches| && forall i :: 0 <= i < |r| ==> r[i] == Encode(batches[i])
  {
    seq(|batches|, i requires 0 <= i < |batches| => Encode(batches[i]))
  }

  function Joined(batches: seq<seq<Raw>>): seq<Raw> {
    if batches == [] then [] else Joined(batches[..|batches| - 1]) + batches[|batches| - 1]
  }

  lemma {:induction false} ApplySum(s: State, a: seq<Event>, b: seq<Event>)
    ensures Apply(s, a + b) == Apply(Apply(s, a), b)
  {
    if b == [] {
      assert a + b == a;
    } else {
      var n := |b| - 1;
      ApplySum(s, a, b[..n]);
      assert (a + b)[..|a + b| - 1] == a + b[..n];
    }
  }

  lemma {:induction false} EventsOfSum(a: seq<Raw>, b: seq<Raw>)
    ensures Events(a + b) == Events(a) + Events(b)
  {
    hide Meaning, Events;
    if a == [] {
      NoEvents();
      assert a + b == b;
    } else {
      FirstEvents(a);
      FirstEvents(a + b);
      EventsOfSum(a[1..], b);
      assert (a + b)[1..] == a[1..] + b;
    }
  }

  lemma FirstEvents(rs: seq<Raw>)
    requires rs != []
    ensures Events(rs) == Meaning(rs[0].shell, rs[0].event, rs[0].payload) + Events(rs[1..])
  {
    hide Meaning;
  }

  lemma {:induction false} BodiesApplyEvents(s: State, batches: seq<seq<Raw>>)
    requires forall i :: 0 <= i < |batches| ==> WellFormed(batches[i])
    ensures ApplyBodies(s, Bodies(batches)) == Apply(s, Events(Joined(batches)))
  {
    hide WellFormed, Encode, Decoded, Events;
    if batches == [] {
      NoEvents();
    } else {
      var n := |batches| - 1;
      BodiesApplyEvents(s, batches[..n]);
      assert Bodies(batches)[..n] == Bodies(batches[..n]);
      DecodeInvertsLayout(batches[n], 0);
      EventsOfSum(Joined(batches[..n]), batches[n]);
      ApplySum(s, Events(Joined(batches[..n])), Events(batches[n]));
    }
  }

  lemma NoEvents()
    ensures Events([]) == []
  {
  }

  /**
   What is drawn, and the session behind it, do not depend on how the host's records fell into
   poll bodies: any two ways to split them end the same, which is as their events in order.
   */
  lemma SplitDoesNotMatter(s: State, batches: seq<seq<Raw>>, others: seq<seq<Raw>>)
    requires forall i :: 0 <= i < |batches| ==> WellFormed(batches[i])
    requires forall i :: 0 <= i < |others| ==> WellFormed(others[i])
    requires Joined(batches) == Joined(others)
    ensures ApplyBodies(s, Bodies(batches)) == ApplyBodies(s, Bodies(others)) == Apply(s, Events(Joined(batches)))
  {
    hide WellFormed, ApplyBodies, Events;
    BodiesApplyEvents(s, batches);
    BodiesApplyEvents(s, others);
  }

  // ----- Runs --------------------------------------------------------------

  /** What happens to a session: the person opens or closes it, or the host says something. */
  datatype Step = Opens | Closes | Hears(event: Event)

  /** A session in a run: the asks the host has not answered, and every output it was sent. */
  datatype Run = Run(session: State, unanswered: nat, heard: seq<(Option<nat>, Event)>)

  const BEGUN: Run := Run(NEW, 0, [])

  predicate IsAnswer(e: Event) { e.Opened? || e.Refused? }

  function Next(r: Run, step: Step): Run {
    match step
    case Opens =>
      r.(session := AskOpen(r.session), unanswered := if Asks(r.session) then r.unanswered + 1 else r.unanswered)
    case Closes => r.(session := Close(r.session))
    case Hears(e) =>
      Run(ApplyOne(r.session, e),
          if IsAnswer(e) && r.unanswered > 0 then r.unanswered - 1 else r.unanswered,
          r.heard + [(r.session.shell, e)])
  }

  /** The host answers each ask once: an answer only while one is owed. */
  predicate Honest(r: Run, step: Step) {
    step.Hears? && IsAnswer(step.event) ==> r.unanswered > 0
  }

  function After(r: Run, steps: seq<Step>): Run
    decreases |steps|
  {
    if steps == [] then r else After(Next(r, steps[0]), steps[1..])
  }

  predicate AllHonest(r: Run, steps: seq<Step>)
    decreases |steps|
  {
    steps == [] || (Honest(r, steps[0]) && AllHonest(Next(r, steps[0]), steps[1..]))
  }

  /** The status says open just when there is a shell to type into. */
  predicate Consistent(s: State) { s.status.Open? <==> s.shell.Some? }

  /** A refusal is heard while a shell is held. */
  predicate IsStray(r: Run, step: Step) {
    step.Hears? && step.event.Refused? && r.session.shell.Some?
  }

  predicate HearsStray(r: Run, steps: seq<Step>)
    decreases |steps|
  {
    steps != [] && (IsStray(r, steps[0]) || HearsStray(Next(r, steps[0]), steps[1..]))
  }

  ghost predicate StaysConsistent(r: Run, steps: seq<Step>) {
    forall k :: 0 <= k <= |steps| ==> Consistent(After(r, steps[..k]).session)
  }

  lemma AfterFirst(r: Run, steps: seq<Step>, k: nat)
    requires k < |steps|
    ensures After(r, steps[..k + 1]) == After(Next(r, steps[0]), steps[1..][..k])
  {
    assert steps[..k + 1][1..] == steps[1..][..k];
  }

  /**
   Whatever the host sends, honest or not: status and shell are in step all through a run if and
   only if no refusal is heard while a shell is held.
   */
  lemma {:induction false} OnlyAStrayRefusalMisleads(r: Run, steps: seq<Step>)
    requires Consistent(r.session)
    ensures StaysConsistent(r, steps) <==> !HearsStray(r, steps)
    decreases |steps|
  {
    if steps != [] {
      var r' := Next(r, steps[0]);
      assert Consistent(r'.session) <==> !IsStray(r, steps[0]);
      AfterFirst(r, steps, 0);
      assert After(r', steps[1..][..0]) == r';
      if Consistent(r'.session) {
        OnlyAStrayRefusalMisleads(r', steps[1..]);
        hide Next, Consistent, HearsStray;
        if StaysConsistent(r, steps) {
          forall k | 0 <= k <= |steps[1..]|
            ensures Consistent(After(r', steps[1..][..k]).session)
          {
            AfterFirst(r, steps, k);
          }
        }
        if StaysConsistent(r', steps[1..]) {
          forall k | 0 <= k <= |steps|
            ensures Consistent(After(r, steps[..k]).session)
          {
            if k > 0 { AfterFirst(r, steps, k - 1); }
          }
        }
      }
    }
  }

  /** A run on which it is: the shell is held, and the session says refused. */
  lemma StrayRefusalMisleads()
    ensures var r := After(BEGUN, [Opens, Hears(Opened(1)), Hears(Refused(NotGranted))]);
            r.session.shell == Some(1) && r.session.status.RefusedByHost?
  {
    var steps := [Opens, Hears(Opened(1)), Hears(Refused(NotGranted))];
    assert steps[1..] == [Hears(Opened(1)), Hears(Refused(NotGranted))];
    assert steps[1..][1..] == [Hears(Refused(NotGranted))];
    assert steps[1..][1..][1..] == [];
  }

  /** What one event is to put on the screen, heard while `shell` was held. */
  function Shows(shell: Option<nat>, e: Event): seq<Drawn> {
    match e
    case Opened(_) => []
    case Output(from, data) => if shell == Some(from) then [ShellBytes(from, data)] else []
    case Closed(from) => if shell == Some(from) then [EndedLine] else []
    case Refused(reason) => [RefusalLine(reason)]
  }

  /** The screen as it is to be: the held shell's bytes, its end, and every refusal, in order. */
  function Screen(heard: seq<(Option<nat>, Event)>): seq<Drawn> {
    if heard == [] then []
    else
      var (shell, e) := heard[|heard| - 1];
      Screen(heard[..|heard| - 1]) + Shows(shell, e)
  }

  /** The last answer the host gave. */
  function LastAnswer(heard: seq<(Option<nat>, Event)>): Option<Event> {
    if heard == [] then None
    else
      var (_, e) := heard[|heard| - 1];
      if IsAnswer(e) then Some(e) else LastAnswer(heard[..|heard| - 1])
  }

  ghost predicate Inv(r: Run) {
    && Consistent(r.session)
    && (r.unanswered > 0 <==> r.session.status.Opening?) && r.unanswered <= 1
    && r.session.drawn == Screen(r.heard)
    && (r.session.shell.Some? ==> LastAnswer(r.heard) == Some(Opened(r.session.shell.value)))
    && (r.session.refusal.Some? <==> r.session.status.RefusedByHost?) && StatusFollows(r)
  }

  /** The status tells the host's last answer: none yet, a shell that is held or has ended, or a refusal. */
  ghost predicate StatusFollows(r: Run)
    requires r.session.refusal.Some? <==> r.session.status.RefusedByHost?
  {
    var answer, status := LastAnswer(r.heard), r.session.status;
    && (status.Idle? <==> r.unanswered == 0 && answer.None?)
    && (status.Opening? <==> r.unanswered > 0)
    && (status.Open? <==> r.unanswered == 0 && answer.Some? && answer.value.Opened? && r.session.shell.Some?)
    && (status.Ended? <==> r.unanswered == 0 && answer.Some? && answer.value.Opened? && r.session.shell.None?)
    && (status.RefusedByHost? <==> r.unanswered == 0 && answer.Some? && answer.value.Refused?)
    && (status.RefusedByHost? ==> answer.value.reason == r.session.refusal.value)
  }

  lemma HeardOne(heard: seq<(Option<nat>, Event)>, shell: Option<nat>, e: Event)
    ensures Screen(heard + [(shell, e)]) == Screen(heard) + Shows(shell, e)
    ensures LastAnswer(heard + [(shell, e)]) == if IsAnswer(e) then Some(e) else LastAnswer(heard)
  {
    assert (heard + [(shell, e)])[..|heard|] == heard;
  }

  lemma NextKeepsInv(r: Run, step: Step)
    requires Inv(r) && Honest(r, step)
    ensures Inv(Next(r, step))
  {
    if step.Hears? {
      HeardOne(r.heard, r.session.shell, step.event);
    }
  }

  lemma {:induction false} RunsKeepInv(r: Run, steps: seq<Step>)
    requires Inv(r) && AllHonest(r, steps)
    ensures Inv(After(r, steps))
    decreases |steps|
  {
    if steps != [] {
      NextKeepsInv(r, steps[0]);
      RunsKeepInv(Next(r, steps[0]), steps[1..]);
    }
  }

  /**
   In every run over a host that answers each ask once: the status is open exactly when there is
   a shell, which is the one the host named last, and otherwise tells what it answered last; at most
   one ask is out, and another goes out just if none is and no shell is held; and the screen is
   exactly the bytes heard from the shell held as they came, its end, and every refusal, in order.
   */
  lemma StatusAndScreenAreTrue(steps: seq<Step>)
    requires AllHonest(BEGUN, steps)
    ensures var r := After(BEGUN, steps);
            && (r.session.status.Open? <==> r.session.shell.Some?)
            && (r.session.shell.Some? ==> LastAnswer(r.heard) == Some(Opened(r.session.shell.value)))
            && (r.session.refusal.Some? <==> r.session.status.RefusedByHost?) && StatusFollows(r)
            && r.unanswered <= 1 && (Asks(r.session) <==> r.unanswered == 0 && r.session.shell.None?)
            && r.session.drawn == Screen(r.heard)
  {
    RunsKeepInv(BEGUN, steps);
  }

  /** A host that answers each ask once sends no stray refusal. */
  lemma {:induction false} HonestHostsDoNotStray(r: Run, steps: seq<Step>)
    requires Inv(r) && AllHonest(r, steps)
    ensures !HearsStray(r, steps)
    decreases |steps|
  {
    if steps != [] {
      NextKeepsInv(r, steps[0]);
      HonestHostsDoNotStray(Next(r, steps[0]), steps[1..]);
    }
  }

  // ----- Keystrokes --------------------------------------------------------

  datatype Progress = Waiting | Issued | Settled(ok: bool)

  /**
   One `send`: the call it will make, and the link of the chain it was hung on when it was
   made - the promise `#sending` held then, if any.
   */
  datatype Link = Link(shell: nat, data: seq<byte>, behind: Option<nat>, progress: Progress)

  /** The links made so far, what `#sending` holds, and the calls of `commands.input` in order. */
  datatype Chain = Chain(links: seq<Link>, sending: Option<nat>, calls: seq<nat>)

  const SILENT: Chain := Chain([], None, [])

  /** `send`: nothing without a shell, else a new link on the chain. */
  function Send(c: Chain, shell: Option<nat>, data: seq<byte>): Chain {
    if shell.None? then c
    else Chain(c.links + [Link(shell.value, data, c.sending, Waiting)], Some(|c.links|), c.calls)
  }

  /** A promise's callback runs once what it is hung on has settled, failed or not. */
  predicate MayIssue(c: Chain, k: nat) {
    && k < |c.links| && c.links[k].progress.Waiting?
    && (c.links[k].behind.Some? ==>
          c.links[k].behind.value < |c.links| && c.links[c.links[k].behind.value].progress.Settled?)
  }

  function Issue(c: Chain, k: nat): Chain
    requires MayIssue(c, k)
  {
    c.(links := c.links[k := c.links[k].(progress := Issued)], calls := c.calls + [k])
  }

  function Settle(c: Chain, k: nat, ok: bool): Chain
    requires k < |c.links| && c.links[k].progress.Issued?
  {
    c.(links := c.links[k := c.links[k].(progress := Settled(ok))])
  }

  datatype Turn = Sends(shell: Option<nat>, data: seq<byte>) | Issues(k: nat) | Settles(k: nat, ok: bool)

  predicate Enabled(c: Chain, t: Turn) {
    match t
    case Sends(_, _) => true
    case Issues(k) => MayIssue(c, k)
    case Settles(k, _) => k < |c.links| && c.links[k].progress.Issued?
  }

  function Turned(c: Chain, t: Turn): Chain
    requires Enabled(c, t)
  {
    match t
    case Sends(shell, data) => Send(c, shell, data)
    case Issues(k) => Issue(c, k)
    case Settles(k, ok) => Settle(c, k, ok)
  }

  predicate AllEnabled(c: Chain, turns: seq<Turn>)
    decreases |turns|
  {
    turns == [] || (Enabled(c, turns[0]) && AllEnabled(Turned(c, turns[0]), turns[1..]))
  }

  function AfterTurns(c: Chain, turns: seq<Turn>): Chain
    requires AllEnabled(c, turns)
    decreases |turns|
  {
    if turns == [] then c else AfterTurns(Turned(c, turns[0]), turns[1..])
  }

  /** Each link hangs on the one before; calls went out in order, one at a time. */
  ghost predicate ChainInv(c: Chain) {
    && c.sending == (if c.links == [] then None else Some(|c.links| - 1))
    && (forall k :: 0 <= k < |c.links| ==> c.links[k].behind == if k == 0 then None else Some(k - 1))
    && |c.calls| <= |c.links|
    && (forall k :: 0 <= k < |c.calls| ==> c.calls[k] == k)
    && (forall k :: 0 <= k < |c.links| ==> (c.links[k].progress.Waiting? <==> k >= |c.calls|))
    && (forall k :: 0 <= k < |c.calls| - 1 ==> c.links[k].progress.Settled?)
  }

  lemma TurnKeepsChain(c: Chain, t: Turn)
    requires ChainInv(c) && Enabled(c, t)
    ensures ChainInv(Turned(c, t))
  {
    match t
    case Sends(shell, data) =>
    case Issues(k) =>
      assert k == |c.calls|;
    case Settles(k, ok) =>
      assert k == |c.calls| - 1;
  }

  lemma {:induction false} TurnsKeepChain(c: Chain, turns: seq<Turn>)
    requires ChainInv(c) && AllEnabled(c, turns)
    ensures ChainInv(AfterTurns(c, turns))
    decreases |turns|
  {
    if turns != [] {
      TurnKeepsChain(c, turns[0]);
      TurnsKeepChain(Turned(c, turns[0]), turns[1..]);
    }
  }

  /**
   However fast keys are typed and whichever calls fail, the calls of `commands.input` go out in
   the order of `send`, each after the one before has settled.
   */
  lemma KeystrokesInOrder(turns: seq<Turn>)
    requires AllEnabled(SILENT, turns)
    ensures var c := AfterTurns(SILENT, turns);
            && |c.calls| <= |c.links|
            && (forall k :: 0 <= k < |c.calls| ==> c.calls[k] == k)
            && (forall j, k :: 0 <= j < k < |c.links| ==> !c.links[j].progress.Issued? || c.links[k].progress.Waiting?)
  {
    TurnsKeepChain(SILENT, turns);
    var c := AfterTurns(SILENT, turns);
    forall j, k | 0 <= j < k < |c.links|
      ensures !c.links[j].progress.Issued? || c.links[k].progress.Waiting?
    {
      if c.links[j].progress.Issued? {
        assert j >= |c.calls| - 1;
      }
    }
  }

  /** What was typed at a shell, in order: each send made while one was held. */
  function Typed(turns: seq<Turn>): seq<(nat, seq<byte>)>
    decreases |turns|
  {
    if turns == [] then []
    else (if turns[0].Sends? && turns[0].shell.Some? then [(turns[0].shell.value, turns[0].data)] else [])
         + Typed(turns[1..])
  }

  function Carried(links: seq<Link>): (r: seq<(nat, seq<byte>)>)
    ensures |r| == |links| && forall k :: 0 <= k < |links| ==> r[k] == (links[k].shell, links[k].data)
  {
    seq(|links|, k requires 0 <= k < |links| => (links[k].shell, links[k].data))
  }

  lemma {:induction false} LinksCarryWhatWasTyped(c: Chain, turns: seq<Turn>)
    requires AllEnabled(c, turns)
    ensures Carried(AfterTurns(c, turns).links) == Carried(c.links) + Typed(turns)
    decreases |turns|
  {
    if turns == [] {
      assert Carried(c.links) + [] == Carried(c.links);
    } else {
      var t := turns[0];
      var c' := Turned(c, t);
      var first := if t.Sends? && t.shell.Some? then [(t.shell.value, t.data)] else [];
      assert Carried(c'.links) == Carried(c.links) + first;
      LinksCarryWhatWasTyped(c', turns[1..]);
      assert Carried(c.links) + first + Typed(turns[1..]) == Carried(c.links) + (first + Typed(turns[1..]));
    }
  }

  /** The bytes and shells of the calls made are what was typed so far, from the first on. */
  lemma CallsCarryWhatWasTyped(turns: seq<Turn>)
    requires AllEnabled(SILENT, turns)
    ensures var c := AfterTurns(SILENT, turns);
            && |c.calls| <= |Typed(turns)| == |c.links|
            && forall k :: 0 <= k < |c.calls| ==>
                 c.calls[k] < |c.links|
                 && (c.links[c.calls[k]].shell, c.links[c.calls[k]].data) == Typed(turns)[k]
  {
    KeystrokesInOrder(turns);
    LinksCarryWhatWasTyped(SILENT, turns);
    var c := AfterTurns(SILENT, turns);
    assert Carried(c.links) == [] + Typed(turns) == Typed(turns);
  }

  /** A chain that waits always has a link that may go: no failed call holds the rest back. */
  lemma ChainNeverStalls(c: Chain)
    requires ChainInv(c) && |c.calls| < |c.links|
    requires forall k :: 0 <= k < |c.links| ==> !c.links[k].progress.Issued?
    ensures MayIssue(c, |c.calls|)
  {
  }

  // ----- The session -------------------------------------------------------

  class Session {
    var shell: Option<nat>
    var status: Status
    var refusal: Option<Refusal>
    var drawn: seq<Drawn>
    var chain: Chain

    ghost function View(): State
      reads this
    {
      State(shell, status, refusal, drawn)
    }

    constructor ()
      ensures View() == NEW && chain == SILENT
    {
      shell, status, refusal, drawn := None, Idle, None, [];
      chain := SILENT;
    }

    method OpenShell() returns (asked: bool)
      modifies this`status, this`refusal
      ensures View() == AskOpen(old(View()))
      ensures asked <==> Asks(old(View()))
    {
      if status.Opening? || status.Open? {
        return false;
      }
      status, refusal := Opening, None;
      asked := true;
    }

    method ApplyPoll(events: seq<Event>)
      modifies this`shell, this`status, this`refusal, this`drawn
      ensures View() == Apply(old(View()), events)
    {
      for i := 0 to |events|
        invariant View() == Apply(old(View()), events[..i])
      {
        assert events[..i + 1][..i] == events[..i];
        match events[i] {
          case Opened(s) =>
            shell, status := Some(s), Open;
          case Output(s, data) =>
            if shell == Some(s) {
              drawn := drawn + [ShellBytes(s, data)];
            }
          case Closed(s) =>
            if shell == Some(s) {
              shell, status, drawn := None, Ended, drawn + [EndedLine];
            }
          case Refused(reason) =>
            status, refusal, drawn := RefusedByHost, Some(reason), drawn + [RefusalLine(reason)];
        }
      }
      assert events[..|events|] == events;
    }

    method SendKeys(data: seq<byte>)
      modifies this`chain
      ensures chain == Send(old(chain), shell, data)
    {
      if shell.Some? {
        var sent := |chain.links|;
        chain := Chain(chain.links + [Link(shell.value, data, chain.sending, Waiting)], Some(sent), chain.calls);
      }
    }

    method CloseShell() returns (told: Option<nat>)
      modifies this`shell, this`status
      ensures View() == Close(old(View())) && shell.None?
      ensures told == old(shell)
    {
      told := shell;
      if shell.Some? {
        shell, status := None, Ended;
      }
    }
  }
}
