/**
 The file manager's transfer queue: jobs handed to the actor one at a time. A `pump` suspends
 while the actor takes a job, so it is two steps here, `PumpBegin` and `PumpFinish`, and the
 other methods may run between them.
 */
module TransferQueue {
  import opened Options

  datatype Direction = Upload | Download
  datatype JobState = Queued | Starting | Running | Done | Failed | Cancelled
  datatype Failure =
    | Declined | NotGranted | BadPath | Unreadable | TooMany | Unsupported | NoAnswer | Broken

  datatype Job = Job(
    id: nat, direction: Direction, name: string, source: string, target: string,
    isDir: bool, size: nat, state: JobState, transferId: Option<nat>, failure: Option<Failure>,
    submittedAt: int, baseline: set<nat>, refusalsBefore: int)

  datatype Item = Item(source: string, isDir: bool, size: nat)

  datatype RowState = RowRunning | RowCompleted | RowCancelled | RowFailed
  datatype Row = Row(peer: string, transferId: nat, name: string, incoming: bool, state: RowState)

  /** The reasons a host gives for refusing a download. */
  type FetchRefusal = f: Failure | f.NotGranted? || f.BadPath? || f.Unreadable? || f.TooMany?
    witness NotGranted

  datatype Counts = Counts(fetchesRefused: int, uploadsRefused: int, fetchRefused: Option<FetchRefusal>)

  /** How a call handing a job to the actor settled. */
  datatype CallResult = Resolved | Rejected(code: string, message: string)

  const FILE_START_TIMEOUT_MS: int := 600_000
  const DIR_START_TIMEOUT_MS: int := 20_000

  // ----- Small pieces ------------------------------------------------------

  predicate IsActive(job: Job) { job.state.Starting? || job.state.Running? }
  predicate IsQueued(job: Job) { job.state.Queued? }
  predicate IsEnded(job: Job) { job.state.Done? || job.state.Failed? || job.state.Cancelled? }

  predicate IsSeparator(c: char) { c == '/' || c == '\\' }

  function TrimSeparators(path: string): string {
    if path != "" && IsSeparator(path[|path| - 1]) then TrimSeparators(path[..|path| - 1]) else path
  }

  function AfterLastSeparator(path: string): string {
    if path == "" || IsSeparator(path[|path| - 1]) then ""
    else AfterLastSeparator(path[..|path| - 1]) + [path[|path| - 1]]
  }

  function BaseName(path: string): string {
    AfterLastSeparator(TrimSeparators(path))
  }

  ghost predicate AllSeparators(s: string) { forall i :: 0 <= i < |s| ==> IsSeparator(s[i]) }
  ghost predicate NoSeparators(s: string) { forall i :: 0 <= i < |s| ==> !IsSeparator(s[i]) }

  lemma {:induction false} TrimmedSplits(path: string) returns (trail: string)
    ensures path == TrimSeparators(path) + trail && AllSeparators(trail)
    ensures TrimSeparators(path) != "" ==> !IsSeparator(TrimSeparators(path)[|TrimSeparators(path)| - 1])
  {
    trail := "";
    if path != "" && IsSeparator(path[|path| - 1]) {
      var rest := TrimmedSplits(path[..|path| - 1]);
      trail := rest + [path[|path| - 1]];
    }
  }

  lemma {:induction false} LastPartSplits(path: string) returns (dir: string)
    ensures path == dir + AfterLastSeparator(path) && NoSeparators(AfterLastSeparator(path))
    ensures dir == "" || IsSeparator(dir[|dir| - 1])
  {
    dir := path;
    if path != "" && !IsSeparator(path[|path| - 1]) {
      dir := LastPartSplits(path[..|path| - 1]);
    }
  }

  /**
   The name of a path: between the last separator before it and the separators that trail it, and
   empty only if nothing but separators is there.
   */
  lemma BaseNameSplits(path: string) returns (dir: string, trail: string)
    ensures path == dir + BaseName(path) + trail
    ensures NoSeparators(BaseName(path)) && AllSeparators(trail) && (dir == "" || IsSeparator(dir[|dir| - 1]))
    ensures BaseName(path) == "" ==> dir == ""
  {
    trail := TrimmedSplits(path);
    dir := LastPartSplits(TrimSeparators(path));
  }

  predicate Includes(text: string, part: string) {
    part <= text || (text != "" && Includes(text[1..], part))
  }

  function Refusals(direction: Direction, counts: Counts): int {
    if direction.Download? then counts.fetchesRefused else counts.uploadsRefused
  }

  /** The first job of a kind, or the length of the list. */
  function First(jobs: seq<Job>, kind: Job -> bool): (i: nat)
    ensures i <= |jobs|
    ensures forall j :: 0 <= j < i ==> !kind(jobs[j])
    ensures i < |jobs| ==> kind(jobs[i])
  {
    if jobs == [] || kind(jobs[0]) then 0 else 1 + First(jobs[1..], kind)
  }

  function WithId(jobs: seq<Job>, id: nat): (i: nat)
    ensures i <= |jobs|
    ensures forall j :: 0 <= j < i ==> jobs[j].id != id
    ensures i < |jobs| ==> jobs[i].id == id
  {
    if jobs == [] || jobs[0].id == id then 0 else 1 + WithId(jobs[1..], id)
  }

  function OfPeer(rows: seq<Row>, peer: string): seq<Row> {
    if rows == [] then []
    else if rows[0].peer == peer then [rows[0]] + OfPeer(rows[1..], peer)
    else OfPeer(rows[1..], peer)
  }

  /** A row is kept just if it is this peer's. */
  lemma {:induction false} OfPeerExactly(rows: seq<Row>, peer: string, row: Row)
    ensures row in OfPeer(rows, peer) <==> row in rows && row.peer == peer
  {
    if rows != [] {
      OfPeerExactly(rows[1..], peer, row);
    }
  }

  /** And the rows kept stay in order, as often as they were there. */
  lemma {:induction false} OfPeerSplits(a: seq<Row>, b: seq<Row>, peer: string)
    ensures OfPeer(a + b, peer) == OfPeer(a, peer) + OfPeer(b, peer)
  {
    if a == [] {
      assert a + b == b;
    } else {
      OfPeerFirst(a, peer);
      OfPeerFirst(a + b, peer);
      hide OfPeer;
      OfPeerSplits(a[1..], b, peer);
      assert (a + b)[1..] == a[1..] + b;
    }
  }

  lemma OfPeerFirst(rows: seq<Row>, peer: string)
    requires rows != []
    ensures OfPeer(rows, peer) == (if rows[0].peer == peer then [rows[0]] else []) + OfPeer(rows[1..], peer)
  {
  }

  function RowIds(rows: seq<Row>): set<nat> {
    set i | 0 <= i < |rows| :: rows[i].transferId
  }

  function Unended(jobs: seq<Job>): (r: seq<Job>)
    ensures forall i :: 0 <= i < |r| ==> r[i] in jobs && !IsEnded(r[i])
  {
    if jobs == [] then []
    else if IsEnded(jobs[|jobs| - 1]) then Unended(jobs[..|jobs| - 1])
    else Unended(jobs[..|jobs| - 1]) + [jobs[|jobs| - 1]]
  }

  // ----- What one turn does to one job -------------------------------------

  /** The row a starting job takes for its own: new, its direction, its name. */
  predicate IsOwnRow(job: Job, row: Row) {
    row.transferId !in job.baseline && row.incoming == job.direction.Download? && row.name == job.name
  }

  function OwnRow(job: Job, rows: seq<Row>): (i: nat)
    ensures i <= |rows|
    ensures forall j :: 0 <= j < i ==> !IsOwnRow(job, rows[j])
    ensures i < |rows| ==> IsOwnRow(job, rows[i])
  {
    if rows == [] || IsOwnRow(job, rows[0]) then 0 else 1 + OwnRow(job, rows[1..])
  }

  function RowOf(job: Job, rows: seq<Row>): (i: nat)
    ensures i <= |rows|
    ensures forall j :: 0 <= j < i ==> Some(rows[j].transferId) != job.transferId
    ensures i < |rows| ==> Some(rows[i].transferId) == job.transferId
  {
    if rows == [] || Some(rows[0].transferId) == job.transferId then 0 else 1 + RowOf(job, rows[1..])
  }

  /** The first half of `advance`: a starting job finds its row, its refusal or its timeout. */
  function Claim(job: Job, rows: seq<Row>, counts: Option<Counts>, now: int): (r: Job)
    requires job.state.Starting?
    ensures r.id == job.id
  {
    var k := OwnRow(job, rows);
    if k < |rows| then job.(transferId := Some(rows[k].transferId), state := Running)
    else if counts.Some? && Refusals(job.direction, counts.value) != job.refusalsBefore then
      var why := if job.direction.Upload? then Declined
                 else if counts.value.fetchRefused.Some? then counts.value.fetchRefused.value else Broken;
      job.(state := Failed, failure := Some(why))
    else
      var waited := now - job.submittedAt;
      if job.isDir && waited > DIR_START_TIMEOUT_MS then job.(state := Done)
      else if !job.isDir && waited > FILE_START_TIMEOUT_MS then
        job.(state := Failed, failure := Some(NoAnswer))
      else job
  }

  /** The second half of `advance`: a running job follows its row, and ends when the row is gone. */
  function Settle(job: Job, rows: seq<Row>): (r: Job)
    requires job.state.Running?
    ensures r.id == job.id
  {
    var k := RowOf(job, rows);
    if k == |rows| then job.(state := Done)
    else match rows[k].state
      case RowRunning => job
      case RowCompleted => job.(state := Done)
      case RowCancelled => job.(state := Cancelled)
      case RowFailed => job.(state := Failed, failure := Some(Broken))
  }

  function Claimed(job: Job, rows: seq<Row>, counts: Option<Counts>, now: int): (r: Job)
    requires IsActive(job)
    ensures r.id == job.id
  {
    if job.state.Starting? then Claim(job, rows, counts, now) else job
  }

  function Settled(job: Job, rows: seq<Row>): (r: Job)
    ensures r.id == job.id
  {
    if job.state.Running? then Settle(job, rows) else job
  }

  function Started(job: Job, rows: seq<Row>, counts: Option<Counts>, now: int): Job {
    job.(baseline := RowIds(rows),
         refusalsBefore := if counts.Some? then Refusals(job.direction, counts.value) else 0,
         submittedAt := now, state := Starting)
  }

  /** What the actor's answer to the call does to the job it was made for. */
  function Answered(job: Job, result: CallResult): (r: Job)
    ensures r.id == job.id && r.transferId == job.transferId
  {
    if result.Resolved? then job
    else if result.code == "CORE" && Includes(result.message, "not permitted") then job.(state := Queued)
    else
      var why := if result.code == "PEER_TOO_OLD" then Unsupported
                 else if result.code == "CORE" && Includes(result.message, "malformed") then BadPath
                 else Broken;
      job.(state := Failed, failure := Some(why))
  }

  /**
   A starting job takes a row just if the snapshot has one that is new since it was handed over
   and of its name and direction; and it takes the first such one.
   */
  lemma ClaimTakesOwnRow(job: Job, rows: seq<Row>, counts: Option<Counts>, now: int)
    requires job.state.Starting?
    ensures var r := Claim(job, rows, counts, now);
            && (r.state.Running? <==> exists i :: 0 <= i < |rows| && IsOwnRow(job, rows[i]))
            && (r.state.Running? ==>
                  exists i :: 0 <= i < |rows| && IsOwnRow(job, rows[i]) && r.transferId == Some(rows[i].transferId)
                              && forall j :: 0 <= j < i ==> !IsOwnRow(job, rows[j]))
  {
    var k := OwnRow(job, rows);
    if k < |rows| {
      assert IsOwnRow(job, rows[k]);
    }
  }

  /** No job starts for ever: its time over, a turn finds its row or ends it, a folder as done. */
  lemma StartingEndsInTime(job: Job, rows: seq<Row>, counts: Option<Counts>, now: int)
    requires job.state.Starting?
    requires now - job.submittedAt > if job.isDir then DIR_START_TIMEOUT_MS else FILE_START_TIMEOUT_MS
    ensures var r := Settled(Claim(job, rows, counts, now), rows);
            && !r.state.Starting? && !r.state.Queued?
            && (r.failure == Some(NoAnswer) && job.failure.None? ==>
                  !job.isDir && forall i :: 0 <= i < |rows| ==> !IsOwnRow(job, rows[i]))
  {
    var k := OwnRow(job, rows);
  }

  // ----- What each method does to the queue --------------------------------

  /**
   The queue between steps: its list, and the locals of the `pump` that is suspended, if one
   is: the job it is waiting on, and the finished jobs it will return.
   */
  datatype State = State(
    jobs: seq<Job>, nextId: nat, busy: bool, owner: Option<nat>, finished: seq<Job>)

  const INITIAL: State := State([], 1, false, None, [])

  function NewJob(id: nat, direction: Direction, item: Item, target: string): Job {
    Job(id, direction, BaseName(item.source), item.source, target, item.isDir, item.size,
        Queued, None, None, 0, {}, 0)
  }

  function NewJobs(id: nat, direction: Direction, items: seq<Item>, target: string): (r: seq<Job>)
    ensures |r| == |items|
    ensures forall i :: 0 <= i < |items| ==> r[i].id == id + i && r[i].source == items[i].source
    ensures forall i :: 0 <= i < |items| ==> r[i].state.Queued? && r[i].transferId.None? && r[i].failure.None?
    ensures forall i :: 0 <= i < |items| ==>
              && r[i].direction == direction && r[i].target == target && r[i].name == BaseName(items[i].source)
              && r[i].isDir == items[i].isDir && r[i].size == items[i].size
  {
    if items == [] then []
    else
      var n := |items| - 1;
      NewJobs(id, direction, items[..n], target) + [NewJob(id + n, direction, items[n], target)]
  }

  function Add(s: State, direction: Direction, items: seq<Item>, target: string): State {
    s.(jobs := s.jobs + NewJobs(s.nextId, direction, items, target), nextId := s.nextId + |items|)
  }

  function CancelQueued(s: State, id: nat): State {
    var i := WithId(s.jobs, id);
    if i == |s.jobs| || !s.jobs[i].state.Queued? then s
    else s.(jobs := s.jobs[i := s.jobs[i].(state := Cancelled)])
  }

  function ClearFinished(s: State): State {
    s.(jobs := Unended(s.jobs))
  }

  /** The part of a turn that moves the active job on, if there is one. */
  function AdvanceActive(s: State, rows: seq<Row>, counts: Option<Counts>, now: int): State {
    var i := First(s.jobs, IsActive);
    if i == |s.jobs| then s
    else
      var job := Settled(Claimed(s.jobs[i], rows, counts, now), rows);
      s.(jobs := s.jobs[i := job], finished := if job.state.Done? then [job] else [])
  }

  /** The part of a turn that hands over the next job, and suspends. */
  function StartNext(s: State, rows: seq<Row>, counts: Option<Counts>, now: int): State {
    var i := First(s.jobs, IsQueued);
    if i == |s.jobs| then s.(busy := true)
    else s.(busy := true, owner := Some(s.jobs[i].id),
            jobs := s.jobs[i := Started(s.jobs[i], rows, counts, now)])
  }

  function PumpBegin(s: State, rows: seq<Row>, counts: Option<Counts>, now: int): State {
    if s.busy then s
    else
      var a := AdvanceActive(s, rows, counts, now);
      if First(a.jobs, IsActive) < |a.jobs| then a.(finished := []) else StartNext(a, rows, counts, now)
  }

  function PumpFinish(s: State, result: CallResult): State {
    var s' := s.(busy := false, owner := None, finished := []);
    if s.owner.None? then s'
    else
      var i := WithId(s.jobs, s.owner.value);
      if i == |s.jobs| then s' else s'.(jobs := s.jobs[i := Answered(s.jobs[i], result)])
  }

  // ----- The queue itself --------------------------------------------------

  /** How a `pump` call left its caller: with its answer, or waiting for the actor. */
  datatype Pumped = Returned(finished: seq<Job>) | Suspended(call: Option<Job>)

  class Queue {
    const peer: string
    var jobs: seq<Job>
    var nextId: nat
    var busy: bool
    var owner: Option<nat>
    var finished: seq<Job>

    ghost function View(): State
      reads this
    {
      State(jobs, nextId, busy, owner, finished)
    }

    constructor (peer: string)
      ensures this.peer == peer && View() == INITIAL
    {
      this.peer := peer;
      jobs, nextId, busy, owner, finished := [], 1, false, None, [];
    }

    method AddJobs(direction: Direction, items: seq<Item>, target: string) returns (added: seq<Job>)
      modifies this
      ensures View() == Add(old(View()), direction, items, target)
      ensures jobs == old(jobs) + added
    {
      hide BaseName;
      added := [];
      for i := 0 to |items|
        invariant nextId == old(nextId) + i
        invariant added == NewJobs(old(nextId), direction, items[..i], target)
        invariant jobs == old(jobs) && busy == old(busy) && owner == old(owner) && finished == old(finished)
      {
        assert items[..i + 1][..i] == items[..i];
        added := added + [NewJob(nextId, direction, items[i], target)];
        nextId := nextId + 1;
      }
      assert items[..|items|] == items;
      jobs := jobs + added;
    }

    method Active() returns (job: Option<Job>)
      ensures job.Some? <==> exists i :: 0 <= i < |jobs| && IsActive(jobs[i])
      ensures job.Some? ==> job.value in jobs && IsActive(job.value)
    {
      var i := First(jobs, IsActive);
      job := if i < |jobs| then Some(jobs[i]) else None;
    }

    method Cancel(id: nat) returns (taken: bool)
      modifies this
      ensures View() == CancelQueued(old(View()), id)
      ensures taken <==> View() != old(View())
    {
      var i := WithId(jobs, id);
      if i == |jobs| || !jobs[i].state.Queued? {
        return false;
      }
      ghost var before := jobs;
      jobs := jobs[i := jobs[i].(state := Cancelled)];
      assert jobs[i] != before[i];
      taken := true;
    }

    method Clear()
      modifies this
      ensures View() == ClearFinished(old(View()))
    {
      var keep := [];
      for i := 0 to |jobs|
        invariant keep == Unended(jobs[..i])
        invariant View() == old(View())
      {
        assert jobs[..i + 1][..i] == jobs[..i];
        if !IsEnded(jobs[i]) {
          keep := keep + [jobs[i]];
        }
      }
      assert jobs[..|jobs|] == jobs;
      jobs := keep;
    }

    /** Moves the active job on, if there is one, and notes it if it ended done. */
    method Advance(rows: seq<Row>, counts: Option<Counts>, now: int)
      modifies this`jobs, this`finished
      ensures View() == AdvanceActive(old(View()), rows, counts, now)
    {
      hide Claim, Settle;
      var i := First(jobs, IsActive);
      if i < |jobs| {
        var job := jobs[i];
        if job.state.Starting? {
          job := Claim(job, rows, counts, now);
        }
        if job.state.Running? {
          job := Settle(job, rows);
        }
        jobs := jobs[i := job];
        finished := if job.state.Done? then [job] else [];
      }
    }

    /** Marks the next queued job and makes the call for it; the answer comes later. */
    method CallNext(rows: seq<Row>, counts: Option<Counts>, now: int) returns (call: Option<Job>)
      requires !busy
      modifies this`jobs, this`owner, this`busy
      ensures View() == StartNext(old(View()), rows, counts, now)
      ensures busy && (call.Some? ==> call.value in jobs && owner == Some(call.value.id))
    {
      busy := true;
      var k := First(jobs, IsQueued);
      if k == |jobs| {
        return None;
      }
      var job := Started(jobs[k], rows, counts, now);
      owner := Some(job.id);
      jobs := jobs[k := job];
      assert jobs[k] == job;
      call := Some(job);
    }

    method Begin(transfers: seq<Row>, counts: Option<Counts>, now: int) returns (r: Pumped)
      modifies this
      ensures View() == PumpBegin(old(View()), OfPeer(transfers, peer), counts, now)
      ensures r.Returned? ==>
                r.finished == if old(busy) then []
                              else AdvanceActive(old(View()), OfPeer(transfers, peer), counts, now).finished
      ensures r.Suspended? <==> busy && !old(busy)
      ensures r.Suspended? && r.call.Some? ==> r.call.value in jobs && owner == Some(r.call.value.id)
    {
      hide AdvanceActive, StartNext;
      if busy {
        return Returned([]);
      }
      var rows := OfPeer(transfers, peer);
      Advance(rows, counts, now);
      if First(jobs, IsActive) < |jobs| {
        r := Returned(finished);
        finished := [];
        return;
      }
      var call := CallNext(rows, counts, now);
      r := Suspended(call);
    }

    method Finish(result: CallResult) returns (delivered: seq<Job>)
      requires busy
      modifies this
      ensures View() == PumpFinish(old(View()), result)
      ensures delivered == old(finished)
    {
      delivered := finished;
      if owner.Some? {
        var i := WithId(jobs, owner.value);
        if i < |jobs| {
          jobs := jobs[i := Answered(jobs[i], result)];
        }
      }
      busy, owner, finished := false, None, [];
    }
  }
}
