/**
 Runs of the transfer queue: every interleaving of its methods with a suspended `pump`, over
 an actor whose rows come in snapshots and whose transfer ids, once gone, never come back.
 */
module TransferRuns {
  import opened TransferQueue
  import opened Options

  datatype Event =
    | Adds(direction: Direction, items: seq<Item>, target: string)
    | Cancels(id: nat)
    | Clears
    | Begins(rows: seq<Row>, counts: Option<Counts>, now: int)
    | Finishes(result: CallResult)

  datatype Change = Change(id: nat, from: JobState, to: JobState)
  datatype Claiming = Claiming(job: nat, transfer: nat)

  /**
   A queue and its history: the jobs handed over and returned, each job state change, each
   row taken by a job, the adds and the requeues, and the transfer ids seen and still there.
   */
  datatype Run = Run(
    queue: State, handed: seq<nat>, returned: seq<nat>, changes: seq<Change>,
    claims: seq<Claiming>, added: nat, requeued: nat, seen: set<nat>, present: set<nat>)

  const START: Run := Run(INITIAL, [], [], [], [], 0, 0, {}, {})

  // ----- Steps -------------------------------------------------------------

  function Logged(changes: seq<Change>, from: Job, to: Job): seq<Change> {
    if from.state == to.state then changes else changes + [Change(from.id, from.state, to.state)]
  }

  function Ids(jobs: seq<Job>): (r: seq<nat>)
    ensures |r| == |jobs| && forall i :: 0 <= i < |jobs| ==> r[i] == jobs[i].id
  {
    seq(|jobs|, i requires 0 <= i < |jobs| => jobs[i].id)
  }

  function CancelRun(r: Run, id: nat): Run {
    var q := CancelQueued(r.queue, id);
    var i := WithId(r.queue.jobs, id);
    r.(queue := q,
       changes := if i < |q.jobs| then Logged(r.changes, r.queue.jobs[i], q.jobs[i]) else r.changes)
  }

  function ObserveRun(r: Run, rows: seq<Row>): Run {
    r.(seen := r.seen + RowIds(rows), present := RowIds(rows))
  }

  function AdvanceRun(r: Run, rows: seq<Row>, counts: Option<Counts>, now: int): Run {
    var q := AdvanceActive(r.queue, rows, counts, now);
    var i := First(r.queue.jobs, IsActive);
    if i == |r.queue.jobs| then r.(queue := q)
    else
      var job := r.queue.jobs[i];
      var claimed := Claimed(job, rows, counts, now);
      r.(queue := q,
         changes := Logged(Logged(r.changes, job, claimed), claimed, q.jobs[i]),
         claims := if claimed.transferId == job.transferId || claimed.transferId.None? then r.claims
                   else r.claims + [Claiming(job.id, claimed.transferId.value)])
  }

  function StartRun(r: Run, rows: seq<Row>, counts: Option<Counts>, now: int): Run {
    var q := StartNext(r.queue, rows, counts, now);
    var i := First(r.queue.jobs, IsQueued);
    if i == |r.queue.jobs| then r.(queue := q)
    else r.(queue := q, handed := r.handed + [r.queue.jobs[i].id],
            changes := Logged(r.changes, r.queue.jobs[i], q.jobs[i]))
  }

  function ReturnRun(r: Run): Run {
    r.(queue := r.queue.(finished := []), returned := r.returned + Ids(r.queue.finished))
  }

  function BeginRun(r: Run, rows: seq<Row>, counts: Option<Counts>, now: int): Run {
    if r.queue.busy then r
    else
      var a := AdvanceRun(ObserveRun(r, rows), rows, counts, now);
      if First(a.queue.jobs, IsActive) < |a.queue.jobs| then ReturnRun(a)
      else StartRun(a, rows, counts, now)
  }

  function FinishRun(r: Run, result: CallResult): Run {
    if !r.queue.busy then r
    else
      var q := PumpFinish(r.queue, result);
      var r' := r.(queue := q, returned := r.returned + Ids(r.queue.finished));
      if r.queue.owner.None? then r'
      else
        var i := WithId(r.queue.jobs, r.queue.owner.value);
        if i == |r.queue.jobs| then r'
        else r'.(changes := Logged(r.changes, r.queue.jobs[i], q.jobs[i]),
                 requeued := if q.jobs[i].state.Queued? then r.requeued + 1 else r.requeued)
  }

  function Step(r: Run, e: Event): Run {
    match e
    case Adds(direction, items, target) =>
      r.(queue := Add(r.queue, direction, items, target), added := r.added + |items|)
    case Cancels(id) => CancelRun(r, id)
    case Clears => r.(queue := ClearFinished(r.queue))
    case Begins(rows, counts, now) => BeginRun(r, rows, counts, now)
    case Finishes(result) => FinishRun(r, result)
  }

  /** The queue inside a run takes exactly the steps the queue's methods take. */
  lemma StepFollowsQueue(r: Run, e: Event)
    ensures Step(r, e).queue ==
            match e
            case Adds(direction, items, target) => Add(r.queue, direction, items, target)
            case Cancels(id) => CancelQueued(r.queue, id)
            case Clears => ClearFinished(r.queue)
            case Begins(rows, counts, now) => PumpBegin(r.queue, rows, counts, now)
            case Finishes(result) => if r.queue.busy then PumpFinish(r.queue, result) else r.queue
  {
  }

  /** What the actor keeps to: a snapshot shows no transfer that was seen and had gone. */
  predicate Allowed(r: Run, e: Event) {
    e.Begins? && !r.queue.busy ==> RowIds(e.rows) !! (r.seen - r.present)
  }

  function After(r: Run, events: seq<Event>): Run
    decreases |events|
  {
    if events == [] then r else After(Step(r, events[0]), events[1..])
  }

  predicate AllAllowed(r: Run, events: seq<Event>)
    decreases |events|
  {
    events == [] || (Allowed(r, events[0]) && AllAllowed(Step(r, events[0]), events[1..]))
  }

  // ----- The order of the list ---------------------------------------------

  predicate IsHandled(job: Job) { IsActive(job) || job.state.Done? || job.state.Failed? }

  ghost predicate IdsClimb(q: State) {
    && (forall i :: 0 <= i < |q.jobs| ==> q.jobs[i].id < q.nextId)
    && (forall i, j :: 0 <= i < j < |q.jobs| ==> q.jobs[i].id < q.jobs[j].id)
  }

  /** Everything before a job that was handed over has ended. */
  ghost predicate InOrder(jobs: seq<Job>) {
    forall i, j :: 0 <= i < j < |jobs| && IsHandled(jobs[j]) ==> IsEnded(jobs[i])
  }

  /** A suspended pump owns the one active job, or there is none. */
  ghost predicate OwnerIsActive(q: State) {
    && (q.owner.Some? ==> q.busy)
    && (!q.busy ==> q.finished == [])
    && (q.busy && q.owner.None? ==> forall i :: 0 <= i < |q.jobs| ==> !IsActive(q.jobs[i]))
    && (q.owner.Some? ==>
          exists i :: 0 <= i < |q.jobs| && q.jobs[i].id == q.owner.value && q.jobs[i].state.Starting?)
  }

  /** A row belongs to a running job, and not yet to one that waits for its own. */
  ghost predicate RowsFollowStates(jobs: seq<Job>) {
    forall i :: 0 <= i < |jobs| ==>
      && (jobs[i].state.Queued? || jobs[i].state.Starting? ==> jobs[i].transferId.None?)
      && (jobs[i].state.Running? ==> jobs[i].transferId.Some?)
  }

  ghost predicate ListInv(q: State) {
    IdsClimb(q) && InOrder(q.jobs) && OwnerIsActive(q) && RowsFollowStates(q.jobs)
  }

  lemma AddKeepsList(q: State, direction: Direction, items: seq<Item>, target: string)
    requires ListInv(q)
    ensures ListInv(Add(q, direction, items, target))
  {
    var q' := Add(q, direction, items, target);
    var n := |q.jobs|;
    assert forall i :: 0 <= i < n ==> q'.jobs[i] == q.jobs[i];
    assert forall i :: n <= i < |q'.jobs| ==>
        q'.jobs[i].id == q.nextId + (i - n) && q'.jobs[i].state.Queued? && q'.jobs[i].transferId.None?;
    AppendKeepsList(q, q');
  }

  lemma AppendKeepsList(q: State, q': State)
    requires ListInv(q) && |q.jobs| <= |q'.jobs| && q'.nextId == q.nextId + (|q'.jobs| - |q.jobs|)
    requires q'.owner == q.owner && q'.busy == q.busy && q'.finished == q.finished
    requires forall i :: 0 <= i < |q.jobs| ==> q'.jobs[i] == q.jobs[i]
    requires forall i :: |q.jobs| <= i < |q'.jobs| ==>
               q'.jobs[i].id == q.nextId + (i - |q.jobs|) && q'.jobs[i].state.Queued? && q'.jobs[i].transferId.None?
    ensures ListInv(q')
  {
    if q.owner.Some? {
      var i :| 0 <= i < |q.jobs| && q.jobs[i].id == q.owner.value && q.jobs[i].state.Starting?;
      assert q'.jobs[i].id == q.owner.value;
    }
  }

  /** Changing one job in the list, to any state its predecessors allow. */
  lemma ReplaceKeepsOrder(jobs: seq<Job>, k: nat, job: Job)
    requires k < |jobs| && InOrder(jobs)
    requires IsHandled(job) ==> forall i :: 0 <= i < k ==> IsEnded(jobs[i])
    requires IsEnded(job) || forall j :: k < j < |jobs| ==> !IsHandled(jobs[j])
    ensures InOrder(jobs[k := job])
  {
  }

  lemma CancelKeepsList(q: State, id: nat)
    requires ListInv(q)
    ensures ListInv(CancelQueued(q, id))
  {
    var q' := CancelQueued(q, id);
    var k := WithId(q.jobs, id);
    if q' != q {
      ReplaceKeepsOrder(q.jobs, k, q'.jobs[k]);
      if q.owner.Some? {
        var i :| 0 <= i < |q.jobs| && q.jobs[i].id == q.owner.value && q.jobs[i].state.Starting?;
        assert q'.jobs[i] == q.jobs[i];
      }
    }
  }

  /** Forgetting ended jobs keeps the others, in their order. */
  lemma {:induction false} UnendedIndices(jobs: seq<Job>, i: nat, j: nat) returns (i': nat, j': nat)
    requires i < j < |Unended(jobs)|
    ensures i' < j' < |jobs| && Unended(jobs)[i] == jobs[i'] && Unended(jobs)[j] == jobs[j']
  {
    var n := |jobs| - 1;
    var u := Unended(jobs[..n]);
    if IsEnded(jobs[n]) || j < |u| {
      i', j' := UnendedIndices(jobs[..n], i, j);
    } else {
      i' := UnendedIndex(jobs[..n], i);
      j' := n;
    }
  }

  lemma {:induction false} UnendedIndex(jobs: seq<Job>, i: nat) returns (i': nat)
    requires i < |Unended(jobs)|
    ensures i' < |jobs| && Unended(jobs)[i] == jobs[i']
  {
    var n := |jobs| - 1;
    var u := Unended(jobs[..n]);
    if IsEnded(jobs[n]) || i < |u| {
      i' := UnendedIndex(jobs[..n], i);
    } else {
      i' := n;
    }
  }

  lemma {:induction false} UnendedKeeps(jobs: seq<Job>, i: nat)
    requires i < |jobs| && !IsEnded(jobs[i])
    ensures jobs[i] in Unended(jobs)
  {
    var n := |jobs| - 1;
    if i < n {
      UnendedKeeps(jobs[..n], i);
    }
  }

  lemma ClearKeepsList(q: State)
    requires ListInv(q)
    ensures ListInv(ClearFinished(q))
  {
    var q' := ClearFinished(q);
    forall i, j | 0 <= i < j < |q'.jobs|
      ensures q'.jobs[i].id < q'.jobs[j].id && !IsHandled(q'.jobs[j])
    {
      var i', j' := UnendedIndices(q.jobs, i, j);
      assert !IsEnded(q.jobs[i']);
    }
    forall i | 0 <= i < |q'.jobs|
      ensures q'.jobs[i] in q.jobs
    {
    }
    if q.owner.Some? {
      var i :| 0 <= i < |q.jobs| && q.jobs[i].id == q.owner.value && q.jobs[i].state.Starting?;
      UnendedKeeps(q.jobs, i);
    }
  }

  lemma AdvancedJob(job: Job, rows: seq<Row>, counts: Option<Counts>, now: int)
    requires IsActive(job) && (job.state.Starting? ==> job.transferId.None?)
    requires job.state.Running? ==> job.transferId.Some?
    ensures var r := Settled(Claimed(job, rows, counts, now), rows);
            && r.id == job.id && !r.state.Queued?
            && (r.state.Starting? ==> r.transferId.None?) && (r.state.Running? ==> r.transferId.Some?)
  {
  }

  lemma AdvanceKeepsList(q: State, rows: seq<Row>, counts: Option<Counts>, now: int)
    requires ListInv(q) && !q.busy
    ensures ListInv(AdvanceActive(q, rows, counts, now).(finished := []))
  {
    var q' := AdvanceActive(q, rows, counts, now);
    var k := First(q.jobs, IsActive);
    if k < |q.jobs| {
      AdvancedJob(q.jobs[k], rows, counts, now);
      hide Claimed, Settled;
      assert IsHandled(q.jobs[k]);
      ReplaceKeepsOrder(q.jobs, k, q'.jobs[k]);
      hide InOrder;
    }
  }

  lemma StartKeepsList(q: State, rows: seq<Row>, counts: Option<Counts>, now: int)
    requires IdsClimb(q) && InOrder(q.jobs) && RowsFollowStates(q.jobs)
    requires !q.busy && q.owner.None? && First(q.jobs, IsActive) == |q.jobs|
    ensures ListInv(StartNext(q, rows, counts, now))
  {
    var q' := StartNext(q, rows, counts, now);
    var k := First(q.jobs, IsQueued);
    assert forall i :: 0 <= i < |q.jobs| ==> !IsActive(q.jobs[i]);
    if k < |q.jobs| {
      assert forall i :: 0 <= i < k ==> IsEnded(q.jobs[i]);
      assert forall j :: k < j < |q.jobs| ==> !IsHandled(q.jobs[j]);
      ReplaceKeepsOrder(q.jobs, k, q'.jobs[k]);
      assert q'.jobs[k].id == q'.owner.value;
    }
  }

  lemma FinishKeepsList(q: State, result: CallResult)
    requires ListInv(q) && q.busy
    ensures ListInv(PumpFinish(q, result))
  {
    var q' := PumpFinish(q, result);
    if q.owner.Some? {
      var k := OwnedJob(q);
      assert forall j :: k < j < |q.jobs| ==> !IsHandled(q.jobs[j]);
      ReplaceKeepsOrder(q.jobs, k, q'.jobs[k]);
    }
  }

  /** The job a suspended pump resumes on: still in the list, still starting, the only active one. */
  lemma OwnedJob(q: State) returns (k: nat)
    requires ListInv(q) && q.owner.Some?
    ensures k == WithId(q.jobs, q.owner.value) < |q.jobs| && q.jobs[k].state.Starting?
    ensures forall i :: 0 <= i < |q.jobs| && i != k ==> !IsActive(q.jobs[i])
  {
    k :| 0 <= k < |q.jobs| && q.jobs[k].id == q.owner.value && q.jobs[k].state.Starting?;
    assert IsHandled(q.jobs[k]) && !IsEnded(q.jobs[k]);
    assert forall j :: k < j < |q.jobs| ==> !IsHandled(q.jobs[j]);
  }

  lemma StepKeepsList(r: Run, e: Event)
    requires ListInv(r.queue)
    ensures ListInv(Step(r, e).queue)
  {
    StepFollowsQueue(r, e);
    match e
    case Adds(direction, items, target) => AddKeepsList(r.queue, direction, items, target);
    case Cancels(id) => CancelKeepsList(r.queue, id);
    case Clears => ClearKeepsList(r.queue);
    case Begins(rows, counts, now) =>
      if !r.queue.busy {
        AdvanceKeepsList(r.queue, rows, counts, now);
        var a := AdvanceActive(r.queue, rows, counts, now);
        if First(a.jobs, IsActive) == |a.jobs| {
          StartKeepsList(a, rows, counts, now);
        }
      }
    case Finishes(result) =>
      if r.queue.busy {
        FinishKeepsList(r.queue, result);
      }
  }

  // ----- Hand-over order ---------------------------------------------------

  ghost predicate Sorted(ids: seq<nat>) {
    forall i, j :: 0 <= i < j < |ids| ==> ids[i] <= ids[j]
  }

  /** Jobs were handed over in add order, and whatever is left behind one has ended. */
  ghost predicate HandedInv(r: Run) {
    && Sorted(r.handed)
    && (forall h :: h in r.handed ==> h < r.queue.nextId)
    && (forall h, i :: h in r.handed && 0 <= i < |r.queue.jobs| && r.queue.jobs[i].id < h
                       ==> IsEnded(r.queue.jobs[i]))
  }

  /** A list whose ended jobs stay ended or are forgotten, and whose new jobs have new ids. */
  ghost predicate Grows(q: State, q': State) {
    q.nextId <= q'.nextId
    && forall i :: 0 <= i < |q'.jobs| ==>
         || q.nextId <= q'.jobs[i].id
         || exists k :: 0 <= k < |q.jobs| && q.jobs[k].id == q'.jobs[i].id
                        && (IsEnded(q.jobs[k]) ==> q'.jobs[i] == q.jobs[k])
  }

  lemma GrowthKeepsHanded(r: Run, r': Run)
    requires HandedInv(r) && Grows(r.queue, r'.queue) && r'.handed == r.handed
    ensures HandedInv(r')
  {
    forall h, i | h in r'.handed && 0 <= i < |r'.queue.jobs| && r'.queue.jobs[i].id < h
      ensures IsEnded(r'.queue.jobs[i])
    {
      var k :| 0 <= k < |r.queue.jobs| && r.queue.jobs[k].id == r'.queue.jobs[i].id
               && (IsEnded(r.queue.jobs[k]) ==> r'.queue.jobs[i] == r.queue.jobs[k]);
    }
  }

  lemma ReplaceGrows(q: State, q': State, k: nat)
    requires k < |q.jobs| && !IsEnded(q.jobs[k]) && q'.nextId == q.nextId
    requires |q'.jobs| == |q.jobs| && q'.jobs[k].id == q.jobs[k].id
    requires forall i :: 0 <= i < |q.jobs| && i != k ==> q'.jobs[i] == q.jobs[i]
    ensures Grows(q, q')
  {
    assert forall i :: 0 <= i < |q'.jobs| ==> q.jobs[i].id == q'.jobs[i].id;
  }

  lemma SameGrows(q: State, q': State)
    requires q'.jobs == q.jobs && q'.nextId == q.nextId
    ensures Grows(q, q')
  {
    assert forall i :: 0 <= i < |q'.jobs| ==> q.jobs[i].id == q'.jobs[i].id;
  }

  lemma GrowsTransitive(q: State, q': State, q'': State)
    requires Grows(q, q') && Grows(q', q'')
    ensures Grows(q, q'')
  {
    forall i | 0 <= i < |q''.jobs| && q''.jobs[i].id < q.nextId
      ensures exists k :: 0 <= k < |q.jobs| && q.jobs[k].id == q''.jobs[i].id
                          && (IsEnded(q.jobs[k]) ==> q''.jobs[i] == q.jobs[k])
    {
      var k' :| 0 <= k' < |q'.jobs| && q'.jobs[k'].id == q''.jobs[i].id
                && (IsEnded(q'.jobs[k']) ==> q''.jobs[i] == q'.jobs[k']);
      var k :| 0 <= k < |q.jobs| && q.jobs[k].id == q'.jobs[k'].id
               && (IsEnded(q.jobs[k]) ==> q'.jobs[k'] == q.jobs[k]);
    }
  }

  lemma AdvanceGrows(q: State, rows: seq<Row>, counts: Option<Counts>, now: int)
    ensures Grows(q, AdvanceActive(q, rows, counts, now))
  {
    var q', k := AdvanceActive(q, rows, counts, now), First(q.jobs, IsActive);
    if k < |q.jobs| { ReplaceGrows(q, q', k); } else { SameGrows(q, q'); }
  }

  lemma StartGrows(q: State, rows: seq<Row>, counts: Option<Counts>, now: int)
    ensures Grows(q, StartNext(q, rows, counts, now))
  {
    var q', k := StartNext(q, rows, counts, now), First(q.jobs, IsQueued);
    if k < |q.jobs| { ReplaceGrows(q, q', k); } else { SameGrows(q, q'); }
  }

  lemma BeginGrows(q: State, rows: seq<Row>, counts: Option<Counts>, now: int)
    ensures Grows(q, PumpBegin(q, rows, counts, now))
  {
    if q.busy {
      SameGrows(q, q);
    } else {
      var a := AdvanceActive(q, rows, counts, now);
      AdvanceGrows(q, rows, counts, now);
      if First(a.jobs, IsActive) < |a.jobs| { SameGrows(a, a.(finished := [])); }
      else { StartGrows(a, rows, counts, now); }
      GrowsTransitive(q, a, PumpBegin(q, rows, counts, now));
    }
  }

  lemma StepGrows(r: Run, e: Event)
    requires ListInv(r.queue)
    ensures Grows(r.queue, Step(r, e).queue)
  {
    StepFollowsQueue(r, e);
    var q, q' := r.queue, Step(r, e).queue;
    match e
    case Adds(direction, items, target) =>
      var n := |q.jobs|;
      assert forall i :: 0 <= i < n ==> q'.jobs[i] == q.jobs[i];
      assert forall i :: n <= i < |q'.jobs| ==> q'.jobs[i].id >= q.nextId;
    case Cancels(id) =>
      if q' == q { SameGrows(q, q'); } else { ReplaceGrows(q, q', WithId(q.jobs, id)); }
    case Clears =>
      forall i | 0 <= i < |q'.jobs|
        ensures exists k :: 0 <= k < |q.jobs| && q.jobs[k] == q'.jobs[i]
      {
        var k := UnendedIndex(q.jobs, i);
      }
    case Begins(rows, counts, now) => BeginGrows(q, rows, counts, now);
    case Finishes(result) =>
      if q.busy && q.owner.Some? {
        var k := OwnedJob(q);
        ReplaceGrows(q, q', k);
      } else {
        SameGrows(q, q');
      }
  }

  lemma StepKeepsHanded(r: Run, e: Event)
    requires ListInv(r.queue) && HandedInv(r)
    ensures HandedInv(Step(r, e))
  {
    if e.Begins? && !r.queue.busy {
      BeginKeepsHanded(r, e.rows, e.counts, e.now);
    } else {
      StepGrows(r, e);
      GrowthKeepsHanded(r, Step(r, e));
    }
  }

  lemma BeginKeepsHanded(r: Run, rows: seq<Row>, counts: Option<Counts>, now: int)
    requires ListInv(r.queue) && HandedInv(r) && !r.queue.busy
    ensures HandedInv(BeginRun(r, rows, counts, now))
  {
    var a := AdvanceRun(ObserveRun(r, rows), rows, counts, now);
    AdvanceGrows(r.queue, rows, counts, now);
    GrowthKeepsHanded(r, a);
    AdvanceKeepsList(r.queue, rows, counts, now);
    if First(a.queue.jobs, IsActive) < |a.queue.jobs| {
      SameGrows(a.queue, ReturnRun(a).queue);
      GrowthKeepsHanded(a, ReturnRun(a));
    } else {
      StartKeepsHanded(a, rows, counts, now);
    }
  }

  lemma StartKeepsHanded(a: Run, rows: seq<Row>, counts: Option<Counts>, now: int)
    requires HandedInv(a) && IdsClimb(a.queue)
    requires forall i :: 0 <= i < |a.queue.jobs| ==> !IsActive(a.queue.jobs[i])
    ensures HandedInv(StartRun(a, rows, counts, now))
  {
    var b := StartRun(a, rows, counts, now);
    var j := First(a.queue.jobs, IsQueued);
    if j < |a.queue.jobs| {
      var id := a.queue.jobs[j].id;
      forall i | 0 <= i < |a.handed|
        ensures a.handed[i] <= id
      {
        assert a.handed[i] in a.handed && !IsEnded(a.queue.jobs[j]);
      }
      assert forall i :: 0 <= i < j ==> IsEnded(b.queue.jobs[i]);
      assert forall i :: j < i < |b.queue.jobs| ==> b.queue.jobs[i].id > id;
    } else {
      SameGrows(a.queue, b.queue);
      GrowthKeepsHanded(a, b);
    }
  }

  // ----- Transfer ids ------------------------------------------------------

  function Gone(r: Run): set<nat> { r.seen - r.present }

  ghost predicate ClaimsDistinct(claims: seq<Claiming>) {
    forall i, j :: 0 <= i < j < |claims| ==>
      claims[i].job != claims[j].job && claims[i].transfer != claims[j].transfer
  }

  /** Each id ever taken was seen, and is out of the reach of every job still starting. */
  ghost predicate ClaimsInv(r: Run) {
    && ClaimsDistinct(r.claims)
    && (forall c :: c in r.claims ==> c.transfer in r.seen && c.job < r.queue.nextId)
    && (forall c, i :: c in r.claims && 0 <= i < |r.queue.jobs| && r.queue.jobs[i].id == c.job
                       ==> !r.queue.jobs[i].state.Queued? && !r.queue.jobs[i].state.Starting?)
    && (forall c, i :: c in r.claims && 0 <= i < |r.queue.jobs| && r.queue.jobs[i].state.Starting?
                       ==> c.transfer in r.queue.jobs[i].baseline + Gone(r))
    && (forall i :: 0 <= i < |r.queue.jobs| && r.queue.jobs[i].transferId.Some? ==>
          Claiming(r.queue.jobs[i].id, r.queue.jobs[i].transferId.value) in r.claims)
  }

  lemma ObserveKeepsClaims(r: Run, rows: seq<Row>)
    requires ClaimsInv(r) && RowIds(rows) !! Gone(r)
    ensures ClaimsInv(ObserveRun(r, rows)) && RowIds(rows) !! Gone(ObserveRun(r, rows))
  {
    assert Gone(r) <= Gone(ObserveRun(r, rows));
  }

  /** Replacing one job by one that takes no row and, if it now starts, starts over. */
  lemma ReplaceKeepsClaims(r: Run, r': Run, k: nat)
    requires ClaimsInv(r) && r'.claims == r.claims && r'.seen == r.seen && r'.present == r.present
    requires k < |r.queue.jobs| && r'.queue.nextId == r.queue.nextId
    requires |r'.queue.jobs| == |r.queue.jobs|
    requires forall i :: 0 <= i < |r.queue.jobs| && i != k ==> r'.queue.jobs[i] == r.queue.jobs[i]
    requires r'.queue.jobs[k].id == r.queue.jobs[k].id
    requires r'.queue.jobs[k].transferId == r.queue.jobs[k].transferId
    requires r'.queue.jobs[k].state.Queued? || r'.queue.jobs[k].state.Starting?
             ==> r.queue.jobs[k].state.Queued? || r.queue.jobs[k].state.Starting?
    requires r'.queue.jobs[k].state.Starting? ==>
             || (r.queue.jobs[k].state.Starting? && r'.queue.jobs[k].baseline == r.queue.jobs[k].baseline)
             || r'.queue.jobs[k].baseline == r.present
    ensures ClaimsInv(r')
  {
    assert Gone(r') == Gone(r);
    forall c | c in r'.claims
      ensures c.transfer in r.present + Gone(r)
    {
    }
  }

  lemma SameKeepsClaims(r: Run, r': Run)
    requires ClaimsInv(r) && r'.claims == r.claims && r'.seen == r.seen && r'.present == r.present
    requires r'.queue.jobs == r.queue.jobs && r'.queue.nextId == r.queue.nextId
    ensures ClaimsInv(r')
  {
  }

  /** A job takes a row no job ever took before. */
  lemma AdvanceKeepsClaims(r: Run, rows: seq<Row>, counts: Option<Counts>, now: int)
    requires ListInv(r.queue) && ClaimsInv(r) && !r.queue.busy
    requires r.present == RowIds(rows) && RowIds(rows) !! Gone(r) && RowIds(rows) <= r.seen
    ensures ClaimsInv(AdvanceRun(r, rows, counts, now))
  {
    var r' := AdvanceRun(r, rows, counts, now);
    var k := First(r.queue.jobs, IsActive);
    if k == |r.queue.jobs| {
      SameKeepsClaims(r, r');
    } else {
      var job := r.queue.jobs[k];
      var claimed := Claimed(job, rows, counts, now);
      if r'.claims == r.claims {
        ReplaceKeepsClaims(r, r', k);
      } else {
        var i := OwnRow(job, rows);
        assert rows[i].transferId in RowIds(rows) && rows[i].transferId !in job.baseline;
        TakeKeepsClaims(r, r', k, rows[i].transferId);
      }
    }
  }

  lemma TakeKeepsClaims(r: Run, r': Run, k: nat, id: nat)
    requires ClaimsInv(r) && InOrder(r.queue.jobs) && IdsClimb(r.queue)
    requires k < |r.queue.jobs| && r.queue.jobs[k].state.Starting?
    requires id in r.present && id in r.seen && id !in r.queue.jobs[k].baseline
    requires r'.seen == r.seen && r'.present == r.present && r'.queue.nextId == r.queue.nextId
    requires r'.claims == r.claims + [Claiming(r.queue.jobs[k].id, id)]
    requires |r'.queue.jobs| == |r.queue.jobs|
    requires forall i :: 0 <= i < |r.queue.jobs| && i != k ==> r'.queue.jobs[i] == r.queue.jobs[i]
    requires var job := r'.queue.jobs[k];
             job.id == r.queue.jobs[k].id && job.transferId == Some(id)
             && !job.state.Queued? && !job.state.Starting?
    ensures ClaimsInv(r')
  {
    var taken := Claiming(r.queue.jobs[k].id, id);
    assert taken in r'.claims;
    assert Gone(r') == Gone(r);
    assert forall c :: c in r.claims ==> c.transfer != id && c.job != taken.job;
    assert forall c :: c in r'.claims <==> c in r.claims || c == taken;
    assert IsHandled(r.queue.jobs[k]);
    assert forall j :: 0 <= j < |r.queue.jobs| && j != k ==> !r.queue.jobs[j].state.Starting?;
  }

  lemma BeginKeepsClaims(r: Run, rows: seq<Row>, counts: Option<Counts>, now: int)
    requires ListInv(r.queue) && ClaimsInv(r) && !r.queue.busy && RowIds(rows) !! Gone(r)
    ensures ClaimsInv(BeginRun(r, rows, counts, now))
  {
    ObserveKeepsClaims(r, rows);
    var o := ObserveRun(r, rows);
    AdvanceKeepsClaims(o, rows, counts, now);
    var a := AdvanceRun(o, rows, counts, now);
    if First(a.queue.jobs, IsActive) < |a.queue.jobs| {
      SameKeepsClaims(a, ReturnRun(a));
    } else {
      var b := StartRun(a, rows, counts, now);
      var j := First(a.queue.jobs, IsQueued);
      if j < |a.queue.jobs| { ReplaceKeepsClaims(a, b, j); } else { SameKeepsClaims(a, b); }
    }
  }

  lemma AddKeepsClaims(r: Run, direction: Direction, items: seq<Item>, target: string)
    requires ClaimsInv(r)
    ensures ClaimsInv(Step(r, Adds(direction, items, target)))
  {
    var r', n := Step(r, Adds(direction, items, target)), |r.queue.jobs|;
    assert Gone(r') == Gone(r);
    assert forall i :: 0 <= i < n ==> r'.queue.jobs[i] == r.queue.jobs[i];
    assert forall i :: n <= i < |r'.queue.jobs| ==>
        && r'.queue.jobs[i].id >= r.queue.nextId && r'.queue.jobs[i].state.Queued?
        && r'.queue.jobs[i].transferId.None?;
  }

  lemma ClearKeepsClaims(r: Run)
    requires ClaimsInv(r)
    ensures ClaimsInv(Step(r, Clears))
  {
    var r' := Step(r, Clears);
    assert Gone(r') == Gone(r);
    forall i | 0 <= i < |r'.queue.jobs|
      ensures exists k :: 0 <= k < |r.queue.jobs| && r.queue.jobs[k] == r'.queue.jobs[i]
    {
      var k := UnendedIndex(r.queue.jobs, i);
    }
  }

  lemma CancelKeepsClaims(r: Run, id: nat)
    requires ClaimsInv(r)
    ensures ClaimsInv(CancelRun(r, id))
  {
    hide ClaimsInv;
    var r' := CancelRun(r, id);
    if r'.queue == r.queue { SameKeepsClaims(r, r'); }
    else { ReplaceKeepsClaims(r, r', WithId(r.queue.jobs, id)); }
  }

  lemma FinishKeepsClaims(r: Run, result: CallResult)
    requires ListInv(r.queue) && ClaimsInv(r) && r.queue.busy
    ensures ClaimsInv(FinishRun(r, result))
  {
    hide ClaimsInv, Includes;
    var r' := FinishRun(r, result);
    if r.queue.owner.Some? {
      var k := OwnedJob(r.queue);
      hide ListInv;
      ReplaceKeepsClaims(r, r', k);
    } else {
      SameKeepsClaims(r, r');
    }
  }

  lemma StepKeepsClaims(r: Run, e: Event)
    requires ListInv(r.queue) && ClaimsInv(r) && Allowed(r, e)
    ensures ClaimsInv(Step(r, e))
  {
    hide ClaimsInv;
    match e
    case Adds(direction, items, target) => AddKeepsClaims(r, direction, items, target);
    case Cancels(id) => CancelKeepsClaims(r, id);
    case Clears => ClearKeepsClaims(r);
    case Begins(rows, counts, now) => if !r.queue.busy { BeginKeepsClaims(r, rows, counts, now); }
    case Finishes(result) => if r.queue.busy { FinishKeepsClaims(r, result); }
  }

  // ----- State changes -----------------------------------------------------

  function Potential(state: JobState): nat {
    match state
    case Queued => 3
    case Starting => 2
    case Running => 1
    case _ => 0
  }

  function TotalPotential(jobs: seq<Job>): nat {
    if jobs == [] then 0
    else TotalPotential(jobs[..|jobs| - 1]) + Potential(jobs[|jobs| - 1].state)
  }

  lemma {:induction false} PotentialOfReplaced(jobs: seq<Job>, k: nat, job: Job)
    requires k < |jobs|
    ensures TotalPotential(jobs[k := job]) + Potential(jobs[k].state)
         == TotalPotential(jobs) + Potential(job.state)
  {
    var n := |jobs| - 1;
    if k == n {
      assert jobs[k := job][..n] == jobs[..n];
    } else {
      PotentialOfReplaced(jobs[..n], k, job);
      assert jobs[k := job][..n] == jobs[..n][k := job];
    }
  }

  lemma {:induction false} PotentialOfSum(a: seq<Job>, b: seq<Job>)
    requires forall i :: 0 <= i < |b| ==> b[i].state.Queued?
    ensures TotalPotential(a + b) == TotalPotential(a) + 3 * |b|
  {
    if b == [] {
      assert a + b == a;
    } else {
      var n := |b| - 1;
      PotentialOfSum(a, b[..n]);
      assert (a + b)[..|a + b| - 1] == a + b[..n];
    }
  }

  lemma {:induction false} PotentialOfUnended(jobs: seq<Job>)
    ensures TotalPotential(Unended(jobs)) == TotalPotential(jobs)
  {
    if jobs != [] {
      var n := |jobs| - 1;
      PotentialOfUnended(jobs[..n]);
      if !IsEnded(jobs[n]) {
        assert Unended(jobs)[..|Unended(jobs)| - 1] == Unended(jobs[..n]);
      }
    }
  }

  function DoneIds(changes: seq<Change>): seq<nat> {
    if changes == [] then []
    else
      var n := |changes| - 1;
      DoneIds(changes[..n]) + if changes[n].to.Done? then [changes[n].id] else []
  }

  predicate IsEndState(state: JobState) { state.Done? || state.Failed? || state.Cancelled? }

  ghost predicate Distinct(ids: seq<nat>) {
    forall i, j :: 0 <= i < j < |ids| ==> ids[i] != ids[j]
  }

  /**
   Nothing leaves an ended state, every job done is returned or about to be, once, and the
   changes so far are paid for.
   */
  ghost predicate ChangesInv(r: Run) {
    && (forall c :: c in r.changes ==> !IsEndState(c.from))
    && r.returned + Ids(r.queue.finished) == DoneIds(r.changes)
    && Distinct(DoneIds(r.changes))
    && (forall d :: d in DoneIds(r.changes) ==> d < r.queue.nextId)
    && (forall d, i :: d in DoneIds(r.changes) && 0 <= i < |r.queue.jobs| && r.queue.jobs[i].id == d
                       ==> r.queue.jobs[i].state.Done?)
    && (forall i :: 0 <= i < |r.queue.jobs| && r.queue.jobs[i].state.Done? ==>
          r.queue.jobs[i].id in DoneIds(r.changes))
    && |r.changes| + TotalPotential(r.queue.jobs) <= 3 * r.added + 2 * r.requeued
  }

  lemma LoggedOnce(changes: seq<Change>, from: Job, to: Job)
    requires from.state != to.state
    ensures |Logged(changes, from, to)| == |changes| + 1
    ensures DoneIds(Logged(changes, from, to))
         == DoneIds(changes) + if to.state.Done? then [from.id] else []
  {
    var c := Change(from.id, from.state, to.state);
    assert (changes + [c])[..|changes|] == changes;
  }

  /** One change of one job that has not ended; a job that becomes done is there to be returned. */
  lemma ReplaceKeepsChanges(r: Run, r': Run, k: nat)
    requires ChangesInv(r) && IdsClimb(r.queue) && k < |r.queue.jobs| && !IsEnded(r.queue.jobs[k])
    requires |r'.queue.jobs| == |r.queue.jobs| && r'.queue.jobs == r.queue.jobs[k := r'.queue.jobs[k]]
    requires r'.queue.jobs[k].id == r.queue.jobs[k].id && r'.queue.nextId == r.queue.nextId
    requires r'.changes == Logged(r.changes, r.queue.jobs[k], r'.queue.jobs[k])
    requires r'.added == r.added
    requires r'.returned + Ids(r'.queue.finished)
          == r.returned + Ids(r.queue.finished)
             + if r'.queue.jobs[k].state.Done? then [r.queue.jobs[k].id] else []
    requires Potential(r'.queue.jobs[k].state) + (if r'.changes == r.changes then 0 else 1) + 2 * r.requeued
          <= Potential(r.queue.jobs[k].state) + 2 * r'.requeued
    ensures ChangesInv(r')
  {
    PotentialOfReplaced(r.queue.jobs, k, r'.queue.jobs[k]);
    if r'.changes != r.changes {
      LoggedOnce(r.changes, r.queue.jobs[k], r'.queue.jobs[k]);
    }
    assert r.queue.jobs[k].id !in DoneIds(r.changes);
  }

  lemma SameKeepsChanges(r: Run, r': Run)
    requires ChangesInv(r) && r'.queue.jobs == r.queue.jobs && r'.queue.nextId == r.queue.nextId
    requires r'.changes == r.changes && r'.added == r.added && r'.requeued == r.requeued
    requires r'.returned + Ids(r'.queue.finished) == r.returned + Ids(r.queue.finished)
    ensures ChangesInv(r')
  {
  }

  lemma AdvanceKeepsChanges(r: Run, rows: seq<Row>, counts: Option<Counts>, now: int)
    requires ListInv(r.queue) && ChangesInv(r) && !r.queue.busy
    ensures ChangesInv(AdvanceRun(r, rows, counts, now))
  {
    hide ChangesInv;
    var r' := AdvanceRun(r, rows, counts, now);
    var k := First(r.queue.jobs, IsActive);
    if k < |r.queue.jobs| {
      var claimed := Claimed(r.queue.jobs[k], rows, counts, now);
      var half := ClaimHalf(r, k, claimed);
      ClaimKeepsChanges(r, k, rows, counts, now);
      SettleKeepsChanges(half, k, rows);
      assert r'.queue == SettleHalf(half, k, Settled(claimed, rows)).queue;
      ClaimsDoNotMatter(SettleHalf(half, k, Settled(claimed, rows)), r');
    }
  }

  /** The run between the two halves of `advance`. */
  function ClaimHalf(r: Run, k: nat, claimed: Job): Run
    requires k < |r.queue.jobs|
  {
    r.(queue := r.queue.(jobs := r.queue.jobs[k := claimed],
                         finished := if claimed.state.Done? then [claimed] else []),
       changes := Logged(r.changes, r.queue.jobs[k], claimed))
  }

  function SettleHalf(r: Run, k: nat, settled: Job): Run
    requires k < |r.queue.jobs|
  {
    r.(queue := r.queue.(jobs := r.queue.jobs[k := settled],
                         finished := if settled.state.Done? then [settled] else []),
       changes := Logged(r.changes, r.queue.jobs[k], settled))
  }

  lemma ClaimsDoNotMatter(r: Run, r': Run)
    requires ChangesInv(r) && r'.queue == r.queue && r'.changes == r.changes && r'.returned == r.returned
    requires r'.added == r.added && r'.requeued == r.requeued
    ensures ChangesInv(r')
  {
    SameKeepsChanges(r, r');
  }

  lemma ClaimKeepsChanges(r: Run, k: nat, rows: seq<Row>, counts: Option<Counts>, now: int)
    requires ChangesInv(r) && IdsClimb(r.queue) && r.queue.finished == []
    requires k < |r.queue.jobs| && IsActive(r.queue.jobs[k])
    ensures ChangesInv(ClaimHalf(r, k, Claimed(r.queue.jobs[k], rows, counts, now)))
  {
    ClaimLowers(r.queue.jobs[k], rows, counts, now);
    hide Claimed, ChangesInv;
    ReplaceKeepsChanges(r, ClaimHalf(r, k, Claimed(r.queue.jobs[k], rows, counts, now)), k);
  }

  lemma ClaimLowers(job: Job, rows: seq<Row>, counts: Option<Counts>, now: int)
    requires IsActive(job)
    ensures var c := Claimed(job, rows, counts, now);
            c.state == job.state || Potential(c.state) < Potential(job.state)
  {
  }

  lemma SettleKeepsChanges(r: Run, k: nat, rows: seq<Row>)
    requires ChangesInv(r) && IdsClimb(r.queue) && k < |r.queue.jobs|
    requires r.queue.finished == if r.queue.jobs[k].state.Done? then [r.queue.jobs[k]] else []
    ensures ChangesInv(SettleHalf(r, k, Settled(r.queue.jobs[k], rows)))
  {
    var job := r.queue.jobs[k];
    var r' := SettleHalf(r, k, Settled(job, rows));
    hide ChangesInv;
    if job.state.Running? {
      SettleLowers(job, rows);
      hide Settled;
      ReplaceKeepsChanges(r, r', k);
    } else {
      assert r'.queue.jobs == r.queue.jobs;
      assert r' == r;
    }
  }

  lemma SettleLowers(job: Job, rows: seq<Row>)
    requires job.state.Running?
    ensures var d := Settled(job, rows);
            d.state == job.state || Potential(d.state) < Potential(job.state)
  {
  }

  lemma BeginKeepsChanges(r: Run, rows: seq<Row>, counts: Option<Counts>, now: int)
    requires ListInv(r.queue) && ChangesInv(r) && !r.queue.busy
    ensures ChangesInv(BeginRun(r, rows, counts, now))
  {
    hide ChangesInv;
    var o := ObserveRun(r, rows);
    ObserveKeepsChanges(r, rows);
    AdvanceKeepsChanges(o, rows, counts, now);
    AdvanceKeepsList(r.queue, rows, counts, now);
    var a := AdvanceRun(o, rows, counts, now);
    if First(a.queue.jobs, IsActive) < |a.queue.jobs| {
      ReturnKeepsChanges(a);
    } else {
      StartKeepsChanges(a, rows, counts, now);
    }
  }

  lemma ObserveKeepsChanges(r: Run, rows: seq<Row>)
    requires ChangesInv(r)
    ensures ChangesInv(ObserveRun(r, rows))
  {
  }

  lemma ReturnKeepsChanges(r: Run)
    requires ChangesInv(r)
    ensures ChangesInv(ReturnRun(r))
  {
    SameKeepsChanges(r, ReturnRun(r));
  }

  lemma StartKeepsChanges(a: Run, rows: seq<Row>, counts: Option<Counts>, now: int)
    requires ChangesInv(a) && IdsClimb(a.queue)
    ensures ChangesInv(StartRun(a, rows, counts, now))
  {
    var b := StartRun(a, rows, counts, now);
    var j := First(a.queue.jobs, IsQueued);
    if j < |a.queue.jobs| { ReplaceKeepsChanges(a, b, j); } else { SameKeepsChanges(a, b); }
  }

  lemma AddKeepsChanges(r: Run, direction: Direction, items: seq<Item>, target: string)
    requires ChangesInv(r)
    ensures ChangesInv(Step(r, Adds(direction, items, target)))
  {
    var r' := Step(r, Adds(direction, items, target));
    var n := |r.queue.jobs|;
    PotentialOfSum(r.queue.jobs, NewJobs(r.queue.nextId, direction, items, target));
    assert forall i :: 0 <= i < n ==> r'.queue.jobs[i] == r.queue.jobs[i];
    assert forall i :: n <= i < |r'.queue.jobs| ==> r'.queue.jobs[i].id >= r.queue.nextId;
  }

  lemma ClearKeepsChanges(r: Run)
    requires ChangesInv(r)
    ensures ChangesInv(Step(r, Clears))
  {
    var r' := Step(r, Clears);
    PotentialOfUnended(r.queue.jobs);
    forall i | 0 <= i < |r'.queue.jobs|
      ensures exists k :: 0 <= k < |r.queue.jobs| && r.queue.jobs[k] == r'.queue.jobs[i]
    {
      var k := UnendedIndex(r.queue.jobs, i);
    }
  }

  lemma CancelKeepsChanges(r: Run, id: nat)
    requires IdsClimb(r.queue) && ChangesInv(r)
    ensures ChangesInv(CancelRun(r, id))
  {
    hide ChangesInv;
    var k := WithId(r.queue.jobs, id);
    if k < |r.queue.jobs| && r.queue.jobs[k].state.Queued? {
      ReplaceKeepsChanges(r, CancelRun(r, id), k);
    } else {
      assert CancelRun(r, id) == r;
    }
  }

  lemma FinishKeepsChanges(r: Run, result: CallResult)
    requires ListInv(r.queue) && ChangesInv(r) && r.queue.busy
    ensures ChangesInv(FinishRun(r, result))
  {
    hide ChangesInv, Includes;
    if r.queue.owner.Some? {
      var k := OwnedJob(r.queue);
      hide ListInv;
      ReplaceKeepsChanges(r, FinishRun(r, result), k);
    } else {
      SameKeepsChanges(r, FinishRun(r, result));
    }
  }

  lemma StepKeepsChanges(r: Run, e: Event)
    requires ListInv(r.queue) && ChangesInv(r)
    ensures ChangesInv(Step(r, e))
  {
    hide ChangesInv;
    match e
    case Adds(direction, items, target) => AddKeepsChanges(r, direction, items, target);
    case Cancels(id) => CancelKeepsChanges(r, id);
    case Clears => ClearKeepsChanges(r);
    case Begins(rows, counts, now) => if !r.queue.busy { BeginKeepsChanges(r, rows, counts, now); }
    case Finishes(result) => if r.queue.busy { FinishKeepsChanges(r, result); }
  }

  // ----- Every run ---------------------------------------------------------

  ghost predicate Inv(r: Run) {
    ListInv(r.queue) && HandedInv(r) && ChangesInv(r)
  }

  lemma {:induction false} RunsKeepInv(r: Run, events: seq<Event>)
    requires Inv(r)
    ensures Inv(After(r, events))
    decreases |events|
  {
    if events != [] {
      StepKeepsList(r, events[0]);
      StepKeepsHanded(r, events[0]);
      StepKeepsChanges(r, events[0]);
      RunsKeepInv(Step(r, events[0]), events[1..]);
    }
  }

  lemma {:induction false} RunsKeepClaims(r: Run, events: seq<Event>)
    requires ListInv(r.queue) && ClaimsInv(r) && AllAllowed(r, events)
    ensures ClaimsInv(After(r, events))
    decreases |events|
  {
    if events != [] {
      StepKeepsList(r, events[0]);
      StepKeepsClaims(r, events[0]);
      RunsKeepClaims(Step(r, events[0]), events[1..]);
    }
  }

  /** In every run: one job at a time, and a suspended pump owns exactly that one. */
  lemma OneAtATime(events: seq<Event>)
    ensures var q := After(START, events).queue;
            && (forall i, j :: 0 <= i < j < |q.jobs| ==> !IsActive(q.jobs[i]) || !IsActive(q.jobs[j]))
            && (q.busy ==> forall i :: 0 <= i < |q.jobs| && IsActive(q.jobs[i]) ==>
                             q.jobs[i].state.Starting? && q.owner == Some(q.jobs[i].id))
            && (q.owner.Some? ==>
                  exists i :: 0 <= i < |q.jobs| && q.jobs[i].id == q.owner.value && q.jobs[i].state.Starting?)
  {
    hide HandedInv, ChangesInv;
    assert Inv(START) by { StartsWell(); }
    RunsKeepInv(START, events);
    var q := After(START, events).queue;
    forall i, j | 0 <= i < j < |q.jobs| && IsActive(q.jobs[j])
      ensures !IsActive(q.jobs[i])
    {
      assert IsHandled(q.jobs[j]);
    }
    if q.owner.Some? {
      var k := OwnedJob(q);
    }
  }

  lemma StartsWell()
    ensures Inv(START) && ClaimsInv(START)
  {
    EmptyRun(START);
  }

  lemma EmptyRun(r: Run)
    requires r.queue == INITIAL && r.handed == [] && r.returned == [] && r.changes == [] && r.claims == []
    requires r.added == 0 && r.requeued == 0
    ensures Inv(r) && ClaimsInv(r)
  {
    hide ListInv, HandedInv, ChangesInv, ClaimsInv;
    EmptyList(r.queue);
    EmptyHanded(r);
    EmptyClaims(r);
    EmptyChanges(r);
  }

  lemma EmptyList(q: State)
    requires q.jobs == [] && q.finished == [] && q.owner.None? && !q.busy
    ensures ListInv(q)
  {
  }

  lemma EmptyHanded(r: Run)
    requires r.queue.jobs == [] && r.handed == []
    ensures HandedInv(r)
  {
  }

  lemma EmptyClaims(r: Run)
    requires r.queue.jobs == [] && r.claims == []
    ensures ClaimsInv(r)
  {
  }

  lemma EmptyChanges(r: Run)
    requires r.queue.jobs == [] && r.queue.finished == [] && r.returned == [] && r.changes == []
    ensures ChangesInv(r)
  {
    assert DoneIds(r.changes) == [] && Ids(r.queue.finished) == [];
  }

  /**
   In every run: jobs are handed over in the order they were added, a job asked again after a
   requeue included, and whenever one has been handed over everything listed before it has ended.
   */
  lemma HandedInAddOrder(events: seq<Event>)
    ensures var r := After(START, events);
            && (forall i, j :: 0 <= i < j < |r.handed| ==> r.handed[i] <= r.handed[j])
            && (forall i, j :: 0 <= i < j < |r.queue.jobs| ==> r.queue.jobs[i].id < r.queue.jobs[j].id)
            && InOrder(r.queue.jobs)
  {
    StartsWell();
    RunsKeepInv(START, events);
  }

  /** In every run over such an actor, no two jobs ever take the same transfer. */
  lemma TransfersAreNotShared(events: seq<Event>)
    requires AllAllowed(START, events)
    ensures var r := After(START, events);
            && ClaimsDistinct(r.claims)
            && (forall i, j :: 0 <= i < j < |r.queue.jobs| && r.queue.jobs[i].transferId.Some?
                               ==> r.queue.jobs[i].transferId != r.queue.jobs[j].transferId)
  {
    StartsWell();
    RunsKeepInv(START, events);
    RunsKeepClaims(START, events);
    var r := After(START, events);
    var jobs := r.queue.jobs;
    forall i, j | 0 <= i < j < |jobs| && jobs[i].transferId.Some?
      ensures jobs[i].transferId != jobs[j].transferId
    {
      if jobs[j].transferId.Some? {
        assert jobs[i].id < jobs[j].id;
        DistinctClaims(r.claims, Claiming(jobs[i].id, jobs[i].transferId.value),
                                 Claiming(jobs[j].id, jobs[j].transferId.value));
      }
    }
  }

  lemma DistinctClaims(claims: seq<Claiming>, c: Claiming, d: Claiming)
    requires ClaimsDistinct(claims) && c in claims && d in claims && c.job != d.job
    ensures c.transfer != d.transfer
  {
    var i :| 0 <= i < |claims| && claims[i] == c;
    var j :| 0 <= j < |claims| && claims[j] == d;
  }

  /** From any reachable queue on, an ended job stays exactly as it is for as long as it is listed. */
  lemma {:induction false} EndedIsForGood(r: Run, events: seq<Event>)
    requires ListInv(r.queue)
    ensures Grows(r.queue, After(r, events).queue)
    decreases |events|
  {
    if events == [] {
      SameGrows(r.queue, r.queue);
    } else {
      var r' := Step(r, events[0]);
      StepKeepsList(r, events[0]);
      StepGrows(r, events[0]);
      EndedIsForGood(r', events[1..]);
      GrowsTransitive(r.queue, r'.queue, After(r, events).queue);
    }
  }

  /**
   In every run: each job that ends done is returned by one pump and only one, the pump now
   suspended included, and job states change at most thrice per job added and twice per requeue.
   */
  lemma DoneIsReturnedOnce(events: seq<Event>)
    ensures var r := After(START, events);
            && r.returned + Ids(r.queue.finished) == DoneIds(r.changes)
            && Distinct(r.returned + Ids(r.queue.finished))
            && (forall i :: 0 <= i < |r.queue.jobs| && r.queue.jobs[i].state.Done? ==>
                  r.queue.jobs[i].id in r.returned + Ids(r.queue.finished))
            && |r.changes| <= 3 * r.added + 2 * r.requeued
            && (forall c :: c in r.changes ==> !IsEndState(c.from))
  {
    StartsWell();
    RunsKeepInv(START, events);
  }
}
