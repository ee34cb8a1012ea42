/**
 Why each transfer ends as it does: what the queue makes of the actor's rows, counts and answers,
 stated from those alone, for every job of every run.
 */
module TransferEndings {
  import opened Options
  import opened TransferQueue
  import opened TransferRuns

  /** What the queue saw when it handed a job over. */
  datatype Launch = Launch(rows: seq<Row>, counts: Option<Counts>, at: int)

  /** What touched a job: the person took it out, a turn looked at it, or the actor answered its call. */
  datatype Cause =
    | Person
    | Turn(rows: seq<Row>, counts: Option<Counts>, now: int)
    | Answer(result: CallResult)

  /** A job before and after, with its hand-over and what touched it. */
  datatype Record = Record(before: Job, after: Job, launch: Option<Launch>, cause: Cause)

  /** A run, when each job was handed over last, and a record of everything that touched a job. */
  datatype Story = Story(run: Run, launches: map<nat, Launch>, records: seq<Record>)

  const STORY: Story := Story(START, map[], [])

  function LaunchOf(s: Story, id: nat): Option<Launch> {
    if id in s.launches then Some(s.launches[id]) else None
  }

  /** Whatever the event did to the job at `i` is recorded. */
  function Recorded(s: Story, run: Run, i: nat, cause: Cause): Story {
    var jobs, jobs' := s.run.queue.jobs, run.queue.jobs;
    s.(run := run,
       records := if i < |jobs| && i < |jobs'|
                  then s.records + [Record(jobs[i], jobs'[i], LaunchOf(s, jobs[i].id), cause)] else s.records)
  }

  function Tell(s: Story, e: Event): Story {
    var q, run := s.run.queue, Step(s.run, e);
    match e
    case Adds(_, _, _) => s.(run := run)
    case Clears => s.(run := run)
    case Cancels(id) => if run == s.run then s else Recorded(s, run, WithId(q.jobs, id), Person)
    case Begins(rows, counts, now) =>
      if q.busy then s
      else
        var t := Recorded(s, run, First(q.jobs, IsActive), Turn(rows, counts, now));
        if run.queue.owner.None? then t
        else t.(launches := t.launches[run.queue.owner.value := Launch(rows, counts, now)])
    case Finishes(result) =>
      if !q.busy then s
      else if q.owner.None? then s.(run := run)
      else Recorded(s, run, WithId(q.jobs, q.owner.value), Answer(result))
  }

  function Told(s: Story, events: seq<Event>): Story
    decreases |events|
  {
    if events == [] then s else Told(Tell(s, events[0]), events[1..])
  }

  // ----- What a cause makes of a job ---------------------------------------

  /** The first row of a snapshot with this id is in this state. */
  ghost predicate RowIs(rows: seq<Row>, id: nat, state: RowState) {
    exists i :: 0 <= i < |rows| && rows[i].transferId == id && rows[i].state == state
                && forall j :: 0 <= j < i ==> rows[j].transferId != id
  }

  ghost predicate RowGone(rows: seq<Row>, id: nat) {
    forall i :: 0 <= i < |rows| ==> rows[i].transferId != id
  }

  /** A row is a job's own: new since its hand-over, of its direction and name. */
  predicate Owns(job: Job, launch: Launch, row: Row) {
    && (forall i :: 0 <= i < |launch.rows| ==> launch.rows[i].transferId != row.transferId)
    && row.name == job.name && row.incoming == (job.direction == Download)
  }

  ghost predicate FirstOwn(job: Job, launch: Launch, rows: seq<Row>, id: nat) {
    exists i :: 0 <= i < |rows| && Owns(job, launch, rows[i]) && rows[i].transferId == id
                && forall j :: 0 <= j < i ==> !Owns(job, launch, rows[j])
  }

  ghost predicate NoneOwn(job: Job, launch: Launch, rows: seq<Row>) {
    forall i :: 0 <= i < |rows| ==> !Owns(job, launch, rows[i])
  }

  function Count(direction: Direction, counts: Option<Counts>): int {
    match counts
    case None => 0
    case Some(c) => match direction case Upload => c.uploadsRefused case Download => c.fetchesRefused
  }

  /** The host refused a transfer of this direction since the hand-over. */
  predicate RefusedSince(job: Job, launch: Launch, counts: Option<Counts>) {
    counts.Some? && Count(job.direction, counts) != Count(job.direction, launch.counts)
  }

  predicate TimedOut(job: Job, launch: Launch, now: int) {
    now - launch.at > if job.isDir then 20_000 else 600_000
  }

  /** Which row a turn has the job follow: the one it had, or the first that is its own. */
  ghost predicate FollowsRow(before: Job, after: Job, launch: Launch, rows: seq<Row>) {
    if before.state.Running? then before.transferId.Some? && after.transferId == before.transferId
    else if after.transferId.Some? then FirstOwn(before, launch, rows, after.transferId.value)
    else NoneOwn(before, launch, rows)
  }

  /** What a turn makes of a job whose row it has: what the row says, and done if the row has gone. */
  ghost predicate AsItsRow(after: Job, id: nat, rows: seq<Row>) {
    && (after.state.Running? <==> RowIs(rows, id, RowRunning))
    && (after.state.Done? <==> RowIs(rows, id, RowCompleted) || RowGone(rows, id))
    && (after.state.Cancelled? <==> RowIs(rows, id, RowCancelled))
    && (after.state.Failed? <==> RowIs(rows, id, RowFailed))
    && (after.state.Failed? ==> after.failure == Some(Broken))
  }

  /** And of one with no row: failed if refused, done or failed past its time, else still waiting. */
  ghost predicate AsUnseen(after: Job, launch: Launch, counts: Option<Counts>, now: int) {
    var refused, late := RefusedSince(after, launch, counts), TimedOut(after, launch, now);
    && (after.state.Starting? <==> !refused && !late)
    && (after.state.Done? <==> !refused && late && after.isDir)
    && (after.state.Failed? <==> refused || (late && !after.isDir))
    && (refused ==> after.failure == Some(if after.direction.Upload? then Declined
                                          else match counts.value.fetchRefused
                                               case Some(why) => why
                                               case None => Broken))
    && (!refused && late && !after.isDir ==> after.failure == Some(NoAnswer))
    && !after.state.Cancelled? && !after.state.Running?
  }

  ghost predicate SameTransfer(before: Job, after: Job) {
    && after.id == before.id && after.direction == before.direction && after.name == before.name
    && after.source == before.source && after.target == before.target && after.isDir == before.isDir
  }

  ghost predicate TurnFate(before: Job, after: Job, launch: Launch, rows: seq<Row>, counts: Option<Counts>, now: int) {
    && SameTransfer(before, after) && FollowsRow(before, after, launch, rows)
    && (after.transferId.Some? ==> AsItsRow(after, after.transferId.value, rows))
    && (after.transferId.None? ==> AsUnseen(after, launch, counts, now))
  }

  ghost predicate Contains(text: string, part: string) {
    exists i :: 0 <= i <= |text| && part <= text[i..]
  }

  /** What the actor's answer makes of the job it was asked to take. */
  ghost predicate AnswerFate(before: Job, after: Job, result: CallResult) {
    match result
    case Resolved => after == before
    case Rejected(code, message) =>
      if code == "CORE" && Contains(message, "not permitted") then after == before.(state := Queued)
      else after == before.(
        state := Failed,
        failure := Some(if code == "PEER_TOO_OLD" then Unsupported
                        else if code == "CORE" && Contains(message, "malformed") then BadPath else Broken))
  }

  ghost predicate Fate(r: Record) {
    match r.cause
    case Person => r.before.state.Queued? && r.after == r.before.(state := Cancelled)
    case Turn(rows, counts, now) =>
      IsActive(r.before) && r.launch.Some? && TurnFate(r.before, r.after, r.launch.value, rows, counts, now)
    case Answer(result) => r.before.state.Starting? && AnswerFate(r.before, r.after, result)
  }

  // ----- One cause ---------------------------------------------------------

  /** What a job remembers of its hand-over is what there was. */
  ghost predicate Remembers(job: Job, launch: Launch) {
    && (forall i :: 0 <= i < |launch.rows| ==> launch.rows[i].transferId in job.baseline)
    && (forall id :: id in job.baseline ==> exists i :: 0 <= i < |launch.rows| && launch.rows[i].transferId == id)
    && job.refusalsBefore == Count(job.direction, launch.counts)
    && job.submittedAt == launch.at
  }

  lemma OwnsIsOwn(job: Job, launch: Launch, row: Row)
    requires Remembers(job, launch)
    ensures Owns(job, launch, row) <==> IsOwnRow(job, row)
  {
  }

  lemma SettleFate(job: Job, rows: seq<Row>)
    requires job.state.Running? && job.transferId.Some?
    ensures var after := Settle(job, rows);
            after.transferId == job.transferId && SameTransfer(job, after)
            && AsItsRow(after, job.transferId.value, rows)
  {
    var k, id := RowOf(job, rows), job.transferId.value;
    if k < |rows| {
      assert RowIs(rows, id, rows[k].state);
      assert !RowGone(rows, id);
      forall state | RowIs(rows, id, state)
        ensures state == rows[k].state
      {
      }
    } else {
      assert RowGone(rows, id);
    }
  }

  lemma ClaimFate(job: Job, launch: Launch, rows: seq<Row>, counts: Option<Counts>, now: int)
    requires job.state.Starting? && job.transferId.None? && Remembers(job, launch)
    ensures var after := Claim(job, rows, counts, now);
            && SameTransfer(job, after) && FollowsRow(job, after, launch, rows)
            && (after.transferId.Some? <==> after.state.Running?)
            && (after.transferId.None? ==> AsUnseen(after, launch, counts, now))
  {
    forall i | 0 <= i < |rows|
      ensures Owns(job, launch, rows[i]) <==> IsOwnRow(job, rows[i])
    {
      OwnsIsOwn(job, launch, rows[i]);
    }
    hide Owns, IsOwnRow;
    var k := OwnRow(job, rows);
    if k < |rows| {
      assert FirstOwn(job, launch, rows, rows[k].transferId);
    }
  }

  /** Everything a turn can make of the job it looks at. */
  lemma TurnDecides(job: Job, launch: Launch, rows: seq<Row>, counts: Option<Counts>, now: int)
    requires IsActive(job) && (job.state.Running? <==> job.transferId.Some?) && Remembers(job, launch)
    ensures TurnFate(job, Settled(Claimed(job, rows, counts, now), rows), launch, rows, counts, now)
  {
    if job.state.Running? {
      SettleFate(job, rows);
      hide Settle, RowIs, RowGone;
    } else {
      ClaimFate(job, launch, rows, counts, now);
      hide Claim, RowIs, RowGone, FirstOwn, NoneOwn;
      var claimed := Claim(job, rows, counts, now);
      if claimed.state.Running? {
        SettleFate(claimed, rows);
        hide Settle;
      }
    }
  }

  lemma {:induction false} IncludesExactly(text: string, part: string)
    ensures Includes(text, part) <==> Contains(text, part)
  {
    if part <= text {
      assert text[0..] == text;
    } else if text != "" {
      IncludesExactly(text[1..], part);
      if Contains(text[1..], part) {
        var i :| 0 <= i <= |text[1..]| && part <= text[1..][i..];
        assert text[i + 1..] == text[1..][i..];
      }
      if Contains(text, part) {
        var i :| 0 <= i <= |text| && part <= text[i..];
        assert i > 0 by { assert text[0..] == text; }
        assert text[i..] == text[1..][i - 1..];
      }
    }
  }

  lemma AnswerDecides(job: Job, result: CallResult)
    ensures AnswerFate(job, Answered(job, result), result)
  {
    if result.Rejected? {
      IncludesExactly(result.message, "not permitted");
      IncludesExactly(result.message, "malformed");
    }
    hide Includes, Contains;
  }

  // ----- Every run ---------------------------------------------------------

  /** The jobs that ended done, in order. */
  function DoneOf(records: seq<Record>): seq<nat> {
    if records == [] then []
    else
      var n := |records| - 1;
      DoneOf(records[..n]) + if records[n].after.state.Done? then [records[n].after.id] else []
  }

  lemma DoneOfOneMore(records: seq<Record>, r: Record)
    ensures DoneOf(records + [r]) == DoneOf(records) + if r.after.state.Done? then [r.after.id] else []
  {
    assert (records + [r])[..|records|] == records;
  }

  ghost predicate Accounted(records: seq<Record>, job: Job) {
    exists k :: 0 <= k < |records| && records[k].after == job
  }

  ghost predicate LaunchesInv(s: Story) {
    forall i :: 0 <= i < |s.run.queue.jobs| && IsActive(s.run.queue.jobs[i]) ==>
      var job := s.run.queue.jobs[i];
      job.id in s.launches && Remembers(job, s.launches[job.id])
  }

  /** Each record is of what had to happen; the jobs returned are those done; each job ended is recorded. */
  ghost predicate RecordsInv(s: Story) {
    && (forall k :: 0 <= k < |s.records| ==> Fate(s.records[k]))
    && DoneOf(s.records) == s.run.returned + Ids(s.run.queue.finished)
    && (forall i :: 0 <= i < |s.run.queue.jobs| && IsEnded(s.run.queue.jobs[i]) ==>
          Accounted(s.records, s.run.queue.jobs[i]))
  }

  ghost predicate StoryInv(s: Story) {
    ListInv(s.run.queue) && LaunchesInv(s) && RecordsInv(s)
  }

  lemma AccountedStill(records: seq<Record>, r: Record, job: Job)
    requires Accounted(records, job)
    ensures Accounted(records + [r], job)
  {
    var k :| 0 <= k < |records| && records[k].after == job;
    assert (records + [r])[k].after == job;
  }

  lemma AccountedNow(records: seq<Record>, r: Record)
    ensures Accounted(records + [r], r.after)
  {
    assert (records + [r])[|records|].after == r.after;
  }

  /** One job touched, and its record made. */
  lemma RecordKeepsInv(s: Story, s': Story, i: nat, cause: Cause)
    requires RecordsInv(s) && i < |s.run.queue.jobs| && |s'.run.queue.jobs| == |s.run.queue.jobs|
    requires var jobs, jobs' := s.run.queue.jobs, s'.run.queue.jobs;
             && s'.records == s.records + [Record(jobs[i], jobs'[i], LaunchOf(s, jobs[i].id), cause)]
             && Fate(Record(jobs[i], jobs'[i], LaunchOf(s, jobs[i].id), cause))
             && (forall j :: 0 <= j < |jobs| && j != i && IsEnded(jobs'[j]) ==> jobs'[j] == jobs[j])
             && s'.run.returned + Ids(s'.run.queue.finished)
                == s.run.returned + Ids(s.run.queue.finished)
                   + if jobs'[i].state.Done? then [jobs'[i].id] else []
    ensures RecordsInv(s')
  {
    hide Fate;
    var jobs, jobs' := s.run.queue.jobs, s'.run.queue.jobs;
    var r := Record(jobs[i], jobs'[i], LaunchOf(s, jobs[i].id), cause);
    DoneOfOneMore(s.records, r);
    AccountedNow(s.records, r);
    forall j | 0 <= j < |jobs'| && IsEnded(jobs'[j])
      ensures Accounted(s'.records, jobs'[j])
    {
      if j != i {
        AccountedStill(s.records, r, jobs[j]);
      }
    }
    hide DoneOf, Accounted;
  }

  lemma SameRecordsKeepInv(s: Story, s': Story)
    requires RecordsInv(s) && s'.records == s.records
    requires s'.run.returned + Ids(s'.run.queue.finished) == s.run.returned + Ids(s.run.queue.finished)
    requires forall j :: 0 <= j < |s'.run.queue.jobs| && IsEnded(s'.run.queue.jobs[j]) ==>
               exists i :: 0 <= i < |s.run.queue.jobs| && s.run.queue.jobs[i] == s'.run.queue.jobs[j]
    ensures RecordsInv(s')
  {
    hide Fate, DoneOf, Accounted;
  }

  // ----- A turn ------------------------------------------------------------

  lemma TurnOfActive(s: Story, i: nat, rows: seq<Row>, counts: Option<Counts>, now: int)
    requires ListInv(s.run.queue) && LaunchesInv(s)
    requires i < |s.run.queue.jobs| && IsActive(s.run.queue.jobs[i])
    ensures var job := s.run.queue.jobs[i];
            Fate(Record(job, Settled(Claimed(job, rows, counts, now), rows), LaunchOf(s, job.id),
                        Turn(rows, counts, now)))
  {
    var job := s.run.queue.jobs[i];
    TurnDecides(job, s.launches[job.id], rows, counts, now);
    hide TurnFate;
  }

  /** What a turn leaves of the list: the active job moved on, and perhaps a queued one handed over. */
  lemma TurnShape(q: State, rows: seq<Row>, counts: Option<Counts>, now: int)
    requires ListInv(q) && !q.busy
    ensures var i, q' := First(q.jobs, IsActive), PumpBegin(q, rows, counts, now);
            && |q'.jobs| == |q.jobs|
            && (i < |q.jobs| ==> q'.jobs[i] == Settled(Claimed(q.jobs[i], rows, counts, now), rows))
            && (forall j :: 0 <= j < |q.jobs| && j != i ==>
                  || q'.jobs[j] == q.jobs[j]
                  || (q'.jobs[j] == Started(q.jobs[j], rows, counts, now) && q'.owner == Some(q.jobs[j].id)))
            && (forall j :: 0 <= j < |q.jobs| && IsActive(q'.jobs[j]) && (j != i) ==>
                  q'.jobs[j] == Started(q.jobs[j], rows, counts, now) && q'.owner == Some(q.jobs[j].id))
            && (q'.owner.Some? ==> i == |q.jobs| || !IsActive(q'.jobs[i]))
  {
    hide Claimed, Settled;
    var i := First(q.jobs, IsActive);
    if i < |q.jobs| {
      AdvancedJob(q.jobs[i], rows, counts, now);
    }
    OnlyOneActive(q);
  }

  /** No turn leaves work lying: some job is active behind it, or none is queued. */
  lemma NoIdleTurn(q: State, rows: seq<Row>, counts: Option<Counts>, now: int)
    requires !q.busy
    ensures var q' := PumpBegin(q, rows, counts, now);
            || (exists i :: 0 <= i < |q'.jobs| && IsActive(q'.jobs[i]))
            || (forall i :: 0 <= i < |q'.jobs| ==> !q'.jobs[i].state.Queued?)
  {
    hide AdvanceActive;
    var a := AdvanceActive(q, rows, counts, now);
    var i, k := First(a.jobs, IsActive), First(a.jobs, IsQueued);
    if i < |a.jobs| {
      assert IsActive(PumpBegin(q, rows, counts, now).jobs[i]);
    } else if k < |a.jobs| {
      assert IsActive(PumpBegin(q, rows, counts, now).jobs[k]);
    }
  }

  lemma OnlyOneActive(q: State)
    requires ListInv(q)
    ensures var i := First(q.jobs, IsActive);
            forall j :: 0 <= j < |q.jobs| && IsActive(q.jobs[j]) ==> j == i
  {
  }

  /** What the turn adds to the story. */
  lemma TurnTold(s: Story, rows: seq<Row>, counts: Option<Counts>, now: int)
    requires !s.run.queue.busy
    ensures var s', i := Tell(s, Begins(rows, counts, now)), First(s.run.queue.jobs, IsActive);
            && s'.run == Step(s.run, Begins(rows, counts, now))
            && (i == |s.run.queue.jobs| ==> s'.records == s.records)
            && (i < |s.run.queue.jobs| && |s'.run.queue.jobs| == |s.run.queue.jobs| ==>
                  s'.records == s.records + [Record(s.run.queue.jobs[i], s'.run.queue.jobs[i],
                                                    LaunchOf(s, s.run.queue.jobs[i].id), Turn(rows, counts, now))])
  {
    hide Step;
  }

  lemma TurnKeepsRecords(s: Story, rows: seq<Row>, counts: Option<Counts>, now: int)
    requires StoryInv(s) && !s.run.queue.busy
    ensures RecordsInv(Tell(s, Begins(rows, counts, now)))
  {
    var e := Begins(rows, counts, now);
    var s', i := Tell(s, e), First(s.run.queue.jobs, IsActive);
    TurnTold(s, rows, counts, now);
    StepFollowsQueue(s.run, e);
    TurnShape(s.run.queue, rows, counts, now);
    TurnReturns(s.run, rows, counts, now);
    hide PumpBegin, Claimed, Settled, LaunchesInv, ListInv, RecordsInv, Step, Tell, Fate;
    if i < |s.run.queue.jobs| {
      TurnOfActive(s, i, rows, counts, now);
      SameEnded(s.run.queue.jobs, s'.run.queue.jobs, i, rows, counts, now);
      RecordKeepsInv(s, s', i, Turn(rows, counts, now));
    } else {
      SameEnded(s.run.queue.jobs, s'.run.queue.jobs, i, rows, counts, now);
      SameRecordsKeepInv(s, s');
    }
  }

  lemma SameEnded(jobs: seq<Job>, jobs': seq<Job>, i: nat, rows: seq<Row>, counts: Option<Counts>, now: int)
    requires |jobs'| == |jobs|
    requires forall j :: 0 <= j < |jobs| && j != i ==>
               jobs'[j] == jobs[j] || jobs'[j] == Started(jobs[j], rows, counts, now)
    ensures forall j :: 0 <= j < |jobs| && j != i && IsEnded(jobs'[j]) ==> jobs'[j] == jobs[j]
  {
  }

  lemma AdvanceReturns(r: Run, rows: seq<Row>, counts: Option<Counts>, now: int)
    requires r.queue.finished == []
    ensures var i, a := First(r.queue.jobs, IsActive), AdvanceRun(ObserveRun(r, rows), rows, counts, now);
            && a.returned == r.returned
            && Ids(a.queue.finished)
               == if i < |r.queue.jobs| && Settled(Claimed(r.queue.jobs[i], rows, counts, now), rows).state.Done?
                  then [r.queue.jobs[i].id] else []
  {
    hide Claimed, Settled;
    var i := First(r.queue.jobs, IsActive);
    if i < |r.queue.jobs| {
      var job := Settled(Claimed(r.queue.jobs[i], rows, counts, now), rows);
      assert Ids([job]) == [r.queue.jobs[i].id];
    }
  }

  lemma TurnReturns(r: Run, rows: seq<Row>, counts: Option<Counts>, now: int)
    requires ListInv(r.queue) && !r.queue.busy
    ensures var i, r' := First(r.queue.jobs, IsActive), Step(r, Begins(rows, counts, now));
            r'.returned + Ids(r'.queue.finished)
            == r.returned + Ids(r.queue.finished)
               + (if i < |r.queue.jobs| && Settled(Claimed(r.queue.jobs[i], rows, counts, now), rows).state.Done?
                  then [r.queue.jobs[i].id] else [])
  {
    assert r.queue.finished == [] && Ids([]) == [];
    AdvanceReturns(r, rows, counts, now);
    hide Claimed, Settled, AdvanceRun, ListInv;
  }

  lemma TurnKeepsLaunches(s: Story, rows: seq<Row>, counts: Option<Counts>, now: int)
    requires StoryInv(s) && !s.run.queue.busy
    ensures LaunchesInv(Tell(s, Begins(rows, counts, now)))
  {
    var e := Begins(rows, counts, now);
    var s', i, q := Tell(s, e), First(s.run.queue.jobs, IsActive), s.run.queue;
    StepFollowsQueue(s.run, e);
    TurnShape(q, rows, counts, now);
    if i < |q.jobs| {
      TurnKeepsLaunch(q.jobs[i], rows, counts, now);
    }
    OnlyOneActive(q);
    DistinctIds(q);
    hide PumpBegin, Claimed, Settled, RecordsInv, Step, ListInv, Remembers;
    var jobs' := s'.run.queue.jobs;
    forall j | 0 <= j < |jobs'| && IsActive(jobs'[j])
      ensures jobs'[j].id in s'.launches && Remembers(jobs'[j], s'.launches[jobs'[j].id])
    {
      if j == i {
        assert s'.run.queue.owner.None?;
        SameMemory(q.jobs[i], jobs'[i], s.launches[q.jobs[i].id]);
      } else {
        StartedRemembers(q.jobs[j], rows, counts, now);
      }
    }
  }

  lemma DistinctIds(q: State)
    requires ListInv(q)
    ensures forall i, j :: 0 <= i < j < |q.jobs| ==> q.jobs[i].id != q.jobs[j].id
  {
  }

  lemma TurnKeepsLaunch(job: Job, rows: seq<Row>, counts: Option<Counts>, now: int)
    requires IsActive(job)
    ensures var after := Settled(Claimed(job, rows, counts, now), rows);
            && after.id == job.id && after.direction == job.direction && after.baseline == job.baseline
            && after.refusalsBefore == job.refusalsBefore && after.submittedAt == job.submittedAt
  {
  }

  lemma SameMemory(job: Job, job': Job, launch: Launch)
    requires Remembers(job, launch) && job'.direction == job.direction && job'.baseline == job.baseline
    requires job'.refusalsBefore == job.refusalsBefore && job'.submittedAt == job.submittedAt
    ensures Remembers(job', launch)
  {
  }

  lemma StartedRemembers(job: Job, rows: seq<Row>, counts: Option<Counts>, now: int)
    ensures Remembers(Started(job, rows, counts, now), Launch(rows, counts, now))
  {
  }

  // ----- The other events --------------------------------------------------

  lemma CancelKeepsStory(s: Story, id: nat)
    requires StoryInv(s)
    ensures LaunchesInv(Tell(s, Cancels(id))) && RecordsInv(Tell(s, Cancels(id)))
  {
    var q, i, s' := s.run.queue, WithId(s.run.queue.jobs, id), Tell(s, Cancels(id));
    if i < |q.jobs| && q.jobs[i].state.Queued? {
      assert s'.run.queue.jobs == q.jobs[i := q.jobs[i].(state := Cancelled)];
      assert s'.run.queue.jobs[i] != q.jobs[i];
      hide RecordsInv, Remembers, ListInv;
      RecordKeepsInv(s, s', i, Person);
    }
  }

  lemma FinishKeepsStory(s: Story, result: CallResult)
    requires StoryInv(s) && s.run.queue.busy
    ensures LaunchesInv(Tell(s, Finishes(result))) && RecordsInv(Tell(s, Finishes(result)))
  {
    var e := Finishes(result);
    var q, s' := s.run.queue, Tell(s, e);
    StepFollowsQueue(s.run, e);
    assert Ids([]) == [];
    if q.owner.Some? {
      var k := OwnedJob(q);
      AnswerDecides(q.jobs[k], result);
      AnswerKeepsLaunch(q.jobs[k], result);
      assert s'.run.queue.jobs == q.jobs[k := Answered(q.jobs[k], result)];
      hide RecordsInv, Remembers, ListInv, Answered, AnswerFate;
      RecordKeepsInv(s, s', k, Answer(result));
      forall j | 0 <= j < |q.jobs| && IsActive(s'.run.queue.jobs[j])
        ensures s'.run.queue.jobs[j].id in s'.launches
        ensures Remembers(s'.run.queue.jobs[j], s'.launches[s'.run.queue.jobs[j].id])
      {
      }
    } else {
      hide Remembers, ListInv, Accounted;
      SameRecordsKeepInv(s, s');
    }
  }

  lemma AnswerKeepsLaunch(job: Job, result: CallResult)
    requires job.state.Starting?
    ensures var after := Answered(job, result);
            after.id == job.id && !after.state.Done? && (IsActive(after) ==> after == job)
  {
  }

  lemma AddOrClearKeepsStory(s: Story, e: Event)
    requires StoryInv(s) && (e.Adds? || e.Clears?)
    ensures LaunchesInv(Tell(s, e)) && RecordsInv(Tell(s, e))
  {
    var s', jobs := Tell(s, e), s.run.queue.jobs;
    forall j | 0 <= j < |s'.run.queue.jobs| && !s'.run.queue.jobs[j].state.Queued?
      ensures exists i :: 0 <= i < |jobs| && jobs[i] == s'.run.queue.jobs[j]
    {
      if e.Clears? {
        var i := UnendedIndex(jobs, j);
      } else if j < |jobs| {
        assert jobs[j] == s'.run.queue.jobs[j];
      }
    }
    assert s'.run.returned == s.run.returned && s'.run.queue.finished == s.run.queue.finished;
    hide Remembers, ListInv, Accounted, Step, Fate;
    SameRecordsKeepInv(s, s');
  }

  lemma TellKeepsInv(s: Story, e: Event)
    requires StoryInv(s)
    ensures StoryInv(Tell(s, e)) && Tell(s, e).run == Step(s.run, e)
  {
    StepKeepsList(s.run, e);
    assert Tell(s, e).run == Step(s.run, e) by { hide StoryInv; }
    hide ListInv, Step;
    match e
    case Adds(_, _, _) => AddOrClearKeepsStory(s, e);
    case Clears => AddOrClearKeepsStory(s, e);
    case Cancels(id) => CancelKeepsStory(s, id);
    case Begins(rows, counts, now) =>
      if !s.run.queue.busy {
        TurnKeepsLaunches(s, rows, counts, now);
        TurnKeepsRecords(s, rows, counts, now);
        hide LaunchesInv, RecordsInv;
      }
    case Finishes(result) =>
      if s.run.queue.busy {
        FinishKeepsStory(s, result);
        hide LaunchesInv, RecordsInv;
      }
  }

  lemma {:induction false} StoriesKeepInv(s: Story, events: seq<Event>)
    requires StoryInv(s)
    ensures StoryInv(Told(s, events)) && Told(s, events).run == After(s.run, events)
    decreases |events|
  {
    hide StoryInv, Tell, Step;
    if events != [] {
      TellKeepsInv(s, events[0]);
      StoriesKeepInv(Tell(s, events[0]), events[1..]);
    }
  }

  /**
   In every run: whatever touches a job makes of it exactly what the actor's rows, counts and answers
   call for, so a job ends done, cancelled or failed for no other reason; every job that has ended is
   on record; and the jobs the pumps returned, with those about to be, are those recorded done.
   */
  lemma EveryEndIsEarned(events: seq<Event>)
    ensures var s := Told(STORY, events);
            && s.run == After(START, events)
            && (forall k :: 0 <= k < |s.records| ==> Fate(s.records[k]))
            && DoneOf(s.records) == s.run.returned + Ids(s.run.queue.finished)
            && (forall i :: 0 <= i < |s.run.queue.jobs| && IsEnded(s.run.queue.jobs[i]) ==>
                  Accounted(s.records, s.run.queue.jobs[i]))
  {
    StartsWell();
    assert Ids([]) == [];
    StoriesKeepInv(STORY, events);
    hide Fate, Accounted, DoneOf, Told, After, ListInv;
  }
}
