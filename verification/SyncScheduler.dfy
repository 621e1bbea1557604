/**
  Scheduled synchronization of knowledge sources.

  One worker alternates between checking which sources are due and queueing a run for each of them,
  while other processes queue, claim, finish and prune runs.  The main result is the rate limit:
  two scheduled runs of a source are at least its interval apart, provided that pruning keeps at
  least one run.
 */
module SyncScheduler {
  import opened Identifiers
  import opened Wrappers
  import opened BackgroundJobs

  // The interval in seconds, or a policy that schedules nothing.
  datatype Policy = NoInterval | IntervalSec(seconds: int)

  datatype Source = Source(id: SourceId, alias: string, enabled: bool, policy: Policy)

  predicate SourceIsDue(policy: Policy, lastStartedAt: Option<Time>, now: Time) {
    match policy
    case NoInterval => false
    case IntervalSec(seconds) =>
      seconds > 0 && (lastStartedAt.None? || lastStartedAt.value <= now - seconds)
  }

  predicate SyncRun(r: JobRun, source: SourceId) {
    r.jobType == SYNC_JOB_TYPE && r.source == Some(source)
  }

  // Start time of the most recent run of a source, as the query returns it.
  ghost predicate LastStarted(runs: map<RunId, JobRun>, source: SourceId, last: Option<Time>) {
    match last
    case None => forall id <- runs :: !SyncRun(runs[id], source)
    case Some(t) =>
      && (exists id :: id in runs && SyncRun(runs[id], source) && runs[id].startedAt == t)
      && forall id <- runs :: SyncRun(runs[id], source) ==> runs[id].startedAt <= t
  }

  method FindLastStarted(runs: map<RunId, JobRun>, source: SourceId) returns (last: Option<Time>)
    ensures LastStarted(runs, source, last)
  {
    last := None;
    var rest := runs.Keys;
    while rest != {}
      invariant rest <= runs.Keys
      invariant last.None? ==> forall id <- runs :: id !in rest ==> !SyncRun(runs[id], source)
      invariant last.Some? ==> exists id :: id in runs && SyncRun(runs[id], source) && runs[id].startedAt == last.value
      invariant last.Some? ==> forall id <- runs :: id !in rest && SyncRun(runs[id], source) ==> runs[id].startedAt <= last.value
      decreases |rest|
    {
      var id :| id in rest;
      if SyncRun(runs[id], source) && (last.None? || runs[id].startedAt > last.value) {
        last := Some(runs[id].startedAt);
      }
      rest := rest - {id};
    }
  }

  ghost predicate Due(runs: map<RunId, JobRun>, s: Source, now: Time) {
    s.enabled && exists last :: LastStarted(runs, s.id, last) && SourceIsDue(s.policy, last, now)
  }

  lemma LastStartedIsUnique(runs: map<RunId, JobRun>, source: SourceId, a: Option<Time>, b: Option<Time>)
    requires LastStarted(runs, source, a) && LastStarted(runs, source, b)
    ensures a == b
  {
  }

  // The ids of the due sources, in the order of the sources.
  ghost function DueIds(runs: map<RunId, JobRun>, sources: seq<Source>, now: Time): seq<SourceId> {
    if sources == [] then []
    else
      var init, s := sources[..|sources| - 1], sources[|sources| - 1];
      DueIds(runs, init, now) + if Due(runs, s, now) then [s.id] else []
  }

  lemma {:induction false} DueMember(runs: map<RunId, JobRun>, sources: seq<Source>, now: Time, id: SourceId)
    ensures id in DueIds(runs, sources, now) <==> exists s :: s in sources && s.id == id && Due(runs, s, now)
  {
    if sources != [] {
      var init, last := sources[..|sources| - 1], sources[|sources| - 1];
      DueMember(runs, init, now, id);
      hide Due;
      assert sources == init + [last] && last in sources;
      forall s ensures s in sources <==> s in init || s == last {}
    }
  }

  // Each due source is listed once.
  lemma {:induction false} DueOnce(runs: map<RunId, JobRun>, sources: seq<Source>, now: Time, due: seq<SourceId>)
    requires UniqueIds(sources) && due == DueIds(runs, sources, now)
    ensures forall i, j | 0 <= i < j < |due| :: due[i] != due[j]
  {
    if sources != [] {
      var init, last := sources[..|sources| - 1], sources[|sources| - 1];
      DueOnce(runs, init, now, DueIds(runs, init, now));
      DueMember(runs, init, now, last.id);
      hide Due;
    }
  }

  method DueSourceIds(runs: map<RunId, JobRun>, sources: seq<Source>, now: Time) returns (due: seq<SourceId>)
    ensures due == DueIds(runs, sources, now)
  {
    due := [];
    for i := 0 to |sources|
      invariant due == DueIds(runs, sources[..i], now)
    {
      var s := sources[i];
      assert sources[..i + 1][..i] == sources[..i];
      if !s.enabled { continue; }
      var last := FindLastStarted(runs, s.id);
      DueIff(runs, s, now, last);
      if SourceIsDue(s.policy, last, now) { due := due + [s.id]; }
    }
    assert sources[..|sources|] == sources;
  }

  lemma DueIff(runs: map<RunId, JobRun>, s: Source, now: Time, last: Option<Time>)
    requires LastStarted(runs, s.id, last)
    ensures Due(runs, s, now) <==> s.enabled && SourceIsDue(s.policy, last, now)
  {
    if Due(runs, s, now) {
      var other :| LastStarted(runs, s.id, other) && SourceIsDue(s.policy, other, now);
      LastStartedIsUnique(runs, s.id, last, other);
    }
  }

  lemma {:induction false} SomeLastStarted(runs: map<RunId, JobRun>, ids: set<RunId>, source: SourceId) returns (last: Option<Time>)
    requires ids <= runs.Keys
    ensures last.None? ==> forall id <- ids :: !SyncRun(runs[id], source)
    ensures last.Some? ==> exists id :: id in ids && SyncRun(runs[id], source) && runs[id].startedAt == last.value
    ensures last.Some? ==> forall id <- ids :: SyncRun(runs[id], source) ==> runs[id].startedAt <= last.value
    decreases |ids|
  {
    if ids == {} { return None; }
    var id :| id in ids;
    last := SomeLastStarted(runs, ids - {id}, source);
    if SyncRun(runs[id], source) && (last.None? || runs[id].startedAt > last.value) { last := Some(runs[id].startedAt); }
  }

  // A source is due exactly if it is enabled, has a positive interval, and every synchronization of it
  // started at least that interval ago.
  lemma DueExactly(runs: map<RunId, JobRun>, s: Source, now: Time)
    ensures Due(runs, s, now) <==>
            && s.enabled && s.policy.IntervalSec? && s.policy.seconds > 0
            && forall id <- runs :: runs[id].jobType == "knowledge_source_sync" && runs[id].source == Some(s.id) ==>
                 runs[id].startedAt + s.policy.seconds <= now
  {
    var last := SomeLastStarted(runs, runs.Keys, s.id);
    assert LastStarted(runs, s.id, last);
    DueIff(runs, s, now, last);
    forall id <- runs ensures SyncRun(runs[id], s.id) <==> runs[id].jobType == "knowledge_source_sync" && runs[id].source == Some(s.id) {}
  }

  // Queueing adds one scheduled run for each listed source, in order, and touches no other row.
  lemma {:induction false} QueueAllRows(s: Jobs, due: seq<SourceId>, clock: Time -> Time)
    requires forall id <- s.runs :: id < s.nextId
    ensures var s' := QueueAll(s, due, clock);
            && s'.nextId == s.nextId + |due|
            && (forall id :: id in s'.runs <==> id in s.runs || s.nextId <= id < s.nextId + |due|)
            && (forall id <- s.runs :: s'.runs[id] == s.runs[id])
            && forall i | 0 <= i < |due| ::
                 s'.runs[s.nextId + i] ==
                 JobRun("knowledge_source_sync", "scheduled", Some(due[i]), None, Queued, clock(i), None, None, None)
  {
    if due != [] { QueueAllRows(s, due[..|due| - 1], clock); }
  }

  method QueueDueSources(store: JobStore, sources: seq<Source>, now: Time, clock: Time -> Time) returns (due: seq<SourceId>)
    modifies store
    ensures due == DueIds(old(store.runs), sources, now)
    ensures store.State() == QueueAll(old(store.State()), due, clock)
  {
    due := DueSourceIds(store.runs, sources, now);
    for i := 0 to |due|
      invariant store.State() == QueueAll(old(store.State()), due[..i], clock)
    {
      assert due[..i + 1][..i] == due[..i];
      var _ := store.QueueJob(SYNC_JOB_TYPE, "scheduled", Some(due[i]), clock(i));
    }
    assert due[..|due|] == due;
  }

  // The i-th queued run starts at the i-th reading of the clock.
  function QueueAll(s: Jobs, due: seq<SourceId>, clock: Time -> Time): Jobs {
    if due == [] then s
    else
      var n := |due| - 1;
      Next(QueueAll(s, due[..n], clock), Queue(SYNC_JOB_TYPE, "scheduled", Some(due[n]), clock(n)))
  }

  /******* Pruning *******/

  // The runs of the same source that come before run `id`: started later, or with a larger id.
  function Newer(runs: map<RunId, JobRun>, source: SourceId, id: RunId): set<RunId>
    requires id in runs
  {
    set q | q in runs && SyncRun(runs[q], source)
            && (runs[q].startedAt > runs[id].startedAt || (runs[q].startedAt == runs[id].startedAt && q > id))
  }

  // Everything but the newest `keep` runs of a source, unless it is still queued or running.
  function Prunable(runs: map<RunId, JobRun>, source: SourceId, keep: nat): set<RunId> {
    set id | id in runs && SyncRun(runs[id], source) && |Newer(runs, source, id)| >= keep
             && runs[id].status in TERMINAL_STATUSES
  }

  // Pruned are exactly the synchronizations of the source that have ended and have `keep` others that
  // started later, or at the same time with a larger id.
  lemma PrunedRuns(runs: map<RunId, JobRun>, source: SourceId, keep: nat, id: RunId)
    requires id in runs
    ensures var newer := set q | q in runs && runs[q].jobType == "knowledge_source_sync" && runs[q].source == Some(source)
                                 && (runs[q].startedAt > runs[id].startedAt || (runs[q].startedAt == runs[id].startedAt && q > id));
            id in Prunable(runs, source, keep) <==>
              && runs[id].jobType == "knowledge_source_sync" && runs[id].source == Some(source)
              && |newer| >= keep && runs[id].status != Queued && runs[id].status != Running
  {
    assert Newer(runs, source, id) ==
      set q | q in runs && runs[q].jobType == "knowledge_source_sync" && runs[q].source == Some(source)
              && (runs[q].startedAt > runs[id].startedAt || (runs[q].startedAt == runs[id].startedAt && q > id));
  }

  /******* The worker among other processes *******/

  datatype World = World(
    jobs: Jobs,
    clock: Time,
    // The worker's due list and when it was computed.
    due: seq<SourceId>,
    checkedAt: Time,
    // All scheduled runs ever queued.
    queued: seq<(SourceId, Time)>)

  datatype Step =
    | Wait(until: Time)
    | Check(due: seq<SourceId>)
    | Enqueue
    | Prune(source: SourceId)
    | Other(op: Op)

  // Steps of other processes take their times from the clock, and only pruning deletes runs.
  predicate Timely(op: Op, clock: Time) {
    match op
    case Queue(_, _, _, at) => at == clock
    case Start(_, _, _, at) => at == clock
    case Claim(_, now) => now == clock
    case RecordCompleted(jobType, _, _, _) => jobType != SYNC_JOB_TYPE
    case Delete(_) => false
    case _ => true
  }

  // A step is possible in a world; `keep` is the number of runs that pruning keeps per source.
  ghost predicate Possible(w: World, sources: seq<Source>, step: Step) {
    match step
    case Wait(until) => until >= w.clock
    case Check(due) => w.due == [] && due == DueIds(w.jobs.runs, sources, w.clock)
    case Enqueue => w.due != []
    case Prune(_) => true
    case Other(op) => Timely(op, w.clock)
  }

  function Advance(w: World, keep: nat, step: Step): World {
    match step
    case Wait(until) => w.(clock := until)
    case Check(due) => w.(due := due, checkedAt := w.clock)
    case Enqueue =>
      if w.due == [] then w
      else
        w.(jobs := Next(w.jobs, Queue(SYNC_JOB_TYPE, "scheduled", Some(w.due[0]), w.clock)),
           due := w.due[1..],
           queued := w.queued + [(w.due[0], w.clock)])
    case Prune(source) => w.(jobs := Next(w.jobs, Delete(Prunable(w.jobs.runs, source, keep))))
    case Other(op) => w.(jobs := Next(w.jobs, op))
  }

  const START := World(NO_JOBS, 0, [], 0, [])

  function Reach(keep: nat, steps: seq<Step>): World {
    if steps == [] then START else Advance(Reach(keep, steps[..|steps| - 1]), keep, steps[|steps| - 1])
  }

  // Every step was possible when it was taken.
  ghost predicate Feasible(sources: seq<Source>, keep: nat, steps: seq<Step>) {
    forall k | 0 <= k < |steps| :: Possible(Reach(keep, steps[..k]), sources, steps[k])
  }

  /******* The rate limit *******/

  // At least the interval of the source lies between the two.
  ghost predicate Apart(a: (SourceId, Time), b: (SourceId, Time), sources: seq<Source>) {
    forall s <- sources :: s.id == a.0 && s.policy.IntervalSec? && s.policy.seconds > 0 ==> b.1 - a.1 >= s.policy.seconds
  }

  // Any two scheduled runs of the same source are apart.
  ghost predicate Paced(queued: seq<(SourceId, Time)>, sources: seq<Source>) {
    forall i, j | 0 <= i < j < |queued| && queued[i].0 == queued[j].0 :: Apart(queued[i], queued[j], sources)
  }

  ghost predicate RateLimited(sources: seq<Source>, keep: nat) {
    forall steps: seq<Step> | Feasible(sources, keep, steps) :: Paced(Reach(keep, steps).queued, sources)
  }

  ghost predicate UniqueIds(sources: seq<Source>) {
    forall i, j | 0 <= i < j < |sources| :: sources[i].id != sources[j].id
  }

  // Some run of the source started no earlier than t.
  ghost predicate StartedSince(runs: map<RunId, JobRun>, source: SourceId, t: Time) {
    exists id :: id in runs && SyncRun(runs[id], source) && runs[id].startedAt >= t
  }

  ghost predicate NotInFuture(w: World) {
    && (forall id <- w.jobs.runs :: id < w.jobs.nextId)
    && (forall id <- w.jobs.runs :: w.jobs.runs[id].jobType == SYNC_JOB_TYPE ==> w.jobs.runs[id].startedAt <= w.clock)
    && w.checkedAt <= w.clock
  }

  ghost predicate Remembered(w: World) {
    forall q <- w.queued :: StartedSince(w.jobs.runs, q.0, q.1)
  }

  ghost predicate DueApart(w: World, sources: seq<Source>) {
    && (forall i, j | 0 <= i < j < |w.due| :: w.due[i] != w.due[j])
    && forall id <- w.due, q <- w.queued | q.0 == id :: Apart(q, (id, w.checkedAt), sources)
  }

  ghost predicate Inv(w: World, sources: seq<Source>) {
    NotInFuture(w) && Remembered(w) && DueApart(w, sources) && Paced(w.queued, sources)
  }

  // Other operations never take a start time back.
  lemma OtherKeepsStarts(jobs: Jobs, op: Op, clock: Time, source: SourceId, t: Time)
    requires Timely(op, clock)
    requires forall id <- jobs.runs :: id < jobs.nextId
    requires forall id <- jobs.runs :: jobs.runs[id].jobType == SYNC_JOB_TYPE ==> jobs.runs[id].startedAt <= clock
    requires StartedSince(jobs.runs, source, t)
    ensures StartedSince(Next(jobs, op).runs, source, t)
  {
    var id :| id in jobs.runs && SyncRun(jobs.runs[id], source) && jobs.runs[id].startedAt >= t;
    var runs := Next(jobs, op).runs;
    assert id in runs && SyncRun(runs[id], source) && runs[id].startedAt >= t;
  }

  lemma OtherKeepsClock(jobs: Jobs, op: Op, clock: Time)
    requires Timely(op, clock)
    requires forall id <- jobs.runs :: id < jobs.nextId
    requires forall id <- jobs.runs :: jobs.runs[id].jobType == SYNC_JOB_TYPE ==> jobs.runs[id].startedAt <= clock
    ensures var after := Next(jobs, op);
            && (forall id <- after.runs :: id < after.nextId)
            && (forall id <- after.runs :: after.runs[id].jobType == SYNC_JOB_TYPE ==> after.runs[id].startedAt <= clock)
  {
  }

  // Pruning with at least one kept run leaves the most recently started one of every source.
  lemma PruneKeepsStarts(runs: map<RunId, JobRun>, pruned: SourceId, keep: nat, source: SourceId, t: Time)
    requires keep >= 1 && StartedSince(runs, source, t)
    ensures StartedSince(runs - Prunable(runs, pruned, keep), source, t)
  {
    var id :| id in runs && SyncRun(runs[id], source) && runs[id].startedAt >= t;
    var top := Newest(runs, source, id);
    assert Newer(runs, source, top) == {};
    if pruned == source { assert top !in Prunable(runs, pruned, keep); }
    assert top in runs - Prunable(runs, pruned, keep);
  }

  lemma {:induction false} Newest(runs: map<RunId, JobRun>, source: SourceId, id: RunId) returns (top: RunId)
    requires id in runs && SyncRun(runs[id], source)
    ensures top in runs && SyncRun(runs[top], source) && runs[top].startedAt >= runs[id].startedAt
    ensures Newer(runs, source, top) == {}
    decreases |Newer(runs, source, id)|
  {
    if Newer(runs, source, id) == {} {
      top := id;
    } else {
      var q :| q in Newer(runs, source, id);
      assert Newer(runs, source, q) < Newer(runs, source, id) by { assert q !in Newer(runs, source, q); }
      SmallerSet(Newer(runs, source, q), Newer(runs, source, id));
      top := Newest(runs, source, q);
    }
  }

  lemma SmallerSet<T>(a: set<T>, b: set<T>)
    requires a < b
    ensures |a| < |b|
  {
    var x :| x in b && x !in a;
    assert |b - {x}| == |b| - 1;
    SubsetSize(a, b - {x});
  }

  lemma {:induction false} SubsetSize<T>(a: set<T>, b: set<T>)
    requires a <= b
    ensures |a| <= |b|
    decreases |a|
  {
    if a != {} {
      var x :| x in a;
      SubsetSize(a - {x}, b - {x});
    }
  }

  // A source that the worker finds due has not been queued within its interval.
  lemma CheckIsApart(w: World, sources: seq<Source>, due: seq<SourceId>, id: SourceId, q: (SourceId, Time))
    requires UniqueIds(sources) && Remembered(w) && due == DueIds(w.jobs.runs, sources, w.clock)
    requires id in due && q in w.queued && q.0 == id
    ensures Apart(q, (id, w.clock), sources)
  {
    DueMember(w.jobs.runs, sources, w.clock, id);
    var s :| s in sources && s.id == id && Due(w.jobs.runs, s, w.clock);
    var last :| LastStarted(w.jobs.runs, s.id, last) && SourceIsDue(s.policy, last, w.clock);
    assert StartedSince(w.jobs.runs, id, q.1);
    forall x <- sources | x.id == id ensures x == s {}
  }

  lemma EnqueueKeepsPaced(w: World, sources: seq<Source>)
    requires Inv(w, sources) && w.due != []
    ensures Paced(w.queued + [(w.due[0], w.clock)], sources)
  {
    var queued := w.queued + [(w.due[0], w.clock)];
    forall i, j | 0 <= i < j < |queued| && queued[i].0 == queued[j].0 ensures Apart(queued[i], queued[j], sources) {
      if j == |w.queued| {
        assert w.queued[i] in w.queued;
        assert Apart(w.queued[i], (w.due[0], w.checkedAt), sources);
      }
    }
  }

  lemma StepKeepsInv(w: World, sources: seq<Source>, keep: nat, step: Step)
    requires UniqueIds(sources) && Inv(w, sources) && Possible(w, sources, step)
    requires keep >= 1
    ensures Inv(Advance(w, keep, step), sources)
  {
    var w' := Advance(w, keep, step);
    match step
    case Wait(_) =>
    case Check(due) =>
      DueOnce(w.jobs.runs, sources, w.clock, due);
      forall id <- due, q <- w.queued | q.0 == id ensures Apart(q, (id, w.clock), sources) {
        CheckIsApart(w, sources, due, id, q);
      }
    case Enqueue => EnqueueKeepsInv(w, sources, keep);
    case Prune(source) =>
      forall q <- w.queued ensures StartedSince(w'.jobs.runs, q.0, q.1) {
        PruneKeepsStarts(w.jobs.runs, source, keep, q.0, q.1);
      }
    case Other(op) =>
      OtherKeepsClock(w.jobs, op, w.clock);
      forall q <- w.queued ensures StartedSince(w'.jobs.runs, q.0, q.1) {
        OtherKeepsStarts(w.jobs, op, w.clock, q.0, q.1);
      }
  }

  lemma EnqueueKeepsInv(w: World, sources: seq<Source>, keep: nat)
    requires Inv(w, sources) && w.due != []
    ensures Inv(Advance(w, keep, Enqueue), sources)
  {
    var w' := Advance(w, keep, Enqueue);
    var op := Queue(SYNC_JOB_TYPE, "scheduled", Some(w.due[0]), w.clock);
    EnqueueKeepsPaced(w, sources);
    OtherKeepsClock(w.jobs, op, w.clock);
    assert w.jobs.nextId in w'.jobs.runs && SyncRun(w'.jobs.runs[w.jobs.nextId], w.due[0]);
    forall q <- w'.queued ensures StartedSince(w'.jobs.runs, q.0, q.1) {
      if q in w.queued { OtherKeepsStarts(w.jobs, op, w.clock, q.0, q.1); }
    }
    forall i, j | 0 <= i < j < |w'.due| ensures w'.due[i] != w'.due[j] {
      assert w'.due[i] == w.due[i + 1] && w'.due[j] == w.due[j + 1];
    }
    forall id <- w'.due, q <- w'.queued | q.0 == id ensures Apart(q, (id, w'.checkedAt), sources) {
      var i :| 0 <= i < |w'.due| && w'.due[i] == id;
      assert w.due[i + 1] == id && id in w.due && id != w.due[0];
      assert q in w.queued;
    }
  }

  lemma {:induction false} ReachableInv(sources: seq<Source>, keep: nat, steps: seq<Step>)
    requires UniqueIds(sources) && Feasible(sources, keep, steps) && keep >= 1
    ensures Inv(Reach(keep, steps), sources)
  {
    if steps != [] {
      hide Inv, Possible, Advance;
      var n := |steps| - 1;
      forall k | 0 <= k < n ensures Possible(Reach(keep, steps[..n][..k]), sources, steps[..n][k]) {
        assert steps[..n][..k] == steps[..k];
      }
      ReachableInv(sources, keep, steps[..n]);
      StepKeepsInv(Reach(keep, steps[..n]), sources, keep, steps[n]);
    }
  }

  // Scheduled runs of the same source keep their distance in every run of the system, as long as pruning
  // keeps at least one run per source.
  lemma ScheduledRunsArePaced(sources: seq<Source>, keep: nat)
    requires UniqueIds(sources) && keep >= 1
    ensures RateLimited(sources, keep)
  {
    forall steps: seq<Step> | Feasible(sources, keep, steps) ensures Paced(Reach(keep, steps).queued, sources) {
      ReachableInv(sources, keep, steps);
    }
  }

  // Without a kept run the limit is lost for every scheduled source.
  lemma PacedIffOneRunKept(s: Source, keep: nat)
    requires s.enabled && s.policy.IntervalSec? && s.policy.seconds > 0
    ensures RateLimited([s], keep) <==> keep >= 1
  {
    if keep >= 1 {
      ScheduledRunsArePaced([s], keep);
    } else {
      var steps := UnpacedSteps(s);
      UnpacedRun(s);
      assert Feasible([s], 0, steps);
    }
  }

  // Queue, run and prune, all within one instant, and the source is due again.
  function UnpacedSteps(s: Source): seq<Step> {
    [Check([s.id]), Enqueue, Other(Claim(0, 0)), Other(Finish(0, Succeeded, None, 0)), Prune(s.id), Check([s.id]), Enqueue]
  }

  lemma ReachNext(keep: nat, steps: seq<Step>, k: nat)
    requires k < |steps|
    ensures Reach(keep, steps[..k + 1]) == Advance(Reach(keep, steps[..k]), keep, steps[k])
  {
    assert steps[..k + 1][..k] == steps[..k];
  }

  lemma DueWithoutRuns(s: Source, now: Time)
    requires s.enabled && s.policy.IntervalSec? && s.policy.seconds > 0
    ensures DueIds(map[], [s], now) == [s.id]
  {
    assert LastStarted(map[], s.id, None);
    assert Due(map[], s, now);
    assert [s][..0] == [];
  }

  // The world after the first k of these steps.
  function UnpacedWorld(s: Source, k: nat): World {
    var queued := JobRun(SYNC_JOB_TYPE, "scheduled", Some(s.id), None, Queued, 0, None, None, None);
    var claimed := queued.(status := Running, heartbeatAt := Some(0));
    var once, twice := [(s.id, 0)], [(s.id, 0), (s.id, 0)];
    match k
    case 0 => START
    case 1 => World(NO_JOBS, 0, [s.id], 0, [])
    case 2 => World(Jobs(map[0 := queued], 1), 0, [], 0, once)
    case 3 => World(Jobs(map[0 := claimed], 1), 0, [], 0, once)
    case 4 => World(Jobs(map[0 := Ended(claimed, Succeeded, 0)], 1), 0, [], 0, once)
    case 5 => World(Jobs(map[], 1), 0, [], 0, once)
    case 6 => World(Jobs(map[], 1), 0, [s.id], 0, once)
    case _ => World(Jobs(map[1 := queued], 2), 0, [], 0, twice)
  }

  lemma UnpacedStep(s: Source, k: nat)
    requires s.enabled && s.policy.IntervalSec? && s.policy.seconds > 0
    requires k < 7
    ensures Possible(UnpacedWorld(s, k), [s], UnpacedSteps(s)[k])
    ensures Advance(UnpacedWorld(s, k), 0, UnpacedSteps(s)[k]) == UnpacedWorld(s, k + 1)
  {
    if k == 0 || k == 5 { DueWithoutRuns(s, 0); }
    if k == 4 {
      assert Prunable(UnpacedWorld(s, 4).jobs.runs, s.id, 0) == {0};
    }
  }

  lemma {:induction false} UnpacedReach(s: Source, k: nat)
    requires s.enabled && s.policy.IntervalSec? && s.policy.seconds > 0
    requires k <= 7
    ensures Reach(0, UnpacedSteps(s)[..k]) == UnpacedWorld(s, k)
  {
    if k == 0 {
      assert UnpacedSteps(s)[..0] == [];
    } else {
      hide Advance, UnpacedWorld;
      UnpacedReach(s, k - 1);
      UnpacedStep(s, k - 1);
      ReachNext(0, UnpacedSteps(s), k - 1);
    }
  }

  lemma UnpacedRun(s: Source)
    requires s.enabled && s.policy.IntervalSec? && s.policy.seconds > 0
    ensures Feasible([s], 0, UnpacedSteps(s))
    ensures !Paced(Reach(0, UnpacedSteps(s)).queued, [s])
  {
    var steps := UnpacedSteps(s);
    forall k | 0 <= k < 7 ensures Possible(Reach(0, steps[..k]), [s], steps[k]) {
      UnpacedReach(s, k);
      UnpacedStep(s, k);
    }
    UnpacedReach(s, 7);
    assert steps[..7] == steps;
    hide Reach, Possible, Advance;
    var twice := [(s.id, 0), (s.id, 0)];
    assert UnpacedWorld(s, 7).queued == twice;
    assert !Apart(twice[0], twice[1], [s]) by { assert [s][0] in [s]; }
    assert twice[0].0 == twice[1].0;
  }
}
