/**
  The lifecycle of background job runs.

  `Next` is one committed operation on the table of runs; the class `JobStore` performs the operations
  in place.  The guarded operations never leave a terminal status.  `SkipWrite` is the one write that
  does not look at the status first.
 */
module BackgroundJobs {
  import opened Identifiers
  import opened Wrappers

  datatype Status = Queued | Running | Succeeded | Failed | Skipped | Cancelled

  const TERMINAL_STATUSES: set<Status> := {Succeeded, Failed, Skipped, Cancelled}

  datatype JobRun = JobRun(
    jobType: string,
    trigger: string,
    source: Option<SourceId>,
    version: Option<VersionId>,
    status: Status,
    startedAt: Time,
    heartbeatAt: Option<Time>,
    finishedAt: Option<Time>,
    duration: Option<Time>)

  // Identifiers are never reused, so new rows take the next one.
  datatype Jobs = Jobs(runs: map<RunId, JobRun>, nextId: RunId)

  const NO_JOBS := Jobs(map[], 0)

  datatype Op =
    | Queue(jobType: string, trigger: string, source: Option<SourceId>, at: Time)
    | Start(jobType: string, trigger: string, source: Option<SourceId>, at: Time)
    | Claim(id: RunId, now: Time)
    | Heartbeat(id: RunId, now: Time)
    | Finish(id: RunId, status: Status, version: Option<VersionId>, at: Time)
    | RecordCompleted(jobType: string, status: Status, startedAt: Time, finishedAt: Time)
    | Reconcile(staleBefore: Time, onlyType: Option<string>, now: Time)
    | Delete(ids: set<RunId>)
    | SkipWrite(id: RunId, existing: VersionId, now: Time)

  function Elapsed(from: Time, to: Time): Time {
    if to >= from then to - from else 0
  }

  function Ended(r: JobRun, status: Status, at: Time): JobRun {
    r.(status := status, heartbeatAt := Some(at), finishedAt := Some(at), duration := Some(Elapsed(r.startedAt, at)))
  }

  predicate Stale(r: JobRun, staleBefore: Time, jobType: Option<string>) {
    && r.status == Running
    && (match r.heartbeatAt
        case Some(t) => t < staleBefore
        case None => r.startedAt < staleBefore)
    && (jobType.Some? ==> r.jobType == jobType.value)
  }

  // Whether the operation goes through; otherwise it raises and changes nothing.
  predicate Succeeds(s: Jobs, op: Op) {
    match op
    case Claim(id, _) => id in s.runs && s.runs[id].status == Queued
    case Heartbeat(id, _) => id in s.runs && s.runs[id].status == Running
    case Finish(id, status, _, _) => status in TERMINAL_STATUSES && id in s.runs && s.runs[id].status == Running
    case RecordCompleted(_, status, _, _) => status in TERMINAL_STATUSES
    case SkipWrite(id, _, _) => id in s.runs
    case _ => true
  }

  function Add(s: Jobs, r: JobRun): Jobs {
    Jobs(s.runs[s.nextId := r], s.nextId + 1)
  }

  function Change(s: Jobs, id: RunId, r: JobRun): Jobs {
    s.(runs := s.runs[id := r])
  }

  function Next(s: Jobs, op: Op): Jobs {
    if !Succeeds(s, op) then s
    else
      match op
      case Queue(jobType, trigger, source, at) =>
        Add(s, JobRun(jobType, trigger, source, None, Queued, at, None, None, None))
      case Start(jobType, trigger, source, at) =>
        Add(s, JobRun(jobType, trigger, source, None, Running, at, Some(at), None, None))
      case Claim(id, now) => Change(s, id, s.runs[id].(status := Running, startedAt := now, heartbeatAt := Some(now)))
      case Heartbeat(id, now) => Change(s, id, s.runs[id].(heartbeatAt := Some(now)))
      case Finish(id, status, version, at) =>
        var ended := Ended(s.runs[id], status, at);
        Change(s, id, if version.Some? then ended.(version := version) else ended)
      case RecordCompleted(jobType, status, startedAt, finishedAt) =>
        Add(s, Ended(JobRun(jobType, "", None, None, status, startedAt, None, None, None), status, finishedAt))
      case Reconcile(staleBefore, jobType, now) =>
        s.(runs := map id | id in s.runs ::
             if Stale(s.runs[id], staleBefore, jobType) then Ended(s.runs[id], Failed, now) else s.runs[id])
      case Delete(ids) => s.(runs := s.runs - ids)
      case SkipWrite(id, version, now) => Change(s, id, Ended(s.runs[id], Skipped, now).(version := Some(version)))
  }

  function Execute(ops: seq<Op>): Jobs {
    if ops == [] then NO_JOBS else Next(Execute(ops[..|ops| - 1]), ops[|ops| - 1])
  }

  /******* The lifecycle *******/

  function Rank(status: Status): nat {
    match status
    case Queued => 0
    case Running => 1
    case _ => 2
  }

  predicate EndedProperly(r: JobRun) {
    Rank(r.status) == 2 ==> r.finishedAt.Some? && r.duration.Some? && r.duration.value >= 0
  }

  ghost predicate Valid(s: Jobs) {
    && (forall id <- s.runs :: id < s.nextId)
    && (forall id <- s.runs :: EndedProperly(s.runs[id]))
  }

  // From one state to a later one: rows only disappear or advance, and a finished row is frozen.
  ghost predicate Advances(s: Jobs, s': Jobs) {
    && s.nextId <= s'.nextId
    && (forall id <- s'.runs :: id in s.runs || id >= s.nextId)
    && (forall id <- s'.runs :: id in s.runs ==>
          && Rank(s.runs[id].status) <= Rank(s'.runs[id].status)
          && (Rank(s.runs[id].status) == 2 ==> s'.runs[id] == s.runs[id]))
  }

  lemma AdvancesTransitive(a: Jobs, b: Jobs, c: Jobs)
    requires Valid(a) && Advances(a, b) && Advances(b, c)
    ensures Advances(a, c)
  {
    forall id | id in c.runs && id in a.runs ensures id in b.runs {}
  }

  // No run skips a stage: a queued run cannot end without having been running.
  ghost predicate StageByStage(s: Jobs, s': Jobs) {
    forall id <- s'.runs :: id in s.runs ==> Rank(s'.runs[id].status) <= Rank(s.runs[id].status) + 1
  }

  // What one guarded operation may make of a row.
  predicate RowAdvances(a: JobRun, b: JobRun) {
    EndedProperly(b) && Rank(a.status) <= Rank(b.status) <= Rank(a.status) + 1 && (Rank(a.status) == 2 ==> b == a)
  }

  ghost predicate GoodStep(s: Jobs, s': Jobs) {
    Valid(s') && Advances(s, s') && StageByStage(s, s')
  }

  lemma ChangedRow(s: Jobs, id: RunId, r: JobRun)
    requires Valid(s) && id in s.runs && RowAdvances(s.runs[id], r)
    ensures GoodStep(s, Change(s, id, r))
  {
  }

  lemma AddedRow(s: Jobs, r: JobRun)
    requires Valid(s) && EndedProperly(r)
    ensures GoodStep(s, Add(s, r))
  {
  }

  lemma DeletedRows(s: Jobs, ids: set<RunId>)
    requires Valid(s)
    ensures GoodStep(s, s.(runs := s.runs - ids))
  {
  }

  lemma ReconciledRows(s: Jobs, staleBefore: Time, jobType: Option<string>, now: Time)
    requires Valid(s)
    ensures GoodStep(s, Next(s, Reconcile(staleBefore, jobType, now)))
  {
  }

  lemma GuardedStep(s: Jobs, op: Op)
    requires Valid(s) && !op.SkipWrite?
    ensures GoodStep(s, Next(s, op))
  {
    if !Succeeds(s, op) {
      assert s.(runs := s.runs - {}) == s;
      DeletedRows(s, {});
    } else {
      hide GoodStep, Valid, Add, Change;
      match op
      case Queue(jobType, trigger, source, at) =>
        AddedRow(s, JobRun(jobType, trigger, source, None, Queued, at, None, None, None));
      case Start(jobType, trigger, source, at) =>
        AddedRow(s, JobRun(jobType, trigger, source, None, Running, at, Some(at), None, None));
      case Claim(id, _) => ChangedRow(s, id, s.runs[id].(status := Running, startedAt := op.now, heartbeatAt := Some(op.now)));
      case Heartbeat(id, now) => ChangedRow(s, id, s.runs[id].(heartbeatAt := Some(now)));
      case Finish(id, status, version, at) =>
        var ended := Ended(s.runs[id], status, at);
        ChangedRow(s, id, if version.Some? then ended.(version := version) else ended);
      case RecordCompleted(jobType, status, startedAt, finishedAt) =>
        AddedRow(s, Ended(JobRun(jobType, "", None, None, status, startedAt, None, None, None), status, finishedAt));
      case Reconcile(staleBefore, jobType, now) => ReconciledRows(s, staleBefore, jobType, now);
      case Delete(ids) => DeletedRows(s, ids);
    }
  }

  predicate Guarded(ops: seq<Op>) {
    forall op <- ops :: !op.SkipWrite?
  }

  lemma {:induction false} AlwaysAdvances(ops: seq<Op>, k: nat)
    requires Guarded(ops) && k <= |ops|
    ensures Valid(Execute(ops)) && Advances(Execute(ops[..k]), Execute(ops))
    decreases |ops|
  {
    hide Valid, Advances, StageByStage, Next;
    if ops == [] {
      assert Valid(NO_JOBS) && Advances(NO_JOBS, NO_JOBS) by { NoJobsAreValid(); }
    } else {
      var n := |ops| - 1;
      assert ops == ops[..n] + [ops[n]];
      AlwaysAdvances(ops[..n], if k <= n then k else n);
      GuardedStep(Execute(ops[..n]), ops[n]);
      if k <= n {
        assert ops[..n][..k] == ops[..k];
        AlwaysAdvances(ops[..k], 0);
        AdvancesTransitive(Execute(ops[..k]), Execute(ops[..n]), Execute(ops));
      } else {
        assert ops[..k] == ops;
        AdvancesReflexive(Execute(ops));
      }
    }
  }

  // Over all sequences of guarded operations: a run only moves from queued to running to one terminal
  // status, by at most one stage with each operation, a finished run never changes again, and its
  // duration is not negative.
  lemma Lifecycle(ops: seq<Op>, k: nat)
    requires Guarded(ops) && k <= |ops|
    ensures Valid(Execute(ops)) && Advances(Execute(ops[..k]), Execute(ops))
    ensures k < |ops| ==> StageByStage(Execute(ops[..k]), Execute(ops[..k + 1]))
  {
    AlwaysAdvances(ops, k);
    if k < |ops| {
      assert ops[..k + 1][..k] == ops[..k] && ops[k] in ops;
      assert forall op <- ops[..k] :: op in ops;
      AlwaysAdvances(ops[..k], 0);
      hide Valid, Advances, StageByStage, Next;
      GuardedStep(Execute(ops[..k]), ops[k]);
    }
  }

  lemma NoJobsAreValid()
    ensures Valid(NO_JOBS) && Advances(NO_JOBS, NO_JOBS)
  {
  }

  lemma AdvancesReflexive(s: Jobs)
    ensures Advances(s, s)
  {
  }

  // How often a claim of this run went through.
  function Claims(ops: seq<Op>, id: RunId): nat {
    if ops == [] then 0
    else
      var n := |ops| - 1;
      Claims(ops[..n], id) +
      if ops[n].Claim? && ops[n].id == id && Succeeds(Execute(ops[..n]), ops[n]) then 1 else 0
  }

  // A run is claimed at most once, and not at all as long as it is queued.
  lemma {:induction false} ClaimedAtMostOnce(ops: seq<Op>, id: RunId)
    requires Guarded(ops)
    ensures Claims(ops, id) <= 1
    ensures id in Execute(ops).runs && Execute(ops).runs[id].status == Queued ==> Claims(ops, id) == 0
    ensures id >= Execute(ops).nextId ==> Claims(ops, id) == 0
  {
    if ops != [] {
      var n := |ops| - 1;
      assert ops == ops[..n] + [ops[n]];
      ClaimedAtMostOnce(ops[..n], id);
      Lifecycle(ops[..n], 0);
      GuardedStep(Execute(ops[..n]), ops[n]);
    }
  }

  // A run that waits has no heartbeat, a running one has one and no end, and an ended one beat for the
  // last time when it ended.
  ghost predicate BeatsWhileRunning(r: JobRun) {
    match r.status
    case Queued => r.heartbeatAt.None? && r.finishedAt.None? && r.duration.None?
    case Running => r.heartbeatAt.Some? && r.finishedAt.None? && r.duration.None?
    case _ => r.finishedAt.Some? && r.heartbeatAt == r.finishedAt && r.duration == Some(Elapsed(r.startedAt, r.finishedAt.value))
  }

  // Over all sequences of operations, skips included, heartbeats come from running runs only.
  lemma {:induction false} HeartbeatOnlyRunning(ops: seq<Op>)
    ensures forall id <- Execute(ops).runs :: BeatsWhileRunning(Execute(ops).runs[id])
  {
    if ops != [] {
      var n := |ops| - 1;
      HeartbeatOnlyRunning(ops[..n]);
      StepKeepsBeats(Execute(ops[..n]), ops[n]);
    }
  }

  lemma StepKeepsBeats(s: Jobs, op: Op)
    requires forall id <- s.runs :: BeatsWhileRunning(s.runs[id])
    ensures forall id <- Next(s, op).runs :: BeatsWhileRunning(Next(s, op).runs[id])
  {
  }

  /******* The unguarded skip *******/

  // No run ever leaves a terminal status.
  ghost predicate TerminalIsFinal(ops: seq<Op>) {
    forall k, id | 0 <= k < |ops| && id in Execute(ops[..k]).runs && id in Execute(ops[..k + 1]).runs ::
      Rank(Execute(ops[..k]).runs[id].status) == 2 ==>
        Execute(ops[..k + 1]).runs[id].status == Execute(ops[..k]).runs[id].status
  }

  // Every skip is written to a run that is queued, running or already skipped.
  ghost predicate SkipsMeetLiveRuns(ops: seq<Op>) {
    forall k | 0 <= k < |ops| && ops[k].SkipWrite? && ops[k].id in Execute(ops[..k]).runs ::
      Execute(ops[..k]).runs[ops[k].id].status in {Queued, Running, Skipped}
  }

  lemma StepKeepsTerminal(s: Jobs, op: Op, id: RunId)
    requires Valid(s) && id in s.runs && id in Next(s, op).runs && Rank(s.runs[id].status) == 2
    ensures Next(s, op).runs[id].status != s.runs[id].status <==>
            op.SkipWrite? && op.id == id && s.runs[id].status != Skipped
  {
  }

  lemma {:induction false} AlwaysValid(ops: seq<Op>)
    ensures Valid(Execute(ops))
  {
    if ops != [] { AlwaysValid(ops[..|ops| - 1]); }
  }

  // With the skip among the operations, terminal statuses are final exactly if no skip is written to a
  // run that has failed, succeeded or been cancelled in the meantime.
  lemma TerminalIsFinalIffSkipsMeetLiveRuns(ops: seq<Op>)
    ensures TerminalIsFinal(ops) <==> SkipsMeetLiveRuns(ops)
  {
    forall k | 0 <= k < |ops| ensures Execute(ops[..k + 1]) == Next(Execute(ops[..k]), ops[k]) && Valid(Execute(ops[..k])) {
      assert ops[..k + 1][..k] == ops[..k];
      AlwaysValid(ops[..k]);
    }
    hide Next, Valid;
    if SkipsMeetLiveRuns(ops) {
      forall k, id | 0 <= k < |ops| && id in Execute(ops[..k]).runs && id in Execute(ops[..k + 1]).runs
                     && Rank(Execute(ops[..k]).runs[id].status) == 2
        ensures Execute(ops[..k + 1]).runs[id].status == Execute(ops[..k]).runs[id].status
      {
        StepKeepsTerminal(Execute(ops[..k]), ops[k], id);
      }
    } else {
      var k :| 0 <= k < |ops| && ops[k].SkipWrite? && ops[k].id in Execute(ops[..k]).runs
               && Execute(ops[..k]).runs[ops[k].id].status !in {Queued, Running, Skipped};
      SkipStays(Execute(ops[..k]), ops[k]);
      StepKeepsTerminal(Execute(ops[..k]), ops[k], ops[k].id);
    }
  }

  lemma SkipStays(s: Jobs, op: Op)
    requires op.SkipWrite? && op.id in s.runs
    ensures op.id in Next(s, op).runs
  {
  }

  // A run that a restarted worker has reconciled as failed can still be overwritten as skipped.
  lemma ReconciledRunCanBecomeSkipped(jobType: string, version: VersionId, t: Time)
    ensures var ops := [Start(jobType, "manual", None, t), Reconcile(t + 1, None, t + 1), SkipWrite(0, version, t + 2)];
            && 0 in Execute(ops[..2]).runs && Execute(ops[..2]).runs[0].status == Failed
            && 0 in Execute(ops).runs && Execute(ops).runs[0].status == Skipped
  {
    var ops := [Start(jobType, "manual", None, t), Reconcile(t + 1, None, t + 1), SkipWrite(0, version, t + 2)];
    assert ops[..2][..1] == ops[..1] && ops[..1][..0] == [];
    assert Execute(ops[..1]) == Next(NO_JOBS, ops[0]);
    assert Execute(ops[..2]) == Next(Execute(ops[..1]), ops[1]);
  }

  /******* The same, in place *******/

  datatype JobError = DoesNotExist | AlreadyClaimed(status: Status) | NotRunning | Unsupported

  class JobStore {
    var runs: map<RunId, JobRun>
    var nextId: RunId

    constructor ()
      ensures State() == NO_JOBS
    {
      runs, nextId := map[], 0;
    }

    function State(): Jobs
      reads this
    {
      Jobs(runs, nextId)
    }

    method QueueJob(jobType: string, trigger: string, source: Option<SourceId>, at: Time) returns (id: RunId)
      modifies this
      ensures State() == Next(old(State()), Queue(jobType, trigger, source, at))
      ensures id == old(nextId) && id in runs
    {
      id := nextId;
      runs := runs[id := JobRun(jobType, trigger, source, None, Queued, at, None, None, None)];
      nextId := nextId + 1;
    }

    method StartJob(jobType: string, trigger: string, source: Option<SourceId>, at: Time) returns (id: RunId)
      modifies this
      ensures State() == Next(old(State()), Start(jobType, trigger, source, at))
      ensures id == old(nextId) && id in runs
    {
      id := nextId;
      runs := runs[id := JobRun(jobType, trigger, source, None, Running, at, Some(at), None, None)];
      nextId := nextId + 1;
    }

    method ClaimJob(id: RunId, now: Time) returns (r: Result<JobRun, JobError>)
      modifies this
      ensures State() == Next(old(State()), Claim(id, now))
      ensures r.Ok? <==> Succeeds(old(State()), Claim(id, now))
      ensures r.Ok? ==> id in runs && r.value == runs[id]
    {
      if id !in runs { return Err(DoesNotExist); }
      var run := runs[id];
      if run.status != Queued { return Err(AlreadyClaimed(run.status)); }
      run := run.(status := Running);
      run := run.(startedAt := now);
      run := run.(heartbeatAt := Some(now));
      runs := runs[id := run];
      r := Ok(run);
    }

    method HeartbeatJob(id: RunId, now: Time) returns (r: Result<(), JobError>)
      modifies this
      ensures State() == Next(old(State()), Heartbeat(id, now))
      ensures r.Ok? <==> Succeeds(old(State()), Heartbeat(id, now))
    {
      if id !in runs || runs[id].status != Running { return Err(NotRunning); }
      runs := runs[id := runs[id].(heartbeatAt := Some(now))];
      r := Ok(());
    }

    method FinishJob(id: RunId, status: Status, version: Option<VersionId>, at: Time) returns (r: Result<JobRun, JobError>)
      modifies this
      ensures State() == Next(old(State()), Finish(id, status, version, at))
      ensures r.Ok? <==> Succeeds(old(State()), Finish(id, status, version, at))
    {
      if status !in TERMINAL_STATUSES { return Err(Unsupported); }
      if id !in runs { return Err(DoesNotExist); }
      var run := runs[id];
      if run.status != Running { return Err(AlreadyClaimed(run.status)); }
      run := run.(status := status);
      run := run.(heartbeatAt := Some(at));
      run := run.(finishedAt := Some(at));
      run := run.(duration := Some(Elapsed(run.startedAt, at)));
      if version.Some? { run := run.(version := version); }
      runs := runs[id := run];
      r := Ok(run);
    }

    // Marks running jobs without a recent heartbeat as failed and reports which ones.
    method ReconcileStale(staleBefore: Time, jobType: Option<string>, now: Time) returns (reconciled: seq<RunId>)
      modifies this
      ensures State() == Next(old(State()), Reconcile(staleBefore, jobType, now))
      ensures forall id :: id in reconciled <==> id in old(runs) && Stale(old(runs[id]), staleBefore, jobType)
      ensures forall i, j | 0 <= i < j < |reconciled| :: reconciled[i] != reconciled[j]
    {
      reconciled := [];
      ghost var before, start := runs, State();
      var rest := set id | id in runs && Stale(runs[id], staleBefore, jobType);
      NothingReconciled(before, rest, staleBefore, jobType, now);
      hide PartlyReconciled, Stale, Ended, Next;
      while rest != {}
        invariant nextId == old(nextId)
        invariant PartlyReconciled(before, runs, rest, reconciled, staleBefore, jobType, now)
        decreases |rest|
      {
        var id :| id in rest;
        OneMoreReconciled(before, runs, rest, reconciled, staleBefore, jobType, now, id);
        runs := runs[id := Ended(runs[id], Failed, now)];
        reconciled := reconciled + [id];
        rest := rest - {id};
      }
      AllReconciled(start, runs, reconciled, staleBefore, jobType, now);
    }
  }

  // The reported runs are failed, the rest of the stale ones is still to come, nothing else is touched.
  ghost predicate PartlyReconciled(before: map<RunId, JobRun>, runs: map<RunId, JobRun>, rest: set<RunId>, reconciled: seq<RunId>,
                                   staleBefore: Time, jobType: Option<string>, now: Time)
    ensures PartlyReconciled(before, runs, rest, reconciled, staleBefore, jobType, now) ==> forall id <- rest :: id in runs
  {
    && runs.Keys == before.Keys
    && (forall id <- before :: runs[id] == if id in reconciled then Ended(before[id], Failed, now) else before[id])
    && (forall id <- rest :: id in before && id !in reconciled)
    && (forall id :: id in before && Stale(before[id], staleBefore, jobType) <==> id in rest || id in reconciled)
    && forall i, j | 0 <= i < j < |reconciled| :: reconciled[i] != reconciled[j]
  }

  lemma NothingReconciled(before: map<RunId, JobRun>, rest: set<RunId>, staleBefore: Time, jobType: Option<string>, now: Time)
    requires rest == set id | id in before && Stale(before[id], staleBefore, jobType)
    ensures PartlyReconciled(before, before, rest, [], staleBefore, jobType, now)
  {
    hide Stale, Ended;
  }

  lemma AllReconciled(s: Jobs, runs: map<RunId, JobRun>, reconciled: seq<RunId>, staleBefore: Time, jobType: Option<string>, now: Time)
    requires PartlyReconciled(s.runs, runs, {}, reconciled, staleBefore, jobType, now)
    ensures s.(runs := runs) == Next(s, Reconcile(staleBefore, jobType, now))
    ensures forall id :: id in reconciled <==> id in s.runs && Stale(s.runs[id], staleBefore, jobType)
    ensures forall i, j | 0 <= i < j < |reconciled| :: reconciled[i] != reconciled[j]
  {
    hide Stale, Ended;
  }

  lemma OneMoreReconciled(before: map<RunId, JobRun>, runs: map<RunId, JobRun>, rest: set<RunId>, reconciled: seq<RunId>,
                          staleBefore: Time, jobType: Option<string>, now: Time, id: RunId)
    requires PartlyReconciled(before, runs, rest, reconciled, staleBefore, jobType, now) && id in rest
    ensures PartlyReconciled(before, runs[id := Ended(runs[id], Failed, now)], rest - {id}, reconciled + [id], staleBefore, jobType, now)
  {
    hide Stale, Ended;
  }
}
