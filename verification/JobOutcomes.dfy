/**
  What each operation on background job runs does to the table, row by row.
 */
module JobOutcomes {
  import opened Identifiers
  import opened Wrappers
  import opened BackgroundJobs

  // The row after it has ended at this time.
  predicate EndsAt(before: JobRun, after: JobRun, status: Status, version: Option<VersionId>, at: Time) {
    after == before.(
      status := status, version := version, heartbeatAt := Some(at), finishedAt := Some(at),
      duration := Some(if at <= before.startedAt then 0 else at - before.startedAt))
  }

  // One row has been added under the next id.
  ghost predicate Added(s: Jobs, s': Jobs) {
    && s'.nextId == s.nextId + 1 && s'.runs.Keys == s.runs.Keys + {s.nextId}
    && forall id <- s.runs :: id != s.nextId ==> s'.runs[id] == s.runs[id]
  }

  // At most this row has changed.
  ghost predicate OnlyChanges(s: Jobs, s': Jobs, id: RunId) {
    && s'.nextId == s.nextId && s'.runs.Keys == s.runs.Keys
    && forall other <- s.runs :: other != id ==> s'.runs[other] == s.runs[other]
  }

  predicate IsTerminal(status: Status) {
    status == Succeeded || status == Failed || status == Skipped || status == Cancelled
  }

  // A queued run waits under a new id, and a started one runs from the start.
  lemma AddOutcome(s: Jobs, jobType: string, trigger: string, source: Option<SourceId>, at: Time)
    ensures var s' := Next(s, Queue(jobType, trigger, source, at));
            Added(s, s') && s'.runs[s.nextId] == JobRun(jobType, trigger, source, None, Queued, at, None, None, None)
    ensures var s' := Next(s, Start(jobType, trigger, source, at));
            Added(s, s') && s'.runs[s.nextId] == JobRun(jobType, trigger, source, None, Running, at, Some(at), None, None)
  {
  }

  // Work that was managed elsewhere is recorded as ended, with a terminal status only.
  lemma RecordOutcome(s: Jobs, jobType: string, status: Status, startedAt: Time, finishedAt: Time)
    ensures var s' := Next(s, RecordCompleted(jobType, status, startedAt, finishedAt));
            if IsTerminal(status) then
              Added(s, s') && EndsAt(JobRun(jobType, "", None, None, Queued, startedAt, None, None, None), s'.runs[s.nextId], status, None, finishedAt)
            else s' == s
  {
  }

  // A claim starts exactly a queued run, at the time of the claim.
  lemma ClaimOutcome(s: Jobs, id: RunId, now: Time)
    ensures var s' := Next(s, Claim(id, now));
            if id in s.runs && s.runs[id].status == Queued
            then OnlyChanges(s, s', id) && s'.runs[id] == s.runs[id].(status := Running, startedAt := now, heartbeatAt := Some(now))
            else s' == s
  {
  }

  // A heartbeat notes its time on exactly a running run.
  lemma HeartbeatOutcome(s: Jobs, id: RunId, now: Time)
    ensures var s' := Next(s, Heartbeat(id, now));
            if id in s.runs && s.runs[id].status == Running
            then OnlyChanges(s, s', id) && s'.runs[id] == s.runs[id].(heartbeatAt := Some(now))
            else s' == s
  {
  }

  // Finishing ends exactly a running run, with a terminal status, and keeps its version unless one is given.
  lemma FinishOutcome(s: Jobs, id: RunId, status: Status, version: Option<VersionId>, at: Time)
    ensures var s' := Next(s, Finish(id, status, version, at));
            if IsTerminal(status) && id in s.runs && s.runs[id].status == Running
            then OnlyChanges(s, s', id)
                 && EndsAt(s.runs[id], s'.runs[id], status, if version.Some? then version else s.runs[id].version, at)
            else s' == s
  {
  }

  // Reconciliation fails exactly the running runs of the given type whose last heartbeat, or without one
  // whose start, lies before the limit.
  lemma ReconcileOutcome(s: Jobs, staleBefore: Time, jobType: Option<string>, now: Time)
    ensures var s' := Next(s, Reconcile(staleBefore, jobType, now));
            && s'.nextId == s.nextId && s'.runs.Keys == s.runs.Keys
            && forall id <- s.runs ::
                 var r := s.runs[id];
                 var last := if r.heartbeatAt.Some? then r.heartbeatAt.value else r.startedAt;
                 if r.status == Running && last < staleBefore && (jobType == None || jobType == Some(r.jobType))
                 then EndsAt(r, s'.runs[id], Failed, r.version, now)
                 else s'.runs[id] == r
  {
  }

  // Deletion takes exactly these rows; the skip write ends a row whatever its status, with the version found.
  lemma DeleteOutcome(s: Jobs, ids: set<RunId>)
    ensures var s' := Next(s, Delete(ids));
            && s'.nextId == s.nextId
            && forall id :: (id in s'.runs <==> id in s.runs && id !in ids) && (id in s'.runs ==> s'.runs[id] == s.runs[id])
  {
  }

  lemma SkipWriteOutcome(s: Jobs, id: RunId, existing: VersionId, now: Time)
    ensures var s' := Next(s, SkipWrite(id, existing, now));
            if id in s.runs then OnlyChanges(s, s', id) && EndsAt(s.runs[id], s'.runs[id], Skipped, Some(existing), now)
            else s' == s
  {
  }
}
