/**
  What each step of a synchronization leaves behind, field by field.

  The statuses of runs and versions, the serving pointer and the lock are stated outright here; the
  invariants of `SyncProtocol` say what holds between them.
 */
module SyncOutcomes {
  import opened Identifiers
  import opened Wrappers
  import opened Publication
  import opened SyncProtocol

  // Run r as it is after it has ended with this status.
  predicate EndedAs(before: Jobs.JobRun, after: Jobs.JobRun, status: Jobs.Status, version: Option<VersionId>, now: Time) {
    after == before.(
      status := status, version := version, heartbeatAt := Some(now), finishedAt := Some(now),
      duration := Some(if now >= before.startedAt then now - before.startedAt else 0))
  }

  // Only this run has changed.
  ghost predicate OtherRunsKept(w: World, w': World, run: RunId) {
    && run in w.jobs.runs && w'.jobs.nextId == w.jobs.nextId && w'.jobs.runs.Keys == w.jobs.runs.Keys
    && forall r <- w.jobs.runs :: r != run ==> w'.jobs.runs[r] == w.jobs.runs[r]
  }

  ghost predicate OtherVersionsKept(w: World, w': World, v: VersionId) {
    forall u :: u != v ==> (u in w'.versions <==> u in w.versions) && (u in w.versions ==> w'.versions[u] == w.versions[u])
  }

  ghost predicate OtherSourcesKept(w: World, w': World, s: SourceId) {
    w'.sources.Keys == w.sources.Keys && forall t <- w.sources :: t != s ==> w'.sources[t] == w.sources[t]
  }

  ghost predicate OtherWorkersKept(w: World, w': World, s: SourceId) {
    forall t :: t != s ==> (t in w'.workers <==> t in w.workers) && (t in w.workers ==> w'.workers[t] == w.workers[t])
  }

  // A promotion whose records match makes the version succeeded and current and ends its run as succeeded,
  // all at `now`; without matching records, or when version or run is over, nothing happens.
  lemma PromotionOutcome(n: Naming, w: World, s: SourceId, now: Time, refreshed: bool)
    requires Possible(w, Promote(s, now, refreshed)) && WorkersValid(n, w)
    ensures s in w.workers && w.workers[s].Attempting? && w.workers[s].version in w.versions
    ensures var w', run, v := Next(n, w, Promote(s, now, refreshed)), w.workers[s].run, w.workers[s].version;
            var row := w.versions[v];
            if s in w.sources && run in w.jobs.runs && row.id.source == s && w.jobs.runs[run].source == Some(s)
               && w.jobs.runs[run].version == Some(v) && w.jobs.runs[run].status == Jobs.Running
            then
              && OtherRunsKept(w, w', run) && EndedAs(w.jobs.runs[run], w'.jobs.runs[run], Jobs.Succeeded, Some(v), now)
              && OtherVersionsKept(w, w', v) && v in w'.versions && w'.versions[v].status == Succeeded && w'.versions[v].id == row.id
              && OtherSourcesKept(w, w', s) && w'.sources[s] == w.sources[s].(current := Some(v))
              && OtherWorkersKept(w, w', s) && w'.objects == w.objects
              && (if refreshed then s !in w'.workers else s in w'.workers && w'.workers[s] == Refreshing(run, v))
            else w' == w
  {
    assert WorkerValid(n, w, s, w.workers[s]);
    hide WorkersValid, Verified, Promoted, OtherRunsKept, OtherVersionsKept, OtherSourcesKept, EndedAs;
    var Attempting(run, v, local, _) := w.workers[s];
    if RecordsMatch(w, s, run, v) && w.jobs.runs[run].status == Jobs.Running { PromotedFields(n, w, s, run, v, local, now); }
  }

  lemma PromotedFields(n: Naming, w: World, s: SourceId, run: RunId, v: VersionId, local: Local, now: Time)
    requires Complete(local) && RecordsMatch(w, s, run, v) && w.jobs.runs[run].status == Jobs.Running
    ensures var w' := Promoted(n, w, s, run, v, local, now);
            && OtherRunsKept(w, w', run) && EndedAs(w.jobs.runs[run], w'.jobs.runs[run], Jobs.Succeeded, Some(v), now)
            && OtherVersionsKept(w, w', v) && v in w'.versions && w'.versions[v].status == Succeeded && w'.versions[v].id == w.versions[v].id
            && OtherSourcesKept(w, w', s) && w'.sources[s] == w.sources[s].(current := Some(v))
            && w'.workers == w.workers - {s} && w'.objects == w.objects
            && w' == w.(sources := w'.sources, versions := w'.versions, jobs := w'.jobs, workers := w'.workers)
  {
    hide AllKeys, AllChecksums;
  }

  // Whatever the step: when it makes a version succeeded, it ends the run of that version's worker as
  // succeeded at the same time.
  lemma NewSuccessEndsRun(n: Naming, w: World, step: Step, v: VersionId)
    requires Possible(w, step) && WorkersValid(n, w)
    requires v in Next(n, w, step).versions && Next(n, w, step).versions[v].status == Succeeded
    requires !(v in w.versions && w.versions[v].status == Succeeded)
    ensures step.Promote? && step.source in w.workers && w.workers[step.source].Attempting? && w.workers[step.source].version == v
    ensures var run, jobs := w.workers[step.source].run, Next(n, w, step).jobs;
            && run in w.jobs.runs && w.jobs.runs[run].status == Jobs.Running && run in jobs.runs
            && EndedAs(w.jobs.runs[run], jobs.runs[run], Jobs.Succeeded, Some(v), step.now)
  {
    SuccessOrigin(n, w, step, v);
    hide WorkersValid, Next, EndedAs;
    PromotionOutcome(n, w, step.source, step.now, step.refreshed);
  }

  // A failure whose records match and whose run is running fails both; otherwise it only gives up the lock.
  lemma FailureOutcome(n: Naming, w: World, s: SourceId, now: Time)
    requires Possible(w, FailVersion(s, now)) && WorkersValid(n, w)
    ensures s in w.workers && !w.workers[s].Locked? && !w.workers[s].Claimed?
    ensures var w', run, v := Next(n, w, FailVersion(s, now)), w.workers[s].run, w.workers[s].version;
            && w'.sources == w.sources && w'.objects == w.objects && w'.workers == w.workers - {s}
            && if s in w.sources && v in w.versions && run in w.jobs.runs && w.versions[v].id.source == s
                  && w.jobs.runs[run].source == Some(s) && w.jobs.runs[run].version == Some(v)
                  && w.jobs.runs[run].status == Jobs.Running
               then
                 && OtherRunsKept(w, w', run) && EndedAs(w.jobs.runs[run], w'.jobs.runs[run], Jobs.Failed, Some(v), now)
                 && w'.versions == w.versions[v := w.versions[v].(status := SyncProtocol.Failed)]
               else w'.jobs == w.jobs && w'.versions == w.versions
  {
    hide WorkersValid;
  }

  // A resolution that fails ends the running run as failed and gives up the lock.
  lemma FailedResolutionOutcome(n: Naming, w: World, s: SourceId, now: Time)
    requires Possible(w, ResolveFails(s, now)) && WorkersValid(n, w)
    ensures s in w.workers && w.workers[s].Claimed?
    ensures var w', run := Next(n, w, ResolveFails(s, now)), w.workers[s].run;
            && w' == w.(jobs := w'.jobs, workers := w.workers - {s})
            && if run in w.jobs.runs && w.jobs.runs[run].status == Jobs.Running
               then OtherRunsKept(w, w', run) && EndedAs(w.jobs.runs[run], w'.jobs.runs[run], Jobs.Failed, w.jobs.runs[run].version, now)
               else w'.jobs == w.jobs
  {
    hide WorkersValid;
  }

  // A commit and configuration whose version has succeeded is skipped: the run ends as skipped with that
  // version, and the source points at it.
  lemma SkipOutcome(n: Naming, w: World, s: SourceId, commit: string, config: Config, local: Local, now: Time, v: VersionId)
    requires n.Valid() && Coherent(n, w) && WorkersValid(n, w) && Possible(w, Resolve(s, commit, config, local, now))
    requires s in w.workers && w.workers[s].Claimed? && w.workers[s].run in w.jobs.runs && s in w.sources
    requires v in w.versions && w.versions[v].status == Succeeded && w.versions[v].id == Identity(s, commit, n.configHash(config))
    ensures var w', run := Next(n, w, Resolve(s, commit, config, local, now)), w.workers[s].run;
            && OtherRunsKept(w, w', run) && EndedAs(w.jobs.runs[run], w'.jobs.runs[run], Jobs.Skipped, Some(v), now)
            && w' == w.(jobs := w'.jobs, workers := w.workers - {s}, sources := w.sources[s := w.sources[s].(current := Some(v))])
  {
    OpenCoherent(n, w);
    FoundIsOnly(n, w, w.versions[v].id, config);
    hide Coherent, IdentitiesValid, WorkersValid, Naming.Valid;
  }

  // Any other is attempted: the version known for it, or a new one, is running and tied to the run, which
  // keeps running, and the worker starts from the first artifact.
  lemma AttemptOutcome(n: Naming, w: World, s: SourceId, commit: string, config: Config, local: Local, now: Time)
    requires n.Valid() && Coherent(n, w) && WorkersValid(n, w) && Possible(w, Resolve(s, commit, config, local, now))
    requires s in w.workers && w.workers[s].Claimed? && w.workers[s].run in w.jobs.runs
    requires forall u <- w.versions :: w.versions[u].id == Identity(s, commit, n.configHash(config)) ==> w.versions[u].status != Succeeded
    ensures var w', run, id := Next(n, w, Resolve(s, commit, config, local, now)), w.workers[s].run, Identity(s, commit, n.configHash(config));
            && s in w'.workers && w'.workers[s].Attempting? && OtherWorkersKept(w, w', s)
            && var v := w'.workers[s].version;
            && w'.workers[s] == Attempting(run, v, local, 0) && w'.sources == w.sources && w'.objects == w.objects
            && OtherRunsKept(w, w', run) && w'.jobs.runs[run] == w.jobs.runs[run].(version := Some(v))
            && OtherVersionsKept(w, w', v) && v in w'.versions
            && (if v in w.versions then w.versions[v].id == id && w'.versions[v] == w.versions[v].(status := SyncProtocol.Running)
                else (forall u <- w.versions :: w.versions[u].id != id)
                     && w'.versions[v] == Version(id, config.graphifyVersion, SyncProtocol.Running, map[], map[], now))
  {
    var run, id := w.workers[s].run, Identity(s, commit, n.configHash(config));
    OpenCoherent(n, w);
    UnfoldNext(n, w);
    FoundIsOnly(n, w, id, config);
    hide Coherent, IdentitiesValid, WorkersValid, Naming.Valid, SyncProtocol.Attempt, Skip, OtherRunsKept, OtherVersionsKept, OtherWorkersKept;
    match FindVersion(w.versions, id, config.graphifyVersion)
    case Some(v) => Attempted(w, s, run, v, w.versions[v].(status := SyncProtocol.Running), local);
    case None =>
      Attempted(w, s, run, w.nextVersion, Version(id, config.graphifyVersion, SyncProtocol.Running, map[], map[], now), local);
  }

  lemma Attempted(w: World, s: SourceId, run: RunId, v: VersionId, row: Version, local: Local)
    requires run in w.jobs.runs
    ensures var w' := SyncProtocol.Attempt(w, s, run, v, row, local);
            && s in w'.workers && w'.workers[s] == Attempting(run, v, local, 0) && OtherWorkersKept(w, w', s)
            && w'.sources == w.sources && w'.objects == w.objects
            && OtherRunsKept(w, w', run) && w'.jobs.runs[run] == w.jobs.runs[run].(version := Some(v))
            && OtherVersionsKept(w, w', v) && v in w'.versions && w'.versions[v] == row
  {
  }

  // When the row of the run has disappeared, the worker gives up without a trace.
  lemma RunGoneOutcome(n: Naming, w: World, s: SourceId, commit: string, config: Config, local: Local, now: Time)
    requires WorkersValid(n, w) && Possible(w, Resolve(s, commit, config, local, now))
    requires s in w.workers && w.workers[s].Claimed? && w.workers[s].run !in w.jobs.runs
    ensures Next(n, w, Resolve(s, commit, config, local, now)) == w.(workers := w.workers - {s})
  {
    hide WorkersValid, Skip, SyncProtocol.Attempt, FindVersion;
  }

  // A queued run is claimed.  The worker goes on with it if job type, source and trigger are those it
  // was woken for and the source is enabled; otherwise the run ends as failed and the lock is given up.
  lemma ClaimOutcome(n: Naming, w: World, s: SourceId, queued: RunId, trigger: string, now: Time)
    requires WorkersValid(n, w) && Possible(w, ClaimQueued(s, queued, trigger, now))
    ensures var w' := Next(n, w, ClaimQueued(s, queued, trigger, now));
            && w' == w.(jobs := w'.jobs, workers := w'.workers)
            && if queued !in w.jobs.runs || w.jobs.runs[queued].status != Jobs.Queued
               then w'.jobs == w.jobs && w'.workers == w.workers - {s}
               else
                 var before := w.jobs.runs[queued];
                 var claimed := before.(status := Jobs.Running, startedAt := now, heartbeatAt := Some(now));
                 && OtherRunsKept(w, w', queued)
                 && if before.jobType == SYNC_JOB_TYPE && before.source == Some(s) && before.trigger == trigger
                       && s in w.sources && w.sources[s].enabled
                    then w'.jobs.runs[queued] == claimed && w'.workers == w.workers[s := Claimed(queued)]
                    else EndedAs(claimed, w'.jobs.runs[queued], Jobs.Failed, before.version, now) && w'.workers == w.workers - {s}
  {
    hide WorkersValid;
  }

  // A direct start adds a running run, with which the worker goes on if the source is enabled.
  lemma StartOutcome(n: Naming, w: World, s: SourceId, trigger: string, now: Time)
    requires WorkersValid(n, w) && Possible(w, StartDirect(s, trigger, now)) && w.jobs.nextId !in w.jobs.runs
    ensures var w', run := Next(n, w, StartDirect(s, trigger, now)), w.jobs.nextId;
            && w' == w.(jobs := w'.jobs, workers := w'.workers)
            && if s !in w.sources then w'.jobs == w.jobs && w'.workers == w.workers - {s}
               else
                 var started := Jobs.JobRun(SYNC_JOB_TYPE, trigger, Some(s), None, Jobs.Running, now, Some(now), None, None);
                 && w'.jobs.nextId == run + 1 && w'.jobs.runs.Keys == w.jobs.runs.Keys + {run}
                 && (forall r <- w.jobs.runs :: w'.jobs.runs[r] == w.jobs.runs[r])
                 && if w.sources[s].enabled then w'.jobs.runs[run] == started && w'.workers == w.workers[s := Claimed(run)]
                    else EndedAs(started, w'.jobs.runs[run], Jobs.Failed, None, now) && w'.workers == w.workers - {s}
  {
    hide WorkersValid;
  }

  // A version row goes in a prune exactly if it belongs to the source, has `keep` newer ones, is neither
  // current nor pending nor running, and its artifacts, if it has any, can be deleted.
  lemma PruneOutcome(n: Naming, w: World, source: SourceId, keep: nat, bucketSet: bool, v: VersionId)
    requires WorkersValid(n, w) && v in w.versions
    ensures Possible(w, Prune(source, keep, bucketSet))
    ensures var w', row := Next(n, w, Prune(source, keep, bucketSet)), w.versions[v];
            var newer := set u | u in w.versions && w.versions[u].id.source == row.id.source
                                 && (w.versions[u].createdAt > row.createdAt || (w.versions[u].createdAt == row.createdAt && u > v));
            && w' == w.(versions := w'.versions, objects := w'.objects)
            && (v in w'.versions ==> w'.versions[v] == row)
            && (v !in w'.versions <==>
                  && row.id.source == source && |newer| >= keep && row.status != Pending && row.status != SyncProtocol.Running
                  && !(row.id.source in w.sources && w.sources[row.id.source].current == Some(v))
                  && (bucketSet || row.keys == map[]))
  {
    hide WorkersValid;
    assert NewerVersions(w.versions, v) ==
      set u | u in w.versions && w.versions[u].id.source == w.versions[v].id.source
              && (w.versions[u].createdAt > w.versions[v].createdAt || (w.versions[u].createdAt == w.versions[v].createdAt && u > v));
  }

  // Editing a registry entry keeps its serving pointer; locking and crashing touch the lock alone; a job
  // operation touches the runs alone.
  lemma EditOutcome(n: Naming, w: World, s: SourceId, enabled: bool, includes: seq<string>, excludes: seq<string>)
    requires WorkersValid(n, w)
    ensures Possible(w, PutSource(s, enabled, includes, excludes))
    ensures var w' := Next(n, w, PutSource(s, enabled, includes, excludes));
            && w' == w.(sources := w'.sources) && w'.sources.Keys == w.sources.Keys + {s}
            && w'.sources[s] == Source(enabled, includes, excludes, if s in w.sources then w.sources[s].current else None)
            && forall t <- w.sources :: t != s ==> w'.sources[t] == w.sources[t]
  {
    hide WorkersValid;
  }

  lemma LockOutcome(n: Naming, w: World, s: SourceId)
    requires WorkersValid(n, w)
    ensures Possible(w, Lock(s)) <==> s !in w.workers
    ensures s !in w.workers ==> Next(n, w, Lock(s)) == w.(workers := w.workers[s := Locked])
    ensures Possible(w, Crash(s)) <==> s in w.workers
    ensures s in w.workers ==> Next(n, w, Crash(s)) == w.(workers := w.workers - {s})
  {
    hide WorkersValid;
  }

  lemma JobOutcome(n: Naming, w: World, op: Jobs.Op)
    requires WorkersValid(n, w) && !op.SkipWrite?
    ensures Possible(w, JobStep(op)) && Next(n, w, JobStep(op)) == w.(jobs := Jobs.Next(w.jobs, op))
  {
    hide WorkersValid, Jobs.Next;
  }

  // Publishing the next artifact adds at most its object.  The worker goes on exactly if enough store
  // operations succeed and what is then stored has the artifact's size and digest.
  lemma PublishOutcome(n: Naming, w: World, s: SourceId, weather: Weather)
    requires WorkersValid(n, w) && Possible(w, PublishNext(s, weather))
    ensures s in w.workers && w.workers[s].Attempting? && w.workers[s].done < |ARTIFACT_ORDER| && w.workers[s].version in w.versions
    ensures Complete(w.workers[s].local)
    ensures var w', worker := Next(n, w, PublishNext(s, weather)), w.workers[s];
            var a := ARTIFACT_ORDER[worker.done];
            a in worker.local &&
            var key, bytes := KeyOf(n, w.versions[worker.version].id, a), worker.local[a];
            var stored := key in w.objects;
            var goesOn := if stored then weather.budget >= 2 && |w.objects[key]| == |bytes| && n.sha256(w.objects[key]) == n.sha256(bytes)
                          else weather.budget >= 3;
            && w' == w.(objects := w'.objects, workers := w'.workers)
            && w'.workers == (if goesOn then w.workers[s := worker.(done := worker.done + 1)] else w.workers)
            && w'.objects == (if !stored && (weather.budget >= 2 || (weather.budget == 1 && weather.lateFailure))
                              then w.objects[key := bytes] else w.objects)
  {
    assert WorkerValid(n, w, s, w.workers[s]);
    assert ARTIFACT_ORDER[w.workers[s].done] in ARTIFACT_ORDER;
    hide WorkersValid, KeyOf, Verified;
  }
}
