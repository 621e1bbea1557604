/**
  The steps of a synchronization as the database and the object store carry them out.

  Each method changes rows in place the way one committed transaction does, and is tied to the step of
  `SyncProtocol` that it performs; the invariants over all runs are proved there.
 */
module SyncDatabase {
  import opened Identifiers
  import opened Wrappers
  import opened Publication
  import opened SyncProtocol

  // How the resolution of a commit ends for the worker.
  datatype Resolution = Skipped(version: VersionId) | Attempted(version: VersionId) | RunGone

  datatype RecordError = Incomplete | ForeignVersion | NotOwned | VersionDone | RunDone

  /******* The housekeeping listing of a source's versions *******/

  predicate Before(versions: map<VersionId, Version>, u: VersionId, v: VersionId)
    requires u in versions && v in versions
  {
    versions[u].createdAt > versions[v].createdAt || (versions[u].createdAt == versions[v].createdAt && u > v)
  }

  // The rows of a source, newest first, ties broken by descending id.
  ghost predicate Listing(versions: map<VersionId, Version>, source: SourceId, rows: seq<VersionId>) {
    && (forall v :: v in rows <==> v in versions && versions[v].id.source == source)
    && forall i, j | 0 <= i < j < |rows| :: Before(versions, rows[i], rows[j])
  }

  ghost function Members(rows: seq<VersionId>): set<VersionId> {
    set v | v in rows
  }

  lemma {:induction false} DistinctSize(rows: seq<VersionId>)
    requires forall i, j | 0 <= i < j < |rows| :: rows[i] != rows[j]
    ensures |Members(rows)| == |rows|
  {
    if rows == [] {
      assert Members(rows) == {};
    } else {
      var init, last := rows[..|rows| - 1], rows[|rows| - 1];
      DistinctSize(init);
      assert rows == init + [last] && last !in init;
      assert Members(rows) == Members(init) + {last};
    }
  }

  lemma NewerComesFirst(versions: map<VersionId, Version>, source: SourceId, rows: seq<VersionId>, i: nat, k: nat)
    requires Listing(versions, source, rows) && i < |rows| && k < |rows|
    ensures rows[i] in versions && rows[k] in versions
    ensures Before(versions, rows[k], rows[i]) <==> k < i
  {
    assert rows[i] in rows && rows[k] in rows;
    if i < k { assert Before(versions, rows[i], rows[k]); }
  }

  // The position in the listing is the number of newer versions, so the first `keep` rows are the newest.
  lemma PositionCountsNewer(versions: map<VersionId, Version>, source: SourceId, rows: seq<VersionId>, i: nat)
    requires Listing(versions, source, rows) && i < |rows|
    ensures rows[i] in versions && |NewerVersions(versions, rows[i])| == i
  {
    assert rows[i] in rows;
    var newer := NewerVersions(versions, rows[i]);
    forall u | u in newer ensures u in rows[..i] {
      var k :| 0 <= k < |rows| && rows[k] == u;
      NewerComesFirst(versions, source, rows, i, k);
      assert rows[..i][k] == u;
    }
    forall u | u in rows[..i] ensures u in newer {
      var k :| 0 <= k < i && rows[k] == u;
      NewerComesFirst(versions, source, rows, i, k);
      assert rows[k] in rows;
    }
    assert newer == Members(rows[..i]);
    forall a, b | 0 <= a < b < i ensures rows[..i][a] != rows[..i][b] { NewerComesFirst(versions, source, rows, b, a); }
    DistinctSize(rows[..i]);
  }

  /******* The database *******/

  class Database {
    var sources: map<SourceId, Source>
    var versions: map<VersionId, Version>
    var nextVersion: VersionId
    var jobs: Jobs.Jobs
    var objects: Objects
    var workers: map<SourceId, Worker>

    constructor ()
      ensures State() == EMPTY
    {
      sources, versions, nextVersion, jobs, objects, workers := map[], map[], 0, Jobs.NO_JOBS, map[], map[];
    }

    function State(): World
      reads this
    {
      World(sources, versions, nextVersion, jobs, objects, workers)
    }

    // The row with this identity, looked up in any order.
    method SelectVersion(id: Identity, graphifyVersion: string) returns (r: Option<VersionId>)
      requires forall u, v | u in versions && v in versions && u != v :: versions[u].id != versions[v].id
      ensures r == FindVersion(versions, id, graphifyVersion)
    {
      var todo := versions.Keys;
      while todo != {}
        invariant todo <= versions.Keys
        invariant forall v <- versions :: v !in todo ==> !(versions[v].id == id && versions[v].graphifyVersion == graphifyVersion)
        decreases |todo|
      {
        var v :| v in todo;
        if versions[v].id == id && versions[v].graphifyVersion == graphifyVersion { return Some(v); }
        todo := todo - {v};
      }
      return None;
    }

    // An unchanged commit is skipped; any other version is (again) attempted.
    method ResolveCommit(n: Naming, source: SourceId, commit: string, config: Config, local: Local, now: Time)
      returns (r: Resolution)
      requires n.Valid() && Inv(n, State()) && Possible(State(), Resolve(source, commit, config, local, now))
      requires source in sources
      modifies this
      ensures old(WorkersValid(n, State())) && State() == Next(n, old(State()), Resolve(source, commit, config, local, now))
      ensures r.Skipped? ==> source in sources && sources[source].current == Some(r.version) && old(versions) == versions
      ensures r.Attempted? ==> r.version in versions && versions[r.version].status == SyncProtocol.Running
    {
      ghost var w := State();
      UnfoldWorkers(n, w);
      NextResolution(n, w, source, commit, config, local, now);
      ClaimedRun(w, Resolve(source, commit, config, local, now));
      UniqueIdentities(n, w);
      hide *;
      var run := workers[source].run;
      var id := Identity(source, commit, n.configHash(config));
      var existing := SelectVersion(id, config.graphifyVersion);
      FoundRow(versions, id, config.graphifyVersion);
      if run !in jobs.runs {
        workers := workers - {source};
        ReleasedState(w, State(), source);
        return RunGone;
      }
      if existing.Some? && versions[existing.value].status == SyncProtocol.Succeeded {
        SkipVersion(source, run, existing.value, now);
        return Skipped(existing.value);
      }
      var v := match existing case Some(e) => e case None => nextVersion;
      var row := if existing.Some? then versions[v].(status := SyncProtocol.Running)
                 else Version(id, config.graphifyVersion, SyncProtocol.Running, map[], map[], now);
      BeginAttempt(source, run, v, row, local);
      return Attempted(v);
    }

    // The successful version is served again and the run is written as skipped.
    method SkipVersion(source: SourceId, run: RunId, v: VersionId, now: Time)
      requires source in sources && run in jobs.runs
      modifies this
      ensures State() == Skip(old(State()), source, run, v, now)
      ensures source in sources && sources[source].current == Some(v) && versions == old(versions)
      ensures run in jobs.runs && jobs.runs[run].status == Jobs.Skipped && jobs.runs[run].version == Some(v)
              && jobs.runs[run].finishedAt == Some(now)
    {
      sources := sources[source := sources[source].(current := Some(v))];
      jobs := Jobs.Next(jobs, Jobs.SkipWrite(run, v, now));
      workers := workers - {source};
    }

    // The version, new or known, gets this row and is attempted by the run.
    method BeginAttempt(source: SourceId, run: RunId, v: VersionId, row: Version, local: Local)
      requires run in jobs.runs
      modifies this
      ensures State() == SyncProtocol.Attempt(old(State()), source, run, v, row, local)
      ensures v in versions && versions[v] == row
    {
      versions := versions[v := row];
      if v >= nextVersion { nextVersion := v + 1; }
      jobs := jobs.(runs := jobs.runs[run := jobs.runs[run].(version := Some(v))]);
      workers := workers[source := Attempting(run, v, local, 0)];
    }

    method LockedRecords(source: SourceId, version: VersionId, run: RunId) returns (problem: Option<RecordError>)
      ensures problem.None? <==> RecordsMatch(State(), source, run, version)
    {
      if source !in sources || version !in versions || run !in jobs.runs { return Some(Incomplete); }
      if versions[version].id.source != source { return Some(ForeignVersion); }
      if jobs.runs[run].source != Some(source) || jobs.runs[run].version != Some(version) { return Some(NotOwned); }
      return None;
    }

    // Marks the published version successful, moves the serving pointer and ends the run.
    method PromoteVersion(n: Naming, source: SourceId, receipt: Receipt, now: Time, refreshed: bool)
      returns (problem: Option<RecordError>)
      requires WorkersValid(n, State()) && Possible(State(), Promote(source, now, refreshed))
      requires Lists(receipt, n, AttemptedIdentity(n, source), workers[source].local, ARTIFACT_ORDER)
      modifies this
      ensures State() == Next(n, old(State()), Promote(source, now, refreshed))
      ensures problem.None? ==> source in sources && sources[source].current == Some(old(workers[source].version))
      ensures problem.None? ==>
                var run := old(workers[source].run);
                run in jobs.runs && jobs.runs[run].status == Jobs.Succeeded && jobs.runs[run].finishedAt == Some(now)
    {
      ghost var w := State();
      NextPromotion(n, w, source, now, refreshed);
      ListedReceipt(n, receipt, AttemptedIdentity(n, source), workers[source].local);
      hide *;
      var run, v := workers[source].run, workers[source].version;
      problem := LockedRecords(source, v, run);
      if problem.Some? { return; }
      if versions[v].status !in {SyncProtocol.Pending, SyncProtocol.Running} { return Some(VersionDone); }
      if jobs.runs[run].status != Jobs.Running { return Some(RunDone); }
      RecordPromotion(n, source, run, v, receipt, now);
      if !refreshed { workers := workers[source := Refreshing(run, v)]; }
    }

    // The committed transaction of a promotion.
    method RecordPromotion(n: Naming, source: SourceId, run: RunId, v: VersionId, receipt: Receipt, now: Time)
      requires RecordsMatch(State(), source, run, v) && source in workers && workers[source].Attempting?
      requires Complete(workers[source].local)
      requires receipt.keys == AllKeys(n, versions[v].id) && receipt.checksums == AllChecksums(n, workers[source].local)
      modifies this
      ensures State() == Promoted(n, old(State()), source, run, v, old(workers[source].local), now)
      ensures source in sources && sources[source].current == Some(v)
      ensures run in jobs.runs && jobs.runs[run].status ==
              if old(jobs.runs[run].status) == Jobs.Running then Jobs.Succeeded else old(jobs.runs[run].status)
      ensures old(jobs.runs[run].status) == Jobs.Running ==> jobs.runs[run].finishedAt == Some(now)
    {
      hide AllKeys, AllChecksums;
      versions := versions[v := versions[v].(status := SyncProtocol.Succeeded, keys := receipt.keys, checksums := receipt.checksums)];
      sources := sources[source := sources[source].(current := Some(v))];
      jobs := Jobs.Next(jobs, Jobs.Finish(run, Jobs.Succeeded, None, now));
      workers := workers - {source};
    }

    ghost function AttemptedIdentity(n: Naming, source: SourceId): Identity
      reads this
      requires WorkersValid(n, State()) && source in workers && workers[source].Attempting?
    {
      assert WorkerValid(n, State(), source, workers[source]);
      versions[workers[source].version].id
    }

    // Fails the version and the run, unless the run is over already; the serving pointer stays.
    method FailVersion(n: Naming, source: SourceId, now: Time) returns (problem: Option<RecordError>)
      requires WorkersValid(n, State()) && Possible(State(), Step.FailVersion(source, now))
      modifies this
      ensures State() == Next(n, old(State()), Step.FailVersion(source, now))
      ensures sources == old(sources)
      ensures problem.None? ==>
                var run, v := old(workers[source].run), old(workers[source].version);
                && run in jobs.runs && jobs.runs[run].status == Jobs.Failed && jobs.runs[run].finishedAt == Some(now)
                && v in versions && versions[v].status == SyncProtocol.Failed
    {
      var run, v := workers[source].run, workers[source].version;
      workers := workers - {source};
      problem := LockedRecords(source, v, run);
      if problem.Some? { return; }
      if jobs.runs[run].status != Jobs.Running { return Some(RunDone); }
      hide WorkersValid;
      versions := versions[v := versions[v].(status := SyncProtocol.Failed)];
      jobs := Jobs.Next(jobs, Jobs.Finish(run, Jobs.Failed, None, now));
    }

    method DeleteObjects(keys: set<string>)
      modifies this`objects
      ensures objects == old(objects) - keys
    {
      var todo := keys;
      while todo != {}
        invariant todo <= keys && objects == old(objects) - (keys - todo)
        decreases |todo|
      {
        var key :| key in todo;
        objects := objects - {key};
        todo := todo - {key};
      }
    }

    // One source's turn in the pruning of history, over its rows as the database lists them.
    method PruneHistory(n: Naming, source: SourceId, keep: nat, bucketSet: bool, rows: seq<VersionId>)
      returns (pruned: set<VersionId>, warned: seq<VersionId>)
      requires WorkersValid(n, State()) && Listing(versions, source, rows)
      modifies this`versions, this`objects
      ensures State() == Next(n, old(State()), Step.Prune(source, keep, bucketSet))
      ensures pruned == old(versions.Keys) - versions.Keys
      ensures forall v :: v in warned <==> v in rows && Warned(old(State()), source, keep, bucketSet, v)
    {
      ghost var w := State();
      pruned, warned := {}, [];
      NothingSettled(w, source, keep, bucketSet);
      for i := 0 to |rows|
        invariant versions == w.versions && sources == w.sources
        invariant Settled(w, source, keep, bucketSet, rows[..i], pruned, warned, objects)
      {
        hide *;
        pruned, warned := VisitRow(w, source, keep, bucketSet, rows, i, pruned, warned);
      }
      assert rows[..|rows|] == rows;
      hide *;
      PrunedState(w, source, keep, bucketSet, rows, pruned, warned, objects);
      PruneIsNext(n, w, source, keep, bucketSet);
      versions := versions - pruned;
    }

    // The row at position i is kept, only warned about, or pruned together with its objects.
    method VisitRow(ghost w: World, source: SourceId, keep: nat, bucketSet: bool, rows: seq<VersionId>, i: nat,
                    pruned: set<VersionId>, warned: seq<VersionId>) returns (pruned': set<VersionId>, warned': seq<VersionId>)
      requires Listing(versions, source, rows) && i < |rows| && versions == w.versions && sources == w.sources
      requires Settled(w, source, keep, bucketSet, rows[..i], pruned, warned, objects)
      modifies this`objects
      ensures Settled(w, source, keep, bucketSet, rows[..i + 1], pruned', warned', objects)
    {
      RetainedAt(w, source, keep, rows, i);
      OneMoreSettled(w, source, keep, bucketSet, rows, i, pruned, warned, objects);
      hide *;
      var v := rows[i];
      if i < keep || (source in sources && sources[source].current == Some(v))
         || versions[v].status in {SyncProtocol.Pending, SyncProtocol.Running} {
        return pruned, warned;
      }
      if versions[v].keys != map[] {
        if !bucketSet { return pruned, warned + [v]; }
        DeleteObjects(versions[v].keys.Values);
      } else {
        NoKeys(w, v, objects);
      }
      return pruned + {v}, warned;
    }
  }

  // The transactions in terms of the protocol's step.

  lemma NextResolution(n: Naming, w: World, source: SourceId, commit: string, config: Config, local: Local, now: Time)
    requires WorkersValid(n, w) && Possible(w, Resolve(source, commit, config, local, now))
    ensures var run, id := w.workers[source].run, Identity(source, commit, n.configHash(config));
            var found := FindVersion(w.versions, id, config.graphifyVersion);
            Next(n, w, Resolve(source, commit, config, local, now)) ==
              if run !in w.jobs.runs then Release(w, source)
              else if found.Some? && w.versions[found.value].status == SyncProtocol.Succeeded then Skip(w, source, run, found.value, now)
              else if found.Some?
              then SyncProtocol.Attempt(w, source, run, found.value, w.versions[found.value].(status := SyncProtocol.Running), local)
              else SyncProtocol.Attempt(w, source, run, w.nextVersion,
                           Version(id, config.graphifyVersion, SyncProtocol.Running, map[], map[], now), local)
  {
    hide WorkersValid, Skip, SyncProtocol.Attempt, FindVersion;
  }

  lemma ClaimedRun(w: World, step: Step)
    requires Possible(w, step) && step.Resolve?
    ensures step.source in w.workers && w.workers[step.source].Claimed?
  {
  }

  lemma FoundRow(versions: map<VersionId, Version>, id: Identity, graphifyVersion: string)
    ensures var found := FindVersion(versions, id, graphifyVersion); found.Some? ==> found.value in versions
  {
    hide FindVersion;
  }

  lemma ReleasedState(w: World, w': World, source: SourceId)
    requires w' == w.(workers := w.workers - {source})
    ensures w' == Release(w, source)
  {
  }

  lemma NextPromotion(n: Naming, w: World, source: SourceId, now: Time, refreshed: bool)
    requires WorkersValid(n, w) && Possible(w, Promote(source, now, refreshed))
    ensures source in w.workers && w.workers[source].Attempting? && Complete(w.workers[source].local)
    ensures var Attempting(run, v, local, _) := w.workers[source];
            && v in w.versions
            && Next(n, w, Promote(source, now, refreshed)) ==
                 if RecordsMatch(w, source, run, v) && w.versions[v].status in {SyncProtocol.Pending, SyncProtocol.Running}
                    && w.jobs.runs[run].status == Jobs.Running
                 then
                   var done := Promoted(n, w, source, run, v, local, now);
                   if refreshed then done else done.(workers := w.workers[source := Refreshing(run, v)])
                 else w
  {
    assert WorkerValid(n, w, source, w.workers[source]);
    hide WorkersValid, Promoted, Verified, Complete;
  }

  lemma ListedReceipt(n: Naming, receipt: Receipt, id: Identity, local: Local)
    requires Complete(local) && Lists(receipt, n, id, local, ARTIFACT_ORDER)
    ensures receipt.keys == AllKeys(n, id) && receipt.checksums == AllChecksums(n, local)
  {
    hide KeyOf;
  }

  lemma RetainedAt(w: World, source: SourceId, keep: nat, rows: seq<VersionId>, i: nat)
    requires Listing(w.versions, source, rows) && i < |rows|
    ensures rows[i] in w.versions && w.versions[rows[i]].id.source == source
    ensures Retained(w, source, keep, rows[i]) <==>
            || i < keep || (source in w.sources && w.sources[source].current == Some(rows[i]))
            || w.versions[rows[i]].status in {SyncProtocol.Pending, SyncProtocol.Running}
  {
    ListedRow(w.versions, source, rows, i);
    PositionCountsNewer(w.versions, source, rows, i);
    hide Listing, NewerVersions;
  }

  lemma NoKeys(w: World, v: VersionId, objects: Objects)
    requires v in w.versions && w.versions[v].keys == map[]
    ensures objects - w.versions[v].keys.Values == objects
  {
  }

  // After the rows `done`: which of them are pruned, which are only warned about, and what is left in the store.
  ghost predicate Settled(w: World, source: SourceId, keep: nat, bucketSet: bool, done: seq<VersionId>,
                          pruned: set<VersionId>, warned: seq<VersionId>, objects: Objects)
  {
    && pruned == PrunedVersions(w, source, keep, bucketSet) * Members(done)
    && objects == w.objects - KeysOfVersions(w.versions, pruned)
    && forall v :: v in warned <==> v in done && Warned(w, source, keep, bucketSet, v)
  }

  ghost predicate Warned(w: World, source: SourceId, keep: nat, bucketSet: bool, v: VersionId) {
    v in w.versions && !Retained(w, source, keep, v) && w.versions[v].keys != map[] && !bucketSet
  }

  lemma NothingSettled(w: World, source: SourceId, keep: nat, bucketSet: bool)
    ensures Settled(w, source, keep, bucketSet, [], {}, [], w.objects)
  {
  }

  lemma ListedRow(versions: map<VersionId, Version>, source: SourceId, rows: seq<VersionId>, i: nat)
    requires Listing(versions, source, rows) && i < |rows|
    ensures rows[i] in versions && versions[rows[i]].id.source == source
  {
    assert rows[i] in rows;
  }

  lemma OneMoreSettled(w: World, source: SourceId, keep: nat, bucketSet: bool, rows: seq<VersionId>, i: nat,
                       pruned: set<VersionId>, warned: seq<VersionId>, objects: Objects)
    requires i < |rows| && rows[i] in w.versions && w.versions[rows[i]].id.source == source
    requires Settled(w, source, keep, bucketSet, rows[..i], pruned, warned, objects)
    ensures var v := rows[i];
            if Retained(w, source, keep, v) then Settled(w, source, keep, bucketSet, rows[..i + 1], pruned, warned, objects)
            else if w.versions[v].keys != map[] && !bucketSet
            then Settled(w, source, keep, bucketSet, rows[..i + 1], pruned, warned + [v], objects)
            else Settled(w, source, keep, bucketSet, rows[..i + 1], pruned + {v}, warned, objects - w.versions[v].keys.Values)
  {
    var v := rows[i];
    assert rows[..i + 1] == rows[..i] + [v];
    assert Members(rows[..i + 1]) == Members(rows[..i]) + {v};
    OneMorePruned(w.versions, pruned, v);
    hide Retained, KeysOfVersions;
  }

  lemma PrunedState(w: World, source: SourceId, keep: nat, bucketSet: bool, rows: seq<VersionId>,
                    pruned: set<VersionId>, warned: seq<VersionId>, objects: Objects)
    requires Listing(w.versions, source, rows) && Settled(w, source, keep, bucketSet, rows, pruned, warned, objects)
    ensures w.(versions := w.versions - pruned, objects := objects) == Pruned(w, source, keep, bucketSet)
    ensures pruned == w.versions.Keys - (w.versions - pruned).Keys
    ensures forall v :: v in warned <==> v in rows && Warned(w, source, keep, bucketSet, v)
  {
    assert pruned == PrunedVersions(w, source, keep, bucketSet) by { hide Retained, Warned; }
    hide Retained, KeysOfVersions, Listing, Warned;
  }

  lemma PruneIsNext(n: Naming, w: World, source: SourceId, keep: nat, bucketSet: bool)
    requires WorkersValid(n, w)
    ensures Possible(w, Step.Prune(source, keep, bucketSet))
    ensures Next(n, w, Step.Prune(source, keep, bucketSet)) == Pruned(w, source, keep, bucketSet)
  {
    hide WorkersValid, Pruned;
  }

  lemma OneMorePruned(versions: map<VersionId, Version>, vs: set<VersionId>, v: VersionId)
    requires v in versions
    ensures KeysOfVersions(versions, vs + {v}) == KeysOfVersions(versions, vs) + versions[v].keys.Values
  {
  }

  lemma UniqueIdentities(n: Naming, w: World)
    requires Inv(n, w)
    ensures forall u, v | u in w.versions && v in w.versions && u != v :: w.versions[u].id != w.versions[v].id
  {
  }
}
