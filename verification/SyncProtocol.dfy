/**
  The synchronization protocol of knowledge sources over a database and an object store.

  Every step is one committed transaction or one store operation.  A worker holds the advisory lock of
  its source from `Lock` until its synchronization returns, raises or crashes; job operations,
  registry edits and housekeeping interleave freely.  The main result is that the serving pointer
  always names a version that can be downloaded and checked.
 */
module SyncProtocol {
  import opened Identifiers
  import opened Wrappers
  import opened Publication
  import Jobs = BackgroundJobs

  datatype VersionStatus = Pending | Running | Succeeded | Failed

  datatype Version = Version(
    id: Identity,
    graphifyVersion: string,
    status: VersionStatus,
    keys: map<Artifact, string>,
    checksums: map<Artifact, string>,
    createdAt: Time)

  datatype Source = Source(enabled: bool, includes: seq<string>, excludes: seq<string>, current: Option<VersionId>)

  // Where the holder of a source's lock stands: before its claim, with a running job, with a version
  // being built of which the first `done` artifacts are published and verified, or with a version
  // whose promotion is committed and still has to be read back.
  datatype Worker =
    | Locked
    | Claimed(run: RunId)
    | Attempting(run: RunId, version: VersionId, local: Local, done: nat)
    | Refreshing(run: RunId, version: VersionId)

  datatype World = World(
    sources: map<SourceId, Source>,
    versions: map<VersionId, Version>,
    nextVersion: VersionId,
    jobs: Jobs.Jobs,
    objects: Objects,
    workers: map<SourceId, Worker>)

  const EMPTY := World(map[], map[], 0, Jobs.NO_JOBS, map[], map[])

  datatype Step =
    | PutSource(source: SourceId, enabled: bool, includes: seq<string>, excludes: seq<string>)
    | JobStep(op: Jobs.Op)
    | Lock(source: SourceId)
    | ClaimQueued(source: SourceId, queued: RunId, trigger: string, now: Time)
    | StartDirect(source: SourceId, trigger: string, now: Time)
    | Resolve(source: SourceId, commit: string, config: Config, local: Local, now: Time)
    | ResolveFails(source: SourceId, now: Time)
    | PublishNext(source: SourceId, weather: Weather)
    | Promote(source: SourceId, now: Time, refreshed: bool)
    | FailVersion(source: SourceId, now: Time)
    | Crash(source: SourceId)
    | Prune(source: SourceId, keep: nat, bucketSet: bool)

  /******* Versions *******/

  // The row that the unique constraint allows for an identity and extractor version.
  ghost function FindVersion(versions: map<VersionId, Version>, id: Identity, graphifyVersion: string): (r: Option<VersionId>)
    ensures r.Some? ==> r.value in versions && versions[r.value].id == id && versions[r.value].graphifyVersion == graphifyVersion
    ensures r.None? ==> forall v <- versions :: !(versions[v].id == id && versions[v].graphifyVersion == graphifyVersion)
  {
    if v :| v in versions && versions[v].id == id && versions[v].graphifyVersion == graphifyVersion then Some(v) else None
  }

  // The versions of the same source that come before v in the housekeeping order.
  function NewerVersions(versions: map<VersionId, Version>, v: VersionId): set<VersionId>
    requires v in versions
  {
    set u | u in versions && versions[u].id.source == versions[v].id.source
            && (versions[u].createdAt > versions[v].createdAt || (versions[u].createdAt == versions[v].createdAt && u > v))
  }

  // Retained: the newest `keep`, the current one, and everything still pending or running.
  predicate Retained(w: World, source: SourceId, keep: nat, v: VersionId)
    requires v in w.versions
  {
    || |NewerVersions(w.versions, v)| < keep
    || (source in w.sources && w.sources[source].current == Some(v))
    || w.versions[v].status in {Pending, Running}
  }

  // Without a bucket, versions with artifacts cannot be pruned.
  function PrunedVersions(w: World, source: SourceId, keep: nat, bucketSet: bool): set<VersionId> {
    set v | v in w.versions && w.versions[v].id.source == source && !Retained(w, source, keep, v)
            && (bucketSet || w.versions[v].keys == map[])
  }

  function KeysOfVersions(versions: map<VersionId, Version>, vs: set<VersionId>): set<string> {
    set v, a | v in vs && v in versions && a in versions[v].keys :: versions[v].keys[a]
  }

  /******* Steps *******/

  function Release(w: World, source: SourceId): World {
    w.(workers := w.workers - {source})
  }

  function SetVersion(w: World, v: VersionId, row: Version): World {
    w.(versions := w.versions[v := row])
  }

  // The guard shared by promotion and failure: source, version and run exist and belong together.
  predicate RecordsMatch(w: World, source: SourceId, run: RunId, v: VersionId) {
    && source in w.sources && v in w.versions && run in w.jobs.runs
    && w.versions[v].id.source == source
    && w.jobs.runs[run].source == Some(source) && w.jobs.runs[run].version == Some(v)
  }

  function SetRunVersion(w: World, run: RunId, v: VersionId): World
    requires run in w.jobs.runs
  {
    w.(jobs := w.jobs.(runs := w.jobs.runs[run := w.jobs.runs[run].(version := Some(v))]))
  }

  function DoJob(w: World, op: Jobs.Op): World {
    w.(jobs := Jobs.Next(w.jobs, op))
  }

  // A claimed run that does not match the request, or whose source cannot be synchronized, is failed.
  function AfterClaim(w: World, source: SourceId, run: RunId, trigger: string, now: Time): (r: World)
    ensures r == w.(jobs := r.jobs, workers := r.workers)
    ensures r.workers == Release(w, source).workers || r.workers == w.workers[source := Claimed(run)]
  {
    if run in w.jobs.runs && w.jobs.runs[run].jobType == SYNC_JOB_TYPE && w.jobs.runs[run].source == Some(source)
       && w.jobs.runs[run].trigger == trigger && source in w.sources && w.sources[source].enabled
    then w.(workers := w.workers[source := Claimed(run)])
    else Release(DoJob(w, Jobs.Finish(run, Jobs.Failed, None, now)), source)
  }

  // Version v is (again) attempted by the run.
  function Attempt(w: World, source: SourceId, run: RunId, v: VersionId, row: Version, local: Local): World
    requires run in w.jobs.runs
  {
    SetRunVersion(SetVersion(w, v, row), run, v)
    .(workers := w.workers[source := Attempting(run, v, local, 0)],
      nextVersion := if v < w.nextVersion then w.nextVersion else v + 1)
  }

  // A version that has succeeded before is served again; the run is written as skipped.
  function Skip(w: World, source: SourceId, run: RunId, v: VersionId, now: Time): World {
    if source !in w.sources || run !in w.jobs.runs then Release(w, source)
    else
      Release(DoJob(w.(sources := w.sources[source := w.sources[source].(current := Some(v))]),
                    Jobs.SkipWrite(run, v, now)), source)
  }

  // The commit is resolved: a known successful version is served again, anything else is attempted.
  // When the run's own row is gone, the transaction cannot be committed and the worker gives up.
  ghost function Resolved(n: Naming, w: World, source: SourceId, run: RunId, commit: string, config: Config,
                          local: Local, now: Time): World
  {
    var id := Identity(source, commit, n.configHash(config));
    if run !in w.jobs.runs then Release(w, source)
    else match FindVersion(w.versions, id, config.graphifyVersion)
    case Some(v) =>
      if w.versions[v].status == Succeeded then Skip(w, source, run, v, now)
      else Attempt(w, source, run, v, w.versions[v].(status := Running), local)
    case None => Attempt(w, source, run, w.nextVersion, Version(id, config.graphifyVersion, Running, map[], map[], now), local)
  }

  function AllKeys(n: Naming, id: Identity): map<Artifact, string> {
    map a | a in ARTIFACT_ORDER :: KeyOf(n, id, a)
  }

  function AllChecksums(n: Naming, local: Local): map<Artifact, string>
    requires Complete(local)
  {
    map a | a in ARTIFACT_ORDER :: CHECKSUM_PREFIX + n.sha256(local[a])
  }

  function PromotedTo(n: Naming, row: Version, local: Local): Version
    requires Complete(local)
  {
    row.(status := Succeeded, keys := AllKeys(n, row.id), checksums := AllChecksums(n, local))
  }

  function Promoted(n: Naming, w: World, source: SourceId, run: RunId, v: VersionId, local: Local, now: Time): World
    requires Complete(local) && RecordsMatch(w, source, run, v)
  {
    var done := SetVersion(w, v, PromotedTo(n, w.versions[v], local));
    Release(DoJob(done.(sources := w.sources[source := w.sources[source].(current := Some(v))]),
                  Jobs.Finish(run, Jobs.Succeeded, None, now)), source)
  }

  function PublishedNext(n: Naming, w: World, source: SourceId, worker: Worker, weather: Weather): World
    requires worker.Attempting? && worker.version in w.versions && Complete(worker.local) && worker.done < |ARTIFACT_ORDER|
  {
    var a := ARTIFACT_ORDER[worker.done];
    assert a in ARTIFACT_ORDER;
    var (stop, after, _) := PublishOne(n, KeyOf(n, w.versions[worker.version].id, a), worker.local[a], w.objects, weather);
    w.(objects := after,
       workers := if stop.None? then w.workers[source := worker.(done := worker.done + 1)] else w.workers)
  }

  function Pruned(w: World, source: SourceId, keep: nat, bucketSet: bool): World {
    var gone := PrunedVersions(w, source, keep, bucketSet);
    w.(versions := w.versions - gone, objects := w.objects - KeysOfVersions(w.versions, gone))
  }

  predicate IsCommit(commit: string) {
    |commit| == 40 && forall c <- commit :: '0' <= c <= '9' || 'a' <= c <= 'f'
  }

  ghost predicate Possible(w: World, step: Step) {
    match step
    case JobStep(op) => !op.SkipWrite?
    case Lock(s) => s !in w.workers
    case ClaimQueued(s, _, _, _) => s in w.workers && w.workers[s].Locked?
    case StartDirect(s, _, _) => s in w.workers && w.workers[s].Locked?
    case Resolve(s, commit, _, local, _) => s in w.workers && w.workers[s].Claimed? && IsCommit(commit) && Complete(local)
    case ResolveFails(s, _) => s in w.workers && w.workers[s].Claimed?
    case PublishNext(s, _) => s in w.workers && w.workers[s].Attempting? && w.workers[s].done < |ARTIFACT_ORDER|
    case Promote(s, _, _) => s in w.workers && w.workers[s].Attempting? && w.workers[s].done == |ARTIFACT_ORDER|
    case FailVersion(s, _) => s in w.workers && (w.workers[s].Attempting? || w.workers[s].Refreshing?)
    case Crash(s) => s in w.workers
    case _ => true
  }

  ghost function Next(n: Naming, w: World, step: Step): World
    requires Possible(w, step) && WorkersValid(n, w)
  {
    match step
    case PutSource(s, enabled, includes, excludes) =>
      var current := if s in w.sources then w.sources[s].current else None;
      w.(sources := w.sources[s := Source(enabled, includes, excludes, current)])
    case JobStep(op) => DoJob(w, op)
    case Lock(s) => w.(workers := w.workers[s := Locked])
    case ClaimQueued(s, queued, trigger, now) =>
      if Jobs.Succeeds(w.jobs, Jobs.Claim(queued, now))
      then AfterClaim(DoJob(w, Jobs.Claim(queued, now)), s, queued, trigger, now)
      else Release(w, s)
    case StartDirect(s, trigger, now) =>
      if s !in w.sources then Release(w, s)
      else AfterClaim(DoJob(w, Jobs.Start(SYNC_JOB_TYPE, trigger, Some(s), now)), s, w.jobs.nextId, trigger, now)
    case Resolve(s, commit, config, local, now) => Resolved(n, w, s, w.workers[s].run, commit, config, local, now)
    case ResolveFails(s, now) => Release(DoJob(w, Jobs.Finish(w.workers[s].run, Jobs.Failed, None, now)), s)
    case PublishNext(s, weather) => PublishedNext(n, w, s, w.workers[s], weather)
    case Promote(s, now, refreshed) =>
      var Attempting(run, v, local, _) := w.workers[s];
      if RecordsMatch(w, s, run, v) && w.versions[v].status in {Pending, Running} && w.jobs.runs[run].status == Jobs.Running
      then
        var done := Promoted(n, w, s, run, v, local, now);
        if refreshed then done else done.(workers := w.workers[s := Refreshing(run, v)])
      else w
    case FailVersion(s, now) =>
      var run, v := w.workers[s].run, w.workers[s].version;
      if RecordsMatch(w, s, run, v) && w.jobs.runs[run].status == Jobs.Running
      then Release(DoJob(SetVersion(w, v, w.versions[v].(status := Failed)), Jobs.Finish(run, Jobs.Failed, None, now)), s)
      else Release(w, s)
    case Crash(s) => Release(w, s)
    case Prune(s, keep, bucketSet) => Pruned(w, s, keep, bucketSet)
  }

  /******* Invariants *******/

  ghost predicate HasConfig(n: Naming, row: Version) {
    exists c: Config :: n.configHash(c) == row.id.configHash && c.graphifyVersion == row.graphifyVersion
  }

  ghost predicate IdentitiesValid(n: Naming, w: World) {
    && (forall v <- w.versions :: v < w.nextVersion && SlashFree(w.versions[v].id) && HasConfig(n, w.versions[v]))
    && (forall u, v | u in w.versions && v in w.versions && u != v :: w.versions[u].id != w.versions[v].id)
  }

  // The artifact is in the store with the recorded checksum.
  ghost predicate Stored(n: Naming, w: World, row: Version, a: Artifact) {
    && a in row.keys && row.keys[a] == KeyOf(n, row.id, a) && row.keys[a] in w.objects
    && a in row.checksums && row.checksums[a] == CHECKSUM_PREFIX + n.sha256(w.objects[row.keys[a]])
  }

  ghost predicate Servable(n: Naming, w: World, row: Version) {
    row.status == Succeeded && forall a <- ARTIFACT_ORDER :: Stored(n, w, row, a)
  }

  ghost predicate AllServable(n: Naming, w: World) {
    forall v <- w.versions :: w.versions[v].status == Succeeded ==> Servable(n, w, w.versions[v])
  }

  // Exactly the succeeded versions record keys, and these are their own.
  ghost predicate RecordValid(n: Naming, row: Version) {
    row.keys == if row.status == Succeeded then AllKeys(n, row.id) else map[]
  }

  ghost predicate RecordsValid(n: Naming, w: World) {
    forall v <- w.versions :: RecordValid(n, w.versions[v])
  }

  ghost predicate PointersValid(w: World) {
    forall s <- w.sources ::
      w.sources[s].current.Some? ==>
        var v := w.sources[s].current.value;
        v in w.versions && w.versions[v].id.source == s && w.versions[v].status == Succeeded
  }

  ghost predicate WorkerValid(n: Naming, w: World, s: SourceId, worker: Worker) {
    worker.Attempting? ==>
      && worker.version in w.versions && w.versions[worker.version].id.source == s
      && w.versions[worker.version].status == Running
      && Complete(worker.local) && worker.done <= |ARTIFACT_ORDER|
      && forall i | 0 <= i < worker.done ::
           Verified(n, w.objects, w.versions[worker.version].id, ARTIFACT_ORDER[i], worker.local)
  }

  ghost predicate Verified(n: Naming, objects: Objects, id: Identity, a: Artifact, local: Local) {
    a in local && KeyOf(n, id, a) in objects && Matches(n, objects[KeyOf(n, id, a)], local[a])
  }

  ghost predicate WorkersValid(n: Naming, w: World) {
    forall s <- w.workers :: WorkerValid(n, w, s, w.workers[s])
  }

  ghost predicate Coherent(n: Naming, w: World) {
    IdentitiesValid(n, w) && RecordsValid(n, w) && PointersValid(w) && WorkersValid(n, w)
  }

  // The run has ended, or its row is gone and its id will not be used again.
  predicate Over(jobs: Jobs.Jobs, run: RunId) {
    run < jobs.nextId && (run in jobs.runs ==> Jobs.Rank(jobs.runs[run].status) == 2)
  }

  ghost predicate RunsOver(w: World) {
    && IdsBelow(w.jobs)
    && forall s <- w.workers :: w.workers[s].Refreshing? ==> Over(w.jobs, w.workers[s].run)
  }

  ghost predicate Inv(n: Naming, w: World) {
    Coherent(n, w) && RunsOver(w) && AllServable(n, w)
  }

  /******* What a resolution changes *******/

  // Either version v of this identity is attempted, a new one or one that has not succeeded, or the
  // worker is gone and no version has changed.
  ghost predicate ResolvedTo(w: World, w': World, s: SourceId, id: Identity, local: Local) {
    && w'.objects == w.objects
    && if s in w'.workers then
         && w'.workers[s].Attempting? && w'.workers == w.workers[s := w'.workers[s]] && w'.workers[s].local == local
         && var v := w'.workers[s].version;
         && w.nextVersion <= w'.nextVersion && v < w'.nextVersion
         && v in w'.versions && w'.versions == w.versions[v := w'.versions[v]]
         && w'.versions[v].status == Running && w'.versions[v].id == id
         && (v == w.nextVersion || (v in w.versions && w.versions[v].id == id && w.versions[v].status != Succeeded))
       else w'.workers == w.workers - {s} && w'.versions == w.versions && w'.nextVersion == w.nextVersion
  }

  lemma SkipReleases(w: World, s: SourceId, run: RunId, v: VersionId, now: Time, id: Identity, local: Local)
    ensures ResolvedTo(w, Skip(w, s, run, v, now), s, id, local)
  {
    hide Jobs.Next;
  }

  lemma AttemptStarts(w: World, s: SourceId, run: RunId, v: VersionId, row: Version, local: Local)
    requires run in w.jobs.runs && row.status == Running
    requires v == w.nextVersion || (v in w.versions && w.versions[v].id == row.id && w.versions[v].status != Succeeded)
    ensures ResolvedTo(w, Attempt(w, s, run, v, row, local), s, row.id, local)
  {
  }

  lemma ResolveChanges(n: Naming, w: World, s: SourceId, run: RunId, commit: string, config: Config, local: Local, now: Time)
    ensures ResolvedTo(w, Resolved(n, w, s, run, commit, config, local, now), s, Identity(s, commit, n.configHash(config)), local)
  {
    var id := Identity(s, commit, n.configHash(config));
    if run !in w.jobs.runs {
      hide Skip, Attempt;
      assert ResolvedTo(w, Release(w, s), s, id, local);
    } else {
      hide Skip, Attempt, ResolvedTo;
      match FindVersion(w.versions, id, config.graphifyVersion)
      case Some(v) =>
        if w.versions[v].status == Succeeded {
          SkipReleases(w, s, run, v, now, id, local);
        } else {
          AttemptStarts(w, s, run, v, w.versions[v].(status := Running), local);
        }
      case None =>
        AttemptStarts(w, s, run, w.nextVersion, Version(id, config.graphifyVersion, Running, map[], map[], now), local);
    }
  }

  lemma NextOfResolve(n: Naming, w: World, step: Step)
    requires Possible(w, step) && WorkersValid(n, w) && step.Resolve?
    ensures ResolvedTo(w, Next(n, w, step), step.source, Identity(step.source, step.commit, n.configHash(step.config)), step.local)
  {
    hide Resolved, WorkersValid, ResolvedTo;
    ResolveChanges(n, w, step.source, w.workers[step.source].run, step.commit, step.config, step.local, step.now);
  }

  /******* Every step keeps the invariants *******/

  // All rows except possibly that of v are as before.
  ghost predicate SameRows(w: World, w': World, v: VersionId) {
    && w'.objects == w.objects
    && forall u :: u != v ==> (u in w'.versions <==> u in w.versions) && (u in w.versions ==> w'.versions[u] == w.versions[u])
  }

  lemma RecordsStayValid(n: Naming, w: World, w': World, v: VersionId)
    requires RecordsValid(n, w) && SameRows(w, w', v) && (v in w'.versions ==> RecordValid(n, w'.versions[v]))
    ensures RecordsValid(n, w')
  {
    hide RecordValid;
  }

  lemma IdentitiesStayValid(n: Naming, w: World, w': World, v: VersionId)
    requires IdentitiesValid(n, w) && SameRows(w, w', v) && w.nextVersion <= w'.nextVersion
    requires v in w'.versions ==>
               && v < w'.nextVersion && SlashFree(w'.versions[v].id) && HasConfig(n, w'.versions[v])
               && forall u <- w.versions :: u != v ==> w.versions[u].id != w'.versions[v].id
    ensures IdentitiesValid(n, w')
  {
    hide SlashFree, HasConfig;
  }

  // Pointers are as before, except that s may point to v, a succeeded version of its own.
  lemma PointersStayValid(w: World, w': World, s: SourceId, v: VersionId)
    requires PointersValid(w) && SameRows(w, w', v) && (v in w.versions ==> w.versions[v].status != Succeeded)
    requires forall t <- w'.sources ::
               || (t in w.sources && w'.sources[t].current == w.sources[t].current)
               || (t == s && w'.sources[t].current == Some(v) && v in w'.versions
                   && w'.versions[v].id.source == s && w'.versions[v].status == Succeeded)
    ensures PointersValid(w')
  {
  }

  // Workers other than that of s are as before, and v is no version of their sources.
  lemma WorkersStayValid(n: Naming, w: World, w': World, s: SourceId, v: VersionId)
    requires WorkersValid(n, w) && SameRows(w, w', v) && (v in w.versions ==> w.versions[v].id.source == s)
    requires forall t <- w'.workers :: t != s ==> t in w.workers && w'.workers[t] == w.workers[t]
    requires s in w'.workers ==> WorkerValid(n, w', s, w'.workers[s])
    ensures WorkersValid(n, w')
  {
    hide Verified;
    forall t <- w'.workers ensures WorkerValid(n, w', t, w'.workers[t]) {
      if t != s { assert WorkerValid(n, w, t, w.workers[t]); }
    }
  }

  // Steps that only touch runs, registry entries or locks.
  lemma SameVersions(n: Naming, w: World, w': World)
    requires Coherent(n, w)
    requires w'.versions == w.versions && w'.objects == w.objects && w'.nextVersion == w.nextVersion
    requires forall s <- w'.workers :: (s in w.workers && w'.workers[s] == w.workers[s]) || !w'.workers[s].Attempting?
    requires forall s <- w'.sources :: w'.sources[s].current.Some? ==> s in w.sources && w'.sources[s].current == w.sources[s].current
    ensures Coherent(n, w')
  {
    hide WorkersValid;
    assert IdentitiesValid(n, w') by { SameIdentities(n, w, w'); }
    assert RecordsValid(n, w') by { SameRecords(n, w, w'); }
    SameWorkers(n, w, w');
  }

  // A new version row, or a known one that had not succeeded, becomes the running version of worker s.
  lemma AttemptKeepsInv(n: Naming, w: World, s: SourceId, run: RunId, v: VersionId, row: Version, local: Local)
    requires Coherent(n, w) && (s in w.workers ==> !w.workers[s].Attempting?)
    requires row.status == Running && row.keys == map[] && row.id.source == s && SlashFree(row.id) && HasConfig(n, row)
    requires v in w.versions ==> w.versions[v].status != Succeeded && w.versions[v].id == row.id
    requires forall u <- w.versions :: u != v ==> w.versions[u].id != row.id
    requires Complete(local) && run in w.jobs.runs
    ensures Coherent(n, Attempt(w, s, run, v, row, local))
  {
    var w' := Attempt(w, s, run, v, row, local);
    AttemptChanges(w, s, run, v, row, local);
    hide *;
    OpenCoherent(n, w);
    assert HasConfig(n, w'.versions[v]);
    IdentitiesStayValid(n, w, w', v);
    AttemptedRow(n, row);
    RecordsStayValid(n, w, w', v);
    PointersStayValid(w, w', s, v);
    AttemptedWorker(n, w', s, run, v, local);
    WorkersStayValid(n, w, w', s, v);
    CloseCoherent(n, w');
  }

  lemma AttemptChanges(w: World, s: SourceId, run: RunId, v: VersionId, row: Version, local: Local)
    requires run in w.jobs.runs
    ensures var w' := Attempt(w, s, run, v, row, local);
            && w'.versions == w.versions[v := row] && w'.sources == w.sources && SameRows(w, w', v)
            && w'.workers == w.workers[s := Attempting(run, v, local, 0)] && w.nextVersion <= w'.nextVersion && v < w'.nextVersion
  {
  }

  lemma AttemptedRow(n: Naming, row: Version)
    requires row.status == Running && row.keys == map[]
    ensures RecordValid(n, row)
  {
  }

  lemma AttemptedWorker(n: Naming, w: World, s: SourceId, run: RunId, v: VersionId, local: Local)
    requires v in w.versions && w.versions[v].id.source == s && w.versions[v].status == Running && Complete(local)
    ensures WorkerValid(n, w, s, Attempting(run, v, local, 0))
  {
  }

  lemma OpenCoherent(n: Naming, w: World)
    requires Coherent(n, w)
    ensures IdentitiesValid(n, w) && RecordsValid(n, w) && PointersValid(w) && WorkersValid(n, w)
  {
  }

  lemma CloseCoherent(n: Naming, w: World)
    requires IdentitiesValid(n, w) && RecordsValid(n, w) && PointersValid(w) && WorkersValid(n, w)
    ensures Coherent(n, w)
  {
  }

  lemma FreshIdentity(n: Naming, w: World, id: Identity, config: Config, v: VersionId)
    requires n.Valid() && IdentitiesValid(n, w) && id.configHash == n.configHash(config) && v in w.versions
    ensures w.versions[v].id == id ==> w.versions[v].graphifyVersion == config.graphifyVersion
  {
    var c: Config :| n.configHash(c) == w.versions[v].id.configHash && c.graphifyVersion == w.versions[v].graphifyVersion;
  }

  lemma FoundIsOnly(n: Naming, w: World, id: Identity, config: Config)
    requires n.Valid() && IdentitiesValid(n, w) && id.configHash == n.configHash(config)
    ensures forall u <- w.versions :: w.versions[u].id == id ==> FindVersion(w.versions, id, config.graphifyVersion) == Some(u)
  {
    forall u <- w.versions ensures w.versions[u].id == id ==> FindVersion(w.versions, id, config.graphifyVersion) == Some(u) {
      FreshIdentity(n, w, id, config, u);
    }
  }

  lemma ResolveKeepsInv(n: Naming, w: World, s: SourceId, commit: string, config: Config, local: Local, now: Time)
    requires n.Valid() && Coherent(n, w) && Possible(w, Resolve(s, commit, config, local, now))
    ensures Coherent(n, Resolved(n, w, s, w.workers[s].run, commit, config, local, now))
  {
    var run := w.workers[s].run;
    var id := Identity(s, commit, n.configHash(config));
    FoundIsOnly(n, w, id, config);
    ResolvedIdentity(n, commit, config, s);
    hide Coherent, SlashFree, IdentitiesValid, Naming.Valid, Attempt, Skip;
    if run !in w.jobs.runs {
      SameVersions(n, w, Release(w, s));
      return;
    }
    match FindVersion(w.versions, id, config.graphifyVersion)
    case Some(v) =>
      UnfoldInv(n, w, v);
      if w.versions[v].status == Succeeded {
        SkipKeepsInv(n, w, s, run, v, now);
      } else {
        var row := w.versions[v].(status := Running);
        assert HasConfig(n, row);
        AttemptKeepsInv(n, w, s, run, v, row, local);
      }
    case None =>
      var row := Version(id, config.graphifyVersion, Running, map[], map[], now);
      assert HasConfig(n, row);
      UnfoldNext(n, w);
      AttemptKeepsInv(n, w, s, run, w.nextVersion, row, local);
  }

  lemma ResolvedIdentity(n: Naming, commit: string, config: Config, s: SourceId)
    requires n.Valid() && IsCommit(commit)
    ensures SlashFree(Identity(s, commit, n.configHash(config)))
  {
  }

  lemma UnfoldInv(n: Naming, w: World, v: VersionId)
    requires Coherent(n, w) && v in w.versions
    ensures SlashFree(w.versions[v].id) && HasConfig(n, w.versions[v])
    ensures w.versions[v].status != Succeeded ==> w.versions[v].keys == map[]
  {
  }

  lemma UnfoldNext(n: Naming, w: World)
    requires Coherent(n, w)
    ensures forall v <- w.versions :: v < w.nextVersion
  {
  }

  // The pointer moves to a version of the same source that has succeeded before.
  lemma SkipKeepsInv(n: Naming, w: World, s: SourceId, run: RunId, v: VersionId, now: Time)
    requires Coherent(n, w) && v in w.versions && w.versions[v].status == Succeeded && w.versions[v].id.source == s
    ensures Coherent(n, Skip(w, s, run, v, now))
  {
    var w' := Skip(w, s, run, v, now);
    SkipChanges(w, s, run, v, now);
    hide *;
    OpenCoherent(n, w);
    SameIdentities(n, w, w');
    SkippedPointers(w, w', s, v);
    SameRecords(n, w, w');
    SameWorkers(n, w, w');
    CloseCoherent(n, w');
  }

  lemma SkipChanges(w: World, s: SourceId, run: RunId, v: VersionId, now: Time)
    ensures var w' := Skip(w, s, run, v, now);
            && w'.versions == w.versions && w'.objects == w.objects && w'.nextVersion == w.nextVersion
            && w'.workers == w.workers - {s}
            && forall t <- w'.sources :: t in w.sources &&
                 (w'.sources[t].current == w.sources[t].current || (t == s && w'.sources[t].current == Some(v)))
  {
    hide Jobs.Next;
  }

  lemma SameIdentities(n: Naming, w: World, w': World)
    requires IdentitiesValid(n, w) && w'.versions == w.versions && w'.nextVersion == w.nextVersion
    ensures IdentitiesValid(n, w')
  {
  }

  lemma SameRecords(n: Naming, w: World, w': World)
    requires RecordsValid(n, w) && w'.versions == w.versions
    ensures RecordsValid(n, w')
  {
  }

  lemma SameWorkers(n: Naming, w: World, w': World)
    requires WorkersValid(n, w) && w'.versions == w.versions && w'.objects == w.objects
    requires forall s <- w'.workers :: (s in w.workers && w'.workers[s] == w.workers[s]) || !w'.workers[s].Attempting?
    ensures WorkersValid(n, w')
  {
    forall s <- w'.workers ensures WorkerValid(n, w', s, w'.workers[s]) {
      if s in w.workers && w'.workers[s] == w.workers[s] { assert WorkerValid(n, w, s, w.workers[s]); }
    }
  }

  lemma SkippedPointers(w: World, w': World, s: SourceId, v: VersionId)
    requires PointersValid(w) && w'.versions == w.versions
    requires v in w.versions && w.versions[v].status == Succeeded && w.versions[v].id.source == s
    requires forall t <- w'.sources :: w'.sources[t].current.Some? ==>
               || (t in w.sources && w'.sources[t].current == w.sources[t].current)
               || (t == s && w'.sources[t].current == Some(v))
    ensures PointersValid(w')
  {
  }

  // Objects are only ever added: what was stored stays stored.
  lemma GrowingStore(n: Naming, w: World, w': World)
    requires Coherent(n, w)
    requires w'.versions == w.versions && w'.nextVersion == w.nextVersion && w'.sources == w.sources
    requires forall k <- w.objects :: k in w'.objects && w'.objects[k] == w.objects[k]
    requires forall s <- w'.workers :: s in w.workers && (w'.workers[s] == w.workers[s] || WorkerValid(n, w', s, w'.workers[s]))
    ensures Coherent(n, w')
  {
    assert IdentitiesValid(n, w');
    assert RecordsValid(n, w');
    assert PointersValid(w');
    forall s <- w'.workers ensures WorkerValid(n, w', s, w'.workers[s]) {
      assert WorkerValid(n, w, s, w.workers[s]);
      if w'.workers[s] == w.workers[s] && w.workers[s].Attempting? {
        var Attempting(_, v, local, done) := w.workers[s];
        forall i | 0 <= i < done ensures Verified(n, w'.objects, w'.versions[v].id, ARTIFACT_ORDER[i], local) {
          assert Verified(n, w.objects, w.versions[v].id, ARTIFACT_ORDER[i], local);
        }
      }
    }
  }

  lemma PublishKeepsInv(n: Naming, w: World, s: SourceId, weather: Weather)
    requires n.Valid() && Coherent(n, w) && Possible(w, PublishNext(s, weather)) && WorkerValid(n, w, s, w.workers[s])
    ensures Coherent(n, PublishedNext(n, w, s, w.workers[s], weather))
  {
    var worker := w.workers[s];
    var w' := PublishedNext(n, w, s, worker, weather);
    PublishChanges(n, w, s, weather);
    hide *;
    if w'.workers != w.workers {
      PublishedWorker(n, w, w', s);
    }
    GrowingStore(n, w, w');
  }

  lemma PublishChanges(n: Naming, w: World, s: SourceId, weather: Weather)
    requires Possible(w, PublishNext(s, weather)) && WorkerValid(n, w, s, w.workers[s])
    ensures var worker := w.workers[s];
            var w' := PublishedNext(n, w, s, worker, weather);
            && w'.versions == w.versions && w'.nextVersion == w.nextVersion && w'.sources == w.sources
            && (forall k <- w.objects :: k in w'.objects && w'.objects[k] == w.objects[k])
            && (w'.workers == w.workers ||
                (&& w'.workers == w.workers[s := worker.(done := worker.done + 1)]
                 && Verified(n, w'.objects, w.versions[worker.version].id, ARTIFACT_ORDER[worker.done], worker.local)))
  {
    var worker := w.workers[s];
    var id, a := w.versions[worker.version].id, ARTIFACT_ORDER[worker.done];
    assert a in ARTIFACT_ORDER;
    PublishOneFacts(n, KeyOf(n, id, a), worker.local[a], w.objects, weather);
    hide PublishOne, KeyOf;
  }

  lemma PublishedWorker(n: Naming, w: World, w': World, s: SourceId)
    requires s in w.workers && w.workers[s].Attempting? && w.workers[s].done < |ARTIFACT_ORDER| && WorkerValid(n, w, s, w.workers[s])
    requires w'.versions == w.versions && forall k <- w.objects :: k in w'.objects && w'.objects[k] == w.objects[k]
    requires var worker := w.workers[s];
             Verified(n, w'.objects, w.versions[worker.version].id, ARTIFACT_ORDER[worker.done], worker.local)
    ensures WorkerValid(n, w', s, w.workers[s].(done := w.workers[s].done + 1))
  {
    var Attempting(_, v, local, done) := w.workers[s];
    hide KeyOf, Matches;
    forall i | 0 <= i < done + 1 ensures Verified(n, w'.objects, w'.versions[v].id, ARTIFACT_ORDER[i], local) {
      if i < done { assert Verified(n, w.objects, w.versions[v].id, ARTIFACT_ORDER[i], local); }
    }
  }

  // Version v of source s, which only the worker of s can be attempting, gets another row.
  lemma FinishKeepsInv(n: Naming, w: World, w': World, s: SourceId, v: VersionId, row: Version)
    requires Coherent(n, w) && v in w.versions && w.versions[v].status == Running && w.versions[v].id.source == s
    requires row.id == w.versions[v].id && row.graphifyVersion == w.versions[v].graphifyVersion
    requires w'.versions == w.versions[v := row] && w'.objects == w.objects && w'.nextVersion == w.nextVersion
    requires forall t <- w'.workers :: if t == s then !w'.workers[t].Attempting? else t in w.workers && w'.workers[t] == w.workers[t]
    requires RecordValid(n, row)
    requires forall t <- w'.sources :: t in w.sources &&
               (w'.sources[t].current == w.sources[t].current || (t == s && row.status == Succeeded && w'.sources[t].current == Some(v)))
    ensures Coherent(n, w')
  {
    hide *;
    OpenCoherent(n, w);
    FinishedRow(n, w, w', v, row);
    IdentitiesStayValid(n, w, w', v);
    RecordsStayValid(n, w, w', v);
    PointersStayValid(w, w', s, v);
    if s in w'.workers { NotAttempting(n, w', s); }
    WorkersStayValid(n, w, w', s, v);
    CloseCoherent(n, w');
  }

  lemma FinishedRow(n: Naming, w: World, w': World, v: VersionId, row: Version)
    requires IdentitiesValid(n, w) && v in w.versions
    requires row.id == w.versions[v].id && row.graphifyVersion == w.versions[v].graphifyVersion
    requires w'.versions == w.versions[v := row] && w'.objects == w.objects
    ensures SameRows(w, w', v) && v < w.nextVersion && SlashFree(row.id) && HasConfig(n, row)
    ensures forall u <- w.versions :: u != v ==> w.versions[u].id != row.id
  {
    hide SlashFree;
    assert HasConfig(n, w.versions[v]);
  }

  lemma NotAttempting(n: Naming, w: World, s: SourceId)
    requires s in w.workers && !w.workers[s].Attempting?
    ensures WorkerValid(n, w, s, w.workers[s])
  {
  }

  lemma PromoteKeepsInv(n: Naming, w: World, s: SourceId, now: Time, refreshed: bool)
    requires n.Valid() && Coherent(n, w) && Possible(w, Promote(s, now, refreshed)) && WorkerValid(n, w, s, w.workers[s])
    requires RecordsMatch(w, s, w.workers[s].run, w.workers[s].version) && w.jobs.runs[w.workers[s].run].status == Jobs.Running
    ensures var w', v := Next(n, w, Promote(s, now, refreshed)), w.workers[s].version;
            && Coherent(n, w') && s in w'.sources && w'.sources[s].current == Some(v)
            && v in w'.versions && Servable(n, w', w'.versions[v])
  {
    var v, local := w.workers[s].version, w.workers[s].local;
    var w' := Next(n, w, Promote(s, now, refreshed));
    PromoteChanges(n, w, s, now, refreshed);
    hide *;
    var row := PromotedTo(n, w.versions[v], local);
    PromotedIsServable(n, w, w', s);
    FinishKeepsInv(n, w, w', s, v, row);
  }

  lemma PromoteChanges(n: Naming, w: World, s: SourceId, now: Time, refreshed: bool)
    requires WorkersValid(n, w) && Possible(w, Promote(s, now, refreshed))
    requires RecordsMatch(w, s, w.workers[s].run, w.workers[s].version) && w.jobs.runs[w.workers[s].run].status == Jobs.Running
    ensures s in w.workers && w.workers[s].Attempting? && w.workers[s].done == |ARTIFACT_ORDER| && Complete(w.workers[s].local)
    ensures var w', v := Next(n, w, Promote(s, now, refreshed)), w.workers[s].version;
            && v in w.versions && w.versions[v].status == Running && w.versions[v].id.source == s
            && w'.versions == w.versions[v := PromotedTo(n, w.versions[v], w.workers[s].local)]
            && w'.objects == w.objects && w'.nextVersion == w.nextVersion
            && (forall t <- w'.workers :: if t == s then !w'.workers[t].Attempting? else t in w.workers && w'.workers[t] == w.workers[t])
            && s in w'.sources && w'.sources[s].current == Some(v)
            && forall t <- w'.sources :: t in w.sources && (t != s ==> w'.sources[t].current == w.sources[t].current)
  {
    assert WorkerValid(n, w, s, w.workers[s]);
    hide WorkersValid, Jobs.Next, AllKeys, AllChecksums, Verified;
  }

  // Everything published and checked is what the promoted row records.
  lemma PromotedIsServable(n: Naming, w: World, w': World, s: SourceId)
    requires s in w.workers && w.workers[s].Attempting? && WorkerValid(n, w, s, w.workers[s])
    requires w.workers[s].done == |ARTIFACT_ORDER| && w'.objects == w.objects
    ensures var row := PromotedTo(n, w.versions[w.workers[s].version], w.workers[s].local);
            && row.status == Succeeded && row.id == w.versions[w.workers[s].version].id
            && row.graphifyVersion == w.versions[w.workers[s].version].graphifyVersion
            && Servable(n, w', row) && RecordValid(n, row)
  {
    var Attempting(_, v, local, _) := w.workers[s];
    hide KeyOf;
    forall a <- ARTIFACT_ORDER ensures Stored(n, w', PromotedTo(n, w.versions[v], local), a) {
      var i :| 0 <= i < |ARTIFACT_ORDER| && ARTIFACT_ORDER[i] == a;
      assert Verified(n, w.objects, w.versions[v].id, ARTIFACT_ORDER[i], local);
    }
  }

  // After a promotion the run is no longer running, so its failure handler cannot undo the promotion.
  lemma FailKeepsInv(n: Naming, w: World, s: SourceId, now: Time)
    requires n.Valid() && Coherent(n, w) && RunsOver(w) && Possible(w, FailVersion(s, now))
    ensures Coherent(n, Next(n, w, FailVersion(s, now)))
  {
    var run, v := w.workers[s].run, w.workers[s].version;
    assert WorkerValid(n, w, s, w.workers[s]);
    var w' := Next(n, w, FailVersion(s, now));
    if RecordsMatch(w, s, run, v) && w.jobs.runs[run].status == Jobs.Running {
      assert w.workers[s].Attempting?;
      UnfoldInv(n, w, v);
      FinishKeepsInv(n, w, w', s, v, w.versions[v].(status := Failed));
    } else {
      SameVersions(n, w, w');
    }
  }

  // The objects of different versions have different keys.
  lemma KeysApart(n: Naming, w: World, u: VersionId, v: VersionId, a: Artifact, b: Artifact)
    requires n.Valid() && IdentitiesValid(n, w) && u in w.versions && v in w.versions && u != v
    ensures KeyOf(n, w.versions[u].id, a) != KeyOf(n, w.versions[v].id, b)
  {
    KeysAreDistinct(n, w.versions[u].id, a, w.versions[v].id, b);
  }

  // Pruning removes no object that belongs to a version it does not prune.
  lemma PruneSparesOthers(n: Naming, w: World, source: SourceId, keep: nat, bucketSet: bool, v: VersionId, a: Artifact)
    requires n.Valid() && Coherent(n, w) && v in w.versions && v !in PrunedVersions(w, source, keep, bucketSet)
    ensures KeyOf(n, w.versions[v].id, a) !in KeysOfVersions(w.versions, PrunedVersions(w, source, keep, bucketSet))
  {
    var gone := PrunedVersions(w, source, keep, bucketSet);
    var key := KeyOf(n, w.versions[v].id, a);
    if key in KeysOfVersions(w.versions, gone) {
      var u, b :| u in gone && u in w.versions && b in w.versions[u].keys && w.versions[u].keys[b] == key;
      assert w.versions[u].keys[b] == KeyOf(n, w.versions[u].id, b) by { RecordedKey(n, w, u, b); }
      hide Coherent;
      KeysApart(n, w, v, u, a, b);
    }
  }

  lemma RecordedKey(n: Naming, w: World, u: VersionId, b: Artifact)
    requires Coherent(n, w) && u in w.versions && b in w.versions[u].keys
    ensures w.versions[u].keys[b] == KeyOf(n, w.versions[u].id, b)
  {
  }

  lemma PruneKeepsInv(n: Naming, w: World, source: SourceId, keep: nat, bucketSet: bool)
    requires n.Valid() && Coherent(n, w)
    ensures Coherent(n, Pruned(w, source, keep, bucketSet))
  {
    var gone := PrunedVersions(w, source, keep, bucketSet);
    var w' := Pruned(w, source, keep, bucketSet);
    assert IdentitiesValid(n, w');
    assert RecordsValid(n, w');
    assert PointersValid(w') by {
      forall s <- w'.sources | w'.sources[s].current.Some?
        ensures w'.sources[s].current.value in w'.versions
      {
        assert Retained(w, w.versions[w.sources[s].current.value].id.source, keep, w.sources[s].current.value);
      }
    }
    forall s <- w'.workers ensures WorkerValid(n, w', s, w'.workers[s]) {
      PruneKeepsWorker(n, w, source, keep, bucketSet, s);
    }
  }

  lemma PruneKeepsWorker(n: Naming, w: World, source: SourceId, keep: nat, bucketSet: bool, s: SourceId)
    requires n.Valid() && Coherent(n, w) && s in w.workers
    ensures WorkerValid(n, Pruned(w, source, keep, bucketSet), s, w.workers[s])
  {
    assert WorkerValid(n, w, s, w.workers[s]);
    if w.workers[s].Attempting? {
      var Attempting(_, v, local, done) := w.workers[s];
      assert v !in PrunedVersions(w, source, keep, bucketSet);
      var w' := Pruned(w, source, keep, bucketSet);
      forall i | 0 <= i < done ensures Verified(n, w'.objects, w'.versions[v].id, ARTIFACT_ORDER[i], local) {
        assert Verified(n, w.objects, w.versions[v].id, ARTIFACT_ORDER[i], local);
        PruneSparesOthers(n, w, source, keep, bucketSet, v, ARTIFACT_ORDER[i]);
      }
    }
  }

  // Registry edits, job operations, locks, claims and crashes leave versions and objects alone.
  lemma OtherStepKeepsInv(n: Naming, w: World, step: Step)
    requires Coherent(n, w) && Possible(w, step)
    requires step.PutSource? || step.JobStep? || step.Lock? || step.ClaimQueued? || step.StartDirect? || step.ResolveFails? || step.Crash?
    ensures Coherent(n, Next(n, w, step))
  {
    hide Coherent, PointersValid, IdentitiesValid, RecordsValid, WorkerValid, AfterClaim, Jobs.Next, Jobs.Succeeds;
    assert WorkersValid(n, w) by { UnfoldWorkers(n, w); }
    SameVersions(n, w, Next(n, w, step));
  }

  lemma UnfoldWorkers(n: Naming, w: World)
    requires Coherent(n, w)
    ensures WorkersValid(n, w)
  {
  }

  lemma StepKeepsCoherent(n: Naming, w: World, step: Step)
    requires n.Valid() && Coherent(n, w) && RunsOver(w) && Possible(w, step)
    ensures WorkersValid(n, w) && Coherent(n, Next(n, w, step))
  {
    UnfoldWorkers(n, w);
    hide Coherent, RunsOver;
    match step
    case Resolve(s, commit, config, local, now) => ResolveKeepsInv(n, w, s, commit, config, local, now);
    case PublishNext(s, weather) => PublishKeepsInv(n, w, s, weather);
    case Promote(s, now, refreshed) =>
      var run := w.workers[s].run;
      if RecordsMatch(w, s, run, w.workers[s].version) && w.jobs.runs[run].status == Jobs.Running {
        PromoteKeepsInv(n, w, s, now, refreshed);
      }
    case FailVersion(s, now) => FailKeepsInv(n, w, s, now);
    case Prune(s, keep, bucketSet) => PruneKeepsInv(n, w, s, keep, bucketSet);
    case _ => OtherStepKeepsInv(n, w, step);
  }

  // A run that has ended never runs again: rows of runs only advance or disappear.
  lemma OverForGood(jobs: Jobs.Jobs, op: Jobs.Op, run: RunId)
    requires Over(jobs, run)
    ensures Over(Jobs.Next(jobs, op), run)
  {
  }

  lemma OverAfterClaim(w: World, s: SourceId, claimed: RunId, trigger: string, now: Time, run: RunId)
    requires Over(w.jobs, run)
    ensures Over(AfterClaim(w, s, claimed, trigger, now).jobs, run)
  {
    hide Jobs.Next, Over;
    OverForGood(w.jobs, Jobs.Finish(claimed, Jobs.Failed, None, now), run);
  }

  lemma OverAfterResolve(n: Naming, w: World, s: SourceId, commit: string, config: Config, local: Local, now: Time, run: RunId)
    requires s in w.workers && w.workers[s].Claimed? && Over(w.jobs, run)
    ensures Over(Resolved(n, w, s, w.workers[s].run, commit, config, local, now).jobs, run)
  {
    hide Jobs.Next;
    forall v { OverForGood(w.jobs, Jobs.SkipWrite(w.workers[s].run, v, now), run); }
  }

  lemma StepKeepsOver(n: Naming, w: World, step: Step, run: RunId)
    requires WorkersValid(n, w) && Possible(w, step) && Over(w.jobs, run)
    ensures Over(Next(n, w, step).jobs, run)
  {
    hide Jobs.Next, Over, AfterClaim, Resolved, WorkersValid, RecordsMatch, PublishOne, AllKeys, AllChecksums;
    match step
    case JobStep(op) => OverForGood(w.jobs, op, run);
    case ClaimQueued(s, queued, trigger, now) =>
      OverForGood(w.jobs, Jobs.Claim(queued, now), run);
      OverAfterClaim(DoJob(w, Jobs.Claim(queued, now)), s, queued, trigger, now, run);
    case StartDirect(s, trigger, now) =>
      OverForGood(w.jobs, Jobs.Start(SYNC_JOB_TYPE, trigger, Some(s), now), run);
      OverAfterClaim(DoJob(w, Jobs.Start(SYNC_JOB_TYPE, trigger, Some(s), now)), s, w.jobs.nextId, trigger, now, run);
    case Resolve(s, commit, config, local, now) => OverAfterResolve(n, w, s, commit, config, local, now, run);
    case ResolveFails(s, now) => OverForGood(w.jobs, Jobs.Finish(w.workers[s].run, Jobs.Failed, None, now), run);
    case Promote(s, now, _) => OverForGood(w.jobs, Jobs.Finish(w.workers[s].run, Jobs.Succeeded, None, now), run);
    case FailVersion(s, now) => OverForGood(w.jobs, Jobs.Finish(w.workers[s].run, Jobs.Failed, None, now), run);
    case _ =>
  }

  predicate IdsBelow(jobs: Jobs.Jobs) {
    forall r <- jobs.runs :: r < jobs.nextId
  }

  lemma OpKeepsIdsBelow(jobs: Jobs.Jobs, op: Jobs.Op)
    requires IdsBelow(jobs)
    ensures IdsBelow(Jobs.Next(jobs, op))
  {
  }

  lemma ResolveKeepsIdsBelow(n: Naming, w: World, s: SourceId, commit: string, config: Config, local: Local, now: Time)
    requires s in w.workers && w.workers[s].Claimed? && IdsBelow(w.jobs)
    ensures IdsBelow(Resolved(n, w, s, w.workers[s].run, commit, config, local, now).jobs)
  {
    hide Jobs.Next;
    forall v { OpKeepsIdsBelow(w.jobs, Jobs.SkipWrite(w.workers[s].run, v, now)); }
  }

  lemma StepKeepsIdsBelow(n: Naming, w: World, step: Step)
    requires WorkersValid(n, w) && Possible(w, step) && IdsBelow(w.jobs)
    ensures IdsBelow(Next(n, w, step).jobs)
  {
    forall jobs: Jobs.Jobs, op | IdsBelow(jobs) ensures IdsBelow(Jobs.Next(jobs, op)) { OpKeepsIdsBelow(jobs, op); }
    hide Jobs.Next, IdsBelow, Resolved, WorkersValid, RecordsMatch, PublishOne, AllKeys, AllChecksums;
    if step.Resolve? { ResolveKeepsIdsBelow(n, w, step.source, step.commit, step.config, step.local, step.now); }
  }

  // Only a promotion starts the reading back of a version, and it has ended the run.
  lemma PromoteEndsRun(n: Naming, w: World, s: SourceId, now: Time, refreshed: bool)
    requires WorkersValid(n, w) && Possible(w, Promote(s, now, refreshed)) && IdsBelow(w.jobs)
    ensures var w' := Next(n, w, Promote(s, now, refreshed));
            forall t <- w'.workers :: w'.workers[t].Refreshing? ==>
              (t in w.workers && w.workers[t] == w'.workers[t]) || Over(w'.jobs, w'.workers[t].run)
  {
    hide AllKeys, AllChecksums, Verified;
    assert WorkerValid(n, w, s, w.workers[s]);
  }

  lemma OthersStartNoRefresh(n: Naming, w: World, step: Step)
    requires WorkersValid(n, w) && Possible(w, step) && !step.Promote?
    ensures var w' := Next(n, w, step);
            forall t <- w'.workers :: w'.workers[t].Refreshing? ==> t in w.workers && w.workers[t] == w'.workers[t]
  {
    if step.Resolve? {
      NextOfResolve(n, w, step);
      hide Next, WorkersValid;
    } else {
      hide WorkersValid, Resolved, AfterClaim, DoJob, Jobs.Succeeds, PublishOne, KeyOf, Pruned, RecordsMatch;
    }
  }

  lemma StepKeepsRunsOver(n: Naming, w: World, step: Step)
    requires WorkersValid(n, w) && RunsOver(w) && Possible(w, step)
    ensures RunsOver(Next(n, w, step))
  {
    var w' := Next(n, w, step);
    hide Next, Over;
    StepKeepsIdsBelow(n, w, step);
    if step.Promote? { PromoteEndsRun(n, w, step.source, step.now, step.refreshed); } else { OthersStartNoRefresh(n, w, step); }
    forall s <- w'.workers | w'.workers[s].Refreshing? ensures Over(w'.jobs, w'.workers[s].run) {
      if s in w.workers && w'.workers[s] == w.workers[s] { StepKeepsOver(n, w, step, w.workers[s].run); }
    }
  }

  /******* What a step leaves alone *******/

  // What a step can do to the row of a succeeded version.
  ghost predicate Untouched(w: World, w': World, v: VersionId, row: Version) {
    v < w'.nextVersion && (v in w'.versions ==> w'.versions[v] == row) && (v !in w.versions ==> v !in w'.versions)
  }

  lemma EndingLeavesSucceeded(n: Naming, w: World, step: Step, v: VersionId, row: Version)
    requires Coherent(n, w) && RunsOver(w) && Possible(w, step) && WorkersValid(n, w) && (step.Promote? || step.FailVersion?)
    requires v < w.nextVersion && (v in w.versions ==> w.versions[v] == row) && row.status == Succeeded
    ensures Untouched(w, Next(n, w, step), v, row)
  {
    hide Coherent, Jobs.Next, AllKeys, AllChecksums, Verified;
    assert WorkerValid(n, w, step.source, w.workers[step.source]);
    if step.FailVersion? && w.workers[step.source].Refreshing? { assert Over(w.jobs, w.workers[step.source].run); }
  }

  lemma StepLeavesSucceeded(n: Naming, w: World, step: Step, v: VersionId, row: Version)
    requires Coherent(n, w) && RunsOver(w) && Possible(w, step) && WorkersValid(n, w)
    requires v < w.nextVersion && (v in w.versions ==> w.versions[v] == row) && row.status == Succeeded
    ensures Untouched(w, Next(n, w, step), v, row)
  {
    if step.Resolve? {
      UnfoldNext(n, w);
      NextOfResolve(n, w, step);
      hide Next, Coherent, RunsOver, WorkersValid;
    } else if step.Promote? || step.FailVersion? {
      EndingLeavesSucceeded(n, w, step, v, row);
    } else {
      hide Coherent, RunsOver, WorkersValid, Resolved, AfterClaim, Jobs.Next, Jobs.Succeeds, PublishOne, KeyOf, PrunedVersions, KeysOfVersions;
    }
  }

  // An object of a version that stays is not deleted.
  lemma ObjectsStay(n: Naming, w: World, step: Step, v: VersionId, a: Artifact)
    requires n.Valid() && Coherent(n, w) && Possible(w, step) && WorkersValid(n, w)
    requires v in w.versions && v in Next(n, w, step).versions && KeyOf(n, w.versions[v].id, a) in w.objects
    ensures KeyOf(n, w.versions[v].id, a) in Next(n, w, step).objects
  {
    hide Coherent, Jobs.Next, Jobs.Succeeds, KeyOf, PublishOne, Naming.Valid;
    if step.Prune? {
      PruneSparesOthers(n, w, step.source, step.keep, step.bucketSet, v, a);
    } else if step.PublishNext? {
      PublishAddsOnly(n, w, step.source, step.weather);
    } else {
      OtherStepsKeepObjects(n, w, step);
    }
  }

  // No step changes an object: it keeps its content or is deleted.
  lemma ObjectsNeverChange(n: Naming, w: World, step: Step)
    requires Possible(w, step) && WorkersValid(n, w)
    ensures forall key :: key in w.objects && key in Next(n, w, step).objects ==> Next(n, w, step).objects[key] == w.objects[key]
  {
    if step.Prune? {
      hide WorkersValid, PrunedVersions, KeysOfVersions;
    } else if step.PublishNext? {
      PublishAddsOnly(n, w, step.source, step.weather);
    } else {
      OtherStepsKeepObjects(n, w, step);
    }
  }

  lemma PublishAddsOnly(n: Naming, w: World, s: SourceId, weather: Weather)
    requires Possible(w, PublishNext(s, weather)) && WorkersValid(n, w)
    ensures var w' := Next(n, w, PublishNext(s, weather));
            forall key <- w.objects :: key in w'.objects && w'.objects[key] == w.objects[key]
  {
    assert WorkerValid(n, w, s, w.workers[s]);
    var worker := w.workers[s];
    var a := ARTIFACT_ORDER[worker.done];
    assert a in ARTIFACT_ORDER;
    PublishOneFacts(n, KeyOf(n, w.versions[worker.version].id, a), worker.local[a], w.objects, weather);
    hide PublishOne, KeyOf;
  }

  lemma OtherStepsKeepObjects(n: Naming, w: World, step: Step)
    requires Possible(w, step) && WorkersValid(n, w) && !step.Prune? && !step.PublishNext?
    ensures Next(n, w, step).objects == w.objects
  {
    if step.Resolve? { NextOfResolve(n, w, step); }
    hide WorkersValid, Resolved, AfterClaim, Jobs.Next, Jobs.Succeeds, AllKeys, AllChecksums, RecordsMatch;
  }

  /******* Succeeded versions stay servable *******/

  // A version that becomes successful is promoted by its worker.
  lemma SuccessOrigin(n: Naming, w: World, step: Step, v: VersionId)
    requires Possible(w, step) && WorkersValid(n, w)
    requires v in Next(n, w, step).versions && Next(n, w, step).versions[v].status == Succeeded
    requires !(v in w.versions && w.versions[v].status == Succeeded)
    ensures step.Promote? && v == w.workers[step.source].version
    ensures RecordsMatch(w, step.source, w.workers[step.source].run, v) && Complete(w.workers[step.source].local)
    ensures w.workers[step.source].done == |ARTIFACT_ORDER|
    ensures Next(n, w, step).versions[v] ==
            Promoted(n, w, step.source, w.workers[step.source].run, v, w.workers[step.source].local, step.now).versions[v]
  {
    if step.Resolve? { NextOfResolve(n, w, step); hide Next; }
    if step.Promote? { assert WorkerValid(n, w, step.source, w.workers[step.source]); }
    hide WorkersValid, Resolved, AfterClaim, Jobs.Next, Jobs.Succeeds, AllKeys, AllChecksums, PublishOne, KeyOf, PrunedVersions, KeysOfVersions;
  }

  lemma ServableStays(n: Naming, w: World, step: Step, v: VersionId)
    requires n.Valid() && Coherent(n, w) && RunsOver(w) && Possible(w, step) && WorkersValid(n, w)
    requires v in w.versions && Servable(n, w, w.versions[v]) && v in Next(n, w, step).versions
    ensures Next(n, w, step).versions[v] == w.versions[v] && Servable(n, Next(n, w, step), w.versions[v])
  {
    var w' := Next(n, w, step);
    UnfoldNext(n, w);
    hide Coherent, RunsOver, WorkersValid, Next, Naming.Valid, KeyOf;
    StepLeavesSucceeded(n, w, step, v, w.versions[v]);
    ObjectsNeverChange(n, w, step);
    forall a <- ARTIFACT_ORDER ensures Stored(n, w', w.versions[v], a) {
      assert Stored(n, w, w.versions[v], a);
      ObjectsStay(n, w, step, v, a);
    }
  }

  lemma NewSuccessIsServable(n: Naming, w: World, step: Step, v: VersionId)
    requires Possible(w, step) && WorkersValid(n, w)
    requires v in Next(n, w, step).versions && Next(n, w, step).versions[v].status == Succeeded
    requires !(v in w.versions && w.versions[v].status == Succeeded)
    ensures Servable(n, Next(n, w, step), Next(n, w, step).versions[v])
  {
    var w', s := Next(n, w, step), step.source;
    SuccessOrigin(n, w, step, v);
    assert WorkerValid(n, w, s, w.workers[s]);
    OtherStepsKeepObjects(n, w, step);
    PromotedIsServable(n, w, w', s);
    hide WorkersValid, Next, PromotedTo, Servable, Jobs.Next;
  }

  lemma StepKeepsServable(n: Naming, w: World, step: Step)
    requires n.Valid() && Coherent(n, w) && RunsOver(w) && AllServable(n, w) && Possible(w, step) && WorkersValid(n, w)
    ensures AllServable(n, Next(n, w, step))
  {
    var w' := Next(n, w, step);
    hide Coherent, RunsOver, WorkersValid, Next, Naming.Valid;
    forall v <- w'.versions | w'.versions[v].status == Succeeded ensures Servable(n, w', w'.versions[v]) {
      if v in w.versions && w.versions[v].status == Succeeded {
        ServableStays(n, w, step, v);
      } else {
        NewSuccessIsServable(n, w, step, v);
      }
    }
  }

  lemma StepKeepsInv(n: Naming, w: World, step: Step)
    requires n.Valid() && Inv(n, w) && Possible(w, step)
    ensures WorkersValid(n, w) && Inv(n, Next(n, w, step))
  {
    StepKeepsCoherent(n, w, step);
    hide Coherent, AllServable;
    StepKeepsRunsOver(n, w, step);
    StepKeepsServable(n, w, step);
  }

  /******* Main results over all runs *******/

  // A run: every step is possible where it is taken.
  ghost predicate IsRun(n: Naming, worlds: seq<World>, steps: seq<Step>) {
    && |worlds| == |steps| + 1 && worlds[0] == EMPTY
    && forall k | 0 <= k < |steps| :: IsStep(n, worlds[k], steps[k], worlds[k + 1])
  }

  ghost predicate IsStep(n: Naming, w: World, step: Step, w': World) {
    Possible(w, step) && WorkersValid(n, w) && w' == Next(n, w, step)
  }

  lemma {:induction false} RunKeepsInv(n: Naming, worlds: seq<World>, steps: seq<Step>, k: nat)
    requires n.Valid() && IsRun(n, worlds, steps) && k < |worlds|
    ensures Inv(n, worlds[k])
  {
    if k > 0 {
      RunKeepsInv(n, worlds, steps, k - 1);
      assert IsStep(n, worlds[k - 1], steps[k - 1], worlds[k - 1 + 1]);
      StepKeepsInv(n, worlds[k - 1], steps[k - 1]);
    }
  }

  // In every reachable world, a serving pointer names a succeeded version of its own source, and all
  // five artifacts of that version are in the store under their own keys with the recorded checksums.
  lemma PointerIsServable(n: Naming, worlds: seq<World>, steps: seq<Step>, k: nat, s: SourceId)
    requires n.Valid() && IsRun(n, worlds, steps) && k < |worlds|
    requires s in worlds[k].sources && worlds[k].sources[s].current.Some?
    ensures var w := worlds[k];
            var v := w.sources[s].current.value;
            v in w.versions && w.versions[v].id.source == s && Servable(n, w, w.versions[v])
  {
    RunKeepsInv(n, worlds, steps, k);
  }

  // Over all runs a version that has succeeded keeps its row for good: status, keys and checksums never
  // change again, retries and failures included, and its id is not reused once it is pruned.
  lemma {:induction false} SucceededIsFinal(n: Naming, worlds: seq<World>, steps: seq<Step>, i: nat, j: nat, v: VersionId)
    requires n.Valid() && IsRun(n, worlds, steps) && i <= j < |worlds|
    requires v in worlds[i].versions && worlds[i].versions[v].status == Succeeded
    ensures v < worlds[j].nextVersion && (v in worlds[j].versions ==> worlds[j].versions[v] == worlds[i].versions[v])
  {
    RunKeepsInv(n, worlds, steps, j);
    hide Next;
    if i == j {
      UnfoldNext(n, worlds[i]);
    } else {
      SucceededIsFinal(n, worlds, steps, i, j - 1, v);
      RunKeepsInv(n, worlds, steps, j - 1);
      assert IsStep(n, worlds[j - 1], steps[j - 1], worlds[j - 1 + 1]);
      StepLeavesSucceeded(n, worlds[j - 1], steps[j - 1], v, worlds[i].versions[v]);
    }
  }

  // Whenever housekeeping runs, every retained version keeps its row and all of its objects, and the
  // objects that go are exactly those recorded by versions that go.
  lemma PruneKeepsRetained(n: Naming, worlds: seq<World>, steps: seq<Step>, k: nat, source: SourceId, keep: nat,
                           bucketSet: bool, v: VersionId)
    requires n.Valid() && IsRun(n, worlds, steps) && k < |worlds|
    requires v in worlds[k].versions && Retained(worlds[k], worlds[k].versions[v].id.source, keep, v)
    ensures var w, w' := worlds[k], Pruned(worlds[k], source, keep, bucketSet);
            && v in w'.versions && w'.versions[v] == w.versions[v]
            && (forall a :: a in w.versions[v].keys ==>
                  w.versions[v].keys[a] in w'.objects && w'.objects[w.versions[v].keys[a]] == w.objects[w.versions[v].keys[a]])
            && (forall key :: key in w.objects && key !in w'.objects <==>
                  key in w.objects && exists u, a :: u in w.versions && u !in w'.versions && a in w.versions[u].keys && w.versions[u].keys[a] == key)
  {
    RunKeepsInv(n, worlds, steps, k);
    var w := worlds[k];
    hide IsRun, RunsOver;
    KeptObjects(n, w, source, keep, bucketSet, v);
    DeletedIffPruned(w, source, keep, bucketSet);
  }

  lemma KeptObjects(n: Naming, w: World, source: SourceId, keep: nat, bucketSet: bool, v: VersionId)
    requires n.Valid() && Coherent(n, w) && AllServable(n, w) && v in w.versions && Retained(w, w.versions[v].id.source, keep, v)
    ensures var w' := Pruned(w, source, keep, bucketSet);
            && v in w'.versions && w'.versions[v] == w.versions[v]
            && forall a :: a in w.versions[v].keys ==>
                 w.versions[v].keys[a] in w'.objects && w'.objects[w.versions[v].keys[a]] == w.objects[w.versions[v].keys[a]]
  {
    var w' := Pruned(w, source, keep, bucketSet);
    assert v !in PrunedVersions(w, source, keep, bucketSet);
    forall a | a in w.versions[v].keys ensures w.versions[v].keys[a] in w'.objects {
      RecordedKey(n, w, v, a);
      assert w.versions[v].status == Succeeded && Servable(n, w, w.versions[v]);
      assert a in ARTIFACT_ORDER && Stored(n, w, w.versions[v], a);
      PruneSparesOthers(n, w, source, keep, bucketSet, v, a);
    }
  }

  lemma DeletedIffPruned(w: World, source: SourceId, keep: nat, bucketSet: bool)
    ensures var w' := Pruned(w, source, keep, bucketSet);
            forall key :: key in w.objects && key !in w'.objects <==>
              key in w.objects && exists u, a :: u in w.versions && u !in w'.versions && a in w.versions[u].keys && w.versions[u].keys[a] == key
  {
    var w', gone := Pruned(w, source, keep, bucketSet), PrunedVersions(w, source, keep, bucketSet);
    forall key | key in w.objects && key !in w'.objects
      ensures exists u, a :: u in w.versions && u !in w'.versions && a in w.versions[u].keys && w.versions[u].keys[a] == key
    {
      var u, a :| u in gone && u in w.versions && a in w.versions[u].keys && w.versions[u].keys[a] == key;
      assert u !in w'.versions;
    }
    forall key, u, a | key in w.objects && u in w.versions && u !in w'.versions && a in w.versions[u].keys && w.versions[u].keys[a] == key
      ensures key !in w'.objects
    {
      assert u in gone;
    }
  }
}
