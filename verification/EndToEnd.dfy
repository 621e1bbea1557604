/**
  The whole pipeline over all runs: what a serving process gets for the version a source points at.

  The synchronization protocol is run with workers whose artifacts come from the bundle build.  The
  invariant carries, for every succeeded version, a request whose build is stored under its keys.
 */
module EndToEnd {
  import opened Identifiers
  import opened Wrappers
  import opened Publication
  import opened Bundles
  import opened Formats
  import opened SyncProtocol
  import opened Hydration

  /******* Where artifacts come from *******/

  ghost predicate IsBuild(c: Codec, r: Request, id: Identity, local: Local) {
    Listed(r) && Build(c, r) == Ok(local) && id == Identity(r.source, r.commit, r.configHash)
  }

  ghost predicate Built(c: Codec, id: Identity, local: Local) {
    exists r :: IsBuild(c, r, id, local)
  }

  // The worker bundles what it resolved.
  ghost predicate BundlesItsCommit(c: Codec, step: Step) {
    step.Resolve? ==> Built(c, Identity(step.source, step.commit, c.naming.configHash(step.config)), step.local)
  }

  ghost predicate StoredFor(n: Naming, objects: Objects, id: Identity, local: Local) {
    forall a <- ARTIFACT_ORDER :: a in local && KeyOf(n, id, a) in objects && Matches(n, objects[KeyOf(n, id, a)], local[a])
  }

  // The row records the artifacts of a build, and objects of their sizes and digests are stored.
  ghost predicate RecordsBuild(c: Codec, objects: Objects, row: Version, local: Local) {
    Built(c, row.id, local) && RowHolds(c, local, row) && StoredFor(c.naming, objects, row.id, local)
  }

  ghost predicate SucceededBuilt(c: Codec, w: World) {
    forall v <- w.versions :: w.versions[v].status == Succeeded ==> exists local :: RecordsBuild(c, w.objects, w.versions[v], local)
  }

  ghost predicate AttemptBuilt(c: Codec, w: World, s: SourceId)
    requires s in w.workers
  {
    w.workers[s].Attempting? ==>
      w.workers[s].version in w.versions && Built(c, w.versions[w.workers[s].version].id, w.workers[s].local)
  }

  ghost predicate Provenance(c: Codec, w: World) {
    SucceededBuilt(c, w) && forall s <- w.workers :: AttemptBuilt(c, w, s)
  }

  /******* What a step leaves alone *******/

  // Identities never change.
  lemma IdsStay(n: Naming, w: World, step: Step, v: VersionId)
    requires Inv(n, w) && Possible(w, step) && WorkersValid(n, w) && v in w.versions && v in Next(n, w, step).versions
    ensures Next(n, w, step).versions[v].id == w.versions[v].id
  {
    if step.Resolve? {
      NextOfResolve(n, w, step);
      UnfoldNext(n, w);
      hide Next, Inv, WorkersValid;
    } else if step.Promote? || step.FailVersion? {
      hide Next, Inv, WorkersValid;
      EndingKeepsIds(n, w, step, v);
    } else {
      hide Next, Inv, WorkersValid;
      OthersKeepIds(n, w, step, v);
    }
  }

  lemma OthersKeepIds(n: Naming, w: World, step: Step, v: VersionId)
    requires Possible(w, step) && WorkersValid(n, w) && !step.Resolve? && !step.Promote? && !step.FailVersion?
    requires v in w.versions && v in Next(n, w, step).versions
    ensures Next(n, w, step).versions[v].id == w.versions[v].id
  {
    hide WorkersValid, Resolved, AfterClaim, Jobs.Next, Jobs.Succeeds, PublishOne, KeyOf, PrunedVersions, KeysOfVersions;
  }

  lemma EndingKeepsIds(n: Naming, w: World, step: Step, v: VersionId)
    requires Possible(w, step) && WorkersValid(n, w) && (step.Promote? || step.FailVersion?)
    requires v in w.versions && v in Next(n, w, step).versions
    ensures Next(n, w, step).versions[v].id == w.versions[v].id
  {
    hide WorkersValid, Jobs.Next, AllKeys, AllChecksums;
  }

  /******* Where new attempts and new successes come from *******/

  ghost predicate Continues(w: World, w': World, s: SourceId) {
    && s in w.workers && w.workers[s].Attempting? && s in w'.workers && w'.workers[s].Attempting?
    && w.workers[s].version == w'.workers[s].version && w.workers[s].local == w'.workers[s].local
  }

  // An attempt in progress was there before, or has just been resolved.
  lemma AttemptOrigin(n: Naming, w: World, step: Step, s: SourceId)
    requires Possible(w, step) && WorkersValid(n, w) && s in Next(n, w, step).workers && Next(n, w, step).workers[s].Attempting?
    requires !step.Resolve? || step.source != s
    ensures Continues(w, Next(n, w, step), s)
  {
    hide WorkersValid, Next;
    if step.Resolve? {
      NextOfResolve(n, w, step);
    } else if step.PublishNext? || step.Promote? || step.FailVersion? {
      WorkOrigin(n, w, step, s);
    } else {
      OtherOrigin(n, w, step, s);
    }
  }

  lemma OtherOrigin(n: Naming, w: World, step: Step, s: SourceId)
    requires Possible(w, step) && WorkersValid(n, w) && s in Next(n, w, step).workers && Next(n, w, step).workers[s].Attempting?
    requires !step.Resolve? && !step.PublishNext? && !step.Promote? && !step.FailVersion?
    ensures Continues(w, Next(n, w, step), s)
  {
    hide WorkersValid, Resolved, AfterClaim, Jobs.Next, Jobs.Succeeds, PrunedVersions, KeysOfVersions;
  }

  lemma WorkOrigin(n: Naming, w: World, step: Step, s: SourceId)
    requires Possible(w, step) && WorkersValid(n, w) && s in Next(n, w, step).workers && Next(n, w, step).workers[s].Attempting?
    requires step.PublishNext? || step.Promote? || step.FailVersion?
    ensures Continues(w, Next(n, w, step), s)
  {
    hide WorkersValid, Jobs.Next, PublishOne, KeyOf, RecordsMatch, AllKeys, AllChecksums;
  }

  /******* Every step keeps the provenance *******/

  lemma StepKeepsAttempts(c: Codec, w: World, step: Step, s: SourceId)
    requires Inv(c.naming, w) && WorkersValid(c.naming, w) && Possible(w, step) && Provenance(c, w) && BundlesItsCommit(c, step)
    requires Inv(c.naming, Next(c.naming, w, step)) && s in Next(c.naming, w, step).workers
    ensures AttemptBuilt(c, Next(c.naming, w, step), s)
  {
    var n, w' := c.naming, Next(c.naming, w, step);
    if w'.workers[s].Attempting? {
      assert w'.workers[s].version in w'.versions by { AttemptsHaveRows(n, w', s); }
      hide Inv, WorkersValid, Next, Built;
      if step.Resolve? && step.source == s {
        NextOfResolve(n, w, step);
      } else {
        AttemptOrigin(n, w, step, s);
        assert AttemptBuilt(c, w, s);
        IdsStay(n, w, step, w'.workers[s].version);
      }
    }
  }

  lemma AttemptsHaveRows(n: Naming, w: World, s: SourceId)
    requires Inv(n, w) && s in w.workers && w.workers[s].Attempting?
    ensures w.workers[s].version in w.versions
  {
    UnfoldWorkers(n, w);
    assert WorkerValid(n, w, s, w.workers[s]);
  }

  lemma StepKeepsRecord(c: Codec, w: World, step: Step, v: VersionId, local: Local)
    requires c.naming.Valid() && Inv(c.naming, w) && WorkersValid(c.naming, w) && Possible(w, step)
    requires v in w.versions && w.versions[v].status == Succeeded && v in Next(c.naming, w, step).versions
    requires RecordsBuild(c, w.objects, w.versions[v], local)
    ensures RecordsBuild(c, Next(c.naming, w, step).objects, Next(c.naming, w, step).versions[v], local)
  {
    var n, w' := c.naming, Next(c.naming, w, step);
    UnfoldNext(n, w);
    hide Inv, WorkersValid, Next, Built, RowHolds, KeyOf, Naming.Valid;
    StepLeavesSucceeded(n, w, step, v, w.versions[v]);
    ObjectsNeverChange(n, w, step);
    forall a <- ARTIFACT_ORDER
      ensures KeyOf(n, w.versions[v].id, a) in w'.objects && Matches(n, w'.objects[KeyOf(n, w.versions[v].id, a)], local[a])
    {
      ObjectsStay(n, w, step, v, a);
    }
  }

  lemma PromotedRecord(c: Codec, w: World, step: Step, v: VersionId)
    requires c.naming.Valid() && Inv(c.naming, w) && WorkersValid(c.naming, w) && Possible(w, step) && Provenance(c, w)
    requires v in Next(c.naming, w, step).versions && Next(c.naming, w, step).versions[v].status == Succeeded
    requires !(v in w.versions && w.versions[v].status == Succeeded)
    ensures exists local :: RecordsBuild(c, Next(c.naming, w, step).objects, Next(c.naming, w, step).versions[v], local)
  {
    var n, w' := c.naming, Next(c.naming, w, step);
    SuccessOrigin(n, w, step, v);
    var s, worker := step.source, w.workers[step.source];
    AttemptsHaveBuilds(c, w, s);
    OtherStepsKeepObjects(n, w, step);
    hide *;
    PromotedRow(c, w, s, worker.run, v, worker.local, step.now);
    AllPublished(n, w, s);
    HasRecord(c, w'.objects, w'.versions[v], worker.local);
  }

  lemma AttemptsHaveBuilds(c: Codec, w: World, s: SourceId)
    requires Provenance(c, w) && s in w.workers && w.workers[s].Attempting?
    ensures w.workers[s].version in w.versions && Built(c, w.versions[w.workers[s].version].id, w.workers[s].local)
  {
    hide SucceededBuilt, Built;
    assert AttemptBuilt(c, w, s);
  }

  lemma AllPublished(n: Naming, w: World, s: SourceId)
    requires WorkersValid(n, w) && s in w.workers && w.workers[s].Attempting? && w.workers[s].done == |ARTIFACT_ORDER|
    requires w.workers[s].version in w.versions
    ensures StoredFor(n, w.objects, w.versions[w.workers[s].version].id, w.workers[s].local)
  {
    assert WorkerValid(n, w, s, w.workers[s]);
    var Attempting(_, v, local, _) := w.workers[s];
    hide WorkersValid, KeyOf, Matches;
    forall a <- ARTIFACT_ORDER
      ensures a in local && KeyOf(n, w.versions[v].id, a) in w.objects && Matches(n, w.objects[KeyOf(n, w.versions[v].id, a)], local[a])
    {
      var i :| 0 <= i < |ARTIFACT_ORDER| && ARTIFACT_ORDER[i] == a;
      assert Verified(n, w.objects, w.versions[v].id, ARTIFACT_ORDER[i], local);
    }
  }

  lemma HasRecord(c: Codec, objects: Objects, row: Version, local: Local)
    requires Built(c, row.id, local) && RowHolds(c, local, row) && StoredFor(c.naming, objects, row.id, local)
    ensures exists local :: RecordsBuild(c, objects, row, local)
  {
    hide Built, RowHolds, KeyOf, Matches;
    assert RecordsBuild(c, objects, row, local);
  }

  lemma SuccessHasRecord(c: Codec, w: World, step: Step, v: VersionId)
    requires c.naming.Valid() && Inv(c.naming, w) && WorkersValid(c.naming, w) && Possible(w, step) && Provenance(c, w)
    requires v in Next(c.naming, w, step).versions && Next(c.naming, w, step).versions[v].status == Succeeded
    ensures exists local :: RecordsBuild(c, Next(c.naming, w, step).objects, Next(c.naming, w, step).versions[v], local)
  {
    hide Inv, WorkersValid, Next, RecordsBuild, Naming.Valid, AttemptBuilt;
    if v in w.versions && w.versions[v].status == Succeeded {
      var local :| RecordsBuild(c, w.objects, w.versions[v], local);
      StepKeepsRecord(c, w, step, v, local);
    } else {
      PromotedRecord(c, w, step, v);
    }
  }

  lemma StepKeepsProvenance(c: Codec, w: World, step: Step)
    requires c.naming.Valid() && Inv(c.naming, w) && Possible(w, step) && Provenance(c, w) && BundlesItsCommit(c, step)
    ensures WorkersValid(c.naming, w) && Provenance(c, Next(c.naming, w, step))
  {
    var n := c.naming;
    StepKeepsInv(n, w, step);
    var w' := Next(n, w, step);
    hide Inv, WorkersValid, Next, RecordsBuild, Naming.Valid, BundlesItsCommit;
    forall v <- w'.versions | w'.versions[v].status == Succeeded
      ensures exists local :: RecordsBuild(c, w'.objects, w'.versions[v], local)
    {
      SuccessHasRecord(c, w, step, v);
    }
    forall s <- w'.workers ensures AttemptBuilt(c, w', s) { StepKeepsAttempts(c, w, step, s); }
  }

  lemma {:induction false} RunKeepsProvenance(c: Codec, worlds: seq<World>, steps: seq<Step>, k: nat)
    requires c.naming.Valid() && IsRun(c.naming, worlds, steps) && k < |worlds|
    requires forall step <- steps :: BundlesItsCommit(c, step)
    ensures Provenance(c, worlds[k])
  {
    RunBegins(c.naming, worlds, steps);
    hide *;
    if k == 0 {
      NothingToBuild(c);
    } else {
      RunKeepsProvenance(c, worlds, steps, k - 1);
      RunKeepsInv(c.naming, worlds, steps, k - 1);
      StepOfRun(c.naming, worlds, steps, k - 1);
      assert steps[k - 1] in steps;
      StepKeepsProvenance(c, worlds[k - 1], steps[k - 1]);
    }
  }

  lemma RunBegins(n: Naming, worlds: seq<World>, steps: seq<Step>)
    requires IsRun(n, worlds, steps)
    ensures |worlds| == |steps| + 1 && worlds[0] == EMPTY
  {
    hide IsStep;
  }

  lemma NothingToBuild(c: Codec)
    ensures Provenance(c, EMPTY)
  {
  }

  lemma StepOfRun(n: Naming, worlds: seq<World>, steps: seq<Step>, k: nat)
    requires IsRun(n, worlds, steps) && k < |steps|
    ensures |worlds| == |steps| + 1 && Possible(worlds[k], steps[k]) && WorkersValid(n, worlds[k])
    ensures worlds[k + 1] == Next(n, worlds[k], steps[k])
  {
    assert IsStep(n, worlds[k], steps[k], worlds[k + 1]);
    hide Possible, WorkersValid, Next;
  }

  /******* Main result *******/

  lemma StoredExactly(c: Codec, objects: Objects, row: Version, local: Local)
    requires RecordsBuild(c, objects, row, local) && CollisionFree(c.naming, objects, local)
    ensures StoredUnder(c, row, local, objects)
  {
    hide KeyOf, Matches, Built;
    forall a <- ARTIFACT_ORDER
      ensures KeyOf(c.naming, row.id, a) in objects && objects[KeyOf(c.naming, row.id, a)] == local[a]
    {
      assert Matches(c.naming, objects[KeyOf(c.naming, row.id, a)], local[a]);
    }
    PublishedIsStored(c, local, row, objects);
  }

  // Over all runs of the protocol in which workers publish the bundles they build, whatever is retried,
  // cut off, failed, skipped or pruned: the version that a source points at comes from a build of its own
  // commit and configuration.  Take its row as read in world i and its artifacts as they are in any later
  // world j in which the version still exists.  Then hydrating it with an unchanged scope, from any state
  // of the cache and barring digest collisions, succeeds and leaves exactly the files that the scope of that
  // build admits, with the contents of its snapshot.
  lemma CurrentVersionHydrates(c: Codec, worlds: seq<World>, steps: seq<Step>, i: nat, j: nat, source: Registered, limit: int,
                               cache: Cache) returns (r: Request)
    requires c.Valid() && IsRun(c.naming, worlds, steps) && i <= j < |worlds|
    requires forall step <- steps :: BundlesItsCommit(c, step)
    requires source.id in worlds[i].sources && source.current == worlds[i].sources[source.id].current && source.current.Some?
    requires source.current.value in worlds[j].versions
    ensures var v := source.current.value;
            v in worlds[i].versions && Listed(r) && Build(c, r).Ok? && IsBuild(c, r, worlds[i].versions[v].id, Build(c, r).value)
    ensures c.LoadObject(r.graph).Ok?
    ensures var v, row, objects := source.current.value, worlds[i].versions[source.current.value], worlds[j].objects;
            var bundle := Build(c, r).value;
            && Complete(bundle)
            && (SameScope(source, r) && (limit >= MAX_EXPANDED_BYTES || FitsLimit(c, r, limit))
                && CollisionFree(c.naming, objects, bundle)
                && (v in cache.dirs ==> NoCollision(c, Contents(cache.dirs[v]) + Contents(BundleDir(c, r, bundle)))) ==>
                  var (failure, cache') := Hydrate(c, source, v, row, true, objects, limit, cache);
                  && failure == None && cache'.current == Some(v) && v in cache'.dirs
                  && cache'.dirs[v].source == Some(Selected(c, r)) && HoldsScope(c, r, Selected(c, r))
                  && cache'.dirs[v].graph.Some? && c.LoadObject(cache'.dirs[v].graph.value) == Ok(ServedGraph(c, r)))
  {
    var v, objects := source.current.value, worlds[j].objects;
    NamingIsValid(c);
    CurrentHasSucceeded(c.naming, worlds, steps, i, source.id);
    var row := worlds[i].versions[v];
    SucceededIsFinal(c.naming, worlds, steps, i, j, v);
    RunKeepsProvenance(c, worlds, steps, j);
    hide *;
    SucceededHasBuild(c, worlds[j], v);
    var local :| RecordsBuild(c, objects, row, local);
    RecordedBuild(c, objects, row, local);
    r :| IsBuild(c, r, row.id, local);
    OpenBuild(c, r, row.id, local);
    GraphLoads(c, r);
    if limit >= MAX_EXPANDED_BYTES { DefaultLimitFits(c, r, limit); }
    if SameScope(source, r) && FitsLimit(c, r, limit) && CollisionFree(c.naming, objects, local)
       && (v in cache.dirs ==> NoCollision(c, Contents(cache.dirs[v]) + Contents(BundleDir(c, r, local)))) {
      StoredExactly(c, objects, row, local);
      HeldRow(c, r, local, row);
      HydrateRestores(c, r, source, v, row, objects, limit, cache);
      SelectedHoldsScope(c, r);
    }
  }

  lemma CurrentHasSucceeded(n: Naming, worlds: seq<World>, steps: seq<Step>, k: nat, s: SourceId)
    requires n.Valid() && IsRun(n, worlds, steps) && k < |worlds|
    requires s in worlds[k].sources && worlds[k].sources[s].current.Some?
    ensures var v := worlds[k].sources[s].current.value;
            v in worlds[k].versions && worlds[k].versions[v].status == Succeeded
  {
    PointerIsServable(n, worlds, steps, k, s);
    hide IsRun;
  }

  lemma NamingIsValid(c: Codec)
    requires c.Valid()
    ensures c.naming.Valid()
  {
  }

  lemma SucceededHasBuild(c: Codec, w: World, v: VersionId)
    requires Provenance(c, w) && v in w.versions && w.versions[v].status == Succeeded
    ensures exists local :: RecordsBuild(c, w.objects, w.versions[v], local)
  {
    hide RecordsBuild;
  }

  lemma RecordedBuild(c: Codec, objects: Objects, row: Version, local: Local)
    requires RecordsBuild(c, objects, row, local)
    ensures RowHolds(c, local, row) && Complete(local) && exists r :: IsBuild(c, r, row.id, local)
  {
    hide IsBuild;
  }

  lemma OpenBuild(c: Codec, r: Request, id: Identity, local: Local)
    requires IsBuild(c, r, id, local)
    ensures Listed(r) && Build(c, r).Ok? && Build(c, r).value == local && id == Identity(r.source, r.commit, r.configHash)
    ensures forall p <- r.listing :: p in r.snapshot
  {
    hide Build;
  }

  lemma GraphLoads(c: Codec, r: Request)
    requires c.Valid() && Listed(r) && Build(c, r).Ok?
    ensures c.LoadObject(r.graph).Ok?
  {
    BuiltFacts(c, r);
  }

  lemma HeldRow(c: Codec, r: Request, local: Local, row: Version)
    requires RowHolds(c, local, row) && row.id == Identity(r.source, r.commit, r.configHash)
    ensures RowOf(c, r, local, row)
  {
  }
}
