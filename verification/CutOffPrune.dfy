/**
  Prunes that are cut off between the object store and the database.

  Housekeeping deletes the objects of a version before its row.  When a deletion fails or the process
  ends in between, the row stays and still counts as succeeded.  The main result says exactly when the
  serving pointers survive this: when every commit that is skipped has all of its artifacts.
 */
module CutOffPrune {
  import opened Identifiers
  import opened Wrappers
  import opened Publication
  import opened SyncProtocol

  // A step of the protocol, or a prune that has deleted these objects and goes no further.
  datatype Event =
    | Taken(step: Step)
    | CutOff(source: SourceId, keep: nat, lost: set<string>)

  ghost predicate Allowed(w: World, e: Event) {
    match e
    case Taken(step) => Possible(w, step)
    case CutOff(source, keep, lost) => lost <= KeysOfVersions(w.versions, PrunedVersions(w, source, keep, true))
  }

  function Lose(w: World, lost: set<string>): World {
    w.(objects := w.objects - lost)
  }

  ghost function After(n: Naming, w: World, e: Event): World
    requires Allowed(w, e) && WorkersValid(n, w)
  {
    match e
    case Taken(step) => Next(n, w, step)
    case CutOff(_, _, lost) => Lose(w, lost)
  }

  ghost predicate Follows(n: Naming, w: World, e: Event, w': World) {
    Allowed(w, e) && WorkersValid(n, w) && w' == After(n, w, e)
  }

  ghost predicate IsHistory(n: Naming, worlds: seq<World>, events: seq<Event>) {
    && |worlds| == |events| + 1 && worlds[0] == EMPTY
    && forall k | 0 <= k < |events| :: Follows(n, worlds[k], events[k], worlds[k + 1])
  }

  /******* Versions that have lost artifacts *******/

  // What the row records was published; an object that is still there is the one that was recorded.
  ghost predicate Recorded(n: Naming, w: World, row: Version, a: Artifact) {
    && a in row.keys && row.keys[a] == KeyOf(n, row.id, a) && a in row.checksums
    && (row.keys[a] in w.objects ==> row.checksums[a] == CHECKSUM_PREFIX + n.sha256(w.objects[row.keys[a]]))
  }

  ghost predicate RowRecorded(n: Naming, w: World, row: Version) {
    forall a <- ARTIFACT_ORDER :: Recorded(n, w, row, a)
  }

  ghost predicate AllRecorded(n: Naming, w: World) {
    forall v <- w.versions :: w.versions[v].status == Succeeded ==> RowRecorded(n, w, w.versions[v])
  }

  // All artifacts of the row are in the store.
  predicate Whole(w: World, row: Version) {
    forall a <- ARTIFACT_ORDER :: a in row.keys && row.keys[a] in w.objects
  }

  ghost predicate Sound(n: Naming, w: World) {
    Coherent(n, w) && RunsOver(w) && AllRecorded(n, w)
  }

  lemma WholeIsServable(n: Naming, w: World, row: Version)
    requires row.status == Succeeded && RowRecorded(n, w, row)
    ensures Whole(w, row) <==> Servable(n, w, row)
  {
    hide KeyOf;
    forall a <- ARTIFACT_ORDER ensures Stored(n, w, row, a) <==> a in row.keys && row.keys[a] in w.objects {
      assert Recorded(n, w, row, a);
    }
  }

  lemma ServableIsRecorded(n: Naming, w: World, row: Version)
    requires Servable(n, w, row)
    ensures RowRecorded(n, w, row)
  {
    hide KeyOf;
    forall a <- ARTIFACT_ORDER ensures Recorded(n, w, row, a) { assert Stored(n, w, row, a); }
  }

  /******* What a cut-off prune leaves alone *******/

  lemma CutOffSpares(n: Naming, w: World, e: Event, v: VersionId, a: Artifact)
    requires n.Valid() && Coherent(n, w) && e.CutOff? && Allowed(w, e)
    requires v in w.versions && v !in PrunedVersions(w, e.source, e.keep, true)
    ensures KeyOf(n, w.versions[v].id, a) !in e.lost
  {
    hide Coherent, Naming.Valid, KeyOf;
    PruneSparesOthers(n, w, e.source, e.keep, true, v, a);
  }

  lemma CutOffKeepsWorker(n: Naming, w: World, e: Event, s: SourceId)
    requires n.Valid() && Coherent(n, w) && WorkersValid(n, w) && e.CutOff? && Allowed(w, e) && s in w.workers
    ensures WorkerValid(n, Lose(w, e.lost), s, w.workers[s])
  {
    assert WorkerValid(n, w, s, w.workers[s]);
    if w.workers[s].Attempting? {
      var Attempting(_, v, local, done) := w.workers[s];
      assert v !in PrunedVersions(w, e.source, e.keep, true);
      hide Coherent, WorkersValid, Allowed, Naming.Valid, KeyOf, Matches;
      forall i | 0 <= i < done ensures Verified(n, Lose(w, e.lost).objects, w.versions[v].id, ARTIFACT_ORDER[i], local) {
        assert Verified(n, w.objects, w.versions[v].id, ARTIFACT_ORDER[i], local);
        CutOffSpares(n, w, e, v, ARTIFACT_ORDER[i]);
      }
    }
  }

  lemma CutOffKeepsCoherent(n: Naming, w: World, e: Event)
    requires n.Valid() && Coherent(n, w) && WorkersValid(n, w) && e.CutOff? && Allowed(w, e)
    ensures Coherent(n, Lose(w, e.lost))
  {
    var w' := Lose(w, e.lost);
    OpenCoherent(n, w);
    hide Coherent, Allowed, Naming.Valid;
    SameIdentities(n, w, w');
    SameRecords(n, w, w');
    hide IdentitiesValid, RecordsValid;
    forall s <- w'.workers ensures WorkerValid(n, w', s, w'.workers[s]) { CutOffKeepsWorker(n, w, e, s); }
    CloseCoherent(n, w');
  }

  lemma CutOffKeepsRecorded(n: Naming, w: World, lost: set<string>)
    requires AllRecorded(n, w)
    ensures AllRecorded(n, Lose(w, lost))
  {
    hide KeyOf;
    var w' := Lose(w, lost);
    forall v <- w'.versions | w'.versions[v].status == Succeeded ensures RowRecorded(n, w', w'.versions[v]) {
      assert RowRecorded(n, w, w.versions[v]);
      forall a <- ARTIFACT_ORDER ensures Recorded(n, w', w'.versions[v], a) { assert Recorded(n, w, w.versions[v], a); }
    }
  }

  // A version that is pointed at is retained, so its objects are not among the deleted ones.
  lemma CutOffKeepsServable(n: Naming, w: World, e: Event, v: VersionId)
    requires n.Valid() && Coherent(n, w) && e.CutOff? && Allowed(w, e)
    requires v in w.versions && v !in PrunedVersions(w, e.source, e.keep, true) && Servable(n, w, w.versions[v])
    ensures Servable(n, Lose(w, e.lost), w.versions[v])
  {
    hide Coherent, Allowed, Naming.Valid, KeyOf;
    forall a <- ARTIFACT_ORDER ensures Stored(n, Lose(w, e.lost), w.versions[v], a) {
      assert Stored(n, w, w.versions[v], a);
      CutOffSpares(n, w, e, v, a);
    }
  }

  /******* What a step leaves alone *******/

  // The only objects that appear belong to a version being attempted, which no succeeded version is.
  lemma NewObjectsAreAttempted(n: Naming, w: World, step: Step, v: VersionId, a: Artifact)
    requires n.Valid() && Coherent(n, w) && Possible(w, step) && WorkersValid(n, w)
    requires v in w.versions && w.versions[v].status == Succeeded
    requires KeyOf(n, w.versions[v].id, a) in Next(n, w, step).objects
    ensures KeyOf(n, w.versions[v].id, a) in w.objects
  {
    hide Coherent, Next, WorkersValid, KeyOf, Naming.Valid;
    if step.Prune? {
      PruneAddsNothing(n, w, step);
    } else if step.PublishNext? {
      PublishAddsOwnKey(n, w, step.source, step.weather);
      AttemptIsApart(n, w, step.source, v, a);
    } else {
      OtherStepsKeepObjects(n, w, step);
    }
  }

  lemma PruneAddsNothing(n: Naming, w: World, step: Step)
    requires step.Prune? && Possible(w, step) && WorkersValid(n, w)
    ensures Next(n, w, step).objects.Keys <= w.objects.Keys
  {
    hide WorkersValid, PrunedVersions, KeysOfVersions;
  }

  lemma AttemptIsApart(n: Naming, w: World, s: SourceId, v: VersionId, a: Artifact)
    requires n.Valid() && Coherent(n, w) && s in w.workers && w.workers[s].Attempting? && w.workers[s].done < |ARTIFACT_ORDER|
    requires w.workers[s].version in w.versions && v in w.versions && w.versions[v].status == Succeeded
    ensures KeyOf(n, w.versions[w.workers[s].version].id, ARTIFACT_ORDER[w.workers[s].done]) != KeyOf(n, w.versions[v].id, a)
  {
    OpenCoherent(n, w);
    assert WorkerValid(n, w, s, w.workers[s]);
    hide Coherent, IdentitiesValid, KeyOf;
    KeysApart(n, w, w.workers[s].version, v, ARTIFACT_ORDER[w.workers[s].done], a);
  }

  lemma PublishAddsOwnKey(n: Naming, w: World, s: SourceId, weather: Weather)
    requires Possible(w, PublishNext(s, weather)) && WorkersValid(n, w)
    ensures s in w.workers && w.workers[s].Attempting? && w.workers[s].done < |ARTIFACT_ORDER| && w.workers[s].version in w.versions
    ensures var w' := Next(n, w, PublishNext(s, weather));
            forall key <- w'.objects ::
              key in w.objects || key == KeyOf(n, w.versions[w.workers[s].version].id, ARTIFACT_ORDER[w.workers[s].done])
  {
    assert WorkerValid(n, w, s, w.workers[s]);
    var worker := w.workers[s];
    var a := ARTIFACT_ORDER[worker.done];
    assert a in ARTIFACT_ORDER;
    PublishOneFacts(n, KeyOf(n, w.versions[worker.version].id, a), worker.local[a], w.objects, weather);
    hide PublishOne, KeyOf;
  }

  lemma StepKeepsRow(n: Naming, w: World, step: Step, v: VersionId)
    requires n.Valid() && Coherent(n, w) && RunsOver(w) && Possible(w, step) && WorkersValid(n, w)
    requires v in w.versions && w.versions[v].status == Succeeded && RowRecorded(n, w, w.versions[v])
    requires v in Next(n, w, step).versions
    ensures Next(n, w, step).versions[v] == w.versions[v] && RowRecorded(n, Next(n, w, step), w.versions[v])
  {
    var w' := Next(n, w, step);
    UnfoldNext(n, w);
    hide Coherent, RunsOver, WorkersValid, Next, Naming.Valid, KeyOf;
    StepLeavesSucceeded(n, w, step, v, w.versions[v]);
    ObjectsNeverChange(n, w, step);
    forall a <- ARTIFACT_ORDER ensures Recorded(n, w', w.versions[v], a) {
      assert Recorded(n, w, w.versions[v], a);
      if w.versions[v].keys[a] in w'.objects { NewObjectsAreAttempted(n, w, step, v, a); }
    }
  }

  lemma StepKeepsRecorded(n: Naming, w: World, step: Step)
    requires n.Valid() && Coherent(n, w) && RunsOver(w) && AllRecorded(n, w) && Possible(w, step) && WorkersValid(n, w)
    ensures AllRecorded(n, Next(n, w, step))
  {
    var w' := Next(n, w, step);
    hide Coherent, RunsOver, WorkersValid, Next, Naming.Valid, RowRecorded;
    forall v <- w'.versions | w'.versions[v].status == Succeeded ensures RowRecorded(n, w', w'.versions[v]) {
      if v in w.versions && w.versions[v].status == Succeeded {
        StepKeepsRow(n, w, step, v);
      } else {
        NewSuccessIsServable(n, w, step, v);
        ServableIsRecorded(n, w', w'.versions[v]);
      }
    }
  }

  lemma EventKeepsSound(n: Naming, w: World, e: Event)
    requires n.Valid() && Sound(n, w) && Allowed(w, e)
    ensures WorkersValid(n, w) && Sound(n, After(n, w, e))
  {
    UnfoldWorkers(n, w);
    hide Coherent, RunsOver, AllRecorded, WorkersValid;
    match e
    case Taken(step) =>
      StepKeepsCoherent(n, w, step);
      StepKeepsRunsOver(n, w, step);
      StepKeepsRecorded(n, w, step);
    case CutOff(_, _, lost) =>
      CutOffKeepsCoherent(n, w, e);
      CutOffKeepsRecorded(n, w, lost);
      assert RunsOver(Lose(w, lost)) by { SameRuns(w, lost); }
  }

  lemma SameRuns(w: World, lost: set<string>)
    requires RunsOver(w)
    ensures RunsOver(Lose(w, lost))
  {
  }

  lemma HistoryBegins(n: Naming, worlds: seq<World>, events: seq<Event>)
    requires IsHistory(n, worlds, events)
    ensures |worlds| == |events| + 1 && worlds[0] == EMPTY
  {
    hide Follows;
  }

  lemma EventOfHistory(n: Naming, worlds: seq<World>, events: seq<Event>, k: nat)
    requires IsHistory(n, worlds, events) && k < |events|
    ensures |worlds| == |events| + 1 && Allowed(worlds[k], events[k]) && WorkersValid(n, worlds[k])
    ensures worlds[k + 1] == After(n, worlds[k], events[k])
  {
    assert Follows(n, worlds[k], events[k], worlds[k + 1]);
    hide Allowed, WorkersValid, After;
  }

  lemma EmptyIsSound(n: Naming)
    ensures Sound(n, EMPTY)
  {
  }

  lemma {:induction false} HistoryKeepsSound(n: Naming, worlds: seq<World>, events: seq<Event>, k: nat)
    requires n.Valid() && IsHistory(n, worlds, events) && k < |worlds|
    ensures Sound(n, worlds[k])
  {
    HistoryBegins(n, worlds, events);
    hide *;
    if k == 0 {
      EmptyIsSound(n);
    } else {
      HistoryKeepsSound(n, worlds, events, k - 1);
      EventOfHistory(n, worlds, events, k - 1);
      EventKeepsSound(n, worlds[k - 1], events[k - 1]);
    }
  }

  /******* When the pointers survive *******/

  ghost predicate PointersServable(n: Naming, w: World) {
    forall s <- w.sources :: w.sources[s].current.Some? ==> PointerServable(n, w, w.sources[s].current.value)
  }

  ghost predicate PointerServable(n: Naming, w: World, v: VersionId) {
    v in w.versions && Servable(n, w, w.versions[v])
  }

  // The succeeded version that a resolution serves again, if it does.
  ghost function SkippedVersion(n: Naming, w: World, step: Step): (r: Option<VersionId>)
    ensures r.Some? ==> step.Resolve? && r.value in w.versions && w.versions[r.value].status == Succeeded
  {
    if !step.Resolve? || step.source !in w.workers || !w.workers[step.source].Claimed?
       || w.workers[step.source].run !in w.jobs.runs || step.source !in w.sources then None
    else
      var id := Identity(step.source, step.commit, n.configHash(step.config));
      match FindVersion(w.versions, id, step.config.graphifyVersion)
      case None => None
      case Some(v) => if w.versions[v].status == Succeeded then Some(v) else None
  }

  ghost predicate SkipMeetsWhole(n: Naming, w: World, e: Event) {
    e.Taken? && SkippedVersion(n, w, e.step).Some? ==> Whole(w, w.versions[SkippedVersion(n, w, e.step).value])
  }

  lemma SkipMovesPointer(n: Naming, w: World, step: Step)
    requires Possible(w, step) && WorkersValid(n, w) && SkippedVersion(n, w, step).Some?
    ensures var w' := Next(n, w, step);
            && step.source in w'.sources && w'.sources[step.source].current == SkippedVersion(n, w, step)
            && w'.versions == w.versions && w'.objects == w.objects
            && forall s <- w'.sources :: s != step.source ==> s in w.sources && w'.sources[s].current == w.sources[s].current
  {
    hide WorkersValid, Jobs.Next, SyncProtocol.Attempt;
  }

  lemma OtherResolveKeepsPointers(n: Naming, w: World, step: Step)
    requires Possible(w, step) && WorkersValid(n, w) && step.Resolve? && SkippedVersion(n, w, step).None?
    ensures Next(n, w, step).sources == w.sources
  {
    hide WorkersValid, Jobs.Next;
  }

  // A pointer was there before, follows a promotion or follows a skip.
  lemma PointerOrigin(n: Naming, w: World, step: Step, s: SourceId)
    requires Possible(w, step) && WorkersValid(n, w)
    requires s in Next(n, w, step).sources && Next(n, w, step).sources[s].current.Some?
    ensures var w', current := Next(n, w, step), Next(n, w, step).sources[s].current;
            || (s in w.sources && w.sources[s].current == current)
            || (&& current.value in w.versions && w.versions[current.value].status == Running
                && current.value in w'.versions && w'.versions[current.value].status == Succeeded)
            || SkippedVersion(n, w, step) == current
  {
    if step.Resolve? {
      if SkippedVersion(n, w, step).Some? { SkipMovesPointer(n, w, step); } else { OtherResolveKeepsPointers(n, w, step); }
      hide Next, WorkersValid, SkippedVersion;
    } else if step.Promote? {
      PromotedPointer(n, w, step, s);
      hide Next, WorkersValid, SkippedVersion;
    } else {
      hide WorkersValid, Resolved, AfterClaim, Jobs.Next, Jobs.Succeeds, PublishOne, KeyOf, RecordsMatch, PrunedVersions, KeysOfVersions;
    }
  }

  lemma PromotedPointer(n: Naming, w: World, step: Step, s: SourceId)
    requires Possible(w, step) && WorkersValid(n, w) && step.Promote?
    requires s in Next(n, w, step).sources && Next(n, w, step).sources[s].current.Some?
    ensures var w', current := Next(n, w, step), Next(n, w, step).sources[s].current;
            || (s in w.sources && w.sources[s].current == current)
            || (&& current.value in w.versions && w.versions[current.value].status == Running
                && current.value in w'.versions && w'.versions[current.value].status == Succeeded)
  {
    assert WorkerValid(n, w, step.source, w.workers[step.source]);
    hide WorkersValid, Jobs.Next, AllKeys, AllChecksums, Verified;
  }

  // Forwards: an event that skips no damaged version keeps all pointers servable.
  lemma StepKeepsPointers(n: Naming, w: World, step: Step)
    requires n.Valid() && Sound(n, w) && Possible(w, step) && WorkersValid(n, w) && PointersServable(n, w)
    requires SkipMeetsWhole(n, w, Taken(step)) && Coherent(n, Next(n, w, step))
    ensures PointersServable(n, Next(n, w, step))
  {
    var w' := Next(n, w, step);
    hide WorkersValid, Next, Coherent, RunsOver, Servable, RowRecorded, Naming.Valid, SkippedVersion, Whole;
    forall s <- w'.sources | w'.sources[s].current.Some? ensures PointerServable(n, w', w'.sources[s].current.value) {
      var v := w'.sources[s].current.value;
      PointerHasRow(n, w', s);
      PointerOrigin(n, w, step, s);
      if v in w.versions && w.versions[v].status == Running {
        NewSuccessIsServable(n, w, step, v);
      } else if SkippedVersion(n, w, step) == Some(v) {
        WholeIsServable(n, w, w.versions[v]);
        ServableStays(n, w, step, v);
      } else {
        assert PointerServable(n, w, v);
        ServableStays(n, w, step, v);
      }
    }
  }

  lemma PointerHasRow(n: Naming, w: World, s: SourceId)
    requires Coherent(n, w) && s in w.sources && w.sources[s].current.Some?
    ensures var v := w.sources[s].current.value;
            v in w.versions && w.versions[v].status == Succeeded && w.versions[v].id.source == s
  {
  }

  lemma CutOffKeepsPointers(n: Naming, w: World, e: Event)
    requires n.Valid() && Coherent(n, w) && e.CutOff? && Allowed(w, e) && PointersServable(n, w)
    ensures PointersServable(n, Lose(w, e.lost))
  {
    var w' := Lose(w, e.lost);
    hide Coherent, Servable, Naming.Valid, Allowed;
    forall s <- w'.sources | w'.sources[s].current.Some? ensures PointerServable(n, w', w'.sources[s].current.value) {
      var v := w.sources[s].current.value;
      PointerHasRow(n, w, s);
      assert PointerServable(n, w, v);
      CurrentIsRetained(w, s, e.source, e.keep);
      CutOffKeepsServable(n, w, e, v);
    }
  }

  lemma CurrentIsRetained(w: World, s: SourceId, source: SourceId, keep: nat)
    requires s in w.sources && w.sources[s].current.Some? && w.sources[s].current.value in w.versions
    requires w.versions[w.sources[s].current.value].id.source == s
    ensures w.sources[s].current.value !in PrunedVersions(w, source, keep, true)
  {
  }

  lemma EventKeepsPointers(n: Naming, w: World, e: Event)
    requires n.Valid() && Sound(n, w) && Allowed(w, e) && WorkersValid(n, w) && PointersServable(n, w) && SkipMeetsWhole(n, w, e)
    ensures PointersServable(n, After(n, w, e))
  {
    hide PointersServable, SkipMeetsWhole, WorkersValid, Naming.Valid, Coherent, RunsOver, AllRecorded;
    if e.Taken? {
      StepKeepsCoherent(n, w, e.step);
      StepKeepsPointers(n, w, e.step);
    } else {
      CutOffKeepsPointers(n, w, e);
    }
  }

  // Backwards: a skip that meets a damaged version leaves a pointer that cannot be served.
  lemma DamagedSkipBreaksPointer(n: Naming, w: World, e: Event)
    requires Sound(n, w) && Allowed(w, e) && WorkersValid(n, w) && PointersServable(n, After(n, w, e))
    ensures SkipMeetsWhole(n, w, e)
  {
    hide WorkersValid, Coherent, RunsOver, Servable, RowRecorded, SkippedVersion, Whole, Next;
    if e.Taken? && SkippedVersion(n, w, e.step).Some? {
      var w', v := Next(n, w, e.step), SkippedVersion(n, w, e.step).value;
      SkipMovesPointer(n, w, e.step);
      assert PointerServable(n, w', v);
      SameStored(n, w, w', w.versions[v]);
      WholeIsServable(n, w, w.versions[v]);
    }
  }

  lemma SameStored(n: Naming, w: World, w': World, row: Version)
    requires w'.objects == w.objects
    ensures Servable(n, w, row) <==> Servable(n, w', row)
  {
    hide KeyOf;
    forall a ensures Stored(n, w, row, a) <==> Stored(n, w', row, a) {}
  }

  ghost predicate SkipsMeetWhole(n: Naming, worlds: seq<World>, events: seq<Event>)
    requires |worlds| == |events| + 1
  {
    forall k | 0 <= k < |events| :: SkipMeetsWhole(n, worlds[k], events[k])
  }

  lemma {:induction false} HistoryKeepsPointers(n: Naming, worlds: seq<World>, events: seq<Event>, k: nat)
    requires n.Valid() && IsHistory(n, worlds, events) && SkipsMeetWhole(n, worlds, events) && k < |worlds|
    ensures PointersServable(n, worlds[k])
  {
    HistoryBegins(n, worlds, events);
    hide *;
    if k == 0 {
      EmptyPoints(n);
    } else {
      HistoryKeepsPointers(n, worlds, events, k - 1);
      HistoryKeepsSound(n, worlds, events, k - 1);
      EventOfHistory(n, worlds, events, k - 1);
      SkipOfHistory(n, worlds, events, k - 1);
      EventKeepsPointers(n, worlds[k - 1], events[k - 1]);
    }
  }

  lemma EmptyPoints(n: Naming)
    ensures PointersServable(n, EMPTY)
  {
  }

  lemma SkipOfHistory(n: Naming, worlds: seq<World>, events: seq<Event>, k: nat)
    requires |worlds| == |events| + 1 && SkipsMeetWhole(n, worlds, events) && k < |events|
    ensures SkipMeetsWhole(n, worlds[k], events[k])
  {
    hide SkipMeetsWhole;
  }

  // Over all histories with cut-off prunes: every pointer can be served at every moment if and only if
  // every version that was skipped to still had all of its artifacts at that moment.
  lemma PointersServableIffSkipsMeetWhole(n: Naming, worlds: seq<World>, events: seq<Event>)
    requires n.Valid() && IsHistory(n, worlds, events)
    ensures (forall w <- worlds :: PointersServable(n, w)) <==> SkipsMeetWhole(n, worlds, events)
  {
    hide PointersServable, SkipMeetsWhole, Sound, Allowed, After;
    if SkipsMeetWhole(n, worlds, events) {
      forall w <- worlds ensures PointersServable(n, w) {
        var k :| 0 <= k < |worlds| && worlds[k] == w;
        HistoryKeepsPointers(n, worlds, events, k);
      }
    }
    if forall w <- worlds :: PointersServable(n, w) {
      forall k | 0 <= k < |events| ensures SkipMeetsWhole(n, worlds[k], events[k]) {
        assert Follows(n, worlds[k], events[k], worlds[k + 1]);
        assert worlds[k + 1] in worlds;
        HistoryKeepsSound(n, worlds, events, k);
        DamagedSkipBreaksPointer(n, worlds[k], events[k]);
      }
    }
  }

  /******* A history in which a pointer is lost *******/

  function Last(worlds: seq<World>): World
    requires worlds != []
  {
    worlds[|worlds| - 1]
  }

  lemma Extend(n: Naming, worlds: seq<World>, events: seq<Event>, e: Event) returns (worlds': seq<World>, events': seq<Event>)
    requires n.Valid() && IsHistory(n, worlds, events) && Allowed(Last(worlds), e)
    ensures WorkersValid(n, Last(worlds)) && IsHistory(n, worlds', events')
    ensures worlds' == worlds + [After(n, Last(worlds), e)] && events' == events + [e]
  {
    HistoryKeepsSound(n, worlds, events, |worlds| - 1);
    EventKeepsSound(n, Last(worlds), e);
    hide WorkersValid, Allowed, After, Sound, Naming.Valid;
    worlds', events' := worlds + [After(n, Last(worlds), e)], events + [e];
    forall k | 0 <= k < |events'| ensures Follows(n, worlds'[k], events'[k], worlds'[k + 1]) {
      if k < |events| { assert Follows(n, worlds[k], events[k], worlds[k + 1]); }
    }
  }

  // Every source is unlocked and idle, and all artifacts so far were empty files.
  predicate Idle(w: World, s: SourceId) {
    && s in w.sources && w.sources[s].enabled && s !in w.workers
    && forall key <- w.objects :: w.objects[key] == []
  }

  const EMPTY_FILES: Local := map[GraphFile := [], SourceArchive := [], Report := [], ExtractionLog := [], ManifestFile := []]

  // The worker holds the lock of s and a running job; nothing else has changed.
  predicate IsClaimed(w: World, w': World, s: SourceId) {
    && w'.sources == w.sources && w'.versions == w.versions && w'.nextVersion == w.nextVersion && w'.objects == w.objects
    && s in w'.workers && w'.workers[s].Claimed? && w'.workers[s].run in w'.jobs.runs
    && var run := w'.jobs.runs[w'.workers[s].run]; run.source == Some(s) && run.status == Jobs.Running
  }

  lemma StartSync(n: Naming, worlds: seq<World>, events: seq<Event>, s: SourceId)
    returns (worlds': seq<World>, events': seq<Event>)
    requires n.Valid() && IsHistory(n, worlds, events) && Idle(Last(worlds), s)
    ensures IsHistory(n, worlds', events') && worlds' != [] && IsClaimed(Last(worlds), Last(worlds'), s)
  {
    var w := Last(worlds);
    hide WorkersValid, Naming.Valid, IsHistory;
    worlds', events' := Extend(n, worlds, events, Taken(Lock(s)));
    worlds', events' := Extend(n, worlds', events', Taken(StartDirect(s, "manual", 0)));
  }

  lemma PublishOneEmpty(n: Naming, w: World, s: SourceId)
    requires WorkersValid(n, w) && s in w.workers && w.workers[s].Attempting? && w.workers[s].local == EMPTY_FILES
    requires w.workers[s].done < |ARTIFACT_ORDER| && forall key <- w.objects :: w.objects[key] == []
    ensures Possible(w, PublishNext(s, Weather(3, false)))
    ensures var w' := Next(n, w, PublishNext(s, Weather(3, false)));
            && w' == w.(objects := w'.objects, workers := w.workers[s := w.workers[s].(done := w.workers[s].done + 1)])
            && forall key <- w'.objects :: w'.objects[key] == []
  {
    assert WorkerValid(n, w, s, w.workers[s]);
    hide WorkersValid, KeyOf;
  }

  lemma PublishRest(n: Naming, worlds: seq<World>, events: seq<Event>, s: SourceId)
    returns (worlds': seq<World>, events': seq<Event>)
    requires n.Valid() && IsHistory(n, worlds, events)
    requires var w := Last(worlds);
             && s in w.workers && w.workers[s].Attempting? && w.workers[s].local == EMPTY_FILES
             && w.workers[s].done <= |ARTIFACT_ORDER| && forall key <- w.objects :: w.objects[key] == []
    ensures IsHistory(n, worlds', events') && worlds' != []
    ensures var w, w' := Last(worlds), Last(worlds');
            && w' == w.(objects := w'.objects, workers := w.workers[s := w.workers[s].(done := |ARTIFACT_ORDER|)])
            && forall key <- w'.objects :: w'.objects[key] == []
    decreases |ARTIFACT_ORDER| - Last(worlds).workers[s].done
  {
    worlds', events' := worlds, events;
    var w := Last(worlds);
    if w.workers[s].done < |ARTIFACT_ORDER| {
      hide WorkersValid, Naming.Valid, IsHistory, Next;
      HistoryKeepsSound(n, worlds, events, |worlds| - 1);
      assert WorkersValid(n, w) by { UnfoldWorkers(n, w); }
      PublishOneEmpty(n, w, s);
      worlds', events' := Extend(n, worlds, events, Taken(PublishNext(s, Weather(3, false))));
      worlds', events' := PublishRest(n, worlds', events', s);
    }
  }

  // A new version of s is built, published and promoted.
  predicate IsSynced(n: Naming, w: World, w': World, s: SourceId, commit: string, config: Config) {
    && Idle(w', s) && w'.sources[s].current == Some(w.nextVersion)
    && w.nextVersion in w'.versions && w'.versions == w.versions[w.nextVersion := w'.versions[w.nextVersion]]
    && w.nextVersion < w'.nextVersion
    && var row := w'.versions[w.nextVersion];
       row.id == Identity(s, commit, n.configHash(config)) && row.graphifyVersion == config.graphifyVersion && row.status == Succeeded
  }

  lemma ResolveNew(n: Naming, w: World, s: SourceId, commit: string, config: Config)
    requires WorkersValid(n, w) && s in w.workers && w.workers[s].Claimed? && w.workers[s].run in w.jobs.runs && IsCommit(commit)
    requires forall v <- w.versions :: w.versions[v].id != Identity(s, commit, n.configHash(config))
    ensures Possible(w, Resolve(s, commit, config, EMPTY_FILES, 0))
    ensures var id := Identity(s, commit, n.configHash(config));
            Next(n, w, Resolve(s, commit, config, EMPTY_FILES, 0)) ==
            SyncProtocol.Attempt(w, s, w.workers[s].run, w.nextVersion,
                                 Version(id, config.graphifyVersion, SyncProtocol.Running, map[], map[], 0), EMPTY_FILES)
  {
    hide WorkersValid, SyncProtocol.Attempt;
  }

  lemma Sync(n: Naming, worlds: seq<World>, events: seq<Event>, s: SourceId, commit: string, config: Config)
    returns (worlds': seq<World>, events': seq<Event>)
    requires n.Valid() && IsHistory(n, worlds, events) && Idle(Last(worlds), s) && IsCommit(commit)
    requires forall v <- Last(worlds).versions :: Last(worlds).versions[v].id != Identity(s, commit, n.configHash(config))
    ensures IsHistory(n, worlds', events') && worlds' != [] && IsSynced(n, Last(worlds), Last(worlds'), s, commit, config)
  {
    hide WorkersValid, Naming.Valid, IsHistory, Sound, Next, SyncProtocol.Attempt;
    var started, begun := StartSync(n, worlds, events, s);
    var w := Last(started);
    HistoryKeepsWorkers(n, started, begun);
    ResolveNew(n, w, s, commit, config);
    worlds', events' := Extend(n, started, begun, Taken(Resolve(s, commit, config, EMPTY_FILES, 0)));
    AttemptFields(w, s, w.workers[s].run, w.nextVersion,
                  Version(Identity(s, commit, n.configHash(config)), config.graphifyVersion, SyncProtocol.Running, map[], map[], 0));
    worlds', events' := PublishRest(n, worlds', events', s);
    var published := Last(worlds');
    HistoryKeepsWorkers(n, worlds', events');
    PromoteFields(n, published, s);
    worlds', events' := Extend(n, worlds', events', Taken(Promote(s, 0, true)));
  }

  lemma HistoryKeepsWorkers(n: Naming, worlds: seq<World>, events: seq<Event>)
    requires n.Valid() && IsHistory(n, worlds, events)
    ensures WorkersValid(n, Last(worlds))
  {
    HistoryKeepsSound(n, worlds, events, |worlds| - 1);
    UnfoldWorkers(n, Last(worlds));
  }

  lemma AttemptFields(w: World, s: SourceId, run: RunId, v: VersionId, row: Version)
    requires run in w.jobs.runs
    ensures var w' := SyncProtocol.Attempt(w, s, run, v, row, EMPTY_FILES);
            && w'.versions == w.versions[v := row] && w'.sources == w.sources && w'.objects == w.objects
            && w'.workers == w.workers[s := Attempting(run, v, EMPTY_FILES, 0)] && v < w'.nextVersion
            && run in w'.jobs.runs && w'.jobs.runs[run] == w.jobs.runs[run].(version := Some(v))
  {
  }

  lemma PromoteFields(n: Naming, w: World, s: SourceId)
    requires WorkersValid(n, w) && s in w.workers && w.workers[s].Attempting? && w.workers[s].done == |ARTIFACT_ORDER|
    requires RecordsMatch(w, s, w.workers[s].run, w.workers[s].version) && w.jobs.runs[w.workers[s].run].status == Jobs.Running
    ensures Possible(w, Promote(s, 0, true))
    ensures var w', v := Next(n, w, Promote(s, 0, true)), w.workers[s].version;
            && v in w.versions && v in w'.versions && w'.versions == w.versions[v := w'.versions[v]] && w'.objects == w.objects
            && w'.nextVersion == w.nextVersion && s !in w'.workers
            && w'.versions[v].id == w.versions[v].id && w'.versions[v].graphifyVersion == w.versions[v].graphifyVersion
            && w'.versions[v].status == Succeeded
            && s in w'.sources && w'.sources[s].current == Some(v) && w'.sources[s].enabled == w.sources[s].enabled
  {
    assert WorkerValid(n, w, s, w.workers[s]);
    hide WorkersValid, Jobs.Next, AllKeys, AllChecksums, Verified;
  }

  // The first of two synced versions may be pruned when no other is kept.
  lemma OlderIsPrunable(n: Naming, w: World, s: SourceId, v: VersionId)
    requires Coherent(n, w) && s in w.sources && w.sources[s].current != Some(v)
    requires v in w.versions && w.versions[v].id.source == s && w.versions[v].status == Succeeded
    ensures Allowed(w, CutOff(s, 0, {KeyOf(n, w.versions[v].id, GraphFile)}))
  {
    hide KeyOf;
    assert v in PrunedVersions(w, s, 0, true);
    assert GraphFile in ARTIFACT_ORDER;
    assert w.versions[v].keys == AllKeys(n, w.versions[v].id);
    assert w.versions[v].keys[GraphFile] == KeyOf(n, w.versions[v].id, GraphFile);
  }

  lemma ResolveKnown(n: Naming, w: World, s: SourceId, commit: string, config: Config, v: VersionId)
    requires n.Valid() && Coherent(n, w) && s in w.sources && s in w.workers && w.workers[s].Claimed?
    requires w.workers[s].run in w.jobs.runs && v in w.versions && w.versions[v].status == Succeeded
    requires w.versions[v].id == Identity(s, commit, n.configHash(config))
    ensures SkippedVersion(n, w, Resolve(s, commit, config, EMPTY_FILES, 0)) == Some(v)
  {
    OpenCoherent(n, w);
    FoundIsOnly(n, w, w.versions[v].id, config);
    hide Coherent, IdentitiesValid;
  }

  // One commit of the first source is synced and then another.
  lemma SyncTwo(n: Naming, commit: string, other: string, config: Config)
    returns (worlds: seq<World>, events: seq<Event>, v: VersionId)
    requires n.Valid() && IsCommit(commit) && IsCommit(other) && commit != other
    ensures IsHistory(n, worlds, events) && worlds != [] && Idle(Last(worlds), 0)
    ensures var w := Last(worlds);
            && w.sources[0].current != Some(v) && v in w.versions && w.versions[v].status == Succeeded
            && w.versions[v].id == Identity(0, commit, n.configHash(config))
  {
    hide WorkersValid, Naming.Valid, IsHistory, Next;
    worlds, events := [EMPTY], [];
    assert IsHistory(n, worlds, events) by { Beginning(n); }
    FirstSource(n);
    worlds, events := Extend(n, worlds, events, Taken(PutSource(0, true, [], [])));
    worlds, events := Sync(n, worlds, events, 0, commit, config);
    v := Last(worlds).sources[0].current.value;
    worlds, events := Sync(n, worlds, events, 0, other, config);
  }

  // After two syncs, a prune that keeps no older version deletes one object of the first and is cut off,
  // and a return to the first commit serves it without that object.
  lemma SkipServesDamagedVersion(n: Naming, commit: string, other: string, config: Config)
    returns (worlds: seq<World>, events: seq<Event>)
    requires n.Valid() && IsCommit(commit) && IsCommit(other) && commit != other
    ensures IsHistory(n, worlds, events) && worlds != [] && !PointersServable(n, Last(worlds))
    ensures events != [] && events[|events| - 1] == Taken(Resolve(0, commit, config, EMPTY_FILES, 0))
  {
    hide WorkersValid, Naming.Valid, IsHistory, Sound, Next, PointersServable, Coherent, SkippedVersion, Whole, KeyOf;
    var v;
    worlds, events, v := SyncTwo(n, commit, other, config);
    HistoryIsCoherent(n, worlds, events);
    var id := Identity(0, commit, n.configHash(config));
    OlderIsPrunable(n, Last(worlds), 0, v);
    worlds, events := Extend(n, worlds, events, CutOff(0, 0, {KeyOf(n, id, GraphFile)}));
    worlds, events := StartSync(n, worlds, events, 0);
    ReturnBreaksPointer(n, Last(worlds), commit, config, v) by { HistoryIsSound(n, worlds, events); }
    worlds, events := Extend(n, worlds, events, Taken(Resolve(0, commit, config, EMPTY_FILES, 0)));
  }

  lemma HistoryIsSound(n: Naming, worlds: seq<World>, events: seq<Event>)
    requires n.Valid() && IsHistory(n, worlds, events)
    ensures Sound(n, Last(worlds)) && WorkersValid(n, Last(worlds))
  {
    HistoryKeepsSound(n, worlds, events, |worlds| - 1);
    UnfoldWorkers(n, Last(worlds));
  }

  lemma ReturnBreaksPointer(n: Naming, w: World, commit: string, config: Config, v: VersionId)
    requires n.Valid() && Sound(n, w) && WorkersValid(n, w) && IsCommit(commit)
    requires 0 in w.sources && 0 in w.workers && w.workers[0].Claimed? && w.workers[0].run in w.jobs.runs
    requires v in w.versions && w.versions[v].status == Succeeded
    requires w.versions[v].id == Identity(0, commit, n.configHash(config)) && KeyOf(n, w.versions[v].id, GraphFile) !in w.objects
    ensures Possible(w, Resolve(0, commit, config, EMPTY_FILES, 0))
    ensures !PointersServable(n, Next(n, w, Resolve(0, commit, config, EMPTY_FILES, 0)))
  {
    hide WorkersValid, Naming.Valid, Next, PointersServable, Coherent, RunsOver, AllRecorded, SkippedVersion, Whole, KeyOf;
    var step := Resolve(0, commit, config, EMPTY_FILES, 0);
    ResolveKnown(n, w, 0, commit, config, v);
    NotWhole(n, w, v, w.versions[v].id);
    if PointersServable(n, Next(n, w, step)) { DamagedSkipBreaksPointer(n, w, Taken(step)); }
  }

  lemma FirstSource(n: Naming)
    ensures WorkersValid(n, EMPTY) && Possible(EMPTY, PutSource(0, true, [], []))
    ensures var w := Next(n, EMPTY, PutSource(0, true, [], [])); Idle(w, 0) && w.versions == map[]
  {
  }

  lemma HistoryIsCoherent(n: Naming, worlds: seq<World>, events: seq<Event>)
    requires n.Valid() && IsHistory(n, worlds, events)
    ensures Coherent(n, Last(worlds))
  {
    HistoryKeepsSound(n, worlds, events, |worlds| - 1);
    hide Coherent;
  }

  lemma NotWhole(n: Naming, w: World, v: VersionId, id: Identity)
    requires Coherent(n, w) && v in w.versions && w.versions[v].status == Succeeded && w.versions[v].id == id
    requires KeyOf(n, id, GraphFile) !in w.objects
    ensures !Whole(w, w.versions[v])
  {
    hide KeyOf;
    assert w.versions[v].keys == AllKeys(n, id);
    assert GraphFile in ARTIFACT_ORDER;
  }

  lemma Beginning(n: Naming)
    ensures IsHistory(n, [EMPTY], [])
  {
  }
}
