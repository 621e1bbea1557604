/**
  The serving registry: refresh, pins, and cleanup of cached versions.

  Cleanup captures the active and pinned versions under the registry lock and then deletes without
  it.  `World` and its steps interleave one refresh at a time with pins and unpins of other threads;
  the class `Registry` performs each operation in place.
 */
module Serving {
  import opened Identifiers
  import opened Wrappers

  type Alias = string

  datatype Key = Key(source: SourceId, version: VersionId)

  // Version directories of a source with their modification times.
  type Dirs = map<VersionId, Time>
  type Disk = map<SourceId, Dirs>

  predicate OnDisk(disk: Disk, k: Key) {
    k.source in disk && k.version in disk[k.source]
  }

  /******* Which versions survive *******/

  predicate NoDuplicates(s: seq<VersionId>) {
    forall i, j | 0 <= i < j < |s| :: s[i] != s[j]
  }

  // A newest-first listing; the order of equal times is not determined.
  ghost predicate NewestFirst(order: seq<VersionId>, dirs: Dirs) {
    && (forall v :: v in order <==> v in dirs)
    && NoDuplicates(order)
    && (forall i, j | 0 <= i < j < |order| :: dirs[order[i]] >= dirs[order[j]])
  }

  predicate Held(source: SourceId, v: VersionId, active: set<Key>, pinned: set<Key>) {
    Key(source, v) in active || Key(source, v) in pinned
  }

  // The newest `keep` versions, and all held ones.
  function Survivors(source: SourceId, order: seq<VersionId>, active: set<Key>, pinned: set<Key>, keep: nat): set<VersionId> {
    set i | 0 <= i < |order| && (i < keep || Held(source, order[i], active, pinned)) :: order[i]
  }

  // The versions that the retention counter rejects, in the order of the listing.
  function Doomed(source: SourceId, order: seq<VersionId>, active: set<Key>, pinned: set<Key>, keep: nat): seq<VersionId> {
    if order == [] then []
    else
      var n := |order| - 1;
      var init := Doomed(source, order[..n], active, pinned, keep);
      if n < keep || Held(source, order[n], active, pinned) then init else init + [order[n]]
  }

  lemma {:induction false} DoomedMembers(
    source: SourceId, order: seq<VersionId>, active: set<Key>, pinned: set<Key>, keep: nat, v: VersionId)
    requires NoDuplicates(order)
    ensures v in Doomed(source, order, active, pinned, keep) <==>
            v in order && v !in Survivors(source, order, active, pinned, keep)
  {
    if order != [] {
      var n := |order| - 1;
      var init := order[..n];
      assert order == init + [order[n]];
      DoomedMembers(source, init, active, pinned, keep, v);
      var all, most := Survivors(source, order, active, pinned, keep), Survivors(source, init, active, pinned, keep);
      assert forall i | 0 <= i < n :: init[i] == order[i];
      assert v in all <==> v in most || (v == order[n] && (n < keep || Held(source, v, active, pinned)));
    }
  }

  /******* Interleaved steps *******/

  datatype Phase =
    | Idle
    | Refreshing(replacements: map<Alias, Key>)
    | Refreshed
    | Cleaning(active: set<Key>, pinned: set<Key>, listed: Listed, visit: Option<SourceId>, doomed: seq<VersionId>)

  // The sources visited so far, each with what its directory looked like when it was listed.
  type Listed = map<SourceId, seq<VersionId>>

  datatype World = World(byAlias: map<Alias, Key>, pins: map<Key, nat>, disk: Disk, phase: Phase)

  datatype Step =
    | BeginRefresh
    | Hydrate(alias: Alias, key: Key, time: Time)
    | Swap(enabled: set<Alias>)
    | Capture
    | VisitSource(source: SourceId, order: seq<VersionId>)
    | RemoveNext
    | EndCleanup
    | Pin(alias: Alias)
    | Unpin(key: Key)

  // When a step can happen.  Pins come and go at any time; the others belong to the one refresher.
  ghost predicate Possible(w: World, step: Step) {
    match step
    case BeginRefresh => w.phase.Idle?
    case Hydrate(_, _, _) => w.phase.Refreshing?
    case Swap(enabled) => w.phase.Refreshing? && w.phase.replacements.Keys <= enabled
    case Capture => w.phase.Refreshed?
    case VisitSource(source, order) =>
      && w.phase.Cleaning? && w.phase.doomed == [] && source !in w.phase.listed
      && source in w.disk && NewestFirst(order, w.disk[source])
    case RemoveNext => w.phase.Cleaning? && w.phase.doomed != []
    case EndCleanup => w.phase.Cleaning? && w.phase.doomed == []
    case Pin(alias) => alias in w.byAlias
    case Unpin(_) => true
  }

  function AddDir(disk: Disk, k: Key, time: Time): Disk {
    var dirs := if k.source in disk then disk[k.source] else map[];
    if k.version in dirs then disk else disk[k.source := dirs[k.version := time]]
  }

  function RemoveDir(disk: Disk, source: SourceId, v: VersionId): Disk {
    if source in disk then disk[source := disk[source] - {v}] else disk
  }

  function Swapped(byAlias: map<Alias, Key>, enabled: set<Alias>, replacements: map<Alias, Key>): map<Alias, Key> {
    (map a | a in byAlias && a in enabled :: byAlias[a]) + replacements
  }

  function Pinned(pins: map<Key, nat>, k: Key): map<Key, nat> {
    pins[k := (if k in pins then pins[k] else 0) + 1]
  }

  function Unpinned(pins: map<Key, nat>, k: Key): map<Key, nat>
    requires k in pins && pins[k] > 0
  {
    if pins[k] == 1 then pins - {k} else pins[k := pins[k] - 1]
  }

  function Next(w: World, keep: nat, step: Step): World {
    match step
    case BeginRefresh => w.(phase := Refreshing(map[]))
    case Hydrate(alias, key, time) =>
      if !w.phase.Refreshing? then w
      else w.(disk := AddDir(w.disk, key, time), phase := Refreshing(w.phase.replacements[alias := key]))
    case Swap(enabled) =>
      if !w.phase.Refreshing? then w
      else w.(byAlias := Swapped(w.byAlias, enabled, w.phase.replacements), phase := Refreshed)
    case Capture => w.(phase := Cleaning(w.byAlias.Values, w.pins.Keys, map[], None, []))
    case VisitSource(source, order) =>
      if !w.phase.Cleaning? then w
      else
        w.(phase := w.phase.(listed := w.phase.listed[source := order], visit := Some(source),
                             doomed := Doomed(source, order, w.phase.active, w.phase.pinned, keep)))
    case RemoveNext =>
      if !w.phase.Cleaning? || w.phase.visit.None? || w.phase.doomed == [] then w
      else
        w.(disk := RemoveDir(w.disk, w.phase.visit.value, w.phase.doomed[0]),
           phase := w.phase.(doomed := w.phase.doomed[1..]))
    case EndCleanup => w.(phase := Idle)
    case Pin(alias) => if alias in w.byAlias then w.(pins := Pinned(w.pins, w.byAlias[alias])) else w
    case Unpin(key) => if key in w.pins && w.pins[key] > 0 then w.(pins := Unpinned(w.pins, key)) else w
  }

  // Versions that some caller may be reading.
  predicate InUse(w: World, k: Key) {
    k in w.byAlias.Values || k in w.pins
  }

  ghost predicate EverythingInUseOnDisk(w: World) {
    && (forall k | InUse(w, k) :: OnDisk(w.disk, k))
    && (w.phase.Refreshing? ==> forall k <- w.phase.replacements.Values :: OnDisk(w.disk, k))
    && (forall k <- w.pins :: w.pins[k] > 0)
  }

  // During cleanup the captured sets cover everything in use, and nothing captured is doomed.
  ghost predicate CapturedCovers(w: World) {
    w.phase.Cleaning? ==>
      && w.byAlias.Values <= w.phase.active
      && w.pins.Keys <= w.phase.active + w.phase.pinned
      && (w.phase.doomed != [] ==> w.phase.visit.Some?)
      && (w.phase.visit.Some? ==>
            forall v <- w.phase.doomed :: !Held(w.phase.visit.value, v, w.phase.active, w.phase.pinned))
  }

  // Every visited directory holds its survivors, and the one being cleaned also what is still doomed.
  ghost predicate OnTarget(w: World, keep: nat) {
    w.phase.Cleaning? ==>
      && (w.phase.visit.Some? ==>
            && w.phase.visit.value in w.phase.listed && NoDuplicates(w.phase.doomed)
            && forall v <- w.phase.doomed :: v !in Left(w.phase, keep, w.phase.visit.value))
      && forall s <- w.phase.listed :: s in w.disk && w.disk[s].Keys == Left(w.phase, keep, s) + Remaining(w.phase, s)
  }

  function Left(phase: Phase, keep: nat, s: SourceId): set<VersionId>
    requires phase.Cleaning? && s in phase.listed
  {
    Survivors(s, phase.listed[s], phase.active, phase.pinned, keep)
  }

  function Remaining(phase: Phase, s: SourceId): set<VersionId>
    requires phase.Cleaning?
  {
    if phase.visit == Some(s) then (set v | v in phase.doomed) else {}
  }

  ghost predicate Inv(w: World, keep: nat) {
    EverythingInUseOnDisk(w) && CapturedCovers(w) && OnTarget(w, keep)
  }

  lemma {:induction false} DoomedDistinct(
    source: SourceId, order: seq<VersionId>, active: set<Key>, pinned: set<Key>, keep: nat)
    requires NoDuplicates(order)
    ensures NoDuplicates(Doomed(source, order, active, pinned, keep))
  {
    if order != [] {
      var n := |order| - 1;
      DoomedDistinct(source, order[..n], active, pinned, keep);
      DoomedMembers(source, order[..n], active, pinned, keep, order[n]);
      assert order[n] !in order[..n];
    }
  }

  lemma VisitKeepsInv(w: World, keep: nat, source: SourceId, order: seq<VersionId>)
    requires Inv(w, keep) && Possible(w, VisitSource(source, order))
    ensures Inv(Next(w, keep, VisitSource(source, order)), keep)
  {
    VisitKeepsTarget(w, keep, source, order);
    hide OnTarget, NewestFirst;
    assert NoDuplicates(order) by { ListedOnce(order, w.disk[source]); }
    hide NoDuplicates;
    forall v <- Doomed(source, order, w.phase.active, w.phase.pinned, keep) ensures !Held(source, v, w.phase.active, w.phase.pinned) {
      DoomedMembers(source, order, w.phase.active, w.phase.pinned, keep, v);
      var i :| 0 <= i < |order| && order[i] == v;
    }
    hide Doomed;
  }

  lemma ListedOnce(order: seq<VersionId>, dirs: Dirs)
    requires NewestFirst(order, dirs)
    ensures NoDuplicates(order)
  {
  }

  lemma VisitKeepsTarget(w: World, keep: nat, source: SourceId, order: seq<VersionId>)
    requires OnTarget(w, keep) && Possible(w, VisitSource(source, order))
    ensures OnTarget(Next(w, keep, VisitSource(source, order)), keep)
  {
    var active, pinned := w.phase.active, w.phase.pinned;
    var w', doomed := Next(w, keep, VisitSource(source, order)), Doomed(source, order, active, pinned, keep);
    DoomedDistinct(source, order, active, pinned, keep);
    ListedSplit(source, order, w.disk[source], active, pinned, keep);
    hide Survivors, Doomed, NewestFirst;
    forall s <- w'.phase.listed
      ensures s in w'.disk && w'.disk[s].Keys == Left(w'.phase, keep, s) + Remaining(w'.phase, s)
    {
      if s != source { assert w.disk[s].Keys == Left(w.phase, keep, s) + Remaining(w.phase, s); }
    }
  }

  // What is listed survives or is doomed, and not both.
  lemma ListedSplit(source: SourceId, order: seq<VersionId>, dirs: Dirs, active: set<Key>, pinned: set<Key>, keep: nat)
    requires NewestFirst(order, dirs)
    ensures dirs.Keys == Survivors(source, order, active, pinned, keep) + set v | v in Doomed(source, order, active, pinned, keep)
    ensures forall v <- Doomed(source, order, active, pinned, keep) :: v !in Survivors(source, order, active, pinned, keep)
  {
    forall v ensures v in Doomed(source, order, active, pinned, keep) <==> v in order && v !in Survivors(source, order, active, pinned, keep) {
      DoomedMembers(source, order, active, pinned, keep, v);
    }
    hide Doomed, NoDuplicates;
  }

  lemma RemoveKeepsInv(w: World, keep: nat)
    requires Inv(w, keep) && Possible(w, RemoveNext)
    ensures Inv(Next(w, keep, RemoveNext), keep)
  {
    RemoveKeepsTarget(w, keep);
    hide OnTarget;
    var w' := Next(w, keep, RemoveNext);
    var s, v := w.phase.visit.value, w.phase.doomed[0];
    assert v in w.phase.doomed && !Held(s, v, w.phase.active, w.phase.pinned);
    forall k | InUse(w', k) ensures OnDisk(w'.disk, k) {
      assert InUse(w, k) && k != Key(s, v);
    }
  }

  lemma RemoveKeepsTarget(w: World, keep: nat)
    requires OnTarget(w, keep) && Possible(w, RemoveNext) && w.phase.visit.Some?
    ensures OnTarget(Next(w, keep, RemoveNext), keep)
  {
    var w' := Next(w, keep, RemoveNext);
    var v, rest := w.phase.doomed[0], w.phase.doomed[1..];
    hide Survivors;
    assert forall i | 0 <= i < |rest| :: rest[i] == w.phase.doomed[i + 1];
    assert (set x | x in w.phase.doomed) == (set x | x in rest) + {v};
    assert v !in rest && v in w.phase.doomed;
    forall t <- w'.phase.listed ensures t in w'.disk && w'.disk[t].Keys == Left(w'.phase, keep, t) + Remaining(w'.phase, t) {
      assert w.disk[t].Keys == Left(w.phase, keep, t) + Remaining(w.phase, t);
    }
  }

  lemma PinKeepsInv(w: World, keep: nat, step: Step)
    requires Inv(w, keep) && Possible(w, step) && (step.Pin? || step.Unpin?)
    ensures Inv(Next(w, keep, step), keep)
  {
    if step.Pin? { assert w.byAlias[step.alias] in w.byAlias.Values; }
  }

  lemma RefreshKeepsInv(w: World, keep: nat, step: Step)
    requires Inv(w, keep) && Possible(w, step) && (step.BeginRefresh? || step.Hydrate? || step.Swap?)
    ensures Inv(Next(w, keep, step), keep)
  {
    var w' := Next(w, keep, step);
    if step.Hydrate? {
      forall k | OnDisk(w.disk, k) || k == step.key ensures OnDisk(w'.disk, k) {}
      forall k <- w'.phase.replacements.Values ensures OnDisk(w'.disk, k) {
        var a :| a in w'.phase.replacements && w'.phase.replacements[a] == k;
        if a != step.alias { assert w.phase.replacements[a] in w.phase.replacements.Values; }
      }
    }
    if step.Swap? {
      forall k <- w'.byAlias.Values ensures OnDisk(w'.disk, k) {
        var a :| a in w'.byAlias && w'.byAlias[a] == k;
        if a in w.phase.replacements { assert k in w.phase.replacements.Values; } else { assert k in w.byAlias.Values; }
      }
    }
  }

  lemma StepKeepsInv(w: World, keep: nat, step: Step)
    requires Inv(w, keep) && Possible(w, step)
    ensures Inv(Next(w, keep, step), keep)
  {
    match step
    case VisitSource(source, order) => VisitKeepsInv(w, keep, source, order);
    case RemoveNext => RemoveKeepsInv(w, keep);
    case Pin(_) => PinKeepsInv(w, keep, step);
    case Unpin(_) => PinKeepsInv(w, keep, step);
    case Capture => CaptureKeepsInv(w, keep);
    case EndCleanup =>
    case _ => RefreshKeepsInv(w, keep, step);
  }

  lemma CaptureKeepsInv(w: World, keep: nat)
    requires Inv(w, keep) && Possible(w, Capture)
    ensures Inv(Next(w, keep, Capture), keep)
  {
  }

  // A registry starts without snapshots or pins, over whatever the cache directory already holds.
  function Start(disk: Disk): World {
    World(map[], map[], disk, Idle)
  }

  function Reach(disk: Disk, keep: nat, steps: seq<Step>): World {
    if steps == [] then Start(disk) else Next(Reach(disk, keep, steps[..|steps| - 1]), keep, steps[|steps| - 1])
  }

  // The pins of a version so far that have not been released again.
  function Holders(disk: Disk, keep: nat, steps: seq<Step>, key: Key): int {
    if steps == [] then 0
    else
      var init, last := steps[..|steps| - 1], steps[|steps| - 1];
      var served := Reach(disk, keep, init).byAlias;
      Holders(disk, keep, init, key)
      + (if last.Pin? && last.alias in served && served[last.alias] == key then 1 else 0)
      - (if last == Unpin(key) then 1 else 0)
  }

  // Whoever releases a version has pinned it before.
  ghost predicate Feasible(disk: Disk, keep: nat, steps: seq<Step>) {
    forall k | 0 <= k < |steps| ::
      && Possible(Reach(disk, keep, steps[..k]), steps[k])
      && (steps[k].Unpin? ==> Holders(disk, keep, steps[..k], steps[k].key) > 0)
  }

  lemma FeasibleInit(disk: Disk, keep: nat, steps: seq<Step>)
    requires steps != [] && Feasible(disk, keep, steps)
    ensures var n := |steps| - 1;
            && Feasible(disk, keep, steps[..n]) && Possible(Reach(disk, keep, steps[..n]), steps[n])
            && (steps[n].Unpin? ==> Holders(disk, keep, steps[..n], steps[n].key) > 0)
  {
    var n := |steps| - 1;
    hide Possible, Reach, Holders;
    forall k | 0 <= k < n ensures steps[..n][..k] == steps[..k] && steps[..n][k] == steps[k] {}
  }

  predicate CountIs(pins: map<Key, nat>, key: Key, n: int) {
    (key in pins <==> n > 0) && (key in pins ==> pins[key] == n) && n >= 0
  }

  lemma PinCounts(pins: map<Key, nat>, k: Key, key: Key, n: int)
    requires CountIs(pins, key, n)
    ensures CountIs(Pinned(pins, k), key, if k == key then n + 1 else n)
  {
  }

  lemma UnpinCounts(pins: map<Key, nat>, k: Key, key: Key, n: int)
    requires CountIs(pins, key, n) && k in pins && pins[k] > 0
    ensures CountIs(Unpinned(pins, k), key, if k == key then n - 1 else n)
  {
  }

  // In every run the table of pins counts the holders of each version, so a release always finds its pin.
  lemma {:induction false} PinsCountHolders(disk: Disk, keep: nat, steps: seq<Step>, key: Key)
    requires Feasible(disk, keep, steps)
    ensures CountIs(Reach(disk, keep, steps).pins, key, Holders(disk, keep, steps, key))
  {
    if steps != [] {
      var n := |steps| - 1;
      var init, step := steps[..n], steps[n];
      var w := Reach(disk, keep, init);
      FeasibleInit(disk, keep, steps);
      PinsCountHolders(disk, keep, init, key);
      if step.Unpin? {
        PinsCountHolders(disk, keep, init, step.key);
        UnpinCounts(w.pins, step.key, key, Holders(disk, keep, init, key));
      }
      if step.Pin? && step.alias in w.byAlias { PinCounts(w.pins, w.byAlias[step.alias], key, Holders(disk, keep, init, key)); }
      NextPins(w, keep, step);
      hide Next, Feasible, Pinned, Unpinned, CountIs;
    }
  }

  lemma NextPins(w: World, keep: nat, step: Step)
    ensures Next(w, keep, step).pins ==
            match step
            case Pin(alias) => if alias in w.byAlias then Pinned(w.pins, w.byAlias[alias]) else w.pins
            case Unpin(key) => if key in w.pins && w.pins[key] > 0 then Unpinned(w.pins, key) else w.pins
            case _ => w.pins
  {
    hide Pinned, Unpinned, AddDir, RemoveDir, Doomed, Swapped;
  }

  lemma {:induction false} ReachableInv(disk: Disk, keep: nat, steps: seq<Step>)
    requires Feasible(disk, keep, steps)
    ensures Inv(Reach(disk, keep, steps), keep)
  {
    if steps != [] {
      hide Inv, Possible, Next;
      var n := |steps| - 1;
      FeasibleInit(disk, keep, steps);
      hide Feasible;
      ReachableInv(disk, keep, steps[..n]);
      StepKeepsInv(Reach(disk, keep, steps[..n]), keep, steps[n]);
    }
  }

  // Whatever other threads pin and release while cleanup runs, every version that an alias serves or that
  // somebody still holds has its directory, and the next directory to be removed is neither served nor held.
  lemma CleanupIsSafe(disk: Disk, keep: nat, steps: seq<Step>, key: Key)
    requires Feasible(disk, keep, steps)
    ensures var w := Reach(disk, keep, steps);
            && Holders(disk, keep, steps, key) >= 0
            && (Holders(disk, keep, steps, key) > 0 || (exists a <- w.byAlias :: w.byAlias[a] == key) ==>
                  && key.source in w.disk && key.version in w.disk[key.source]
                  && !(w.phase.Cleaning? && w.phase.doomed != [] && w.phase.visit == Some(key.source) && w.phase.doomed[0] == key.version))
  {
    hide *;
    ReachableInv(disk, keep, steps);
    PinsCountHolders(disk, keep, steps, key);
    InvIsSafe(Reach(disk, keep, steps), keep, key, Holders(disk, keep, steps, key));
  }

  lemma InvIsSafe(w: World, keep: nat, key: Key, holders: int)
    requires Inv(w, keep) && CountIs(w.pins, key, holders)
    ensures holders >= 0
    ensures holders > 0 || (exists a <- w.byAlias :: w.byAlias[a] == key) ==>
              && key.source in w.disk && key.version in w.disk[key.source]
              && !(w.phase.Cleaning? && w.phase.doomed != [] && w.phase.visit == Some(key.source) && w.phase.doomed[0] == key.version)
  {
    hide OnTarget;
    if holders > 0 || exists a <- w.byAlias :: w.byAlias[a] == key {
      assert InUse(w, key);
      if w.phase.Cleaning? && w.phase.visit.Some? && w.phase.doomed != [] {
        var v := w.phase.doomed[0];
        assert v in w.phase.doomed && !Held(w.phase.visit.value, v, w.phase.active, w.phase.pinned);
      }
    }
  }

  // At every moment of a cleanup, each source that was visited before holds exactly the first `keep` of
  // its listing and those that were served or pinned when the cleanup began, and so does the last one once
  // nothing is doomed any more.
  lemma CleanupIsExact(disk: Disk, keep: nat, steps: seq<Step>)
    requires Feasible(disk, keep, steps) && Reach(disk, keep, steps).phase.Cleaning?
    ensures var w := Reach(disk, keep, steps);
            forall s <- w.phase.listed :: w.phase.visit != Some(s) || w.phase.doomed == [] ==>
              s in w.disk && forall v :: v in w.disk[s] <==>
                exists i :: 0 <= i < |w.phase.listed[s]| && w.phase.listed[s][i] == v &&
                            (i < keep || Key(s, v) in w.phase.active || Key(s, v) in w.phase.pinned)
  {
    ReachableInv(disk, keep, steps);
    hide Reach, Feasible;
  }

  function Newer(dirs: Dirs, v: VersionId): set<VersionId>
    requires v in dirs
  {
    set u | u in dirs && dirs[u] > dirs[v]
  }

  function AsNew(dirs: Dirs, v: VersionId): set<VersionId>
    requires v in dirs
  {
    set u | u in dirs && u != v && dirs[u] >= dirs[v]
  }

  // A listing is newest first: whoever survives without being held has fewer than `keep` newer ones, and
  // whoever does not has at least `keep` that are as new.
  lemma SurvivorsAreNewest(source: SourceId, order: seq<VersionId>, dirs: Dirs, active: set<Key>, pinned: set<Key>, keep: nat, v: VersionId)
    requires NewestFirst(order, dirs) && v in dirs && Key(source, v) !in active && Key(source, v) !in pinned
    ensures v in Survivors(source, order, active, pinned, keep) ==> |Newer(dirs, v)| < keep
    ensures v !in Survivors(source, order, active, pinned, keep) ==> |AsNew(dirs, v)| >= keep
  {
    var i :| 0 <= i < |order| && order[i] == v;
    DistinctSize(order[..i]);
    var before, newer, asNew := Members(order[..i]), Newer(dirs, v), AsNew(dirs, v);
    forall u <- newer ensures u in before {
      var j :| 0 <= j < |order| && order[j] == u;
      assert order[..i][j] == u;
    }
    forall u <- before ensures u in asNew {
      var j :| 0 <= j < i && order[j] == u;
      assert order[j] in order;
    }
    SubsetSize(newer, before);
    SubsetSize(before, asNew);
    assert v in Survivors(source, order, active, pinned, keep) <==> i < keep;
  }

  function Members(s: seq<VersionId>): set<VersionId> {
    set v | v in s
  }

  lemma {:induction false} DistinctSize(s: seq<VersionId>)
    requires NoDuplicates(s)
    ensures |Members(s)| == |s|
  {
    if s != [] {
      var init, last := s[..|s| - 1], s[|s| - 1];
      DistinctSize(init);
      assert s == init + [last] && last !in init;
      assert Members(s) == Members(init) + {last};
    } else {
      assert Members(s) == {};
    }
  }

  lemma {:induction false} SubsetSize<T>(a: set<T>, b: set<T>)
    requires a <= b
    ensures |a| <= |b|
    decreases |a|
  {
    if a != {} {
      var x :| x in a;
      SubsetSize(a - {x}, b - {x});
    }
  }

  /******* What a refresh serves *******/

  // The alias was hydrated to this version in the current refresh, and not again since.
  predicate HydratedLast(steps: seq<Step>, j: nat, alias: Alias, key: Key) {
    && j < |steps| && steps[j].Hydrate? && steps[j].alias == alias && steps[j].key == key
    && forall k | j < k < |steps| :: steps[k] != BeginRefresh && !(steps[k].Hydrate? && steps[k].alias == alias)
  }

  predicate Replaces(r: map<Alias, Key>, alias: Alias, key: Key) {
    alias in r && r[alias] == key
  }

  lemma NextReplacements(w: World, keep: nat, step: Step, alias: Alias, key: Key)
    requires Possible(w, step) && Next(w, keep, step).phase.Refreshing?
    ensures step != BeginRefresh ==> w.phase.Refreshing?
    ensures Replaces(Next(w, keep, step).phase.replacements, alias, key) <==>
            step != BeginRefresh && if step.Hydrate? && step.alias == alias then step.key == key else Replaces(w.phase.replacements, alias, key)
  {
    hide AddDir, Swapped, Doomed, RemoveDir, Pinned, Unpinned, NewestFirst;
  }

  lemma HydratedInMore(steps: seq<Step>, alias: Alias, key: Key)
    requires steps != []
    ensures var n, step := |steps| - 1, steps[|steps| - 1];
            (exists j: nat :: HydratedLast(steps, j, alias, key)) <==>
              if step == BeginRefresh then false
              else if step.Hydrate? && step.alias == alias then step.key == key
              else exists j: nat :: HydratedLast(steps[..n], j, alias, key)
  {
    var n, init, step := |steps| - 1, steps[..|steps| - 1], steps[|steps| - 1];
    if step.Hydrate? && step.alias == alias && step.key == key { assert HydratedLast(steps, n, alias, key); }
    if step != BeginRefresh && !(step.Hydrate? && step.alias == alias) {
      forall j: nat ensures HydratedLast(steps, j, alias, key) <==> HydratedLast(init, j, alias, key) {}
    }
  }

  lemma {:induction false} ReplacementsAreHydrated(disk: Disk, keep: nat, steps: seq<Step>, alias: Alias, key: Key)
    requires Feasible(disk, keep, steps) && Reach(disk, keep, steps).phase.Refreshing?
    ensures Replaces(Reach(disk, keep, steps).phase.replacements, alias, key) <==> exists j: nat :: HydratedLast(steps, j, alias, key)
  {
    var n := |steps| - 1;
    var init, step := steps[..n], steps[n];
    FeasibleInit(disk, keep, steps);
    NextReplacements(Reach(disk, keep, init), keep, step, alias, key);
    HydratedInMore(steps, alias, key);
    if step != BeginRefresh { ReplacementsAreHydrated(disk, keep, init, alias, key); }
    hide Feasible, Possible, Next, Replaces, HydratedLast;
  }

  // After a swap an alias serves what this refresh hydrated for it; an enabled one that was not hydrated
  // keeps what it served, and a disabled one serves nothing.
  lemma SwapServes(disk: Disk, keep: nat, steps: seq<Step>, enabled: set<Alias>, alias: Alias, key: Key)
    requires Feasible(disk, keep, steps) && Possible(Reach(disk, keep, steps), Swap(enabled))
    ensures var before, after := Reach(disk, keep, steps).byAlias, Next(Reach(disk, keep, steps), keep, Swap(enabled)).byAlias;
            alias in after && after[alias] == key <==>
              || (exists j: nat :: HydratedLast(steps, j, alias, key))
              || (&& (forall j: nat, other :: !HydratedLast(steps, j, alias, other))
                  && alias in enabled && alias in before && before[alias] == key)
  {
    var w := Reach(disk, keep, steps);
    forall other ensures Replaces(w.phase.replacements, alias, other) <==> exists j: nat :: HydratedLast(steps, j, alias, other) {
      ReplacementsAreHydrated(disk, keep, steps, alias, other);
    }
    SwapIff(w, keep, enabled, alias, key);
    hide Feasible, Reach, HydratedLast, Replaces, Next, Possible;
    var r := w.phase.replacements;
    if other :| Replaces(r, alias, other) {
      assert exists j: nat :: HydratedLast(steps, j, alias, other);
    } else {
      forall j: nat, other ensures !HydratedLast(steps, j, alias, other) { assert !Replaces(r, alias, other); }
    }
  }

  lemma SwapIff(w: World, keep: nat, enabled: set<Alias>, alias: Alias, key: Key)
    requires Possible(w, Swap(enabled))
    ensures w.phase.Refreshing?
    ensures var after, r := Next(w, keep, Swap(enabled)).byAlias, w.phase.replacements;
            alias in after && after[alias] == key <==>
              || Replaces(r, alias, key)
              || ((forall other :: !Replaces(r, alias, other)) && alias in enabled && alias in w.byAlias && w.byAlias[alias] == key)
  {
    if alias in w.phase.replacements { assert Replaces(w.phase.replacements, alias, w.phase.replacements[alias]); }
  }

  // A refresh hydrates, swaps and cleans up, in this order; cleanup starts from what is served and pinned.
  lemma PhasesFollow(w: World, keep: nat, step: Step)
    requires Possible(w, step)
    ensures step == BeginRefresh ==> Next(w, keep, step).phase == Refreshing(map[])
    ensures step.Swap? ==> Next(w, keep, step).phase == Refreshed
    ensures step == EndCleanup ==> Next(w, keep, step).phase == Idle
    ensures step == Capture ==>
              var phase := Next(w, keep, step).phase;
              && phase.Cleaning? && phase.listed == map[] && phase.visit == None && phase.doomed == []
              && (forall key :: key in phase.active <==> exists a <- w.byAlias :: w.byAlias[a] == key)
              && (forall key :: key in phase.pinned <==> key in w.pins)
    ensures step.Hydrate? || step.VisitSource? || step.RemoveNext? ==>
              Next(w, keep, step).byAlias == w.byAlias && Next(w, keep, step).pins == w.pins
  {
    hide AddDir, RemoveDir, Doomed, NewestFirst;
  }

  // Hydration leaves the directory of the version; one that is there already keeps its time, and no other changes.
  lemma HydrateKeepsDirs(w: World, keep: nat, alias: Alias, key: Key, time: Time)
    requires w.phase.Refreshing?
    ensures var disk := Next(w, keep, Hydrate(alias, key, time)).disk;
            && key.source in disk && key.version in disk[key.source]
            && disk[key.source][key.version] == (if OnDisk(w.disk, key) then w.disk[key.source][key.version] else time)
            && forall s, v :: Key(s, v) != key ==>
                 (s in disk && v in disk[s] <==> s in w.disk && v in w.disk[s])
                 && (s in disk && v in disk[s] ==> disk[s][v] == w.disk[s][v])
  {
  }

  /******* The registry, in place *******/

  const MIN_VERSIONS_TO_KEEP := 2

  datatype ServingError = NotAvailable | NotAuthorized

  // What is left of a source directory after cleanup.
  ghost predicate Cleaned(source: SourceId, order: seq<VersionId>, before: Dirs, after: Dirs,
                          active: set<Key>, pinned: set<Key>, keep: nat)
  {
    && after.Keys == Survivors(source, order, active, pinned, keep)
    && forall v <- after :: v in before && after[v] == before[v]
  }

  class Registry {
    var byAlias: map<Alias, Key>
    var errors: map<Alias, string>
    var pins: map<Key, nat>
    var disk: Disk
    const versionsToKeep: nat

    constructor (versionsToKeep: nat, disk: Disk)
      requires versionsToKeep >= MIN_VERSIONS_TO_KEEP
      ensures this.versionsToKeep == versionsToKeep
      ensures byAlias == map[] && pins == map[] && errors == map[] && this.disk == disk
    {
      this.versionsToKeep := versionsToKeep;
      byAlias, errors, pins, this.disk := map[], map[], map[], disk;
    }

    // The locked part of a refresh: disabled aliases go, hydrated ones are replaced, and an alias whose
    // hydration failed keeps its old snapshot.
    method SwapSnapshots(enabled: set<Alias>, replacements: map<Alias, Key>, failures: map<Alias, string>)
      requires replacements.Keys <= enabled && failures.Keys <= enabled && replacements.Keys !! failures.Keys
      modifies this`byAlias, this`errors
      ensures byAlias == Swapped(old(byAlias), enabled, replacements) && errors == failures
      ensures forall a <- failures :: a in old(byAlias) ==> a in byAlias && byAlias[a] == old(byAlias[a])
    {
      var gone := byAlias.Keys - enabled;
      ghost var before := byAlias;
      NoAliasGone(before, enabled);
      hide Swapped, PartlySwapped;
      while gone != {}
        invariant PartlySwapped(before, byAlias, enabled, gone)
        decreases |gone|
      {
        var alias :| alias in gone;
        OneAliasGone(before, byAlias, enabled, gone, alias);
        byAlias := byAlias - {alias};
        gone := gone - {alias};
      }
      AllAliasesGone(before, byAlias, enabled, replacements, failures);
      byAlias := byAlias + replacements;
      errors := failures;
    }

    method PinSnapshot(alias: Alias, authorized: bool) returns (r: Result<Key, ServingError>)
      modifies this`pins
      ensures alias !in byAlias ==> r == Err(NotAvailable) && pins == old(pins)
      ensures alias in byAlias && !authorized ==> r == Err(NotAuthorized) && pins == old(pins)
      ensures alias in byAlias && authorized ==> r == Ok(byAlias[alias]) && pins == Pinned(old(pins), byAlias[alias])
      ensures r.Ok? ==> forall key, n | CountIs(old(pins), key, n) :: CountIs(pins, key, if key == r.value then n + 1 else n)
    {
      if alias !in byAlias { return Err(NotAvailable); }
      if !authorized { return Err(NotAuthorized); }
      var key := byAlias[alias];
      pins := pins[key := (if key in pins then pins[key] else 0) + 1];
      r := Ok(key);
      forall k, n | CountIs(old(pins), k, n) { PinCounts(old(pins), key, k, n); }
    }

    method ReleasePin(key: Key)
      requires key in pins && pins[key] > 0
      modifies this`pins
      ensures pins == Unpinned(old(pins), key)
      ensures forall k, n | CountIs(old(pins), k, n) :: CountIs(pins, k, if k == key then n - 1 else n)
    {
      forall k, n | CountIs(pins, k, n) { UnpinCounts(pins, key, k, n); }
      var remaining := pins[key] - 1;
      if remaining != 0 {
        pins := pins[key := remaining];
      } else {
        pins := pins - {key};
      }
    }

    // Cleanup without interference: every source keeps exactly its survivors.
    method CleanupUnpinnedVersions() returns (orders: map<SourceId, seq<VersionId>>)
      modifies this`disk
      ensures disk.Keys == old(disk).Keys == orders.Keys
      ensures forall s <- disk ::
                NewestFirst(orders[s], old(disk)[s]) &&
                Cleaned(s, orders[s], old(disk)[s], disk[s], byAlias.Values, pins.Keys, versionsToKeep)
    {
      var active, pinned := byAlias.Values, pins.Keys;
      ghost var before := disk;
      orders := map[];
      var rest := disk.Keys;
      NoSourceCleaned(before, active, pinned, versionsToKeep);
      hide *;
      while rest != {}
        invariant CleanedUpTo(before, disk, orders, rest, active, pinned, versionsToKeep)
        decreases |rest|
      {
        var s :| s in rest;
        ghost var now := disk;
        StillToClean(before, disk, orders, rest, active, pinned, versionsToKeep, s);
        var order := SortNewestFirst(disk[s]);
        CleanupSource(s, order, active, pinned);
        OneMoreCleaned(before, now, disk, orders, rest, active, pinned, versionsToKeep, s, order);
        rest := rest - {s};
        orders := orders[s := order];
      }
      AllSourcesCleaned(before, disk, orders, active, pinned, versionsToKeep);
    }

    // One version of the listing: it counts as retained, or its directory is removed.
    method VisitVersion(source: SourceId, order: seq<VersionId>, i: nat, retained: nat, ghost before: Dirs,
                        active: set<Key>, pinned: set<Key>) returns (counted: nat)
      requires source in disk && i < |order| && NoDuplicates(order) && Counted(retained, i, versionsToKeep)
      requires PartlyCleaned(source, order, i, before, disk[source], active, pinned, versionsToKeep)
      modifies this`disk
      ensures OthersKept(old(disk), disk, source) && source in disk
      ensures PartlyCleaned(source, order, i + 1, before, disk[source], active, pinned, versionsToKeep)
      ensures Counted(counted, i + 1, versionsToKeep)
    {
      CleanNext(source, order, i, before, disk[source], active, pinned, versionsToKeep);
      hide NoDuplicates, PartlyCleaned;
      var version := order[i];
      var key := Key(source, version);
      if key in active || key in pinned || retained < versionsToKeep {
        counted := retained + 1;
      } else {
        counted := retained;
        disk := disk[source := disk[source] - {version}];
      }
    }

    method CleanupSource(source: SourceId, order: seq<VersionId>, active: set<Key>, pinned: set<Key>)
      requires source in disk && NewestFirst(order, disk[source])
      modifies this`disk
      ensures source in disk && OthersKept(old(disk), disk, source)
      ensures Cleaned(source, order, old(disk)[source], disk[source], active, pinned, versionsToKeep)
    {
      var retained := 0;
      ghost var before, start := disk, disk[source];
      NothingCleaned(source, order, disk[source], active, pinned, versionsToKeep);
      assert Counted(0, 0, versionsToKeep);
      NothingTouched(disk, source);
      hide *;
      for i := 0 to |order|
        invariant source in disk && OthersKept(before, disk, source) && Counted(retained, i, versionsToKeep)
        invariant PartlyCleaned(source, order, i, start, disk[source], active, pinned, versionsToKeep)
      {
        ghost var now := disk;
        retained := VisitVersion(source, order, i, retained, start, active, pinned);
        StillKept(before, now, disk, source);
      }
      AllCleaned(source, order, start, disk[source], active, pinned, versionsToKeep);
    }
  }

  // The sources in `rest` are as they were, the others have been cleaned along their listings.
  ghost predicate CleanedUpTo(before: Disk, now: Disk, orders: map<SourceId, seq<VersionId>>, rest: set<SourceId>,
                              active: set<Key>, pinned: set<Key>, keep: nat)
  {
    && now.Keys == before.Keys && rest !! orders.Keys && rest + orders.Keys == before.Keys
    && (forall s <- rest :: s in now && s in before && now[s] == before[s])
    && forall s <- orders :: s in now && s in before && NewestFirst(orders[s], before[s])
                             && Cleaned(s, orders[s], before[s], now[s], active, pinned, keep)
  }

  lemma NoSourceCleaned(disk: Disk, active: set<Key>, pinned: set<Key>, keep: nat)
    ensures CleanedUpTo(disk, disk, map[], disk.Keys, active, pinned, keep)
  {
  }

  lemma StillToClean(before: Disk, now: Disk, orders: map<SourceId, seq<VersionId>>, rest: set<SourceId>,
                     active: set<Key>, pinned: set<Key>, keep: nat, s: SourceId)
    requires CleanedUpTo(before, now, orders, rest, active, pinned, keep) && s in rest
    ensures s in now && s in before && now[s] == before[s]
  {
    hide NewestFirst, Cleaned;
  }

  lemma OneMoreCleaned(before: Disk, now: Disk, next: Disk, orders: map<SourceId, seq<VersionId>>, rest: set<SourceId>,
                       active: set<Key>, pinned: set<Key>, keep: nat, s: SourceId, order: seq<VersionId>)
    requires CleanedUpTo(before, now, orders, rest, active, pinned, keep) && s in rest && s in now && s in before
    requires s in next && OthersKept(now, next, s)
    requires NewestFirst(order, before[s]) && Cleaned(s, order, before[s], next[s], active, pinned, keep)
    ensures CleanedUpTo(before, next, orders[s := order], rest - {s}, active, pinned, keep)
  {
    hide NewestFirst, Cleaned;
  }

  lemma AllSourcesCleaned(before: Disk, now: Disk, orders: map<SourceId, seq<VersionId>>, active: set<Key>, pinned: set<Key>, keep: nat)
    requires CleanedUpTo(before, now, orders, {}, active, pinned, keep)
    ensures now.Keys == before.Keys == orders.Keys
    ensures forall s <- now :: NewestFirst(orders[s], before[s]) && Cleaned(s, orders[s], before[s], now[s], active, pinned, keep)
  {
    hide NewestFirst, Cleaned;
  }

  // The enabled aliases are as they were, and of the others those in `gone` are still there.
  ghost predicate PartlySwapped(before: map<Alias, Key>, now: map<Alias, Key>, enabled: set<Alias>, gone: set<Alias>) {
    && (forall a :: a in now <==> a in before && (a in gone || a in enabled))
    && (forall a <- now :: now[a] == before[a])
    && gone !! enabled && gone <= before.Keys
  }

  lemma NoAliasGone(before: map<Alias, Key>, enabled: set<Alias>)
    ensures PartlySwapped(before, before, enabled, before.Keys - enabled)
  {
  }

  lemma OneAliasGone(before: map<Alias, Key>, now: map<Alias, Key>, enabled: set<Alias>, gone: set<Alias>, alias: Alias)
    requires PartlySwapped(before, now, enabled, gone) && alias in gone
    ensures PartlySwapped(before, now - {alias}, enabled, gone - {alias})
  {
  }

  lemma AllAliasesGone(before: map<Alias, Key>, now: map<Alias, Key>, enabled: set<Alias>, replacements: map<Alias, Key>,
                       failures: map<Alias, string>)
    requires PartlySwapped(before, now, enabled, {})
    requires failures.Keys <= enabled && replacements.Keys !! failures.Keys
    ensures now + replacements == Swapped(before, enabled, replacements)
    ensures forall a <- failures :: a in before ==> a in now + replacements && (now + replacements)[a] == before[a]
  {
    assert now == map a | a in before && a in enabled :: before[a];
  }

  // Only one source has changed.
  ghost predicate OthersKept(before: Disk, now: Disk, source: SourceId) {
    now.Keys == before.Keys && forall s <- now :: s != source ==> now[s] == before[s]
  }

  lemma NothingTouched(disk: Disk, source: SourceId)
    ensures OthersKept(disk, disk, source)
  {
  }

  // The first i versions of a listing count as retained up to the limit, and beyond it where they are held.
  predicate Counted(retained: nat, i: nat, keep: nat) {
    retained <= i && (i <= keep ==> retained == i) && (i >= keep ==> retained >= keep)
  }

  lemma StillKept(before: Disk, now: Disk, later: Disk, source: SourceId)
    requires OthersKept(before, now, source) && OthersKept(now, later, source)
    ensures OthersKept(before, later, source)
  {
  }

  // The first i versions of the listing have been decided, the others are still there.
  ghost predicate PartlyCleaned(source: SourceId, order: seq<VersionId>, i: nat, before: Dirs, now: Dirs,
                                active: set<Key>, pinned: set<Key>, keep: nat)
    requires i <= |order|
  {
    && now.Keys == Survivors(source, order[..i], active, pinned, keep) + (set k | i <= k < |order| :: order[k])
    && forall v <- now :: v in before && now[v] == before[v]
  }

  lemma NothingCleaned(source: SourceId, order: seq<VersionId>, dirs: Dirs, active: set<Key>, pinned: set<Key>, keep: nat)
    requires NewestFirst(order, dirs)
    ensures PartlyCleaned(source, order, 0, dirs, dirs, active, pinned, keep) && NoDuplicates(order)
  {
  }

  lemma CleanNext(source: SourceId, order: seq<VersionId>, i: nat, before: Dirs, now: Dirs,
                  active: set<Key>, pinned: set<Key>, keep: nat)
    requires i < |order| && NoDuplicates(order) && PartlyCleaned(source, order, i, before, now, active, pinned, keep)
    ensures var kept := i < keep || Key(source, order[i]) in active || Key(source, order[i]) in pinned;
            PartlyCleaned(source, order, i + 1, before, if kept then now else now - {order[i]}, active, pinned, keep)
  {
    SurvivorsNext(source, order, active, pinned, keep, i);
  }

  lemma AllCleaned(source: SourceId, order: seq<VersionId>, before: Dirs, now: Dirs,
                   active: set<Key>, pinned: set<Key>, keep: nat)
    requires PartlyCleaned(source, order, |order|, before, now, active, pinned, keep)
    ensures Cleaned(source, order, before, now, active, pinned, keep)
  {
    assert order[..|order|] == order;
  }

  lemma SurvivorsNext(source: SourceId, order: seq<VersionId>, active: set<Key>, pinned: set<Key>, keep: nat, i: nat)
    requires i < |order| && NoDuplicates(order)
    ensures var before, after := Survivors(source, order[..i], active, pinned, keep),
                                 Survivors(source, order[..i + 1], active, pinned, keep);
            && after == before + (if i < keep || Held(source, order[i], active, pinned) then {order[i]} else {})
            && order[i] !in before
            && (set k | i <= k < |order| :: order[k]) == {order[i]} + (set k | i + 1 <= k < |order| :: order[k])
            && order[i] !in (set k | i + 1 <= k < |order| :: order[k])
  {
    assert forall j | 0 <= j < i :: order[..i][j] == order[j] == order[..i + 1][j];
    assert order[..i + 1][i] == order[i];
  }

  // The library sort, by repeated selection.
  method SortNewestFirst(dirs: Dirs) returns (order: seq<VersionId>)
    ensures NewestFirst(order, dirs)
  {
    order := [];
    var rest := dirs;
    while rest != map[]
      invariant forall v :: v in dirs <==> v in rest || v in order
      invariant forall v <- rest :: v !in order && v in dirs && rest[v] == dirs[v]
      invariant forall v <- order :: v in dirs
      invariant forall i, j | 0 <= i < j < |order| :: order[i] != order[j] && dirs[order[i]] >= dirs[order[j]]
      invariant forall v <- order, u <- rest :: dirs[v] >= dirs[u]
      decreases |rest|
    {
      var newest := FindNewest(rest);
      order := order + [newest];
      rest := rest - {newest};
    }
  }

  method FindNewest(dirs: Dirs) returns (newest: VersionId)
    requires dirs != map[]
    ensures newest in dirs && forall v <- dirs :: dirs[v] <= dirs[newest]
  {
    var rest := dirs.Keys;
    newest :| newest in rest;
    while rest != {}
      invariant newest in dirs && rest <= dirs.Keys
      invariant forall v <- dirs :: v !in rest ==> dirs[v] <= dirs[newest]
      decreases |rest|
    {
      var v :| v in rest;
      if dirs[v] > dirs[newest] { newest := v; }
      rest := rest - {v};
    }
  }
}
