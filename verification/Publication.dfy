/**
  Publication of the artifacts of a knowledge-source version to an object store.

  A publication run uploads the artifacts in a fixed order, never over an existing object, and can be
  cut off at any store operation.
 */
module Publication {
  import opened Identifiers
  import opened Wrappers

  type Bytes = seq<bv8>
  type Objects = map<string, Bytes>

  datatype Artifact = GraphFile | SourceArchive | Report | ExtractionLog | ManifestFile

  // Uploads happen in this order: the manifest comes last.
  const ARTIFACT_ORDER: seq<Artifact> := [GraphFile, SourceArchive, Report, ExtractionLog, ManifestFile]

  const OBJECT_PREFIX := "knowledge-sources/"

  // Everything that determines what is extracted from a commit.
  datatype Config = Config(graphifyVersion: string, includes: seq<string>, excludes: seq<string>)

  // The platform's names: textual ids, and digests of configurations and contents.  Distinct
  // configurations have distinct digests; collisions of contents are named where they matter.
  datatype Naming = Naming(uuid: SourceId -> string, configHash: Config -> string, sha256: Bytes -> string)
  {
    ghost predicate Valid() {
      && (forall s :: '/' !in uuid(s))
      && (forall s, t :: uuid(s) == uuid(t) ==> s == t)
      && (forall c :: '/' !in configHash(c))
      && (forall c, d :: configHash(c) == configHash(d) ==> c == d)
    }
  }

  // What a version is identified by in the object store.
  datatype Identity = Identity(source: SourceId, commit: string, configHash: string)

  predicate SlashFree(id: Identity) {
    '/' !in id.commit && '/' !in id.configHash
  }

  function FileName(a: Artifact): string {
    match a
    case GraphFile => "graph.json"
    case SourceArchive => "source.tar.zst"
    case Report => "graph-report.md"
    case ExtractionLog => "extraction.log"
    case ManifestFile => "manifest.json"
  }

  function KeyOf(n: Naming, id: Identity, a: Artifact): string {
    OBJECT_PREFIX + n.uuid(id.source) + "/" + id.commit + "/" + id.configHash + "/" + FileName(a)
  }

  lemma FileNamesDiffer(a: Artifact, b: Artifact)
    requires FileName(a) == FileName(b)
    ensures a == b
  {
    assert FileName(SourceArchive)[0] == 's' && FileName(ExtractionLog)[0] == 'e';
  }

  lemma FirstSlash(a: string, x: string, b: string, y: string)
    requires '/' !in a && '/' !in b && a + "/" + x == b + "/" + y
    ensures a == b && x == y
  {
    var k := a + "/" + x;
    assert k[|a|] == '/' && k[|b|] == '/';
    assert k[..|a|] == a && k[..|b|] == b && k[|a| + 1..] == x && k[|b| + 1..] == y;
  }

  lemma Regroup(p: string, a: string, b: string, c: string, d: string)
    ensures (p + a + "/" + b + "/" + c + "/" + d)[|p|..] == a + "/" + (b + "/" + (c + "/" + d))
  {
  }

  lemma SameKeyParts(p: string, a: string, b: string, c: string, d: string, a': string, b': string, c': string, d': string)
    requires '/' !in a && '/' !in b && '/' !in c && '/' !in a' && '/' !in b' && '/' !in c'
    requires p + a + "/" + b + "/" + c + "/" + d == p + a' + "/" + b' + "/" + c' + "/" + d'
    ensures a == a' && b == b' && c == c' && d == d'
  {
    Regroup(p, a, b, c, d);
    Regroup(p, a', b', c', d');
    FirstSlash(a, b + "/" + (c + "/" + d), a', b' + "/" + (c' + "/" + d'));
    FirstSlash(b, c + "/" + d, b', c' + "/" + d');
    FirstSlash(c, d, c', d');
  }

  // No two versions, and no two artifacts of a version, share a key.
  lemma KeysAreDistinct(n: Naming, id: Identity, a: Artifact, other: Identity, b: Artifact)
    requires n.Valid() && SlashFree(id) && SlashFree(other)
    ensures KeyOf(n, id, a) == KeyOf(n, other, b) <==> id == other && a == b
  {
    if KeyOf(n, id, a) == KeyOf(n, other, b) {
      SameKeyParts(OBJECT_PREFIX, n.uuid(id.source), id.commit, id.configHash, FileName(a),
                   n.uuid(other.source), other.commit, other.configHash, FileName(b));
      FileNamesDiffer(a, b);
    }
  }

  /******* One publication run *******/

  type Local = map<Artifact, Bytes>

  predicate Complete(local: Local) {
    forall a <- ARTIFACT_ORDER :: a in local
  }

  datatype Outcome = Published | Conflict(key: string) | Interrupted

  // `budget` store operations succeed before one raises; a raising upload may still have taken effect.
  datatype Weather = Weather(budget: nat, lateFailure: bool)

  predicate Matches(n: Naming, stored: Bytes, expected: Bytes) {
    |stored| == |expected| && n.sha256(stored) == n.sha256(expected)
  }

  // One artifact: look for the object, compare or upload, and download it once more to compare.
  function PublishOne(n: Naming, key: string, bytes: Bytes, objects: Objects, w: Weather)
    : (Option<Outcome>, Objects, Weather)
  {
    if w.budget == 0 then (Some(Interrupted), objects, w)
    else if key in objects then
      if !Matches(n, objects[key], bytes) then (Some(Conflict(key)), objects, w)
      else if w.budget == 1 then (Some(Interrupted), objects, w)
      else (None, objects, w.(budget := w.budget - 2))
    else if w.budget == 1 then (Some(Interrupted), if w.lateFailure then objects[key := bytes] else objects, w)
    else if w.budget == 2 then (Some(Interrupted), objects[key := bytes], w)
    else (None, objects[key := bytes], w.(budget := w.budget - 3))
  }

  function PublishFrom(n: Naming, id: Identity, local: Local, todo: seq<Artifact>, objects: Objects, w: Weather)
    : (Outcome, Objects)
    requires forall a <- todo :: a in local
  {
    if todo == [] then (Published, objects)
    else
      var (stop, after, w') := PublishOne(n, KeyOf(n, id, todo[0]), local[todo[0]], objects, w);
      if stop.Some? then (stop.value, after) else PublishFrom(n, id, local, todo[1..], after, w')
  }

  lemma PublishOneFacts(n: Naming, key: string, bytes: Bytes, objects: Objects, w: Weather)
    ensures var (stop, after, _) := PublishOne(n, key, bytes, objects, w);
            && (after == objects || (key !in objects && after == objects[key := bytes]))
            && (stop.None? ==> key in after && Matches(n, after[key], bytes))
            && (stop.Some? ==> stop.value != Published)
  {
  }

  function Publish(n: Naming, id: Identity, local: Local, objects: Objects, w: Weather): (Outcome, Objects)
    requires Complete(local)
  {
    PublishFrom(n, id, local, ARTIFACT_ORDER, objects, w)
  }

  // Nothing that exists is changed, whether the run completes or not, and nothing outside the version's
  // own keys is added.
  lemma {:induction false} PublishIsImmutable(
    n: Naming, id: Identity, local: Local, todo: seq<Artifact>, objects: Objects, w: Weather)
    requires forall a <- todo :: a in local
    ensures var after := PublishFrom(n, id, local, todo, objects, w).1;
            && (forall k <- objects :: k in after && after[k] == objects[k])
            && (forall k <- after :: k in objects || exists a :: a in todo && k == KeyOf(n, id, a) && after[k] == local[a])
  {
    if todo != [] {
      hide KeyOf, PublishOne;
      PublishOneFacts(n, KeyOf(n, id, todo[0]), local[todo[0]], objects, w);
      var (stop, after, w') := PublishOne(n, KeyOf(n, id, todo[0]), local[todo[0]], objects, w);
      assert todo[0] in todo && forall a <- todo[1..] :: a in todo;
      if stop.None? { PublishIsImmutable(n, id, local, todo[1..], after, w'); }
    }
  }

  // A successful run leaves an object of the local size and digest under every key.
  lemma {:induction false} PublishedMatches(
    n: Naming, id: Identity, local: Local, todo: seq<Artifact>, objects: Objects, w: Weather)
    requires forall a <- todo :: a in local
    requires PublishFrom(n, id, local, todo, objects, w).0 == Published
    ensures var after := PublishFrom(n, id, local, todo, objects, w).1;
            forall a <- todo :: KeyOf(n, id, a) in after && Matches(n, after[KeyOf(n, id, a)], local[a])
  {
    if todo != [] {
      hide KeyOf, PublishOne, Matches;
      PublishOneFacts(n, KeyOf(n, id, todo[0]), local[todo[0]], objects, w);
      var (stop, next, w') := PublishOne(n, KeyOf(n, id, todo[0]), local[todo[0]], objects, w);
      assert Matches(n, next[KeyOf(n, id, todo[0])], local[todo[0]]);
      PublishedMatches(n, id, local, todo[1..], next, w');
      PublishIsImmutable(n, id, local, todo[1..], next, w');
      assert forall a <- todo :: a == todo[0] || a in todo[1..];
    }
  }

  // What is stored for this artifact, if anything, has its size and digest.
  predicate NoConflict(n: Naming, id: Identity, local: Local, objects: Objects, a: Artifact)
    requires a in local
  {
    KeyOf(n, id, a) in objects ==>
      |objects[KeyOf(n, id, a)]| == |local[a]| && n.sha256(objects[KeyOf(n, id, a)]) == n.sha256(local[a])
  }

  // When no store operation fails, a run is published exactly if nothing stored contradicts it, and
  // otherwise it stops at the first artifact that is contradicted.
  lemma {:induction false} PublishedUnlessConflict(n: Naming, id: Identity, local: Local, todo: seq<Artifact>, objects: Objects, w: Weather)
    requires n.Valid() && SlashFree(id) && (forall a <- todo :: a in local)
    requires (forall i, j | 0 <= i < j < |todo| :: todo[i] != todo[j]) && w.budget >= 3 * |todo|
    ensures var outcome := PublishFrom(n, id, local, todo, objects, w).0;
            && (outcome == Published <==> forall a <- todo :: NoConflict(n, id, local, objects, a))
            && (outcome != Published ==>
                  exists i :: 0 <= i < |todo| && !NoConflict(n, id, local, objects, todo[i]) && outcome == Conflict(KeyOf(n, id, todo[i]))
                              && forall j | 0 <= j < i :: NoConflict(n, id, local, objects, todo[j]))
  {
    if todo != [] {
      var a, rest := todo[0], todo[1..];
      PublishOneFacts(n, KeyOf(n, id, a), local[a], objects, w);
      var (stop, after, w') := PublishOne(n, KeyOf(n, id, a), local[a], objects, w);
      assert a in todo && stop.None? <==> NoConflict(n, id, local, objects, a);
      if stop.None? {
        assert forall i | 0 <= i < |rest| :: rest[i] == todo[i + 1] && rest[i] in todo;
        forall b <- rest ensures NoConflict(n, id, local, after, b) <==> NoConflict(n, id, local, objects, b) {
          KeysAreDistinct(n, id, a, id, b);
        }
        PublishedUnlessConflict(n, id, local, rest, after, w');
        hide NoConflict, PublishOne, KeyOf;
        LaterConflict(n, id, local, todo, objects, after, PublishFrom(n, id, local, rest, after, w').0);
      }
    }
  }

  lemma LaterConflict(n: Naming, id: Identity, local: Local, todo: seq<Artifact>, objects: Objects, after: Objects, outcome: Outcome)
    requires todo != [] && (forall a <- todo :: a in local) && NoConflict(n, id, local, objects, todo[0])
    requires forall b <- todo[1..] :: b in local && (NoConflict(n, id, local, after, b) <==> NoConflict(n, id, local, objects, b))
    requires outcome == Published <==> forall a <- todo[1..] :: NoConflict(n, id, local, after, a)
    requires outcome != Published ==>
               exists i :: 0 <= i < |todo[1..]| && !NoConflict(n, id, local, after, todo[1..][i]) && outcome == Conflict(KeyOf(n, id, todo[1..][i]))
                           && forall j | 0 <= j < i :: NoConflict(n, id, local, after, todo[1..][j])
    ensures outcome == Published <==> forall a <- todo :: NoConflict(n, id, local, objects, a)
    ensures outcome != Published ==>
              exists i :: 0 <= i < |todo| && !NoConflict(n, id, local, objects, todo[i]) && outcome == Conflict(KeyOf(n, id, todo[i]))
                          && forall j | 0 <= j < i :: NoConflict(n, id, local, objects, todo[j])
  {
    hide NoConflict, KeyOf;
    var rest := todo[1..];
    if outcome != Published {
      var i :| 0 <= i < |rest| && !NoConflict(n, id, local, after, rest[i]) && outcome == Conflict(KeyOf(n, id, rest[i]))
               && forall j | 0 <= j < i :: NoConflict(n, id, local, after, rest[j]);
      assert rest[i] == todo[i + 1];
      forall j | 0 <= j < i + 1 ensures NoConflict(n, id, local, objects, todo[j]) {
        if j > 0 { assert rest[j - 1] == todo[j]; }
      }
    }
    assert todo == [todo[0]] + rest;
  }

  // No object in the store has size and digest of a local artifact and yet another content.
  ghost predicate CollisionFree(n: Naming, objects: Objects, local: Local) {
    forall k <- objects, a <- local :: Matches(n, objects[k], local[a]) ==> objects[k] == local[a]
  }

  // A successful run leaves exactly the local bytes under every key.
  lemma PublishedBytes(n: Naming, id: Identity, local: Local, objects: Objects, w: Weather)
    requires n.Valid() && SlashFree(id) && Complete(local) && CollisionFree(n, objects, local)
    requires Publish(n, id, local, objects, w).0 == Published
    ensures var after := Publish(n, id, local, objects, w).1;
            forall a <- ARTIFACT_ORDER :: KeyOf(n, id, a) in after && after[KeyOf(n, id, a)] == local[a]
  {
    var after := Publish(n, id, local, objects, w).1;
    PublishedMatches(n, id, local, ARTIFACT_ORDER, objects, w);
    PublishIsImmutable(n, id, local, ARTIFACT_ORDER, objects, w);
    forall a, b ensures KeyOf(n, id, a) == KeyOf(n, id, b) ==> a == b { KeysAreDistinct(n, id, a, id, b); }
    hide KeyOf, PublishFrom, Matches, Naming.Valid;
    forall a <- ARTIFACT_ORDER ensures after[KeyOf(n, id, a)] == local[a] {
      if KeyOf(n, id, a) in objects { assert Matches(n, objects[KeyOf(n, id, a)], local[a]); }
    }
  }

  /******* Order *******/

  // The manifest is only there together with everything it describes.
  ghost predicate ManifestLast(n: Naming, id: Identity, objects: Objects) {
    KeyOf(n, id, ManifestFile) in objects ==> forall a <- ARTIFACT_ORDER :: KeyOf(n, id, a) in objects
  }

  lemma {:induction false} PublishKeepsManifestLast(
    n: Naming, id: Identity, local: Local, i: nat, objects: Objects, w: Weather)
    requires n.Valid() && SlashFree(id) && Complete(local) && i <= |ARTIFACT_ORDER|
    requires ManifestLast(n, id, objects)
    requires forall j | 0 <= j < i :: KeyOf(n, id, ARTIFACT_ORDER[j]) in objects
    ensures ManifestLast(n, id, PublishFrom(n, id, local, ARTIFACT_ORDER[i..], objects, w).1)
    decreases |ARTIFACT_ORDER| - i
  {
    if i < |ARTIFACT_ORDER| {
      var a := ARTIFACT_ORDER[i];
      assert ARTIFACT_ORDER[i..][1..] == ARTIFACT_ORDER[i + 1..];
      AddingKeepsManifestLast(n, id, i, objects, local[a]);
      hide KeyOf, PublishOne;
      PublishOneFacts(n, KeyOf(n, id, a), local[a], objects, w);
      var (stop, after, w') := PublishOne(n, KeyOf(n, id, a), local[a], objects, w);
      if stop.None? { PublishKeepsManifestLast(n, id, local, i + 1, after, w'); }
    }
  }

  lemma AddingKeepsManifestLast(n: Naming, id: Identity, i: nat, objects: Objects, bytes: Bytes)
    requires n.Valid() && SlashFree(id) && i < |ARTIFACT_ORDER| && ManifestLast(n, id, objects)
    requires forall j | 0 <= j < i :: KeyOf(n, id, ARTIFACT_ORDER[j]) in objects
    ensures ManifestLast(n, id, objects[KeyOf(n, id, ARTIFACT_ORDER[i]) := bytes])
  {
    var a := ARTIFACT_ORDER[i];
    KeysAreDistinct(n, id, ManifestFile, id, a);
    hide KeyOf;
    if a == ManifestFile {
      assert i == 4;
      forall b <- ARTIFACT_ORDER ensures KeyOf(n, id, b) in objects[KeyOf(n, id, a) := bytes] {
        var j :| 0 <= j < |ARTIFACT_ORDER| && ARTIFACT_ORDER[j] == b;
      }
    }
  }

  datatype Attempt = Attempt(id: Identity, local: Local, weather: Weather)

  function PublishAll(n: Naming, attempts: seq<Attempt>): Objects
    requires forall t <- attempts :: Complete(t.local)
  {
    if attempts == [] then map[]
    else
      var t := attempts[|attempts| - 1];
      Publish(n, t.id, t.local, PublishAll(n, attempts[..|attempts| - 1]), t.weather).1
  }

  lemma OtherPrefixUntouched(n: Naming, t: Attempt, other: Identity, objects: Objects)
    requires n.Valid() && SlashFree(t.id) && Complete(t.local) && SlashFree(other) && other != t.id
    ensures var after := Publish(n, t.id, t.local, objects, t.weather).1;
            forall a :: KeyOf(n, other, a) in after <==> KeyOf(n, other, a) in objects
  {
    PublishIsImmutable(n, t.id, t.local, ARTIFACT_ORDER, objects, t.weather);
    forall a, b ensures KeyOf(n, other, a) != KeyOf(n, t.id, b) { KeysAreDistinct(n, other, a, t.id, b); }
  }

  // Over any sequence of publication runs on an empty store, complete or interrupted and of any
  // versions, every version's manifest appears last.
  lemma {:induction false} ManifestAlwaysLast(n: Naming, attempts: seq<Attempt>, id: Identity)
    requires n.Valid() && SlashFree(id)
    requires forall t <- attempts :: SlashFree(t.id) && Complete(t.local)
    ensures ManifestLast(n, id, PublishAll(n, attempts))
  {
    if attempts != [] {
      var init, t := attempts[..|attempts| - 1], attempts[|attempts| - 1];
      assert t in attempts && forall x <- init :: x in attempts;
      ManifestAlwaysLast(n, init, id);
      if t.id == id {
        assert ARTIFACT_ORDER[0..] == ARTIFACT_ORDER;
        PublishKeepsManifestLast(n, id, t.local, 0, PublishAll(n, init), t.weather);
      } else {
        OtherPrefixUntouched(n, t, id, PublishAll(n, init));
      }
    }
  }

  /******* The same, in place *******/

  datatype Receipt = Receipt(keys: map<Artifact, string>, checksums: map<Artifact, string>)

  const CHECKSUM_PREFIX := "sha256:"

  class ObjectStore {
    var objects: Objects

    constructor ()
      ensures objects == map[]
    {
      objects := map[];
    }

    // On success the receipt names every artifact's key and checksum.
    method PublishBundle(n: Naming, id: Identity, local: Local, w: Weather) returns (outcome: Outcome, receipt: Receipt)
      requires n.Valid() && SlashFree(id) && Complete(local)
      modifies this
      ensures (outcome, objects) == Publish(n, id, local, old(objects), w)
      ensures outcome.Published? ==> Lists(receipt, n, id, local, ARTIFACT_ORDER)
      ensures outcome.Published? && CollisionFree(n, old(objects), local) ==>
                forall a <- ARTIFACT_ORDER :: KeyOf(n, id, a) in objects && objects[KeyOf(n, id, a)] == local[a]
    {
      ghost var before := objects;
      ghost var result := PublishFrom(n, id, local, ARTIFACT_ORDER, before, w);
      assert result == Publish(n, id, local, before, w);
      assert ARTIFACT_ORDER[0..] == ARTIFACT_ORDER && ARTIFACT_ORDER[..|ARTIFACT_ORDER|] == ARTIFACT_ORDER;
      receipt := Receipt(map[], map[]);
      var weather := w;
      hide KeyOf, Publish, PublishOne, PublishFrom, Naming.Valid;
      for i := 0 to |ARTIFACT_ORDER|
        invariant PublishFrom(n, id, local, ARTIFACT_ORDER[i..], objects, weather) == result
        invariant Lists(receipt, n, id, local, ARTIFACT_ORDER[..i])
      {
        var name := ARTIFACT_ORDER[i];
        OneArtifact(n, id, local, i, objects, weather);
        ListsOneMore(receipt, n, id, local, i);
        PublishOneFacts(n, KeyOf(n, id, name), local[name], objects, weather);
        ghost var one := PublishOne(n, KeyOf(n, id, name), local[name], objects, weather);
        var stop;
        stop, weather := PublishArtifact(n, KeyOf(n, id, name), local[name], weather);
        assert stop == one.0 && objects == one.1 && weather == one.2;
        if stop.Some? {
          assert result == (stop.value, objects);
          return stop.value, receipt;
        }
        receipt := Receipt(receipt.keys[name := KeyOf(n, id, name)],
                           receipt.checksums[name := CHECKSUM_PREFIX + n.sha256(local[name])]);
      }
      outcome := Published;
      NothingLeft(n, id, local, objects, weather);
      assert result == (Published, objects);
      if CollisionFree(n, before, local) { PublishedBytes(n, id, local, before, w); }
    }

    method PublishArtifact(n: Naming, key: string, bytes: Bytes, w: Weather) returns (stop: Option<Outcome>, rest: Weather)
      modifies this
      ensures (stop, objects, rest) == PublishOne(n, key, bytes, old(objects), w)
    {
      if w.budget == 0 { return Some(Interrupted), w; }
      if key in objects {
        if !Matches(n, objects[key], bytes) { return Some(Conflict(key)), w; }
        if w.budget == 1 { return Some(Interrupted), w; }
        return None, w.(budget := w.budget - 2);
      }
      if w.budget == 1 {
        if w.lateFailure { objects := objects[key := bytes]; }
        return Some(Interrupted), w;
      }
      objects := objects[key := bytes];
      if w.budget == 2 { return Some(Interrupted), w; }
      return None, w.(budget := w.budget - 3);
    }
  }

  // The receipt names key and checksum of exactly these artifacts.
  ghost predicate Lists(receipt: Receipt, n: Naming, id: Identity, local: Local, names: seq<Artifact>) {
    && receipt.keys.Keys == receipt.checksums.Keys == (set a | a in names)
    && forall a <- receipt.keys ::
         a in local && receipt.keys[a] == KeyOf(n, id, a) && receipt.checksums[a] == CHECKSUM_PREFIX + n.sha256(local[a])
  }

  lemma ListsOneMore(receipt: Receipt, n: Naming, id: Identity, local: Local, i: nat)
    requires i < |ARTIFACT_ORDER| && Complete(local) && Lists(receipt, n, id, local, ARTIFACT_ORDER[..i])
    ensures var a := ARTIFACT_ORDER[i];
            Lists(Receipt(receipt.keys[a := KeyOf(n, id, a)], receipt.checksums[a := CHECKSUM_PREFIX + n.sha256(local[a])]),
                  n, id, local, ARTIFACT_ORDER[..i + 1])
  {
    hide KeyOf;
    assert ARTIFACT_ORDER[..i + 1] == ARTIFACT_ORDER[..i] + [ARTIFACT_ORDER[i]];
    assert ARTIFACT_ORDER[i] in ARTIFACT_ORDER;
  }

  lemma OneArtifact(n: Naming, id: Identity, local: Local, i: nat, objects: Objects, w: Weather)
    requires i < |ARTIFACT_ORDER| && Complete(local)
    ensures ARTIFACT_ORDER[i] in local && forall a <- ARTIFACT_ORDER[i + 1..] :: a in local
    ensures forall a <- ARTIFACT_ORDER[i..] :: a in local
    ensures PublishFrom(n, id, local, ARTIFACT_ORDER[i..], objects, w) ==
            var (stop, after, w') := PublishOne(n, KeyOf(n, id, ARTIFACT_ORDER[i]), local[ARTIFACT_ORDER[i]], objects, w);
            if stop.Some? then (stop.value, after)
            else PublishFrom(n, id, local, ARTIFACT_ORDER[i + 1..], after, w')
  {
    hide KeyOf, PublishOne;
    assert ARTIFACT_ORDER[i] in ARTIFACT_ORDER && forall a <- ARTIFACT_ORDER[i..] :: a in ARTIFACT_ORDER;
    assert ARTIFACT_ORDER[i..][0] == ARTIFACT_ORDER[i] && ARTIFACT_ORDER[i..][1..] == ARTIFACT_ORDER[i + 1..];
  }

  lemma NothingLeft(n: Naming, id: Identity, local: Local, objects: Objects, w: Weather)
    ensures PublishFrom(n, id, local, ARTIFACT_ORDER[|ARTIFACT_ORDER|..], objects, w) == (Published, objects)
  {
    assert ARTIFACT_ORDER[|ARTIFACT_ORDER|..] == [];
  }
}
