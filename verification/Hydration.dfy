/**
  Hydration of a promoted version into the local serving cache.

  A version directory that passes the cached check is reused; otherwise the artifacts are downloaded,
  checked, extracted and put in place.  Both ways are meant to end in the same files.
 */
module Hydration {
  import opened Identifiers
  import opened Wrappers
  import opened RelativePaths
  import opened Formats
  import opened Publication
  import opened Bundles
  import opened SyncProtocol
  import Strings = Text

  // What the registry knows about a source.
  datatype Registered = Registered(
    id: SourceId, alias: string, url: string, includes: seq<string>, excludes: seq<string>, current: Option<VersionId>)

  // The files of one version directory, as far as they exist.
  datatype VersionDir = VersionDir(
    ready: Option<Bytes>, manifest: Option<Bytes>, graph: Option<Bytes>, archive: Option<Bytes>, source: Option<Tree>)

  const SERVING_ARTIFACTS: seq<Artifact> := [ManifestFile, GraphFile, SourceArchive]

  /******* Checksums and downloads *******/

  function ExpectedDigest(c: Codec, row: Version, a: Artifact): Option<string> {
    if a in row.checksums && CHECKSUM_PREFIX <= row.checksums[a] && |row.checksums[a]| == 71
       && c.base16(row.checksums[a][|CHECKSUM_PREFIX|..])
    then Some(row.checksums[a][|CHECKSUM_PREFIX|..]) else None
  }

  predicate DigestMatches(c: Codec, row: Version, a: Artifact, content: Bytes) {
    ExpectedDigest(c, row, a) == Some(c.Sha(content))
  }

  predicate KeyUsable(row: Version, a: Artifact) {
    a in row.keys && row.keys[a] != "" && Name(row.keys[a]) == FileName(a)
  }

  // The object under the recorded key, when it has the recorded digest.
  function Fetch(c: Codec, row: Version, objects: Objects, a: Artifact): Option<Bytes> {
    if KeyUsable(row, a) && row.keys[a] in objects && DigestMatches(c, row, a, objects[row.keys[a]])
    then Some(objects[row.keys[a]]) else None
  }

  // The manifest must be about this source, scope and commit and describe graph and archive.
  function ManifestAgrees(c: Codec, source: Registered, row: Version, manifest: Bytes, graph: Bytes, archive: Bytes)
    : Result<Json, Failure>
  {
    match c.LoadObject(manifest)
    case Err(f) => Err(f)
    case Ok(m) =>
      var artifacts := Get(m, "artifacts");
      if Get(m, "source") != IdentityJson(c, source.id, source.alias, source.url, row.id.commit, source.includes, source.excludes)
      then Err(Refused)
      else if !artifacts.Object? then Err(Refused)
      else if !DescribesFile(c, Get(artifacts, "graph"), GraphFile, graph) then Err(Refused)
      else if !DescribesFile(c, Get(artifacts, "source"), SourceArchive, archive) then Err(Refused)
      else Ok(m)
  }

  /******* Extraction *******/

  datatype Unpacked = Unpacked(tree: Tree, size: nat, count: nat)

  // One member is written; a path that is already a file is written over.
  function ExtractMember(u: Unpacked, m: Member, limit: int): Result<Unpacked, Failure> {
    match SafePath(m.name)
    case None => Err(Refused)
    case Some(p) =>
      if m.kind != File || u.size + |m.content| > limit || !Writable(u.tree, p) then Err(Refused)
      else Ok(Unpacked(u.tree[p := m.content], u.size + |m.content|, u.count + 1))
  }

  function ExtractMembers(members: seq<Member>, limit: int): Result<Unpacked, Failure> {
    if members == [] then Ok(Unpacked(map[], 0, 0))
    else
      match ExtractMembers(members[..|members| - 1], limit)
      case Err(f) => Err(f)
      case Ok(u) => ExtractMember(u, members[|members| - 1], limit)
  }

  // The whole archive, against the counts in the manifest.
  function Extract(archive: Archive, entry: Json, limit: int): Result<Tree, Failure> {
    if limit <= 0 then Err(Raised)
    else
      match ExtractMembers(archive.members, limit)
      case Err(f) => Err(f)
      case Ok(u) =>
        if archive.broken then Err(Raised)
        else if Get(entry, "expanded_size_bytes") != Number(u.size) || Get(entry, "file_count") != Number(u.count) then Err(Refused)
        else Ok(u.tree)
  }

  function ServingProblem(c: Codec, graph: Bytes, tree: Tree): Option<Failure> {
    match c.LoadObject(graph)
    case Err(f) => Some(f)
    case Ok(g) => GraphProblem(g, ServingFiles(tree))
  }

  // The slow path, ending in a complete directory.
  function Fresh(c: Codec, source: Registered, row: Version, objects: Objects, limit: int): Result<VersionDir, Failure> {
    match (Fetch(c, row, objects, ManifestFile), Fetch(c, row, objects, GraphFile), Fetch(c, row, objects, SourceArchive))
    case (Some(manifest), Some(graph), Some(archive)) => FreshFrom(c, source, row, manifest, graph, archive, limit)
    case _ => Err(Refused)
  }

  function FreshFrom(c: Codec, source: Registered, row: Version, manifest: Bytes, graph: Bytes, archive: Bytes, limit: int)
    : Result<VersionDir, Failure>
    requires DigestMatches(c, row, ManifestFile, manifest)
  {
    match ManifestAgrees(c, source, row, manifest, graph, archive)
    case Err(f) => Err(f)
    case Ok(m) =>
      match Extract(c.unpack(archive), Get(Get(m, "artifacts"), "source"), limit)
      case Err(f) => Err(f)
      case Ok(tree) =>
        match ServingProblem(c, graph, tree)
        case Some(f) => Err(f)
        case None =>
          Ok(VersionDir(Some(c.encodeText(ExpectedDigest(c, row, ManifestFile).value + "\n")),
                        Some(manifest), Some(graph), Some(archive), Some(tree)))
  }

  /******* The cached check *******/

  // An archive member against the extracted files.  A link raises before it can be refused.
  function MemberProblem(c: Codec, tree: Tree, m: Member): Option<Failure> {
    match SafePath(m.name)
    case None => Some(Refused)
    case Some(p) =>
      if m.kind == Link then Some(Raised)
      else if m.kind != File || p !in tree || c.Sha(m.content) != c.Sha(tree[p]) then Some(Refused)
      else None
  }

  function MembersProblem(c: Codec, tree: Tree, members: seq<Member>): Option<Failure> {
    if members == [] then None
    else
      match MembersProblem(c, tree, members[..|members| - 1])
      case Some(f) => Some(f)
      case None => MemberProblem(c, tree, members[|members| - 1])
  }

  function PathsOf(members: seq<Member>): set<Path> {
    set m | m in members && SafePath(m.name).Some? :: SafePath(m.name).value
  }

  function ExtractedProblem(c: Codec, tree: Tree, archive: Archive): Option<Failure> {
    match MembersProblem(c, tree, archive.members)
    case Some(f) => Some(f)
    case None =>
      if archive.broken then Some(Raised)
      else if tree.Keys != PathsOf(archive.members) then Some(Refused)
      else None
  }

  // Why an existing directory is not reused, if it is not.
  function CachedProblem(c: Codec, source: Registered, row: Version, d: VersionDir): Option<Failure> {
    match (d.ready, d.manifest, d.graph, d.archive, d.source)
    case (Some(ready), Some(manifest), Some(graph), Some(archive), Some(tree)) =>
      (match c.decodeText(ready)
       case None => Some(Refused)
       case Some(text) =>
         if ExpectedDigest(c, row, ManifestFile) != Some(Strings.Strip(text)) then Some(Refused)
         else if !DigestMatches(c, row, ManifestFile, manifest) || !DigestMatches(c, row, GraphFile, graph)
                 || !DigestMatches(c, row, SourceArchive, archive) then Some(Refused)
         else if ManifestAgrees(c, source, row, manifest, graph, archive).Err? then Some(Refused)
         else
           match ExtractedProblem(c, tree, c.unpack(archive))
           case Some(f) => Some(f)
           case None => ServingProblem(c, graph, tree))
    case _ => Some(Refused)
  }

  /******* Hydration *******/

  // The cache of one source: its version directories and the current pointer.
  datatype Cache = Cache(dirs: map<VersionId, VersionDir>, current: Option<VersionId>)

  predicate Promotable(source: Registered, v: VersionId, row: Version, bucketSet: bool) {
    bucketSet && source.current == Some(v) && row.id.source == source.id && row.status == Succeeded
  }

  function Hydrate(c: Codec, source: Registered, v: VersionId, row: Version, bucketSet: bool, objects: Objects,
                   limit: int, cache: Cache): (Option<Failure>, Cache)
  {
    if !Promotable(source, v, row, bucketSet) then (Some(Refused), cache)
    else
      match (if v in cache.dirs then CachedProblem(c, source, row, cache.dirs[v]) else Some(Refused))
      case None => (None, cache.(current := Some(v)))
      case Some(Raised) => (Some(Raised), cache)
      case Some(Refused) =>
        match Fresh(c, source, row, objects, limit)
        case Err(f) => (Some(f), cache)
        case Ok(d) => (None, Cache(cache.dirs[v := d], Some(v)))
  }

  /******* What extraction leaves behind *******/

  // The content of the last member with this path.
  function LastContent(members: seq<Member>, p: Path): Option<Bytes> {
    if members == [] then None
    else
      var m := members[|members| - 1];
      if SafePath(m.name) == Some(p) then Some(m.content) else LastContent(members[..|members| - 1], p)
  }

  ghost predicate HoldsLast(tree: Tree, members: seq<Member>) {
    forall p :: if p in tree then LastContent(members, p) == Some(tree[p]) else LastContent(members, p) == None
  }

  lemma {:induction false} ExtractMeaning(members: seq<Member>, limit: int)
    requires ExtractMembers(members, limit).Ok?
    ensures var u := ExtractMembers(members, limit).value;
            && HoldsLast(u.tree, members) && u.size == TotalSize(members) && u.count == |members|
            && forall m <- members :: m.kind == File && SafePath(m.name).Some?
  {
    if members != [] {
      var init, last := members[..|members| - 1], members[|members| - 1];
      assert members == init + [last];
      ExtractMeaning(init, limit);
      hide SafePath, Writable;
    }
  }

  lemma {:induction false} LastContentIsMember(members: seq<Member>, p: Path)
    ensures LastContent(members, p).Some? ==>
              exists m :: m in members && SafePath(m.name) == Some(p) && m.content == LastContent(members, p).value
    ensures LastContent(members, p).None? ==> forall m <- members :: SafePath(m.name) != Some(p)
  {
    if members != [] {
      var init, last := members[..|members| - 1], members[|members| - 1];
      assert members == init + [last];
      LastContentIsMember(init, p);
      hide SafePath;
    }
  }

  lemma {:induction false} MembersProblemMeaning(c: Codec, tree: Tree, members: seq<Member>)
    ensures MembersProblem(c, tree, members) == None <==> forall m <- members :: MemberProblem(c, tree, m) == None
  {
    if members != [] {
      var init, last := members[..|members| - 1], members[|members| - 1];
      assert members == init + [last];
      MembersProblemMeaning(c, tree, init);
      hide MemberProblem;
    }
  }

  /******* A cache hit agrees with the slow path *******/

  ghost predicate NoCollision(c: Codec, contents: set<Bytes>) {
    forall x, y | x in contents && y in contents :: c.Sha(x) == c.Sha(y) ==> x == y
  }

  function ValueOr(x: Option<Bytes>): set<Bytes> {
    match x case Some(b) => {b} case None => {}
  }

  // Everything that is stored in a version directory, its mark aside.
  function Contents(d: VersionDir): set<Bytes> {
    ValueOr(d.manifest) + ValueOr(d.graph) + ValueOr(d.archive) + (match d.source case Some(t) => t.Values case None => {})
  }

  lemma AcceptedTree(c: Codec, tree: Tree, archive: Archive, written: Tree, limit: int, contents: set<Bytes>)
    requires ExtractedProblem(c, tree, archive) == None
    requires ExtractMembers(archive.members, limit).Ok? && ExtractMembers(archive.members, limit).value.tree == written
    requires NoCollision(c, contents) && tree.Values <= contents && written.Values <= contents
    ensures tree == written
  {
    var members := archive.members;
    ExtractMeaning(members, limit);
    MembersProblemMeaning(c, tree, members);
    hide *;
    forall p ensures p in tree <==> p in written { SamePath(c, tree, archive, written, p); }
    forall p | p in tree ensures p in written && tree[p] == written[p] {
      SameContent(c, tree, members, written, p, contents);
    }
  }

  lemma SamePath(c: Codec, tree: Tree, archive: Archive, written: Tree, p: Path)
    requires ExtractedProblem(c, tree, archive) == None && HoldsLast(written, archive.members)
    ensures p in tree <==> p in written
  {
    LastContentIsMember(archive.members, p);
    hide SafePath, MemberProblem, MembersProblem, LastContent;
  }

  lemma SameContent(c: Codec, tree: Tree, members: seq<Member>, written: Tree, p: Path, contents: set<Bytes>)
    requires HoldsLast(written, members) && p in tree && p in written
    requires forall m <- members :: MemberProblem(c, tree, m) == None
    requires NoCollision(c, contents) && tree.Values <= contents && written.Values <= contents
    ensures tree[p] == written[p]
  {
    LastContentIsMember(members, p);
    hide SafePath, LastContent;
    var m :| m in members && SafePath(m.name) == Some(p) && m.content == written[p];
    assert MemberProblem(c, tree, m) == None;
    assert tree[p] in tree.Values && written[p] in written.Values;
  }

  // If a directory is accepted as it is and a fresh download and extraction would succeed as well, both
  // hold the same manifest, graph, archive and source files, with none missing and none extra.
  lemma CacheHitAgrees(c: Codec, source: Registered, row: Version, d: VersionDir, objects: Objects, limit: int)
    requires CachedProblem(c, source, row, d) == None && Fresh(c, source, row, objects, limit).Ok?
    requires NoCollision(c, Contents(d) + Contents(Fresh(c, source, row, objects, limit).value))
    ensures d.(ready := None) == Fresh(c, source, row, objects, limit).value.(ready := None)
  {
    var f := Fresh(c, source, row, objects, limit).value;
    var contents := Contents(d) + Contents(f);
    FreshParts(c, source, row, objects, limit);
    CachedParts(c, source, row, d);
    assert d.manifest.value in contents && d.graph.value in contents && d.archive.value in contents;
    assert f.manifest.value in contents && f.graph.value in contents && f.archive.value in contents;
    hide CachedProblem, Fresh, ManifestAgrees, ExpectedDigest, Extract, ExtractedProblem, ServingProblem, Contents;
    assert d.archive == f.archive && d.graph == f.graph && d.manifest == f.manifest;
    ContentsOfSource(d);
    ContentsOfSource(f);
    AcceptedTree(c, d.source.value, c.unpack(d.archive.value), f.source.value, limit, contents);
  }

  lemma ContentsOfSource(d: VersionDir)
    requires d.source.Some?
    ensures d.source.value.Values <= Contents(d)
  {
  }

  lemma CachedParts(c: Codec, source: Registered, row: Version, d: VersionDir)
    requires CachedProblem(c, source, row, d) == None
    ensures d.manifest.Some? && d.graph.Some? && d.archive.Some? && d.source.Some?
    ensures DigestMatches(c, row, ManifestFile, d.manifest.value) && DigestMatches(c, row, GraphFile, d.graph.value)
            && DigestMatches(c, row, SourceArchive, d.archive.value)
    ensures ExtractedProblem(c, d.source.value, c.unpack(d.archive.value)) == None
  {
    hide ManifestAgrees, ExpectedDigest, ExtractedProblem, ServingProblem;
  }

  lemma FreshParts(c: Codec, source: Registered, row: Version, objects: Objects, limit: int)
    requires Fresh(c, source, row, objects, limit).Ok?
    ensures var f := Fresh(c, source, row, objects, limit).value;
            && f.ready.Some? && f.manifest.Some? && f.graph.Some? && f.archive.Some? && f.source.Some?
            && DigestMatches(c, row, ManifestFile, f.manifest.value) && DigestMatches(c, row, GraphFile, f.graph.value)
            && DigestMatches(c, row, SourceArchive, f.archive.value)
            && ManifestAgrees(c, source, row, f.manifest.value, f.graph.value, f.archive.value).Ok?
            && ExtractMembers(c.unpack(f.archive.value).members, limit).Ok?
            && ExtractMembers(c.unpack(f.archive.value).members, limit).value.tree == f.source.value
            && !c.unpack(f.archive.value).broken
            && ServingProblem(c, f.graph.value, f.source.value) == None
            && f.ready == Some(c.encodeText(ExpectedDigest(c, row, ManifestFile).value + "\n"))
  {
    hide ManifestAgrees, ExpectedDigest, ExtractMembers, ServingProblem, KeyUsable;
  }

  /******* When a fresh directory is accepted later on *******/

  // Members with the same path have the same content.
  ghost predicate DuplicatesAgree(members: seq<Member>) {
    forall m, m' | m in members && m' in members ::
      SafePath(m.name).Some? && SafePath(m.name) == SafePath(m'.name) ==> m.content == m'.content
  }

  function MemberContents(members: seq<Member>): set<Bytes> {
    set m | m in members :: m.content
  }

  lemma SamePaths(members: seq<Member>, tree: Tree)
    requires HoldsLast(tree, members)
    ensures tree.Keys == PathsOf(members)
  {
    forall p ensures p in tree <==> p in PathsOf(members) {
      LastContentIsMember(members, p);
      hide SafePath;
    }
  }

  lemma LastOf(members: seq<Member>, tree: Tree, m: Member)
    requires HoldsLast(tree, members) && m in members && SafePath(m.name).Some?
    ensures var p := SafePath(m.name).value;
            p in tree && exists last :: last in members && SafePath(last.name) == Some(p) && last.content == tree[p]
  {
    LastContentIsMember(members, SafePath(m.name).value);
    hide SafePath, LastContent;
  }

  lemma AgreeingIsAccepted(c: Codec, members: seq<Member>, tree: Tree, m: Member)
    requires HoldsLast(tree, members) && m in members && m.kind == File && SafePath(m.name).Some?
    requires DuplicatesAgree(members)
    ensures MemberProblem(c, tree, m) == None
  {
    LastOf(members, tree, m);
    var p := SafePath(m.name).value;
    var last :| last in members && SafePath(last.name) == Some(p) && last.content == tree[p];
    hide SafePath, HoldsLast;
    assert m.content == last.content;
  }

  lemma AcceptedAgree(c: Codec, members: seq<Member>, tree: Tree, m: Member, m': Member)
    requires m in members && m' in members && NoCollision(c, MemberContents(members))
    requires MemberProblem(c, tree, m) == None && MemberProblem(c, tree, m') == None
    requires SafePath(m.name) == SafePath(m'.name)
    ensures m.content == m'.content
  {
    hide SafePath, NoCollision, MemberContents;
    if m.content != m'.content { DistinctDigests(c, members, m, m'); }
  }

  lemma DuplicatesIff(c: Codec, members: seq<Member>, tree: Tree)
    requires HoldsLast(tree, members) && forall m <- members :: m.kind == File && SafePath(m.name).Some?
    requires NoCollision(c, MemberContents(members))
    ensures (forall m <- members :: MemberProblem(c, tree, m) == None) <==> DuplicatesAgree(members)
  {
    hide SafePath, HoldsLast, NoCollision, MemberContents, MemberProblem;
    if DuplicatesAgree(members) {
      forall m | m in members ensures MemberProblem(c, tree, m) == None { AgreeingIsAccepted(c, members, tree, m); }
    }
    if forall m <- members :: MemberProblem(c, tree, m) == None {
      forall m, m' | m in members && m' in members && SafePath(m.name) == SafePath(m'.name)
        ensures m.content == m'.content
      {
        AcceptedAgree(c, members, tree, m, m');
      }
    }
  }

  lemma DistinctDigests(c: Codec, members: seq<Member>, m: Member, m': Member)
    requires NoCollision(c, MemberContents(members)) && m in members && m' in members && m.content != m'.content
    ensures c.Sha(m.content) != c.Sha(m'.content)
  {
    assert m.content in MemberContents(members) && m'.content in MemberContents(members);
  }

  lemma ExtractedIff(c: Codec, archive: Archive, limit: int)
    requires ExtractMembers(archive.members, limit).Ok? && !archive.broken
    requires NoCollision(c, MemberContents(archive.members))
    ensures ExtractedProblem(c, ExtractMembers(archive.members, limit).value.tree, archive) == None <==> DuplicatesAgree(archive.members)
  {
    var members, tree := archive.members, ExtractMembers(archive.members, limit).value.tree;
    ExtractMeaning(members, limit);
    MembersProblemMeaning(c, tree, members);
    SamePaths(members, tree);
    DuplicatesIff(c, members, tree);
    hide ExtractMembers, MembersProblem, MemberProblem, PathsOf, HoldsLast, DuplicatesAgree, NoCollision;
  }

  lemma ReadyMark(c: Codec, row: Version, manifest: Bytes)
    requires c.Valid() && DigestMatches(c, row, ManifestFile, manifest)
    ensures var ready := c.encodeText(ExpectedDigest(c, row, ManifestFile).value + "\n");
            && c.decodeText(ready).Some?
            && Some(Strings.Strip(c.decodeText(ready).value)) == ExpectedDigest(c, row, ManifestFile)
  {
    var digest := c.Sha(manifest);
    assert HexDigits(digest) && |digest| == 64;
    hide Codec.Valid, ExpectedDigest;
    assert c.decodeText(c.encodeText(digest + "\n")) == Some(digest + "\n") by { TextReadsBack(c, digest + "\n"); }
    Strings.StripLine(digest);
  }

  lemma TextReadsBack(c: Codec, s: string)
    requires c.Valid()
    ensures c.decodeText(c.encodeText(s)) == Some(s)
  {
  }

  // A directory that hydration has just put in place is accepted by the next cached check exactly when
  // the archive holds no path twice with different contents.
  lemma FreshIsAcceptedIff(c: Codec, source: Registered, row: Version, objects: Objects, limit: int)
    requires c.Valid() && Fresh(c, source, row, objects, limit).Ok?
    requires NoCollision(c, MemberContents(c.unpack(Fresh(c, source, row, objects, limit).value.archive.value).members))
    ensures var f := Fresh(c, source, row, objects, limit).value;
            CachedProblem(c, source, row, f) == None <==> DuplicatesAgree(c.unpack(f.archive.value).members)
  {
    var f := Fresh(c, source, row, objects, limit).value;
    FreshParts(c, source, row, objects, limit);
    ExtractedIff(c, c.unpack(f.archive.value), limit);
    ReadyMark(c, row, f.manifest.value);
    hide Fresh, Codec.Valid, ManifestAgrees, ExpectedDigest, ExtractMembers, ExtractedProblem, ServingProblem, DuplicatesAgree, NoCollision, DigestMatches;
  }

  /******* Build, publish, promote, hydrate *******/

  function TreeOf(c: Codec, r: Request, visited: seq<Path>): Tree {
    map p | p in visited && p in r.snapshot && InScope(c, r, p) :: r.snapshot[p]
  }

  ghost predicate Restored(c: Codec, r: Request, visited: seq<Path>, limit: int) {
    && (forall p <- visited :: p in r.snapshot)
    && var members := MembersOf(c, r, visited);
       ExtractMembers(members, limit) == Ok(Unpacked(TreeOf(c, r, visited), TotalSize(members), |members|))
  }

  lemma RestoresOneMore(c: Codec, r: Request, visited: seq<Path>, p: Path, limit: int)
    requires Listed(r) && p in r.listing && Restored(c, r, visited, limit) && InScope(c, r, p)
    requires '\\' !in Join(p) && TotalSize(MembersOf(c, r, visited)) + |r.snapshot[p]| <= limit
    ensures Restored(c, r, visited + [p], limit)
  {
    var members, m := MembersOf(c, r, visited), Member(Join(p), File, r.snapshot[p]);
    assert (visited + [p])[..|visited|] == visited;
    assert MembersOf(c, r, visited + [p]) == members + [m];
    assert p in r.snapshot;
    ProperSafePath(r, m, p);
    OneMoreVisited(c, r, visited, p);
    hide MembersOf, InScope, Listed, SafePath, Join, ExtractMembers, TotalSize, TreeOf, Writable;
    UnpackOneMore(members, m, p, TreeOf(c, r, visited), limit);
  }

  lemma UnpackOneMore(members: seq<Member>, m: Member, p: Path, tree: Tree, limit: int)
    requires ExtractMembers(members, limit) == Ok(Unpacked(tree, TotalSize(members), |members|))
    requires SafePath(m.name) == Some(p) && m.kind == File && Writable(tree, p) && TotalSize(members) + |m.content| <= limit
    ensures ExtractMembers(members + [m], limit) == Ok(Unpacked(tree[p := m.content], TotalSize(members + [m]), |members + [m]|))
  {
    hide SafePath, ExtractMembers, TotalSize, Writable;
    AddedSize(members, m);
    ExtractOneMore(members, m, limit);
  }

  lemma RestoresOutOfScope(c: Codec, r: Request, visited: seq<Path>, p: Path, limit: int)
    requires p in r.snapshot && Restored(c, r, visited, limit) && !InScope(c, r, p)
    ensures Restored(c, r, visited + [p], limit)
  {
    assert (visited + [p])[..|visited|] == visited;
    assert MembersOf(c, r, visited + [p]) == MembersOf(c, r, visited);
    assert TreeOf(c, r, visited + [p]) == TreeOf(c, r, visited);
  }

  // Extracting what was archived restores the visited files of the selection.
  lemma {:induction false} ExtractVisited(c: Codec, r: Request, visited: seq<Path>, limit: int)
    requires Listed(r) && 0 <= limit && forall p <- visited :: p in r.listing
    requires forall m <- MembersOf(c, r, visited) :: '\\' !in m.name
    requires TotalSize(MembersOf(c, r, visited)) <= limit
    ensures Restored(c, r, visited, limit)
  {
    if visited == [] {
      assert TreeOf(c, r, visited) == map[];
    } else {
      var init, p := visited[..|visited| - 1], visited[|visited| - 1];
      assert visited == init + [p] && p in visited;
      VisitedMembers(c, r, init, p);
      hide MembersOf, TotalSize, InScope, Restored, Join, Listed;
      ExtractVisited(c, r, init, limit);
      if InScope(c, r, p) {
        RestoresOneMore(c, r, init, p, limit);
      } else {
        RestoresOutOfScope(c, r, init, p, limit);
      }
    }
  }

  lemma VisitedMembers(c: Codec, r: Request, visited: seq<Path>, p: Path)
    requires Listed(r) && forall q <- visited + [p] :: q in r.listing
    ensures p in r.snapshot && forall q <- visited :: q in visited + [p] && q in r.listing
    ensures var members, more := MembersOf(c, r, visited), MembersOf(c, r, visited + [p]);
            && (forall m <- members :: m in more) && TotalSize(members) <= TotalSize(more)
            && (InScope(c, r, p) ==> TotalSize(more) == TotalSize(members) + |r.snapshot[p]| && Member(Join(p), File, r.snapshot[p]) in more)
  {
    assert p in visited + [p];
    assert (visited + [p])[..|visited|] == visited;
    AddedSize(MembersOf(c, r, visited), Member(Join(p), File, r.snapshot[p]));
    assert MembersOf(c, r, visited) + [] == MembersOf(c, r, visited);
    hide TotalSize, InScope, Join;
  }

  lemma AddedSize(members: seq<Member>, m: Member)
    ensures TotalSize(members + [m]) == TotalSize(members) + |m.content|
  {
    assert (members + [m])[..|members|] == members;
  }

  lemma ProperSafePath(r: Request, m: Member, p: Path)
    requires Listed(r) && p in r.listing && m.name == Join(p) && '\\' !in m.name
    ensures SafePath(m.name) == Some(p)
  {
    SafeOfJoin(p);
  }

  lemma ExtractOneMore(members: seq<Member>, m: Member, limit: int)
    requires ExtractMembers(members, limit).Ok?
    ensures ExtractMembers(members + [m], limit) == ExtractMember(ExtractMembers(members, limit).value, m, limit)
  {
    assert (members + [m])[..|members|] == members;
    hide ExtractMember;
  }

  lemma OneMoreVisited(c: Codec, r: Request, visited: seq<Path>, p: Path)
    requires Listed(r) && p in r.snapshot && InScope(c, r, p)
    ensures Writable(TreeOf(c, r, visited), p)
    ensures TreeOf(c, r, visited + [p]) == TreeOf(c, r, visited)[p := r.snapshot[p]]
  {
  }

  // The registry row of a version that was built from this request and promoted.
  ghost predicate RowOf(c: Codec, r: Request, local: Local, row: Version) {
    RowHolds(c, local, row) && row.id == Identity(r.source, r.commit, r.configHash)
  }

  // The row records exactly these artifacts.
  ghost predicate RowHolds(c: Codec, local: Local, row: Version) {
    && Complete(local) && row.status == Succeeded
    && row.keys == AllKeys(c.naming, row.id) && row.checksums == AllChecksums(c.naming, local)
  }

  // Promotion leaves such a row and points the source at it.
  lemma PromotedRow(c: Codec, w: World, source: SourceId, run: RunId, v: VersionId, local: Local, now: Time)
    requires Complete(local) && RecordsMatch(w, source, run, v)
    ensures var w' := Promoted(c.naming, w, source, run, v, local, now);
            && v in w'.versions && RowHolds(c, local, w'.versions[v]) && w'.versions[v].id == w.versions[v].id
            && source in w'.sources && w'.sources[source].current == Some(v)
  {
    hide AllKeys, AllChecksums;
  }

  // The registry entry still names the source and scope of the request.
  predicate SameScope(source: Registered, r: Request) {
    source.id == r.source && source.alias == r.alias && source.url == r.url
    && source.includes == r.includes && source.excludes == r.excludes
  }

  ghost predicate StoredUnder(c: Codec, row: Version, local: Local, objects: Objects) {
    forall a <- SERVING_ARTIFACTS :: a in row.keys && a in local && row.keys[a] in objects && objects[row.keys[a]] == local[a]
  }

  lemma KeyNamesFile(n: Naming, id: Identity, a: Artifact)
    ensures KeyOf(n, id, a) != "" && Name(KeyOf(n, id, a)) == FileName(a)
  {
    FileNamesAreProper(a);
    NameOfAppended(OBJECT_PREFIX + n.uuid(id.source) + "/" + id.commit + "/" + id.configHash, FileName(a));
  }

  lemma ServingAreArtifacts(a: Artifact)
    requires a in SERVING_ARTIFACTS
    ensures a in ARTIFACT_ORDER
  {
  }

  lemma RecordedDigest(c: Codec, row: Version, a: Artifact, content: Bytes)
    requires c.Valid() && a in row.checksums && row.checksums[a] == CHECKSUM_PREFIX + c.Sha(content)
    ensures DigestMatches(c, row, a, content)
  {
    var digest := c.Sha(content);
    assert |digest| == 64 && c.base16(digest);
    hide Codec.Valid;
    assert (CHECKSUM_PREFIX + digest)[|CHECKSUM_PREFIX|..] == digest;
  }

  lemma FetchesLocal(c: Codec, local: Local, row: Version, objects: Objects, a: Artifact)
    requires c.Valid() && RowHolds(c, local, row) && StoredUnder(c, row, local, objects) && a in SERVING_ARTIFACTS
    ensures Fetch(c, row, objects, a) == Some(local[a]) && DigestMatches(c, row, a, local[a])
  {
    ServingAreArtifacts(a);
    KeyNamesFile(c.naming, row.id, a);
    RecordedDigest(c, row, a, local[a]);
    hide KeyOf, Name, FileName, Codec.Valid, DigestMatches;
  }

  // The directory that the slow path produces for a bundle.
  function BundleDir(c: Codec, r: Request, local: Local): VersionDir
    requires Complete(local)
  {
    VersionDir(Some(c.encodeText(c.Sha(local[ManifestFile]) + "\n")), Some(local[ManifestFile]), Some(local[GraphFile]),
               Some(local[SourceArchive]), Some(Selected(c, r)))
  }

  lemma ExtractsSelected(c: Codec, r: Request, entry: Json, limit: int)
    requires Listed(r) && Admissible(MembersOf(c, r, r.listing), limit) && limit > 0
    requires Get(entry, "expanded_size_bytes") == Number(TotalSize(MembersOf(c, r, r.listing)))
    requires Get(entry, "file_count") == Number(|MembersOf(c, r, r.listing)|)
    ensures Extract(Archive(MembersOf(c, r, r.listing), false), entry, limit) == Ok(Selected(c, r))
  {
    AdmissibleIff(c, r, limit);
    ExtractVisited(c, r, r.listing, limit);
    assert TreeOf(c, r, r.listing) == Selected(c, r);
  }

  // The selection is within the limit for extraction.
  predicate FitsLimit(c: Codec, r: Request, limit: int)
    requires forall p <- r.listing :: p in r.snapshot
  {
    limit > 0 && TotalSize(MembersOf(c, r, r.listing)) <= limit
  }

  // What was built is within the default limit of every consumer, and within any larger one.
  lemma DefaultLimitFits(c: Codec, r: Request, limit: int)
    requires c.Valid() && Listed(r) && Build(c, r).Ok? && limit >= MAX_EXPANDED_BYTES
    ensures FitsLimit(c, r, limit)
  {
    BuildSucceedsIff(c, r);
    hide Build, Listed, Codec.Valid;
  }

  // The slow path on a promoted bundle succeeds and restores exactly the selected files.
  lemma FreshRestores(c: Codec, r: Request, source: Registered, row: Version, objects: Objects, limit: int)
    requires c.Valid() && Listed(r) && Build(c, r).Ok? && FitsLimit(c, r, limit)
    requires SameScope(source, r) && RowOf(c, r, Build(c, r).value, row) && StoredUnder(c, row, Build(c, r).value, objects)
    ensures Fresh(c, source, row, objects, limit) == Ok(BundleDir(c, r, Build(c, r).value))
  {
    var local, members := Build(c, r).value, MembersOf(c, r, r.listing);
    BuiltFacts(c, r);
    var graph, indexed := c.LoadObject(r.graph).value, c.LoadObject(r.indexed).value;
    BuiltManifest(c, r, graph, indexed, members);
    var manifest := ManifestOf(c, r, graph, indexed, members);
    FetchesLocal(c, local, row, objects, ManifestFile);
    FetchesLocal(c, local, row, objects, GraphFile);
    FetchesLocal(c, local, row, objects, SourceArchive);
    BuiltGraphServes(c, graph, NamesOf(members), Selected(c, r));
    BuiltManifestAgrees(c, r, source, row, local, members, manifest);
    OtherLimit(members, MAX_EXPANDED_BYTES, limit);
    ExtractsSelected(c, r, Get(Get(manifest, "artifacts"), "source"), limit);
    RecordedDigest(c, row, ManifestFile, local[ManifestFile]);
    hide *;
    FreshOf(c, source, row, objects, local[ManifestFile], local[GraphFile], local[SourceArchive], manifest, Selected(c, r), limit);
    BundleDirIs(c, r, local);
  }

  lemma BundleDirIs(c: Codec, r: Request, local: Local)
    requires Complete(local)
    ensures BundleDir(c, r, local) == DirFrom(c, local[ManifestFile], local[GraphFile], local[SourceArchive], Selected(c, r))
  {
  }

  function DirFrom(c: Codec, manifest: Bytes, graph: Bytes, archive: Bytes, tree: Tree): VersionDir {
    VersionDir(Some(c.encodeText(c.Sha(manifest) + "\n")), Some(manifest), Some(graph), Some(archive), Some(tree))
  }

  lemma FreshOf(c: Codec, source: Registered, row: Version, objects: Objects, manifest: Bytes, graph: Bytes, archive: Bytes,
                m: Json, tree: Tree, limit: int)
    requires Fetch(c, row, objects, ManifestFile) == Some(manifest) && DigestMatches(c, row, ManifestFile, manifest)
    requires Fetch(c, row, objects, GraphFile) == Some(graph) && Fetch(c, row, objects, SourceArchive) == Some(archive)
    requires ManifestAgrees(c, source, row, manifest, graph, archive) == Ok(m)
    requires Extract(c.unpack(archive), Get(Get(m, "artifacts"), "source"), limit) == Ok(tree)
    requires ServingProblem(c, graph, tree) == None
    ensures Fresh(c, source, row, objects, limit) == Ok(DirFrom(c, manifest, graph, archive, tree))
  {
    hide Fetch, ManifestAgrees, Extract, ServingProblem, ExpectedDigest, Get;
  }

  lemma BuiltManifestAgrees(c: Codec, r: Request, source: Registered, row: Version, local: Local, members: seq<Member>, manifest: Json)
    requires SameScope(source, r) && row.id.commit == r.commit && IsManifestOf(c, r, local, members, manifest)
    requires c.LoadObject(local[ManifestFile]) == Ok(manifest)
    ensures ManifestAgrees(c, source, row, local[ManifestFile], local[GraphFile], local[SourceArchive]) == Ok(manifest)
  {
    hide Codec.LoadObject, IdentityJson, DescribesFile, Get, EntriesMatch, TotalSize;
  }

  lemma OtherLimit(members: seq<Member>, limit: int, other: int)
    requires Admissible(members, limit) && TotalSize(members) <= other
    ensures Admissible(members, other)
  {
  }

  lemma BuiltGraphServes(c: Codec, graph: Json, names: set<string>, tree: Tree)
    requires c.Valid() && graph.Object? && GraphProblem(graph, NamesSafePath) == None && NamesAreFiles(names, tree)
    ensures ServingProblem(c, c.compact(NormalizeGraph(graph, names)), tree) == None
    ensures c.LoadObject(c.compact(NormalizeGraph(graph, names))) == Ok(NormalizeGraph(graph, names))
  {
    NormalizedGraphServes(graph, names, tree);
    assert NormalizeGraph(graph, names).Object?;
    hide NormalizeGraph, GraphProblem, NamesAreFiles;
  }

  lemma {:induction false} FilesNeverRaise(c: Codec, tree: Tree, members: seq<Member>)
    requires forall m <- members :: m.kind == File
    ensures MembersProblem(c, tree, members) != Some(Raised)
  {
    if members != [] {
      assert members[|members| - 1] in members && forall m <- members[..|members| - 1] :: m in members;
      FilesNeverRaise(c, tree, members[..|members| - 1]);
      hide SafePath;
    }
  }

  // Which nodes are accepted can differ between two file sets, but a link problem cannot.
  lemma GraphNeverRaises(graph: Json, accepts: Json -> bool, accepts': Json -> bool)
    requires GraphProblem(graph, accepts) == None
    ensures GraphProblem(graph, accepts') != Some(Raised)
  {
    var nodes := Get(graph, "nodes").items;
    NodeIdsMeaning(nodes, accepts);
    NodeIdsMeaning(nodes, accepts');
    hide NodesDistinct, IsNode, NodeIds, LinksProblem, Get;
    if NodeIds(nodes, accepts').Some? {
      assert NodeIds(nodes, accepts').value == NodeIds(nodes, accepts).value;
    }
  }

  lemma ServingNeverRaises(c: Codec, graph: Bytes, tree: Tree, tree': Tree)
    requires ServingProblem(c, graph, tree) == None
    ensures ServingProblem(c, graph, tree') != Some(Raised)
  {
    var g := c.LoadObject(graph).value;
    GraphNeverRaises(g, ServingFiles(tree), ServingFiles(tree'));
    hide GraphProblem, ServingFiles;
  }

  // A directory that shares no digests by accident with the promoted bundle is judged without raising.
  lemma JudgedQuietly(c: Codec, source: Registered, row: Version, d: VersionDir, graph: Bytes, archive: Bytes, tree: Tree, contents: set<Bytes>)
    requires DigestMatches(c, row, GraphFile, graph) && DigestMatches(c, row, SourceArchive, archive)
    requires NoCollision(c, Contents(d) + contents) && graph in contents && archive in contents
    requires !c.unpack(archive).broken && (forall m <- c.unpack(archive).members :: m.kind == File)
    requires ServingProblem(c, graph, tree) == None
    ensures CachedProblem(c, source, row, d) != Some(Raised)
  {
    hide DigestMatches, ServingProblem, PathsOf, NoCollision, ExpectedDigest;
    if d.graph.Some? && d.archive.Some? && d.source.Some?
       && DigestMatches(c, row, GraphFile, d.graph.value) && DigestMatches(c, row, SourceArchive, d.archive.value) {
      assert d.graph.value in Contents(d) && d.archive.value in Contents(d);
      SameDigest(c, row, GraphFile, d.graph.value, graph, Contents(d) + contents);
      SameDigest(c, row, SourceArchive, d.archive.value, archive, Contents(d) + contents);
      FilesNeverRaise(c, d.source.value, c.unpack(archive).members);
      ServingNeverRaises(c, graph, tree, d.source.value);
    }
    hide ManifestAgrees, MembersProblem;
  }

  lemma SameDigest(c: Codec, row: Version, a: Artifact, x: Bytes, y: Bytes, contents: set<Bytes>)
    requires DigestMatches(c, row, a, x) && DigestMatches(c, row, a, y) && NoCollision(c, contents) && x in contents && y in contents
    ensures x == y
  {
    hide Codec.Sha, ExpectedDigest;
  }

  lemma BundleParts(c: Codec, r: Request, row: Version, source: Registered, objects: Objects, limit: int)
    requires c.Valid() && Listed(r) && Build(c, r).Ok? && FitsLimit(c, r, limit)
    requires SameScope(source, r) && RowOf(c, r, Build(c, r).value, row) && StoredUnder(c, row, Build(c, r).value, objects)
    ensures var local := Build(c, r).value;
            && DigestMatches(c, row, GraphFile, local[GraphFile]) && DigestMatches(c, row, SourceArchive, local[SourceArchive])
            && c.unpack(local[SourceArchive]) == Archive(MembersOf(c, r, r.listing), false)
            && (forall m <- MembersOf(c, r, r.listing) :: m.kind == File)
            && ServingProblem(c, local[GraphFile], Selected(c, r)) == None
            && c.LoadObject(local[GraphFile]) == Ok(ServedGraph(c, r))
  {
    var local, members := Build(c, r).value, MembersOf(c, r, r.listing);
    BuiltFacts(c, r);
    var graph, indexed := c.LoadObject(r.graph).value, c.LoadObject(r.indexed).value;
    BuiltManifest(c, r, graph, indexed, members);
    FetchesLocal(c, local, row, objects, GraphFile);
    FetchesLocal(c, local, row, objects, SourceArchive);
    BuiltGraphServes(c, graph, NamesOf(members), Selected(c, r));
    hide Build, LocalOf, IsManifestOf, ManifestOf, NormalizeGraph, MembersOf, Selected, DigestMatches, ServingProblem, Codec.Valid, Codec.LoadObject,
         Fetch, GraphProblem, NamesAreFiles, NamesOf, RowOf, StoredUnder, Listed, SameScope, TotalSize;
  }

  // The extractor's graph with every source file that is not archived made external.
  function ServedGraph(c: Codec, r: Request): Json
    requires forall p <- r.listing :: p in r.snapshot
    requires c.LoadObject(r.graph).Ok?
  {
    NormalizeGraph(c.LoadObject(r.graph).value, NamesOf(MembersOf(c, r, r.listing)))
  }

  lemma HydrateOutcome(c: Codec, source: Registered, v: VersionId, row: Version, objects: Objects, limit: int, cache: Cache)
    requires Promotable(source, v, row, true) && Fresh(c, source, row, objects, limit).Ok?
    requires v in cache.dirs ==> CachedProblem(c, source, row, cache.dirs[v]) != Some(Raised)
    ensures var (failure, cache') := Hydrate(c, source, v, row, true, objects, limit, cache);
            && failure == None && cache'.current == Some(v) && v in cache'.dirs
            && cache'.dirs - {v} == cache.dirs - {v}
            && (cache'.dirs[v] == Fresh(c, source, row, objects, limit).value
                || (v in cache.dirs && cache'.dirs[v] == cache.dirs[v] && CachedProblem(c, source, row, cache.dirs[v]) == None))
  {
    hide CachedProblem, Fresh, Promotable;
  }

  lemma HitIsBundle(c: Codec, source: Registered, row: Version, d: VersionDir, objects: Objects, limit: int, bundle: VersionDir)
    requires CachedProblem(c, source, row, d) == None && Fresh(c, source, row, objects, limit) == Ok(bundle)
    requires NoCollision(c, Contents(d) + Contents(bundle))
    ensures d.source == bundle.source && d.graph == bundle.graph
  {
    CacheHitAgrees(c, source, row, d, objects, limit);
    hide *;
    assert d.(ready := None) == bundle.(ready := None);
  }

  // Whatever the cache held before, hydrating a promoted bundle succeeds, points at the version, and
  // leaves exactly the selected files and the normalized graph; other versions are not touched.
  lemma HydrateRestores(c: Codec, r: Request, source: Registered, v: VersionId, row: Version, objects: Objects, limit: int, cache: Cache)
    requires c.Valid() && Listed(r) && Build(c, r).Ok? && FitsLimit(c, r, limit)
    requires SameScope(source, r) && RowOf(c, r, Build(c, r).value, row) && StoredUnder(c, row, Build(c, r).value, objects)
    requires source.current == Some(v)
    requires v in cache.dirs ==> NoCollision(c, Contents(cache.dirs[v]) + Contents(BundleDir(c, r, Build(c, r).value)))
    ensures c.LoadObject(r.graph).Ok?
    ensures var (failure, cache') := Hydrate(c, source, v, row, true, objects, limit, cache);
            && failure == None && cache'.current == Some(v) && v in cache'.dirs
            && cache'.dirs[v].source == Some(Selected(c, r))
            && cache'.dirs[v].graph.Some? && c.LoadObject(cache'.dirs[v].graph.value) == Ok(ServedGraph(c, r))
            && cache'.dirs - {v} == cache.dirs - {v}
  {
    var local := Build(c, r).value;
    var bundle := BundleDir(c, r, local);
    BundleFields(c, r, local);
    FreshRestores(c, r, source, row, objects, limit);
    BundleParts(c, r, row, source, objects, limit);
    BuiltFacts(c, r);
    IsPromotable(c, r, source, v, row, local);
    hide *;
    if v in cache.dirs { CachedIsBundle(c, r, source, row, cache.dirs[v], objects, limit, local); }
    HydrateOutcome(c, source, v, row, objects, limit, cache);
  }

  lemma BundleFields(c: Codec, r: Request, local: Local)
    requires Complete(local)
    ensures var bundle := BundleDir(c, r, local);
            && bundle.graph == Some(local[GraphFile]) && bundle.archive == Some(local[SourceArchive])
            && bundle.source == Some(Selected(c, r))
            && local[GraphFile] in Contents(bundle) && local[SourceArchive] in Contents(bundle)
  {
    hide Selected, Codec.Sha;
    var bundle := BundleDir(c, r, local);
    assert bundle.graph.value in Contents(bundle) && bundle.archive.value in Contents(bundle);
  }

  lemma IsPromotable(c: Codec, r: Request, source: Registered, v: VersionId, row: Version, local: Local)
    requires SameScope(source, r) && Complete(local) && RowOf(c, r, local, row) && source.current == Some(v)
    ensures Promotable(source, v, row, true)
  {
    hide KeyOf;
  }

  lemma CachedIsBundle(c: Codec, r: Request, source: Registered, row: Version, d: VersionDir, objects: Objects, limit: int, local: Local)
    requires (forall p <- r.listing :: p in r.snapshot) && Complete(local)
    requires Fresh(c, source, row, objects, limit) == Ok(BundleDir(c, r, local))
    requires DigestMatches(c, row, GraphFile, local[GraphFile]) && DigestMatches(c, row, SourceArchive, local[SourceArchive])
    requires c.unpack(local[SourceArchive]) == Archive(MembersOf(c, r, r.listing), false)
    requires forall m <- MembersOf(c, r, r.listing) :: m.kind == File
    requires ServingProblem(c, local[GraphFile], Selected(c, r)) == None
    requires NoCollision(c, Contents(d) + Contents(BundleDir(c, r, local)))
    ensures CachedProblem(c, source, row, d) != Some(Raised)
    ensures CachedProblem(c, source, row, d) == None ==>
              d.source == BundleDir(c, r, local).source && d.graph == BundleDir(c, r, local).graph
  {
    var bundle := BundleDir(c, r, local);
    BundleFields(c, r, local);
    hide *;
    JudgedQuietly(c, source, row, d, local[GraphFile], local[SourceArchive], Selected(c, r), Contents(bundle));
    if CachedProblem(c, source, row, d) == None {
      HitIsBundle(c, source, row, d, objects, limit, bundle);
    }
  }

  // The world after the bundle of a request has been published and its version promoted.
  function PublishedAndPromoted(c: Codec, r: Request, w: World, weather: Weather, run: RunId, v: VersionId, now: Time): World
    requires (forall p <- r.listing :: p in r.snapshot) && Build(c, r).Ok? && Complete(Build(c, r).value)
    requires RecordsMatch(w, r.source, run, v)
  {
    var (_, objects) := Publish(c.naming, w.versions[v].id, Build(c, r).value, w.objects, weather);
    Promoted(c.naming, w.(objects := objects), r.source, run, v, Build(c, r).value, now)
  }

  // Build, publish, promote, hydrate: when build and publication succeed and the registry still names the
  // same source and scope, hydration yields the selected files and the normalized graph.
  lemma RoundTrip(c: Codec, r: Request, config: Config, w: World, weather: Weather, run: RunId, v: VersionId, now: Time,
                  source: Registered, limit: int, cache: Cache)
    requires c.Valid() && Listed(r) && IsCommit(r.commit) && r.configHash == c.naming.configHash(config)
    requires Build(c, r).Ok? && Complete(Build(c, r).value) && CollisionFree(c.naming, w.objects, Build(c, r).value)
    requires RecordsMatch(w, r.source, run, v) && w.versions[v].id == Identity(r.source, r.commit, r.configHash)
    requires Publish(c.naming, w.versions[v].id, Build(c, r).value, w.objects, weather).0 == Published
    requires SameScope(source, r) && FitsLimit(c, r, limit)
    requires r.source in PublishedAndPromoted(c, r, w, weather, run, v, now).sources
    requires source.current == PublishedAndPromoted(c, r, w, weather, run, v, now).sources[r.source].current
    requires v in cache.dirs ==> NoCollision(c, Contents(cache.dirs[v]) + Contents(BundleDir(c, r, Build(c, r).value)))
    ensures c.LoadObject(r.graph).Ok?
    ensures var w' := PublishedAndPromoted(c, r, w, weather, run, v, now);
            && v in w'.versions
            && var (failure, cache') := Hydrate(c, source, v, w'.versions[v], true, w'.objects, limit, cache);
               && failure == None && cache'.current == Some(v) && v in cache'.dirs
               && cache'.dirs[v].source == Some(Selected(c, r)) && HoldsScope(c, r, Selected(c, r))
               && cache'.dirs[v].graph.Some? && c.LoadObject(cache'.dirs[v].graph.value) == Ok(ServedGraph(c, r))
  {
    var local, id := Build(c, r).value, w.versions[v].id;
    var objects := Publish(c.naming, id, local, w.objects, weather).1;
    var w' := PublishedAndPromoted(c, r, w, weather, run, v, now);
    ResolvedIdentity(c.naming, r.commit, config, r.source);
    PublishedBytes(c.naming, id, local, w.objects, weather);
    PromotedRow(c, w.(objects := objects), r.source, run, v, local, now);
    assert w'.objects == objects;
    hide Build, Hydrate, ServedGraph, Selected, BundleDir, Publish, RowHolds, Codec.Valid, Listed, PublishedAndPromoted, HoldsScope;
    PublishedIsStored(c, local, w'.versions[v], objects);
    HydrateRestores(c, r, source, v, w'.versions[v], objects, limit, cache);
    SelectedHoldsScope(c, r);
  }

  lemma PublishedIsStored(c: Codec, local: Local, row: Version, objects: Objects)
    requires RowHolds(c, local, row)
    requires forall a <- ARTIFACT_ORDER :: KeyOf(c.naming, row.id, a) in objects && objects[KeyOf(c.naming, row.id, a)] == local[a]
    ensures StoredUnder(c, row, local, objects)
  {
    forall a <- SERVING_ARTIFACTS ensures a in row.keys && a in local && row.keys[a] in objects && objects[row.keys[a]] == local[a] {
      ServingAreArtifacts(a);
      hide KeyOf;
    }
  }

  // The selection holds the files of the snapshot that the scope admits, path by path, and nothing else.
  ghost predicate HoldsScope(c: Codec, r: Request, tree: Tree) {
    forall p ::
      && (p in tree <==> p in r.snapshot && (forall k | 0 <= k < |p| :: p[k] != ".git")
                         && (r.includes == [] || exists i :: 0 <= i < |r.includes| && c.glob(Join(p), r.includes[i]))
                         && (forall i | 0 <= i < |r.excludes| :: !c.glob(Join(p), r.excludes[i])))
      && (p in tree && p in r.snapshot ==> tree[p] == r.snapshot[p])
  }

  lemma SelectedHoldsScope(c: Codec, r: Request)
    ensures HoldsScope(c, r, Selected(c, r))
  {
    var tree := Selected(c, r);
    forall p ensures p in tree <==> p in r.snapshot && InScope(c, r, p) {}
    hide InScope, Selected;
    forall p
      ensures InScope(c, r, p) <==>
              && (forall k | 0 <= k < |p| :: p[k] != ".git")
              && (r.includes == [] || exists i :: 0 <= i < |r.includes| && c.glob(Join(p), r.includes[i]))
              && (forall i | 0 <= i < |r.excludes| :: !c.glob(Join(p), r.excludes[i]))
    {
      ScopeIff(c, r, p);
    }
  }

  // The directory of a promoted bundle is a cache hit the next time.
  lemma SecondHydrationIsHit(c: Codec, r: Request, source: Registered, row: Version, objects: Objects, limit: int)
    requires c.Valid() && Listed(r) && Build(c, r).Ok? && FitsLimit(c, r, limit)
    requires SameScope(source, r) && RowOf(c, r, Build(c, r).value, row) && StoredUnder(c, row, Build(c, r).value, objects)
    requires NoCollision(c, MemberContents(MembersOf(c, r, r.listing)))
    ensures CachedProblem(c, source, row, BundleDir(c, r, Build(c, r).value)) == None
  {
    FreshRestores(c, r, source, row, objects, limit);
    BundleParts(c, r, row, source, objects, limit);
    NoDuplicates(c, r);
    hide Build, Fresh, CachedProblem, MembersOf, DuplicatesAgree, Codec.Valid, RowOf, StoredUnder, Listed;
    FreshIsAcceptedIff(c, source, row, objects, limit);
  }

  lemma NoDuplicates(c: Codec, r: Request)
    requires Listed(r)
    ensures DuplicatesAgree(MembersOf(c, r, r.listing))
  {
    MembersInScope(c, r, r.listing);
    var members := MembersOf(c, r, r.listing);
    forall m, m' | m in members && m' in members && SafePath(m.name).Some? && SafePath(m.name) == SafePath(m'.name)
      ensures m.content == m'.content
    {
      var p :| p in r.listing && m == Member(Join(p), File, r.snapshot[p]);
      var q :| q in r.listing && m' == Member(Join(q), File, r.snapshot[q]);
      SafeOfJoin(p);
      SafeOfJoin(q);
    }
  }

  // In every reachable state of the synchronization protocol, the artifacts of the version that a source
  // points at download and pass their checksums.
  lemma PointerDownloads(c: Codec, worlds: seq<World>, steps: seq<Step>, k: nat, s: SourceId, a: Artifact)
    requires c.Valid() && IsRun(c.naming, worlds, steps) && k < |worlds|
    requires s in worlds[k].sources && worlds[k].sources[s].current.Some? && a in SERVING_ARTIFACTS
    ensures var w := worlds[k];
            var v := w.sources[s].current.value;
            v in w.versions && Fetch(c, w.versions[v], w.objects, a).Some?
  {
    PointerIsServable(c.naming, worlds, steps, k, s);
    ServingAreArtifacts(a);
    var w := worlds[k];
    var row := w.versions[w.sources[s].current.value];
    hide IsRun, Codec.Valid, KeyOf, Name, FileName, DigestMatches;
    assert Stored(c.naming, w, row, a);
    KeyNamesFile(c.naming, row.id, a);
    RecordedDigest(c, row, a, w.objects[row.keys[a]]);
  }

  /******* A directory that is written anew every time *******/

  // A bundle whose archive holds one file under two spellings of its path.
  function TwoSpellings(x: Bytes, y: Bytes): seq<Member> {
    [Member("a", File, x), Member("./a", File, y)]
  }

  const NO_GRAPH := Object(map["nodes" := List([]), "links" := List([]), "hyperedges" := List([])])

  function TwoSpellingsManifest(c: Codec, source: Registered, commit: string, x: Bytes, y: Bytes): Json {
    Object(map["source" := IdentityJson(c, source.id, source.alias, source.url, commit, source.includes, source.excludes),
               "artifacts" := Object(map["graph" := EntryJson(c, GraphFile, c.compact(NO_GRAPH)),
                                         "source" := SourceEntryJson(c, c.pack(TwoSpellings(x, y)), |x| + |y|, 2)])])
  }

  ghost predicate HoldsTwoSpellings(c: Codec, source: Registered, commit: string, x: Bytes, y: Bytes, local: Local) {
    && Complete(local) && local[GraphFile] == c.compact(NO_GRAPH) && local[SourceArchive] == c.pack(TwoSpellings(x, y))
    && local[ManifestFile] == c.pretty(TwoSpellingsManifest(c, source, commit, x, y))
  }

  lemma SpellingsAgree()
    ensures SafePath("a") == Some(["a"]) && SafePath("./a") == Some(["a"])
  {
    SplitPart("a");
    SplitAtSlash(".", "a");
    assert "." + "/" + "a" == "./a";
    assert [".", "a"][1..] == ["a"] && ["a"][1..] == [];
    assert Kept(["a"]) == ["a"] + Kept([]);
    assert Kept([".", "a"]) == Kept(["a"]);
    assert Parts("./a") == ["a"] && "./a"[0] == '.';
  }

  lemma ExtractTwoSpellings(x: Bytes, y: Bytes, limit: int)
    requires limit >= |x| + |y|
    ensures ExtractMembers(TwoSpellings(x, y), limit) == Ok(Unpacked(map[["a"] := y], |x| + |y|, 2))
  {
    var ms := TwoSpellings(x, y);
    SpellingsAgree();
    assert ms == ([] + [ms[0]]) + [ms[1]];
    NothingExtracted(limit);
    hide SafePath, ExtractMembers;
    UnpackOneMore([], ms[0], ["a"], map[], limit);
    UnpackOneMore([] + [ms[0]], ms[1], ["a"], map[["a"] := x], limit);
    assert map[["a"] := x][["a"] := y] == map[["a"] := y];
  }

  lemma TwoSpellingsFields(c: Codec, source: Registered, commit: string, x: Bytes, y: Bytes)
    ensures var manifest := TwoSpellingsManifest(c, source, commit, x, y);
            var artifacts := Get(manifest, "artifacts");
            && manifest.Object? && artifacts.Object?
            && Get(manifest, "source") == IdentityJson(c, source.id, source.alias, source.url, commit, source.includes, source.excludes)
            && Get(artifacts, "graph") == EntryJson(c, GraphFile, c.compact(NO_GRAPH))
            && Get(artifacts, "source") == SourceEntryJson(c, c.pack(TwoSpellings(x, y)), |x| + |y|, 2)
  {
    hide IdentityJson, EntryJson, SourceEntryJson, TwoSpellings;
  }

  lemma ManifestAgreesBy(c: Codec, source: Registered, row: Version, manifest: Bytes, graph: Bytes, archive: Bytes, m: Json)
    requires c.LoadObject(manifest) == Ok(m) && Get(m, "artifacts").Object?
    requires Get(m, "source") == IdentityJson(c, source.id, source.alias, source.url, row.id.commit, source.includes, source.excludes)
    requires DescribesFile(c, Get(Get(m, "artifacts"), "graph"), GraphFile, graph)
    requires DescribesFile(c, Get(Get(m, "artifacts"), "source"), SourceArchive, archive)
    ensures ManifestAgrees(c, source, row, manifest, graph, archive) == Ok(m)
  {
    hide Codec.LoadObject, IdentityJson, DescribesFile, Get;
  }

  lemma ObjectLoadsBack(c: Codec, j: Json)
    requires c.Valid() && j.Object?
    ensures c.LoadObject(c.pretty(j)) == Ok(j)
  {
  }

  lemma TwoSpellingsAgree(c: Codec, source: Registered, row: Version, x: Bytes, y: Bytes)
    requires c.Valid()
    ensures var manifest := TwoSpellingsManifest(c, source, row.id.commit, x, y);
            var entry := Get(Get(manifest, "artifacts"), "source");
            && ManifestAgrees(c, source, row, c.pretty(manifest), c.compact(NO_GRAPH), c.pack(TwoSpellings(x, y))) == Ok(manifest)
            && Get(entry, "expanded_size_bytes") == Number(|x| + |y|) && Get(entry, "file_count") == Number(2)
  {
    var manifest := TwoSpellingsManifest(c, source, row.id.commit, x, y);
    hide *;
    TwoSpellingsFields(c, source, row.id.commit, x, y);
    ObjectLoadsBack(c, manifest);
    EntryDescribes(c, GraphFile, c.compact(NO_GRAPH));
    SourceEntryFields(c, c.pack(TwoSpellings(x, y)), |x| + |y|, 2);
    ManifestAgreesBy(c, source, row, c.pretty(manifest), c.compact(NO_GRAPH), c.pack(TwoSpellings(x, y)), manifest);
  }

  lemma NoGraphServes(c: Codec, tree: Tree)
    requires c.Valid()
    ensures ServingProblem(c, c.compact(NO_GRAPH), tree) == None
  {
    assert c.LoadObject(c.compact(NO_GRAPH)) == Ok(NO_GRAPH);
    hide Codec.Valid;
  }

  // For every version with such a bundle the slow path succeeds and keeps the second content, and the
  // cached check then refuses what it has written.
  lemma TwoSpellingsAreRefused(c: Codec, source: Registered, row: Version, local: Local, objects: Objects, limit: int, x: Bytes, y: Bytes)
    requires c.Valid() && HoldsTwoSpellings(c, source, row.id.commit, x, y, local) && c.Sha(x) != c.Sha(y)
    requires RowHolds(c, local, row) && StoredUnder(c, row, local, objects) && limit >= |x| + |y| && limit > 0
    ensures Fresh(c, source, row, objects, limit).Ok?
    ensures Fresh(c, source, row, objects, limit).value.source == Some(map[["a"] := y])
    ensures CachedProblem(c, source, row, Fresh(c, source, row, objects, limit).value) == Some(Refused)
  {
    var manifest, graph, archive := local[ManifestFile], local[GraphFile], local[SourceArchive];
    FetchesLocal(c, local, row, objects, ManifestFile);
    FetchesLocal(c, local, row, objects, GraphFile);
    FetchesLocal(c, local, row, objects, SourceArchive);
    hide *;
    WritesTwoSpellings(c, source, row, objects, manifest, graph, archive, limit, x, y) by { HeldParts(c, source, row.id.commit, x, y, local); }
  }

  lemma HeldParts(c: Codec, source: Registered, commit: string, x: Bytes, y: Bytes, local: Local)
    requires HoldsTwoSpellings(c, source, commit, x, y, local)
    ensures Complete(local) && local[GraphFile] == c.compact(NO_GRAPH) && local[SourceArchive] == c.pack(TwoSpellings(x, y))
            && local[ManifestFile] == c.pretty(TwoSpellingsManifest(c, source, commit, x, y))
  {
  }

  lemma WritesTwoSpellings(c: Codec, source: Registered, row: Version, objects: Objects, manifest: Bytes, graph: Bytes, archive: Bytes,
                           limit: int, x: Bytes, y: Bytes)
    requires c.Valid() && c.Sha(x) != c.Sha(y) && limit >= |x| + |y| && limit > 0
    requires Fetch(c, row, objects, ManifestFile) == Some(manifest) && DigestMatches(c, row, ManifestFile, manifest)
    requires Fetch(c, row, objects, GraphFile) == Some(graph) && Fetch(c, row, objects, SourceArchive) == Some(archive)
    requires manifest == c.pretty(TwoSpellingsManifest(c, source, row.id.commit, x, y))
    requires graph == c.compact(NO_GRAPH) && archive == c.pack(TwoSpellings(x, y))
    ensures Fresh(c, source, row, objects, limit).Ok?
    ensures Fresh(c, source, row, objects, limit).value.source == Some(map[["a"] := y])
    ensures CachedProblem(c, source, row, Fresh(c, source, row, objects, limit).value) == Some(Refused)
  {
    var tree: Tree := map[["a"] := y];
    var m := TwoSpellingsManifest(c, source, row.id.commit, x, y);
    hide *;
    TwoSpellingsAgree(c, source, row, x, y);
    ExtractTwoSpellings(x, y, limit);
    NoGraphServes(c, tree);
    UnpacksTwoSpellings(c, x, y);
    ExtractsWhole(TwoSpellings(x, y), Get(Get(m, "artifacts"), "source"), limit, tree, |x| + |y|, 2);
    FreshOf(c, source, row, objects, manifest, graph, archive, m, tree, limit);
    SourceOf(c, manifest, graph, archive, tree);
    RefusesFirstSpelling(c, x, y);
    RefusedDirectory(c, source, row, manifest, graph, archive, tree);
  }

  lemma ExtractsWhole(members: seq<Member>, entry: Json, limit: int, tree: Tree, size: nat, count: nat)
    requires limit > 0 && ExtractMembers(members, limit) == Ok(Unpacked(tree, size, count))
    requires Get(entry, "expanded_size_bytes") == Number(size) && Get(entry, "file_count") == Number(count)
    ensures Extract(Archive(members, false), entry, limit) == Ok(tree)
  {
    hide ExtractMembers, Get;
  }

  lemma SourceOf(c: Codec, manifest: Bytes, graph: Bytes, archive: Bytes, tree: Tree)
    ensures DirFrom(c, manifest, graph, archive, tree).source == Some(tree)
  {
  }

  lemma UnpacksTwoSpellings(c: Codec, x: Bytes, y: Bytes)
    requires c.Valid()
    ensures c.unpack(c.pack(TwoSpellings(x, y))) == Archive(TwoSpellings(x, y), false)
  {
    assert Packable(TwoSpellings(x, y));
  }

  lemma RefusesFirstSpelling(c: Codec, x: Bytes, y: Bytes)
    requires c.Sha(x) != c.Sha(y)
    ensures MembersProblem(c, map[["a"] := y], TwoSpellings(x, y)) == Some(Refused)
  {
    var ms := TwoSpellings(x, y);
    SpellingsAgree();
    assert ms[..1] == [ms[0]] && ms[..1][..0] == [];
    hide SafePath;
    assert MembersProblem(c, map[["a"] := y], ms[..1]) == Some(Refused);
  }

  lemma RefusedDirectory(c: Codec, source: Registered, row: Version, manifest: Bytes, graph: Bytes, archive: Bytes, tree: Tree)
    requires MembersProblem(c, tree, c.unpack(archive).members) == Some(Refused)
    ensures CachedProblem(c, source, row, DirFrom(c, manifest, graph, archive, tree)) == Some(Refused)
  {
    hide MembersProblem, ManifestAgrees, ExpectedDigest, DigestMatches, ServingProblem, PathsOf;
  }

  /******* The same, in place *******/

  lemma {:induction false} EarlyFailure(members: seq<Member>, k: nat, limit: int)
    requires k <= |members| && ExtractMembers(members[..k], limit).Err?
    ensures ExtractMembers(members, limit) == ExtractMembers(members[..k], limit)
  {
    if k == |members| {
      assert members[..k] == members;
    } else {
      assert members[..|members| - 1][..k] == members[..k];
      EarlyFailure(members[..|members| - 1], k, limit);
      hide ExtractMember;
    }
  }

  lemma {:induction false} EarlyProblem(c: Codec, tree: Tree, members: seq<Member>, k: nat)
    requires k <= |members| && MembersProblem(c, tree, members[..k]).Some?
    ensures MembersProblem(c, tree, members) == MembersProblem(c, tree, members[..k])
  {
    if k == |members| {
      assert members[..k] == members;
    } else {
      assert members[..|members| - 1][..k] == members[..k];
      EarlyProblem(c, tree, members[..|members| - 1], k);
      hide MemberProblem;
    }
  }

  method DownloadArtifacts(c: Codec, row: Version, objects: Objects) returns (files: Option<map<Artifact, Bytes>>)
    ensures files.Some? <==> forall a <- SERVING_ARTIFACTS :: Fetch(c, row, objects, a).Some?
    ensures files.Some? ==> forall a <- SERVING_ARTIFACTS :: a in files.value && Fetch(c, row, objects, a) == Some(files.value[a])
  {
    var got: map<Artifact, Bytes> := map[];
    hide Fetch;
    for i := 0 to |SERVING_ARTIFACTS|
      invariant forall a <- SERVING_ARTIFACTS[..i] :: a in got && Fetch(c, row, objects, a) == Some(got[a])
    {
      var name := SERVING_ARTIFACTS[i];
      var file := Fetch(c, row, objects, name);
      if file == None {
        assert name in SERVING_ARTIFACTS;
        return None;
      }
      got := got[name := file.value];
    }
    assert SERVING_ARTIFACTS[..|SERVING_ARTIFACTS|] == SERVING_ARTIFACTS;
    return Some(got);
  }

  // Writes member after member and stops at the first that is unsafe, irregular, too large or in the way.
  method ExtractArchive(archive: Archive, entry: Json, limit: int) returns (r: Result<Tree, Failure>)
    ensures r == Extract(archive, entry, limit)
  {
    hide SafePath, Writable, ExtractMember, ExtractMembers, Get;
    if limit <= 0 { return Err(Raised); }
    var members := archive.members;
    var tree: Tree := map[];
    NothingExtracted(limit);
    var expandedSize: nat, fileCount: nat := 0, 0;
    for i := 0 to |members|
      invariant ExtractMembers(members[..i], limit) == Ok(Unpacked(tree, expandedSize, fileCount))
    {
      var m := members[i];
      ExtractedStep(members, i, limit, Unpacked(tree, expandedSize, fileCount));
      var path := SafePath(m.name);
      if path == None || m.kind != File || expandedSize + |m.content| > limit || !Writable(tree, path.value) { return Err(Refused); }
      expandedSize, fileCount := expandedSize + |m.content|, fileCount + 1;
      tree := tree[path.value := m.content];
    }
    assert members[..|members|] == members;
    if archive.broken { return Err(Raised); }
    if Get(entry, "expanded_size_bytes") != Number(expandedSize) || Get(entry, "file_count") != Number(fileCount) { return Err(Refused); }
    return Ok(tree);
  }

  lemma NothingExtracted(limit: int)
    ensures ExtractMembers([], limit) == Ok(Unpacked(map[], 0, 0))
  {
  }

  lemma ExtractedStep(members: seq<Member>, i: nat, limit: int, u: Unpacked)
    requires i < |members| && ExtractMembers(members[..i], limit) == Ok(u)
    ensures var m := members[i];
            var path := SafePath(m.name);
            if path == None || m.kind != File || u.size + |m.content| > limit || !Writable(u.tree, path.value)
            then ExtractMembers(members, limit) == Err(Refused)
            else ExtractMembers(members[..i + 1], limit) ==
                   Ok(Unpacked(u.tree[path.value := m.content], u.size + |m.content|, u.count + 1))
  {
    assert members[..i + 1] == members[..i] + [members[i]];
    hide SafePath, Writable, ExtractMembers;
    ExtractOneMore(members[..i], members[i], limit);
    if ExtractMember(u, members[i], limit).Err? { EarlyFailure(members, i + 1, limit); }
  }

  method ValidateExtracted(c: Codec, tree: Tree, archive: Archive) returns (problem: Option<Failure>)
    ensures problem == ExtractedProblem(c, tree, archive)
  {
    var members := archive.members;
    var archivedPaths: set<Path> := {};
    for i := 0 to |members|
      invariant MembersProblem(c, tree, members[..i]) == None
      invariant archivedPaths == PathsOf(members[..i])
    {
      var m := members[i];
      assert members[..i + 1] == members[..i] + [m];
      OneMorePath(members[..i], m);
      OneMoreProblem(c, tree, members[..i], m);
      hide SafePath, PathsOf, MemberProblem, MembersProblem;
      problem := MemberProblem(c, tree, m);
      if problem.Some? {
        EarlyProblem(c, tree, members, i + 1);
        return;
      }
      archivedPaths := archivedPaths + {SafePath(m.name).value};
    }
    assert members[..|members|] == members;
    if archive.broken { return Some(Raised); }
    return if tree.Keys != archivedPaths then Some(Refused) else None;
  }

  lemma OneMoreProblem(c: Codec, tree: Tree, members: seq<Member>, m: Member)
    requires MembersProblem(c, tree, members) == None
    ensures MembersProblem(c, tree, members + [m]) == MemberProblem(c, tree, m)
    ensures MemberProblem(c, tree, m) == None ==> SafePath(m.name).Some?
  {
    assert (members + [m])[..|members|] == members;
    hide SafePath;
  }

  lemma OneMorePath(members: seq<Member>, m: Member)
    ensures SafePath(m.name).Some? ==> PathsOf(members + [m]) == PathsOf(members) + {SafePath(m.name).value}
  {
    hide SafePath;
  }

  // The cache of one source on disk.
  class LocalCache {
    var dirs: map<VersionId, VersionDir>
    var current: Option<VersionId>

    constructor ()
      ensures State() == Cache(map[], None)
    {
      dirs, current := map[], None;
    }

    function State(): Cache
      reads this
    {
      Cache(dirs, current)
    }

    // A failure leaves the cache as it was; a success moves the pointer and touches no other version.
    method HydrateVersion(c: Codec, source: Registered, v: VersionId, row: Version, bucketSet: bool, objects: Objects, limit: int)
      returns (failure: Option<Failure>)
      modifies this
      ensures (failure, State()) == Hydrate(c, source, v, row, bucketSet, objects, limit, old(State()))
      ensures failure.Some? ==> State() == old(State())
      ensures failure.None? ==> current == Some(v) && v in dirs && dirs - {v} == old(dirs) - {v}
    {
      hide Promotable, CachedProblem, Fresh;
      if !Promotable(source, v, row, bucketSet) { return Some(Refused); }
      var problem := Some(Refused);
      if v in dirs { problem := MatchCached(c, source, row, dirs[v]); }
      if problem == Some(Raised) { return problem; }
      if problem.Some? {
        var r := PrepareFresh(c, source, row, objects, limit);
        if r.Err? { return Some(r.error); }
        dirs := dirs[v := r.value];
      }
      current := Some(v);
      return None;
    }

    method MatchCached(c: Codec, source: Registered, row: Version, d: VersionDir) returns (problem: Option<Failure>)
      ensures problem == CachedProblem(c, source, row, d)
    {
      if d.ready == None || d.manifest == None || d.graph == None || d.archive == None || d.source == None { return Some(Refused); }
      var text := c.decodeText(d.ready.value);
      hide ExpectedDigest, ManifestAgrees, ExtractedProblem, ServingProblem;
      if text == None || ExpectedDigest(c, row, ManifestFile) != Some(Strings.Strip(text.value)) { return Some(Refused); }
      if !DigestMatches(c, row, ManifestFile, d.manifest.value) || !DigestMatches(c, row, GraphFile, d.graph.value)
         || !DigestMatches(c, row, SourceArchive, d.archive.value) { return Some(Refused); }
      if ManifestAgrees(c, source, row, d.manifest.value, d.graph.value, d.archive.value).Err? { return Some(Refused); }
      problem := ValidateExtracted(c, d.source.value, c.unpack(d.archive.value));
      if problem.None? { problem := ServingCheck(c, d.graph.value, d.source.value); }
    }

    method ServingCheck(c: Codec, graph: Bytes, tree: Tree) returns (problem: Option<Failure>)
      ensures problem == ServingProblem(c, graph, tree)
    {
      var g := c.LoadObject(graph);
      if g.Err? { return Some(g.error); }
      problem := CheckGraph(g.value, ServingFiles(tree));
    }

    method PrepareFresh(c: Codec, source: Registered, row: Version, objects: Objects, limit: int) returns (r: Result<VersionDir, Failure>)
      ensures r == Fresh(c, source, row, objects, limit)
    {
      var files := DownloadArtifacts(c, row, objects);
      assert ManifestFile in SERVING_ARTIFACTS && GraphFile in SERVING_ARTIFACTS && SourceArchive in SERVING_ARTIFACTS;
      hide KeyUsable, DigestMatches, ExpectedDigest, ManifestAgrees, Extract, ServingProblem, Get;
      if files == None {
        assert Fetch(c, row, objects, ManifestFile) == None || Fetch(c, row, objects, GraphFile) == None || Fetch(c, row, objects, SourceArchive) == None;
        return Err(Refused);
      }
      hide Fetch, FreshFrom;
      r := PrepareFrom(c, source, row, files.value[ManifestFile], files.value[GraphFile], files.value[SourceArchive], limit);
    }

    method PrepareFrom(c: Codec, source: Registered, row: Version, manifestFile: Bytes, graphFile: Bytes, archiveFile: Bytes, limit: int)
      returns (r: Result<VersionDir, Failure>)
      requires DigestMatches(c, row, ManifestFile, manifestFile)
      ensures r == FreshFrom(c, source, row, manifestFile, graphFile, archiveFile, limit)
    {
      hide ExpectedDigest, ManifestAgrees, Extract, ServingProblem, Get;
      var manifest := ManifestAgrees(c, source, row, manifestFile, graphFile, archiveFile);
      if manifest.Err? { return Err(manifest.error); }
      var tree := ExtractArchive(c.unpack(archiveFile), Get(Get(manifest.value, "artifacts"), "source"), limit);
      if tree.Err? { return Err(tree.error); }
      var problem := ServingCheck(c, graphFile, tree.value);
      if problem.Some? { return Err(problem.value); }
      return Ok(VersionDir(Some(c.encodeText(ExpectedDigest(c, row, ManifestFile).value + "\n")),
                           Some(manifestFile), Some(graphFile), Some(archiveFile), Some(tree.value)));
    }
  }
}
