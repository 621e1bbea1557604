/**
  Building and checking the immutable bundle of a knowledge-source version.

  A bundle is the extractor's graph, the selected source files as one archive, a report, a log and a
  manifest that describes the other four.
 */
module Bundles {
  import opened Identifiers
  import opened Wrappers
  import opened RelativePaths
  import opened Formats
  import opened Publication
  import Strings = Text

  const SCHEMA_VERSION := 1
  const GRAPHIFY_PACKAGE := "graphifyy"
  const GRAPHIFY_VERSION := "0.9.40"
  const MAX_EXPANDED_BYTES: int := 1024 * 1024 * 1024

  // What the extraction of one commit has to work with; `listing` is the order in which the files of
  // the snapshot are visited.
  datatype Request = Request(
    source: SourceId, alias: string, url: string, commit: string, configHash: string,
    includes: seq<string>, excludes: seq<string>,
    snapshot: Tree, listing: seq<Path>,
    graph: Bytes, indexed: Bytes, report: Bytes, stdout: string, stderr: string)

  /******* Selection *******/

  predicate AnyMatches(c: Codec, globs: seq<string>, name: string) {
    exists i | 0 <= i < |globs| :: c.glob(name, globs[i])
  }

  predicate InScope(c: Codec, r: Request, p: Path) {
    ".git" !in p && (r.includes == [] || AnyMatches(c, r.includes, Join(p))) && !AnyMatches(c, r.excludes, Join(p))
  }

  function Selected(c: Codec, r: Request): Tree {
    map p | p in r.snapshot && InScope(c, r, p) :: r.snapshot[p]
  }

  // The snapshot as a file system holds it, each file visited once.
  ghost predicate Listed(r: Request) {
    && ProperTree(r.snapshot)
    && (forall p :: p in r.listing <==> p in r.snapshot)
    && forall i, j | 0 <= i < j < |r.listing| :: r.listing[i] != r.listing[j]
  }

  // The archive members for the visited files.
  function MembersOf(c: Codec, r: Request, visited: seq<Path>): seq<Member>
    requires forall p <- visited :: p in r.snapshot
  {
    if visited == [] then []
    else
      var p := visited[|visited| - 1];
      assert p in visited;
      MembersOf(c, r, visited[..|visited| - 1]) + if InScope(c, r, p) then [Member(Join(p), File, r.snapshot[p])] else []
  }

  function NamesOf(members: seq<Member>): set<string> {
    set m | m in members :: m.name
  }

  /******* The graph *******/

  // Source files that are not archived become external.
  function NormalizeNode(node: Json, names: set<string>): Json {
    var file := Get(node, "source_file");
    if !node.Object? || file in {Null, Text("")} || (file.Text? && file.text in names) then node
    else Object(node.fields["source_file" := Text("")])
  }

  function NormalizeNodes(nodes: seq<Json>, names: set<string>): seq<Json> {
    seq(|nodes|, i requires 0 <= i < |nodes| => NormalizeNode(nodes[i], names))
  }

  function NormalizeGraph(graph: Json, names: set<string>): Json {
    if graph.Object? && Get(graph, "nodes").List?
    then Object(graph.fields["nodes" := List(NormalizeNodes(Get(graph, "nodes").items, names))])
    else graph
  }

  // An entry of the extractor's own manifest.
  predicate IndexedEntry(name: string, state: Json) {
    SafePath(name).Some? && state.Object? && Get(state, "ast_hash").Text? && Get(state, "ast_hash").text != ""
  }

  function OutputProblem(c: Codec, graph: Bytes, indexed: Bytes): Option<Failure> {
    match (c.LoadObject(graph), c.LoadObject(indexed))
    case (Ok(g), Ok(files)) =>
      var problem := GraphProblem(g, NamesSafePath);
      if problem.Some? then problem
      else if forall name <- files.fields :: IndexedEntry(name, files.fields[name]) then None
      else Some(Refused)
    case _ => Some(Refused)
  }

  /******* The manifest *******/

  function Texts(values: seq<string>): Json {
    List(seq(|values|, i requires 0 <= i < |values| => Text(values[i])))
  }

  // Who and what a bundle belongs to.
  function IdentityJson(c: Codec, source: SourceId, alias: string, url: string, commit: string,
                        includes: seq<string>, excludes: seq<string>): Json
  {
    Object(map["id" := Text(c.naming.uuid(source)), "canonical_alias" := Text(alias), "repository_url" := Text(url),
               "commit_sha" := Text(commit), "include_paths" := Texts(includes), "exclude_paths" := Texts(excludes)])
  }

  function EntryJson(c: Codec, a: Artifact, content: Bytes): Json {
    Object(map["file" := Text(FileName(a)), "sha256" := Text(c.Sha(content)), "size_bytes" := Number(|content|)])
  }

  function SourceEntryJson(c: Codec, content: Bytes, expanded: nat, count: nat): Json {
    Object(EntryJson(c, SourceArchive, content).fields["expanded_size_bytes" := Number(expanded)]["file_count" := Number(count)])
  }

  function ArtifactsJson(c: Codec, graph: Bytes, archive: Bytes, members: seq<Member>, report: Bytes, log: Bytes): Json {
    Described(EntryJson(c, GraphFile, graph), SourceEntryJson(c, archive, TotalSize(members), |members|),
              EntryJson(c, Report, report), EntryJson(c, ExtractionLog, log))
  }

  function Described(graph: Json, source: Json, report: Json, log: Json): Json {
    Object(map["graph" := graph, "source" := source, "report" := report, "extraction_log" := log])
  }

  function ManifestJson(c: Codec, r: Request, counts: Json, artifacts: Json): Json {
    Object(map["schema_version" := Number(SCHEMA_VERSION),
               "source" := IdentityJson(c, r.source, r.alias, r.url, r.commit, r.includes, r.excludes),
               "graphify" := Object(map["package" := Text(GRAPHIFY_PACKAGE), "version" := Text(GRAPHIFY_VERSION),
                                        "command" := List([Text("extract"), Text("--code-only")]),
                                        "extraction_config_hash" := Text(r.configHash)]),
               "counts" := counts,
               "artifacts" := artifacts])
  }

  function CountsJson(members: seq<Member>, graph: Json, indexed: Json): Json {
    Object(map["source_files" := Number(|members|),
               "graph_files" := Number(if indexed.Object? then |indexed.fields| else 0),
               "nodes" := Number(if Get(graph, "nodes").List? then |Get(graph, "nodes").items| else 0),
               "edges" := Number(if Get(graph, "links").List? then |Get(graph, "links").items| else 0)])
  }

  function LogText(stdout: string, stderr: string): string {
    if stderr == "" then stdout
    else if stdout == "" then stderr
    else Strings.StripRight(stdout) + "\n" + stderr
  }

  /******* Checking a bundle *******/

  function DirectoryOf(local: Local): map<string, Bytes>
    requires Complete(local)
  {
    map["graph.json" := local[GraphFile], "source.tar.zst" := local[SourceArchive], "graph-report.md" := local[Report],
        "extraction.log" := local[ExtractionLog], "manifest.json" := local[ManifestFile]]
  }

  // The entry names a plain file of the directory and states its size and digest.
  predicate EntryMatches(c: Codec, entry: Json, dir: map<string, Bytes>) {
    && entry.Object? && Get(entry, "file").Text?
    && var file := Get(entry, "file").text;
    && Name(file) == file && file !in {"", ".."} && file in dir
    && Get(entry, "size_bytes") == Number(|dir[file]|) && Get(entry, "sha256") == Text(c.Sha(dir[file]))
  }

  predicate EntriesMatch(c: Codec, artifacts: Json, dir: map<string, Bytes>)
    ensures EntriesMatch(c, artifacts, dir) ==> EntryMatches(c, Get(artifacts, "source"), dir)
  {
    assert "source" in REQUIRED_NAMES;
    forall name <- REQUIRED_NAMES :: EntryMatches(c, Get(artifacts, name), dir)
  }

  predicate Admissible(members: seq<Member>, limit: int) {
    (forall m <- members :: m.kind == File && SafePath(m.name).Some?) && TotalSize(members) <= limit
  }

  // Expanded size and number of files of an archive of safe regular files.
  function Inspect(archive: Archive, limit: int): Result<(nat, nat), Failure> {
    if limit <= 0 then Err(Raised)
    else if !Admissible(archive.members, limit) then Err(Refused)
    else if archive.broken then Err(Raised)
    else Ok((TotalSize(archive.members), |archive.members|))
  }

  const REQUIRED_NAMES: set<string> := {"graph", "source", "report", "extraction_log"}

  function Verify(c: Codec, dir: map<string, Bytes>, limit: int): Result<Json, Failure> {
    if "manifest.json" !in dir then Err(Refused)
    else
      match c.LoadObject(dir["manifest.json"])
      case Err(f) => Err(f)
      case Ok(manifest) =>
        match ManifestProblem(c, manifest, dir, limit)
        case Some(f) => Err(f)
        case None => Ok(manifest)
  }

  function ManifestProblem(c: Codec, manifest: Json, dir: map<string, Bytes>, limit: int): Option<Failure> {
    var source, artifacts := Get(manifest, "source"), Get(manifest, "artifacts");
    if Get(manifest, "schema_version") != Number(SCHEMA_VERSION) then Some(Refused)
    else if !(source.Object? && Get(source, "commit_sha").Text? && c.HexDigest(Get(source, "commit_sha").text, 40)) then Some(Refused)
    else if !(artifacts.Object? && artifacts.fields.Keys == REQUIRED_NAMES) then Some(Refused)
    else if !EntriesMatch(c, artifacts, dir) then Some(Refused)
    else
      var entry := Get(artifacts, "source");
      ArchiveProblem(entry, c.unpack(dir[Get(entry, "file").text]), limit)
  }

  function ArchiveProblem(entry: Json, archive: Archive, limit: int): Option<Failure> {
    match Inspect(archive, limit)
    case Err(f) => Some(f)
    case Ok((size, count)) =>
      if Get(entry, "expanded_size_bytes") == Number(size) && Get(entry, "file_count") == Number(count) then None else Some(Refused)
  }

  /******* Building *******/

  function LocalOf(c: Codec, r: Request, graph: Json, indexed: Json, members: seq<Member>): (local: Local)
    ensures Complete(local)
  {
    var graphFile := c.compact(NormalizeGraph(graph, NamesOf(members)));
    var archive, log := c.pack(members), c.encodeText(LogText(r.stdout, r.stderr));
    var artifacts := ArtifactsJson(c, graphFile, archive, members, r.report, log);
    map[GraphFile := graphFile, SourceArchive := archive, Report := r.report, ExtractionLog := log,
        ManifestFile := c.pretty(ManifestJson(c, r, CountsJson(members, graph, indexed), artifacts))]
  }

  // Extraction output is validated, then bundled, and the bundle is checked before it is handed on.
  function Build(c: Codec, r: Request): Result<Local, Failure>
    requires forall p <- r.listing :: p in r.snapshot
  {
    match OutputProblem(c, r.graph, r.indexed)
    case Some(f) => Err(f)
    case None =>
      if !c.HexDigest(r.commit, 40) || !c.HexDigest(r.configHash, 64) then Err(Refused)
      else
        var members := MembersOf(c, r, r.listing);
        var graph, indexed := c.LoadObject(r.graph).value, c.LoadObject(r.indexed).value;
        if !(indexed.fields.Keys <= NamesOf(members)) then Err(Refused)
        else
          var local := LocalOf(c, r, graph, indexed, members);
          match Verify(c, DirectoryOf(local), MAX_EXPANDED_BYTES)
          case Err(f) => Err(f)
          case Ok(_) => Ok(local)
  }

  /******* What is archived *******/

  lemma {:induction false} MembersInScope(c: Codec, r: Request, visited: seq<Path>)
    requires forall p <- visited :: p in r.snapshot
    ensures forall m :: m in MembersOf(c, r, visited) <==>
              exists p :: p in visited && InScope(c, r, p) && m == Member(Join(p), File, r.snapshot[p])
  {
    if visited != [] {
      var init, last := visited[..|visited| - 1], visited[|visited| - 1];
      assert visited == init + [last];
      MembersInScope(c, r, init);
      hide InScope;
      forall m ensures m in MembersOf(c, r, visited) <==>
                exists p :: p in visited && InScope(c, r, p) && m == Member(Join(p), File, r.snapshot[p])
      {
        assert m in MembersOf(c, r, visited) <==>
          m in MembersOf(c, r, init) || (InScope(c, r, last) && m == Member(Join(last), File, r.snapshot[last]));
      }
    }
  }

  // A visited file is archived, with its content, exactly if no part of its path is ".git", the include list
  // is empty or one of its globs matches, and none of the exclude globs does.
  lemma MembersAreSelected(c: Codec, r: Request, visited: seq<Path>)
    requires forall p <- visited :: p in r.snapshot
    ensures forall m :: m in MembersOf(c, r, visited) <==>
              exists p :: p in visited && m == Member(Join(p), File, r.snapshot[p])
                          && (forall k | 0 <= k < |p| :: p[k] != ".git")
                          && (r.includes == [] || exists i :: 0 <= i < |r.includes| && c.glob(Join(p), r.includes[i]))
                          && (forall i | 0 <= i < |r.excludes| :: !c.glob(Join(p), r.excludes[i]))
  {
    MembersInScope(c, r, visited);
    forall p ensures InScope(c, r, p) <==>
                     && (forall k | 0 <= k < |p| :: p[k] != ".git")
                     && (r.includes == [] || exists i :: 0 <= i < |r.includes| && c.glob(Join(p), r.includes[i]))
                     && (forall i | 0 <= i < |r.excludes| :: !c.glob(Join(p), r.excludes[i]))
    {
      ScopeIff(c, r, p);
    }
    hide InScope, MembersOf;
  }

  lemma ScopeIff(c: Codec, r: Request, p: Path)
    ensures InScope(c, r, p) <==>
            && (forall k | 0 <= k < |p| :: p[k] != ".git")
            && (r.includes == [] || exists i :: 0 <= i < |r.includes| && c.glob(Join(p), r.includes[i]))
            && (forall i | 0 <= i < |r.excludes| :: !c.glob(Join(p), r.excludes[i]))
  {
  }

  // The archive can be packed: its members are named files.
  lemma MembersArePackable(c: Codec, r: Request)
    requires Listed(r)
    ensures Packable(MembersOf(c, r, r.listing))
  {
    MembersInScope(c, r, r.listing);
    forall m <- MembersOf(c, r, r.listing)
      ensures m.kind == File && m.name != "" && m.name[|m.name| - 1] != '/'
    {
      var p :| p in r.listing && m == Member(Join(p), File, r.snapshot[p]);
      JoinEndsInPart(p);
    }
  }

  lemma {:induction false} JoinEndsInPart(p: Path)
    requires ProperPath(p)
    ensures Join(p) != "" && Join(p)[|Join(p)| - 1] != '/'
  {
    assert ProperPart(p[0]);
    if |p| > 1 { JoinEndsInPart(p[1..]); }
  }

  // Member names are accepted unless they hold a backslash.
  lemma AdmissibleIff(c: Codec, r: Request, limit: int)
    requires Listed(r)
    ensures var members := MembersOf(c, r, r.listing);
            Admissible(members, limit) <==> TotalSize(members) <= limit && forall m <- members :: '\\' !in m.name
  {
    MembersInScope(c, r, r.listing);
    forall m <- MembersOf(c, r, r.listing)
      ensures m.kind == File && (SafePath(m.name).Some? <==> '\\' !in m.name)
    {
      var p :| p in r.listing && m == Member(Join(p), File, r.snapshot[p]);
      SafeOfJoin(p);
    }
  }

  /******* The self-check *******/

  lemma NameOfPart(part: string)
    requires ProperPart(part)
    ensures Name(part) == part
  {
    SplitPart(part);
    assert Kept([part]) == [part] + Kept([]);
  }

  lemma FileNamesAreProper(a: Artifact)
    ensures ProperPart(FileName(a)) && Name(FileName(a)) == FileName(a)
  {
    NameOfPart(FileName(a));
  }

  lemma BuiltEntryMatches(c: Codec, a: Artifact, content: Bytes, entry: Json, dir: map<string, Bytes>)
    requires FileName(a) in dir && dir[FileName(a)] == content && DescribesFile(c, entry, a, content)
    ensures EntryMatches(c, entry, dir)
  {
    FileNamesAreProper(a);
  }

  predicate DescribesFile(c: Codec, entry: Json, a: Artifact, content: Bytes) {
    && entry.Object? && Get(entry, "file") == Text(FileName(a))
    && Get(entry, "sha256") == Text(c.Sha(content)) && Get(entry, "size_bytes") == Number(|content|)
  }

  lemma EntryDescribes(c: Codec, a: Artifact, content: Bytes)
    ensures DescribesFile(c, EntryJson(c, a, content), a, content)
  {
  }

  lemma ManifestFields(c: Codec, r: Request, counts: Json, artifacts: Json)
    ensures var manifest := ManifestJson(c, r, counts, artifacts);
            && manifest.Object?
            && Get(manifest, "schema_version") == Number(SCHEMA_VERSION)
            && Get(manifest, "source") == IdentityJson(c, r.source, r.alias, r.url, r.commit, r.includes, r.excludes)
            && Get(manifest, "artifacts") == artifacts
  {
  }

  lemma DescribedFields(graph: Json, source: Json, report: Json, log: Json)
    ensures var artifacts := Described(graph, source, report, log);
            && artifacts.Object? && artifacts.fields.Keys == REQUIRED_NAMES
            && Get(artifacts, "graph") == graph && Get(artifacts, "source") == source
            && Get(artifacts, "report") == report && Get(artifacts, "extraction_log") == log
  {
  }

  lemma SourceEntryFields(c: Codec, content: Bytes, expanded: nat, count: nat)
    ensures var entry := SourceEntryJson(c, content, expanded, count);
            && DescribesFile(c, entry, SourceArchive, content)
            && Get(entry, "expanded_size_bytes") == Number(expanded) && Get(entry, "file_count") == Number(count)
  {
  }

  lemma BuiltEntriesMatch(c: Codec, local: Local, source: Json)
    requires Complete(local) && DescribesFile(c, source, SourceArchive, local[SourceArchive])
    ensures var artifacts := Described(EntryJson(c, GraphFile, local[GraphFile]), source,
                                       EntryJson(c, Report, local[Report]), EntryJson(c, ExtractionLog, local[ExtractionLog]));
            EntriesMatch(c, artifacts, DirectoryOf(local))
  {
    var dir := DirectoryOf(local);
    DirectoryFields(local);
    var graph, report, log := local[GraphFile], local[Report], local[ExtractionLog];
    EntryDescribes(c, GraphFile, graph);
    EntryDescribes(c, Report, report);
    EntryDescribes(c, ExtractionLog, log);
    hide DirectoryOf, Described, EntryJson, EntryMatches, DescribesFile, FileName, Get;
    BuiltEntryMatches(c, GraphFile, graph, EntryJson(c, GraphFile, graph), dir);
    BuiltEntryMatches(c, SourceArchive, local[SourceArchive], source, dir);
    BuiltEntryMatches(c, Report, report, EntryJson(c, Report, report), dir);
    BuiltEntryMatches(c, ExtractionLog, log, EntryJson(c, ExtractionLog, log), dir);
    AllEntriesMatch(c, EntryJson(c, GraphFile, graph), source, EntryJson(c, Report, report), EntryJson(c, ExtractionLog, log), dir);
  }

  lemma AllEntriesMatch(c: Codec, graph: Json, source: Json, report: Json, log: Json, dir: map<string, Bytes>)
    requires EntryMatches(c, graph, dir) && EntryMatches(c, source, dir) && EntryMatches(c, report, dir) && EntryMatches(c, log, dir)
    ensures EntriesMatch(c, Described(graph, source, report, log), dir)
  {
    DescribedFields(graph, source, report, log);
    hide Described, EntryMatches, Get;
  }

  lemma DirectoryFields(local: Local)
    requires Complete(local)
    ensures forall a <- ARTIFACT_ORDER :: FileName(a) in DirectoryOf(local) && DirectoryOf(local)[FileName(a)] == local[a]
    ensures GraphFile in ARTIFACT_ORDER && SourceArchive in ARTIFACT_ORDER && Report in ARTIFACT_ORDER
            && ExtractionLog in ARTIFACT_ORDER && ManifestFile in ARTIFACT_ORDER
  {
  }

  // What the manifest of a built bundle says.
  ghost predicate IsManifestOf(c: Codec, r: Request, local: Local, members: seq<Member>, manifest: Json) {
    var artifacts := Get(manifest, "artifacts");
    && Complete(local)
    && manifest.Object? && Get(manifest, "schema_version") == Number(SCHEMA_VERSION)
    && Get(manifest, "source") == IdentityJson(c, r.source, r.alias, r.url, r.commit, r.includes, r.excludes)
    && artifacts.Object? && artifacts.fields.Keys == REQUIRED_NAMES
    && EntriesMatch(c, artifacts, DirectoryOf(local))
    && DescribesFile(c, Get(artifacts, "graph"), GraphFile, local[GraphFile])
    && DescribesFile(c, Get(artifacts, "source"), SourceArchive, local[SourceArchive])
    && Get(Get(artifacts, "source"), "expanded_size_bytes") == Number(TotalSize(members))
    && Get(Get(artifacts, "source"), "file_count") == Number(|members|)
  }

  function ManifestOf(c: Codec, r: Request, graph: Json, indexed: Json, members: seq<Member>): Json {
    var graphFile := c.compact(NormalizeGraph(graph, NamesOf(members)));
    var archive, log := c.pack(members), c.encodeText(LogText(r.stdout, r.stderr));
    ManifestJson(c, r, CountsJson(members, graph, indexed), ArtifactsJson(c, graphFile, archive, members, r.report, log))
  }

  lemma BuiltManifest(c: Codec, r: Request, graph: Json, indexed: Json, members: seq<Member>)
    requires c.Valid() && Packable(members)
    ensures var local := LocalOf(c, r, graph, indexed, members);
            && local[GraphFile] == c.compact(NormalizeGraph(graph, NamesOf(members)))
            && c.LoadObject(local[ManifestFile]) == Ok(ManifestOf(c, r, graph, indexed, members))
            && c.unpack(local[SourceArchive]) == Archive(members, false)
            && IsManifestOf(c, r, local, members, ManifestOf(c, r, graph, indexed, members))
  {
    var local := LocalOf(c, r, graph, indexed, members);
    assert local[SourceArchive] == c.pack(members) && local[ManifestFile] == c.pretty(ManifestOf(c, r, graph, indexed, members));
    assert local[GraphFile] == c.compact(NormalizeGraph(graph, NamesOf(members)));
    assert local[Report] == r.report && local[ExtractionLog] == c.encodeText(LogText(r.stdout, r.stderr));
    var source := SourceEntryJson(c, local[SourceArchive], TotalSize(members), |members|);
    var artifacts := ArtifactsJson(c, local[GraphFile], local[SourceArchive], members, local[Report], local[ExtractionLog]);
    hide LocalOf, NormalizeGraph, NamesOf, LogText, CountsJson, IdentityJson, EntryMatches, DirectoryOf, DescribesFile, TotalSize, Get;
    ManifestFields(c, r, CountsJson(members, graph, indexed), artifacts);
    SourceEntryFields(c, local[SourceArchive], TotalSize(members), |members|);
    EntryDescribes(c, GraphFile, local[GraphFile]);
    BuiltEntriesMatch(c, local, source);
    DescribedFields(EntryJson(c, GraphFile, local[GraphFile]), source, EntryJson(c, Report, local[Report]),
                    EntryJson(c, ExtractionLog, local[ExtractionLog]));
    hide Described, SourceEntryJson, EntryJson;
  }

  // The check of a freshly built bundle can only fail on its archive.
  lemma VerifyOfBuilt(c: Codec, r: Request, local: Local, members: seq<Member>, manifest: Json, limit: int)
    requires IsManifestOf(c, r, local, members, manifest) && c.HexDigest(r.commit, 40)
    requires c.LoadObject(local[ManifestFile]) == Ok(manifest) && c.unpack(local[SourceArchive]) == Archive(members, false)
    ensures Verify(c, DirectoryOf(local), limit).Ok? <==> limit > 0 && Admissible(members, limit)
  {
    ManifestOfBuilt(c, r, local, members, manifest, limit);
    ManifestFileIsThere(local);
    ArchiveOfBuilt(Get(Get(manifest, "artifacts"), "source"), members, limit);
    hide DirectoryOf, ManifestProblem, ArchiveProblem, Admissible, TotalSize, Get, IsManifestOf;
  }

  lemma ManifestOfBuilt(c: Codec, r: Request, local: Local, members: seq<Member>, manifest: Json, limit: int)
    requires IsManifestOf(c, r, local, members, manifest) && c.HexDigest(r.commit, 40)
    requires c.unpack(local[SourceArchive]) == Archive(members, false)
    ensures var source := Get(Get(manifest, "artifacts"), "source");
            && ManifestProblem(c, manifest, DirectoryOf(local), limit) == ArchiveProblem(source, Archive(members, false), limit)
            && Get(source, "expanded_size_bytes") == Number(TotalSize(members)) && Get(source, "file_count") == Number(|members|)
  {
    hide DirectoryOf, EntryMatches, EntriesMatch, FileName, TotalSize, IdentityJson, ArchiveProblem, Codec.HexDigest;
    DirectoryFields(local);
    CommitOfIdentity(c, r);
    DescribedName(c, Get(Get(manifest, "artifacts"), "source"), SourceArchive, local[SourceArchive]);
    hide Get, DescribesFile;
  }

  lemma DescribedName(c: Codec, entry: Json, a: Artifact, content: Bytes)
    requires DescribesFile(c, entry, a, content)
    ensures entry.Object? && Get(entry, "file") == Text(FileName(a))
  {
    hide FileName;
  }

  lemma ArchiveOfBuilt(entry: Json, members: seq<Member>, limit: int)
    requires Get(entry, "expanded_size_bytes") == Number(TotalSize(members)) && Get(entry, "file_count") == Number(|members|)
    ensures ArchiveProblem(entry, Archive(members, false), limit) == None <==> limit > 0 && Admissible(members, limit)
  {
    hide Get, TotalSize, Admissible;
  }

  lemma ManifestFileIsThere(local: Local)
    requires Complete(local)
    ensures "manifest.json" in DirectoryOf(local) && DirectoryOf(local)["manifest.json"] == local[ManifestFile]
  {
    DirectoryFields(local);
  }

  lemma CommitOfIdentity(c: Codec, r: Request)
    ensures var source := IdentityJson(c, r.source, r.alias, r.url, r.commit, r.includes, r.excludes);
            source.Object? && Get(source, "commit_sha") == Text(r.commit)
  {
  }

  // A build succeeds exactly when the extractor's output is valid and within the selection, the digests
  // are well-formed, no selected name holds a backslash and the files fit the archive limit.
  lemma BuildSucceedsIff(c: Codec, r: Request)
    requires c.Valid() && Listed(r)
    ensures var members := MembersOf(c, r, r.listing);
            Build(c, r).Ok? <==>
              && OutputProblem(c, r.graph, r.indexed) == None
              && c.HexDigest(r.commit, 40) && c.HexDigest(r.configHash, 64)
              && c.LoadObject(r.indexed).value.fields.Keys <= NamesOf(members)
              && (forall m <- members :: '\\' !in m.name)
              && TotalSize(members) <= MAX_EXPANDED_BYTES
  {
    MembersArePackable(c, r);
    AdmissibleIff(c, r, MAX_EXPANDED_BYTES);
    var members := MembersOf(c, r, r.listing);
    hide Verify, LocalOf, Admissible, DirectoryOf, MembersOf, TotalSize, Packable, Codec.Valid, Codec.LoadObject;
    if OutputProblem(c, r.graph, r.indexed) == None && c.HexDigest(r.commit, 40) { BuildIsVerified(c, r, members); }
  }

  lemma BuildIsVerified(c: Codec, r: Request, members: seq<Member>)
    requires c.Valid() && Packable(members) && OutputProblem(c, r.graph, r.indexed) == None && c.HexDigest(r.commit, 40)
    ensures var graph, indexed := c.LoadObject(r.graph).value, c.LoadObject(r.indexed).value;
            Verify(c, DirectoryOf(LocalOf(c, r, graph, indexed, members)), MAX_EXPANDED_BYTES).Ok? <==> Admissible(members, MAX_EXPANDED_BYTES)
  {
    var graph, indexed := c.LoadObject(r.graph).value, c.LoadObject(r.indexed).value;
    hide *;
    BuiltManifest(c, r, graph, indexed, members);
    VerifyOfBuilt(c, r, LocalOf(c, r, graph, indexed, members), members, ManifestOf(c, r, graph, indexed, members), MAX_EXPANDED_BYTES);
  }

  /******* The graph that is served *******/

  function ServingFiles(tree: Tree): Json -> bool {
    v => NamesFile(tree, v)
  }

  ghost predicate NamesAreFiles(names: set<string>, tree: Tree) {
    forall name <- names :: SafePath(name).Some? && SafePath(name).value in tree
  }

  lemma NormalizedNode(node: Json, names: set<string>, tree: Tree)
    requires NodeAccepted(node, {}, NamesSafePath) && NamesAreFiles(names, tree)
    ensures NodeAccepted(NormalizeNode(node, names), {}, ServingFiles(tree))
    ensures Get(NormalizeNode(node, names), "id") == Get(node, "id")
  {
  }

  // Normalization turns a valid extraction into a graph whose source files are all in the archive; ids
  // and links are kept.
  lemma NormalizedGraphServes(graph: Json, names: set<string>, tree: Tree)
    requires graph.Object? && GraphProblem(graph, NamesSafePath) == None && NamesAreFiles(names, tree)
    ensures GraphProblem(NormalizeGraph(graph, names), ServingFiles(tree)) == None
  {
    GraphAcceptedIff(graph, NamesSafePath);
    var served := NormalizeGraph(graph, names);
    NormalizeKeepsLists(graph, names);
    var nodes, nodes' := Get(graph, "nodes").items, Get(served, "nodes").items;
    forall i | 0 <= i < |nodes|
      ensures NodeAccepted(nodes'[i], {}, ServingFiles(tree)) && Get(nodes'[i], "id") == Get(nodes[i], "id")
    {
      NormalizedNode(nodes[i], names, tree);
    }
    hide NormalizeGraph, NormalizeNode, NodeAccepted, Get, NamesAreFiles, ServingFiles;
    forall id ensures IsNode(nodes', id) <==> IsNode(nodes, id) {}
    assert WellLinked(served, ServingFiles(tree));
    GraphAcceptedIff(served, ServingFiles(tree));
  }

  lemma NormalizeKeepsLists(graph: Json, names: set<string>)
    requires graph.Object? && Get(graph, "nodes").List?
    ensures var served := NormalizeGraph(graph, names);
            && Get(served, "nodes") == List(NormalizeNodes(Get(graph, "nodes").items, names))
            && Get(served, "links") == Get(graph, "links") && Get(served, "hyperedges") == Get(graph, "hyperedges")
  {
  }

  // What hydration needs to know of a bundle that was built.
  lemma BuiltFacts(c: Codec, r: Request)
    requires c.Valid() && Listed(r) && Build(c, r).Ok?
    ensures var local, members := Build(c, r).value, MembersOf(c, r, r.listing);
            var graph, indexed := c.LoadObject(r.graph), c.LoadObject(r.indexed);
            && Packable(members) && Admissible(members, MAX_EXPANDED_BYTES)
            && graph.Ok? && indexed.Ok?
            && local == LocalOf(c, r, graph.value, indexed.value, members)
            && GraphProblem(graph.value, NamesSafePath) == None
            && NamesAreFiles(NamesOf(members), Selected(c, r))
  {
    BuildSucceedsIff(c, r);
    MembersArePackable(c, r);
    AdmissibleIff(c, r, MAX_EXPANDED_BYTES);
    MembersInScope(c, r, r.listing);
    var members := MembersOf(c, r, r.listing);
    forall m <- members ensures SafePath(m.name).Some? && SafePath(m.name).value in Selected(c, r) {
      var p :| p in r.listing && InScope(c, r, p) && m == Member(Join(p), File, r.snapshot[p]);
      SafeOfJoin(p);
    }
    hide LocalOf, Verify, DirectoryOf, InScope, MembersOf, SafePath, Codec.Valid, Packable, Listed;
  }

  /******* The same, step by step *******/

  method SelectFiles(c: Codec, r: Request) returns (members: seq<Member>)
    requires forall p <- r.listing :: p in r.snapshot
    ensures members == MembersOf(c, r, r.listing)
    ensures forall m :: m in members <==>
              exists p :: p in r.listing && m == Member(Join(p), File, r.snapshot[p])
                          && (forall k | 0 <= k < |p| :: p[k] != ".git")
                          && (r.includes == [] || exists i :: 0 <= i < |r.includes| && c.glob(Join(p), r.includes[i]))
                          && (forall i | 0 <= i < |r.excludes| :: !c.glob(Join(p), r.excludes[i]))
  {
    MembersAreSelected(c, r, r.listing);
    members := [];
    for i := 0 to |r.listing|
      invariant forall p <- r.listing[..i] :: p in r.snapshot
      invariant members == MembersOf(c, r, r.listing[..i])
    {
      var p := r.listing[i];
      assert r.listing[..i + 1] == r.listing[..i] + [p] && r.listing[..i + 1][..i] == r.listing[..i];
      hide InScope;
      if InScope(c, r, p) { members := members + [Member(Join(p), File, r.snapshot[p])]; }
    }
    assert r.listing[..|r.listing|] == r.listing;
  }

  method NormalizeInPlace(nodes: array<Json>, names: set<string>)
    modifies nodes
    ensures nodes[..] == NormalizeNodes(old(nodes[..]), names)
  {
    hide NormalizeNode;
    for i := 0 to nodes.Length
      invariant forall k | 0 <= k < i :: nodes[k] == NormalizeNode(old(nodes[k]), names)
      invariant forall k | i <= k < nodes.Length :: nodes[k] == old(nodes[k])
    {
      nodes[i] := NormalizeNode(nodes[i], names);
    }
  }

  // Stops at the first unsafe or irregular member and as soon as the limit is exceeded.
  method InspectArchive(archive: Archive, limit: int) returns (r: Result<(nat, nat), Failure>)
    ensures r == Inspect(archive, limit)
  {
    if limit <= 0 { return Err(Raised); }
    var members := archive.members;
    var expanded: nat, count: nat := 0, 0;
    for i := 0 to |members|
      invariant expanded == TotalSize(members[..i]) <= limit && count == i
      invariant forall m <- members[..i] :: m.kind == File && SafePath(m.name).Some?
    {
      var m := members[i];
      assert m in members && members[..i + 1] == members[..i] + [m] && members[..i + 1][..i] == members[..i];
      hide SafePath;
      if SafePath(m.name).None? || m.kind != File { return Err(Refused); }
      expanded, count := expanded + |m.content|, count + 1;
      if expanded > limit {
        PrefixSize(members, i + 1);
        return Err(Refused);
      }
    }
    assert members[..|members|] == members;
    if archive.broken { return Err(Raised); }
    return Ok((expanded, count));
  }

  lemma {:induction false} PrefixSize(members: seq<Member>, k: nat)
    requires k <= |members|
    ensures TotalSize(members[..k]) <= TotalSize(members)
  {
    if k == |members| {
      assert members[..k] == members;
    } else {
      assert members[..|members| - 1][..k] == members[..k];
      PrefixSize(members[..|members| - 1], k);
    }
  }
}
