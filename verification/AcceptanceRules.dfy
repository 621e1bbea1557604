/**
  When a graph, a bundle, a download, an extraction and a cached directory are accepted, condition by
  condition, and what the accepted ones hold.
 */
module AcceptanceRules {
  import opened Identifiers
  import opened Wrappers
  import opened RelativePaths
  import opened Formats
  import opened Publication
  import opened Bundles
  import opened SyncProtocol
  import opened Hydration
  import Strings = Text

  // Element k is the first that does not satisfy p.
  ghost predicate FirstNot<T>(s: seq<T>, p: T -> bool, k: nat) {
    k < |s| && !p(s[k]) && forall j | 0 <= j < k :: p(s[j])
  }

  lemma FirstNotOfMore<T>(s: seq<T>, p: T -> bool)
    requires s != []
    ensures var n, init := |s| - 1, s[..|s| - 1];
            && ((forall x <- s :: p(x)) <==> (forall x <- init :: p(x)) && p(s[n]))
            && (if forall x <- init :: p(x) then forall k: nat :: FirstNot(s, p, k) <==> k == n && !p(s[n])
                else forall k: nat :: FirstNot(s, p, k) <==> FirstNot(init, p, k))
  {
    var n, init := |s| - 1, s[..|s| - 1];
    assert s == init + [s[n]];
    if forall x <- init :: p(x) {
      forall j | 0 <= j < n ensures p(s[j]) { assert init[j] in init; }
    } else {
      var wrong :| wrong in init && !p(wrong);
      var i :| 0 <= i < n && init[i] == wrong;
      assert s[i] == wrong;
      forall k: nat ensures FirstNot(s, p, k) <==> FirstNot(init, p, k) {}
    }
  }

  lemma FirstNotWithin<T>(s: seq<T>, p: T -> bool)
    ensures forall k: nat | FirstNot(s, p, k) :: k < |s|
  {
  }

  /******* Graphs *******/

  predicate HasField(j: Json, key: string, value: Json) {
    j.Object? && key in j.fields && j.fields[key] == value
  }

  // The field is absent or null.
  predicate Unset(j: Json, key: string) {
    j.Object? ==> key in j.fields ==> j.fields[key] == Null
  }

  // The nodes of a graph carry this text as an id.
  ghost predicate IsId(nodes: seq<Json>, v: Json) {
    v.Text? && exists i :: 0 <= i < |nodes| && HasField(nodes[i], "id", v)
  }

  predicate NodeIsFine(node: Json, accepts: Json -> bool) {
    && node.Object? && "id" in node.fields && node.fields["id"].Text? && node.fields["id"] != Text("")
    && (Unset(node, "source_file") || node.fields["source_file"] == Text("") || accepts(node.fields["source_file"]))
  }

  lemma NodeAcceptedIff(node: Json, accepts: Json -> bool)
    requires !accepts(Null)
    ensures NodeAccepted(node, {}, accepts) <==> NodeIsFine(node, accepts)
  {
  }

  // A graph is accepted exactly if nodes, links and hyperedges are lists, each node is an object with an id
  // of its own that is text and not empty and with an absent, empty or acceptable source file, and each
  // link is an object whose ends are ids of nodes.
  lemma GraphIsAcceptedIff(graph: Json, accepts: Json -> bool)
    requires !accepts(Null)
    ensures GraphProblem(graph, accepts) == None <==>
            && graph.Object? && "nodes" in graph.fields && "links" in graph.fields && "hyperedges" in graph.fields
            && graph.fields["nodes"].List? && graph.fields["links"].List? && graph.fields["hyperedges"].List?
            && var nodes := graph.fields["nodes"].items;
            && (forall i | 0 <= i < |nodes| :: NodeIsFine(nodes[i], accepts))
            && (forall i, j | 0 <= i < j < |nodes| :: nodes[i].fields["id"] != nodes[j].fields["id"])
            && forall l <- graph.fields["links"].items ::
                 && l.Object? && "source" in l.fields && "target" in l.fields
                 && IsId(nodes, l.fields["source"]) && IsId(nodes, l.fields["target"])
  {
    GraphAcceptedIff(graph, accepts);
    if Get(graph, "nodes").List? {
      var nodes := Get(graph, "nodes").items;
      forall i | 0 <= i < |nodes| ensures NodeAccepted(nodes[i], {}, accepts) <==> NodeIsFine(nodes[i], accepts) {
        NodeAcceptedIff(nodes[i], accepts);
      }
      forall v ensures IsNode(nodes, v) <==> IsId(nodes, v) {}
    }
    hide GraphProblem, NodeAccepted, IsNode, IsId;
  }

  predicate CannotBeId(link: Json, end: string) {
    link.Object? && end in link.fields && (link.fields[end].List? || link.fields[end].Object?)
  }

  ghost predicate Joins(link: Json, nodes: seq<Json>) {
    && link.Object? && "source" in link.fields && "target" in link.fields
    && IsId(nodes, link.fields["source"]) && IsId(nodes, link.fields["target"])
  }

  lemma LinkJoinsIff(link: Json, nodes: seq<Json>, ids: set<string>)
    requires forall id :: id in ids <==> IsId(nodes, Text(id))
    ensures LinkProblem(link, ids) == None <==> Joins(link, nodes)
    ensures LinkProblem(link, ids) == Some(Raised) <==> LinkRaises(link, nodes)
  {
    if link.Object? {
      forall end, v | end in link.fields && link.fields[end] == v && v.Text? ensures v.text in ids <==> IsId(nodes, v) {
        assert v == Text(v.text);
      }
    }
    hide IsId;
  }

  ghost function JoinsIn(nodes: seq<Json>): Json -> bool {
    l => Joins(l, nodes)
  }

  // Looking up an end of the link raises.
  ghost predicate LinkRaises(link: Json, nodes: seq<Json>) {
    || CannotBeId(link, "source")
    || (CannotBeId(link, "target") && "source" in link.fields && IsId(nodes, link.fields["source"]))
  }

  // The first bad link.
  ghost predicate FirstBad(links: seq<Json>, nodes: seq<Json>, k: nat) {
    FirstNot(links, JoinsIn(nodes), k)
  }

  lemma {:induction false} LinksRaiseIff(links: seq<Json>, nodes: seq<Json>, ids: set<string>)
    requires forall id :: id in ids <==> IsId(nodes, Text(id))
    ensures LinksProblem(links, ids) == None <==> forall l <- links :: JoinsIn(nodes)(l)
    ensures forall k: nat | FirstBad(links, nodes, k) :: k < |links|
    ensures LinksProblem(links, ids) == Some(Raised) <==> exists k: nat :: FirstBad(links, nodes, k) && LinkRaises(links[k], nodes)
  {
    FirstNotWithin(links, JoinsIn(nodes));
    if links != [] {
      var n := |links| - 1;
      var init, last := links[..n], links[n];
      LinksRaiseIff(init, nodes, ids);
      LinkJoinsIff(last, nodes, ids);
      FirstNotOfMore(links, JoinsIn(nodes));
      assert JoinsIn(nodes)(last) <==> Joins(last, nodes);
      hide Joins, JoinsIn, LinkRaises, IsId, LinkProblem, FirstNot;
      if LinksProblem(init, ids).None? {
        if !Joins(last, nodes) { assert FirstBad(links, nodes, n); }
      } else {
        assert forall k: nat | FirstBad(init, nodes, k) :: links[k] == init[k];
      }
    }
  }

  // A graph raises instead of being refused exactly if its lists and nodes are fine and the first bad link
  // has a list or an object where an id is looked up.
  lemma GraphRaisesIff(graph: Json, accepts: Json -> bool)
    requires !accepts(Null)
    requires graph.Object? && "nodes" in graph.fields && "links" in graph.fields && "hyperedges" in graph.fields
    requires graph.fields["nodes"].List? && graph.fields["links"].List? && graph.fields["hyperedges"].List?
    ensures var nodes, links := graph.fields["nodes"].items, graph.fields["links"].items;
            GraphProblem(graph, accepts) == Some(Raised) <==>
              && (forall i | 0 <= i < |nodes| :: NodeIsFine(nodes[i], accepts))
              && (forall i, j | 0 <= i < j < |nodes| :: nodes[i].fields["id"] != nodes[j].fields["id"])
              && exists k: nat :: FirstBad(links, nodes, k) && k < |links| && LinkRaises(links[k], nodes)
  {
    var nodes, links := graph.fields["nodes"].items, graph.fields["links"].items;
    NodeIdsMeaning(nodes, accepts);
    forall i | 0 <= i < |nodes| ensures NodeAccepted(nodes[i], {}, accepts) <==> NodeIsFine(nodes[i], accepts) {
      NodeAcceptedIff(nodes[i], accepts);
    }
    forall v ensures IsNode(nodes, v) <==> IsId(nodes, v) {}
    if NodeIds(nodes, accepts).Some? { LinksRaiseIff(links, nodes, NodeIds(nodes, accepts).value); }
    hide NodeIds, LinksProblem, NodeAccepted, IsNode, IsId, FirstBad, LinkRaises;
  }

  // What the serving side accepts as a source file, and what the extractor may name.
  lemma AcceptedSources(tree: Tree, v: Json)
    ensures ServingFiles(tree)(v) <==> v.Text? && SafePath(v.text).Some? && SafePath(v.text).value in tree
    ensures NamesSafePath(v) <==> v.Text? && SafePath(v.text).Some?
  {
  }

  /******* Normalization *******/

  // A node whose source file is text that names no archived file becomes external; nothing else changes.
  lemma NormalizedIs(node: Json, names: set<string>)
    ensures var after := NormalizeNode(node, names);
            if node.Object? && "source_file" in node.fields && node.fields["source_file"] != Null
               && !(node.fields["source_file"].Text? && (node.fields["source_file"].text == "" || node.fields["source_file"].text in names))
            then after == Object(node.fields["source_file" := Text("")])
            else after == node
  {
  }

  lemma NormalizedGraphIs(graph: Json, names: set<string>)
    requires graph.Object? && "nodes" in graph.fields && graph.fields["nodes"].List?
    ensures var after, nodes := NormalizeGraph(graph, names), graph.fields["nodes"].items;
            && after.Object? && after.fields.Keys == graph.fields.Keys && after.fields["nodes"].List?
            && (forall key <- graph.fields :: key != "nodes" ==> after.fields[key] == graph.fields[key])
            && |after.fields["nodes"].items| == |nodes|
            && forall i | 0 <= i < |nodes| :: after.fields["nodes"].items[i] == NormalizeNode(nodes[i], names)
  {
    hide NormalizeNode;
  }

  /******* Extraction output *******/

  lemma LoadsIff(c: Codec, x: Bytes, j: Json)
    ensures c.LoadObject(x) == Ok(j) <==> c.parse(x) == Some(j) && j.Object?
    ensures c.LoadObject(x).Err? <==> c.parse(x).None? || !c.parse(x).value.Object?
    ensures c.LoadObject(x).Err? ==> c.LoadObject(x).error == Refused
  {
  }

  // The extractor's output is valid exactly if its graph reads as an acceptable one and its index as an
  // object with a hash for each of its safe paths.
  lemma OutputIsValidIff(c: Codec, graph: Bytes, indexed: Bytes)
    ensures OutputProblem(c, graph, indexed) == None <==>
            && c.parse(graph).Some? && c.parse(graph).value.Object? && GraphProblem(c.parse(graph).value, NamesSafePath) == None
            && c.parse(indexed).Some? && c.parse(indexed).value.Object?
            && forall name <- c.parse(indexed).value.fields ::
                 var state := c.parse(indexed).value.fields[name];
                 && SafePath(name).Some? && state.Object? && "ast_hash" in state.fields
                 && state.fields["ast_hash"].Text? && state.fields["ast_hash"] != Text("")
  {
    hide GraphProblem, SafePath, NamesSafePath;
  }

  /******* Bundles *******/

  function TextsOf(values: seq<string>): Json {
    List(seq(|values|, i requires 0 <= i < |values| => Text(values[i])))
  }

  lemma TextsAreSame(a: seq<string>, b: seq<string>)
    ensures Texts(a) == TextsOf(a)
    ensures TextsOf(a) == TextsOf(b) <==> a == b
  {
    if TextsOf(a) == TextsOf(b) {
      assert TextsOf(a).items == TextsOf(b).items;
      forall i | 0 <= i < |a| ensures a[i] == b[i] { assert TextsOf(a).items[i] == TextsOf(b).items[i]; }
    }
  }

  // Two identities are the same exactly if source, alias, address, commit and both scope lists are.
  lemma IdentityIff(c: Codec, s: SourceId, alias: string, url: string, commit: string, includes: seq<string>, excludes: seq<string>,
                    s': SourceId, alias': string, url': string, commit': string, includes': seq<string>, excludes': seq<string>)
    requires c.naming.Valid()
    ensures IdentityJson(c, s, alias, url, commit, includes, excludes) == IdentityJson(c, s', alias', url', commit', includes', excludes') <==>
            s == s' && alias == alias' && url == url' && commit == commit' && includes == includes' && excludes == excludes'
  {
    TextsAreSame(includes, includes');
    TextsAreSame(excludes, excludes');
    TextsAreSame(includes', includes);
    TextsAreSame(excludes', excludes);
    hide Texts, TextsOf;
    var a, b := IdentityJson(c, s, alias, url, commit, includes, excludes), IdentityJson(c, s', alias', url', commit', includes', excludes');
    if a == b {
      assert a.fields["id"] == b.fields["id"] && a.fields["canonical_alias"] == b.fields["canonical_alias"]
             && a.fields["repository_url"] == b.fields["repository_url"] && a.fields["commit_sha"] == b.fields["commit_sha"]
             && a.fields["include_paths"] == b.fields["include_paths"] && a.fields["exclude_paths"] == b.fields["exclude_paths"];
    }
  }

  // The entry is about a file of this name with this content.
  predicate EntryIs(c: Codec, entry: Json, file: string, content: Bytes) {
    && HasField(entry, "file", Text(file)) && HasField(entry, "size_bytes", Number(|content|))
    && HasField(entry, "sha256", Text(c.Sha(content)))
  }

  predicate CountsAre(entry: Json, size: nat, count: nat) {
    HasField(entry, "expanded_size_bytes", Number(size)) && HasField(entry, "file_count", Number(count))
  }

  ghost predicate AllSafeFiles(members: seq<Member>) {
    forall m <- members :: m.kind == File && SafePath(m.name).Some?
  }

  lemma DescribesIff(c: Codec, entry: Json, a: Artifact, content: Bytes)
    ensures DescribesFile(c, entry, a, content) <==> EntryIs(c, entry, FileName(a), content)
  {
    hide FileName, Codec.Sha;
  }

  lemma EntryMatchesIff(c: Codec, entry: Json, dir: map<string, Bytes>)
    ensures EntryMatches(c, entry, dir) <==>
            exists file :: file in dir && EntryIs(c, entry, file, dir[file]) && Name(file) == file && file != "" && file != ".."
  {
    hide Name, Codec.Sha;
    if EntryMatches(c, entry, dir) {
      var file := Get(entry, "file").text;
      assert file in dir && EntryIs(c, entry, file, dir[file]);
    }
  }

  // A bundle directory is verified exactly if its manifest reads as an object of this schema with a
  // 40-digit commit and entries for exactly the four artifacts, each entry names a plain file of the directory with its
  // size and digest, and the archive is unbroken, holds only safe regular files within the limit, and has
  // the stated counts.
  lemma VerifiedIff(c: Codec, dir: map<string, Bytes>, limit: int, m: Json)
    ensures Verify(c, dir, limit) == Ok(m) <==>
            && "manifest.json" in dir && c.parse(dir["manifest.json"]) == Some(m)
            && HasField(m, "schema_version", Number(1))
            && m.Object? && "source" in m.fields && m.fields["source"].Object? && "commit_sha" in m.fields["source"].fields
            && var commit := m.fields["source"].fields["commit_sha"];
            && commit.Text? && |commit.text| == 40 && c.base16(commit.text)
            && "artifacts" in m.fields && m.fields["artifacts"].Object?
            && var artifacts := m.fields["artifacts"].fields;
            && artifacts.Keys == {"graph", "source", "report", "extraction_log"}
            && (forall name <- artifacts :: EntryMatches(c, artifacts[name], dir))
            && var archive := c.unpack(dir[Get(artifacts["source"], "file").text]);
            && limit > 0 && !archive.broken && AllSafeFiles(archive.members) && TotalSize(archive.members) <= limit
            && CountsAre(artifacts["source"], TotalSize(archive.members), |archive.members|)
  {
    hide EntryMatches, SafePath, TotalSize;
  }

  /******* Downloads *******/

  // An artifact is fetched exactly if its key ends in the artifact's file name and the object under it has
  // the recorded digest.
  lemma FetchedIff(c: Codec, row: Version, objects: Objects, a: Artifact, x: Bytes)
    requires c.Valid()
    ensures Fetch(c, row, objects, a) == Some(x) <==>
            && a in row.keys && row.keys[a] != "" && Name(row.keys[a]) == FileName(a)
            && row.keys[a] in objects && objects[row.keys[a]] == x
            && a in row.checksums && row.checksums[a] == "sha256:" + c.naming.sha256(x)
  {
    hide Name, FileName;
    if a in row.checksums {
      var sum := row.checksums[a];
      if |sum| == 71 && CHECKSUM_PREFIX <= sum { assert sum == CHECKSUM_PREFIX + sum[7..]; }
      if sum == CHECKSUM_PREFIX + c.naming.sha256(x) { assert sum[7..] == c.naming.sha256(x); }
    }
  }

  lemma MatchesIff(c: Codec, row: Version, a: Artifact, x: Bytes)
    requires c.Valid()
    ensures DigestMatches(c, row, a, x) <==> a in row.checksums && row.checksums[a] == "sha256:" + c.naming.sha256(x)
  {
    if a in row.checksums {
      var sum := row.checksums[a];
      if |sum| == 71 && CHECKSUM_PREFIX <= sum { assert sum == CHECKSUM_PREFIX + sum[7..]; }
      if sum == CHECKSUM_PREFIX + c.naming.sha256(x) { assert sum[7..] == c.naming.sha256(x); }
    }
  }

  // A manifest agrees with registry and files exactly if it reads as an object with the identity and scope
  // of the registered source at the commit of the version and with entries for graph and archive.
  lemma AgreesIff(c: Codec, source: Registered, row: Version, manifest: Bytes, graph: Bytes, archive: Bytes, m: Json)
    ensures ManifestAgrees(c, source, row, manifest, graph, archive) == Ok(m) <==>
            && c.parse(manifest) == Some(m) && m.Object?
            && HasField(m, "source", Object(map[
                 "id" := Text(c.naming.uuid(source.id)), "canonical_alias" := Text(source.alias), "repository_url" := Text(source.url),
                 "commit_sha" := Text(row.id.commit), "include_paths" := TextsOf(source.includes), "exclude_paths" := TextsOf(source.excludes)]))
            && "artifacts" in m.fields && m.fields["artifacts"].Object?
            && var artifacts := m.fields["artifacts"].fields;
            && "graph" in artifacts && EntryIs(c, artifacts["graph"], "graph.json", graph)
            && "source" in artifacts && EntryIs(c, artifacts["source"], "source.tar.zst", archive)
  {
    TextsAreSame(source.includes, source.includes);
    TextsAreSame(source.excludes, source.excludes);
    DescribesIff(c, Get(Get(m, "artifacts"), "graph"), GraphFile, graph);
    DescribesIff(c, Get(Get(m, "artifacts"), "source"), SourceArchive, archive);
    hide Texts, TextsOf, DescribesFile, Codec.Sha;
  }

  /******* Extraction *******/

  // No member is the archive's root, and no member is a directory of another.
  ghost predicate NoneInTheWay(members: seq<Member>) {
    && (forall m <- members :: SafePath(m.name) != Some([]))
    && forall m, m' | m in members && m' in members ::
         SafePath(m.name).Some? && SafePath(m'.name).Some? ==> !(SafePath(m.name).value < SafePath(m'.name).value)
  }

  lemma {:induction false} MembersExtractIff(members: seq<Member>, limit: int)
    requires limit >= 0
    ensures ExtractMembers(members, limit).Ok? <==> AllSafeFiles(members) && TotalSize(members) <= limit && NoneInTheWay(members)
    ensures ExtractMembers(members, limit).Err? ==> ExtractMembers(members, limit).error == Refused
  {
    if members != [] {
      var init, last := members[..|members| - 1], members[|members| - 1];
      assert members == init + [last];
      MembersExtractIff(init, limit);
      if ExtractMembers(init, limit).Ok? {
        ExtractMeaning(init, limit);
        LastMemberFits(init, last, limit);
      } else {
        PrefixRules(init, last, limit);
      }
      hide SafePath, Writable, ExtractMember, NoneInTheWay, AllSafeFiles;
    }
  }

  lemma PrefixRules(init: seq<Member>, last: Member, limit: int)
    requires !(AllSafeFiles(init) && TotalSize(init) <= limit && NoneInTheWay(init))
    ensures !(AllSafeFiles(init + [last]) && TotalSize(init + [last]) <= limit && NoneInTheWay(init + [last]))
  {
    assert (init + [last])[..|init|] == init;
    assert forall m <- init :: m in init + [last];
    hide SafePath;
  }

  lemma LastMemberFits(init: seq<Member>, last: Member, limit: int)
    requires AllSafeFiles(init) && TotalSize(init) <= limit && NoneInTheWay(init)
    requires ExtractMembers(init, limit).Ok?
    requires var u := ExtractMembers(init, limit).value; HoldsLast(u.tree, init) && u.size == TotalSize(init)
    ensures ExtractMember(ExtractMembers(init, limit).value, last, limit).Ok? <==>
            AllSafeFiles(init + [last]) && TotalSize(init + [last]) <= limit && NoneInTheWay(init + [last])
    ensures var r := ExtractMember(ExtractMembers(init, limit).value, last, limit); r.Err? ==> r.error == Refused
  {
    var tree := ExtractMembers(init, limit).value.tree;
    assert (init + [last])[..|init|] == init;
    forall p ensures p in tree <==> exists m :: m in init && SafePath(m.name) == Some(p) { HeldPath(tree, init, p); }
    hide SafePath, ExtractMembers, LastContent, HoldsLast, NoneInTheWay, Writable;
    LastInTheWay(init, last, tree);
    LastOnesWay(init, last);
  }

  lemma HeldPath(tree: Tree, members: seq<Member>, p: Path)
    requires HoldsLast(tree, members)
    ensures p in tree <==> exists m :: m in members && SafePath(m.name) == Some(p)
  {
    LastContentIsMember(members, p);
    hide SafePath, LastContent;
  }

  // Members that are not in each other's way were not without the last one.
  lemma LastOnesWay(init: seq<Member>, last: Member)
    ensures AllSafeFiles(init + [last]) <==> AllSafeFiles(init) && last.kind == File && SafePath(last.name).Some?
  {
    hide SafePath;
    assert forall m :: m in init + [last] <==> m in init || m == last;
  }

  lemma LastInTheWay(init: seq<Member>, last: Member, tree: Tree)
    requires NoneInTheWay(init) && forall p :: p in tree <==> exists m :: m in init && SafePath(m.name) == Some(p)
    ensures SafePath(last.name).Some? ==> (NoneInTheWay(init + [last]) <==> Writable(tree, SafePath(last.name).value))
  {
    hide SafePath;
  }

  // Extraction yields exactly the last content of each archived path, and does so exactly if the limit is
  // positive and kept, the archive is unbroken and holds safe regular files that are not in each other's
  // way, and the manifest states its size and number of files.
  lemma ExtractsIff(archive: Archive, entry: Json, limit: int, tree: Tree)
    ensures Extract(archive, entry, limit) == Ok(tree) <==>
            && limit > 0 && !archive.broken && AllSafeFiles(archive.members) && TotalSize(archive.members) <= limit
            && NoneInTheWay(archive.members) && CountsAre(entry, TotalSize(archive.members), |archive.members|)
            && HoldsLast(tree, archive.members)
  {
    var members := archive.members;
    if limit > 0 {
      MembersExtractIff(members, limit);
      if ExtractMembers(members, limit).Ok? {
        ExtractMeaning(members, limit);
        if HoldsLast(tree, members) { SameTrees(tree, ExtractMembers(members, limit).value.tree, members); }
      }
    }
    hide ExtractMembers, AllSafeFiles, NoneInTheWay, TotalSize, HoldsLast;
  }

  lemma SameTrees(t: Tree, u: Tree, members: seq<Member>)
    requires HoldsLast(t, members) && HoldsLast(u, members)
    ensures t == u
  {
    hide LastContent;
    forall p ensures p in t <==> p in u {}
    forall p | p in t ensures t[p] == u[p] {}
  }

  /******* Whole directories *******/

  // What all serving checks ask of a graph file over extracted files.
  ghost predicate Serves(c: Codec, graph: Bytes, tree: Tree) {
    c.parse(graph).Some? && c.parse(graph).value.Object? && GraphProblem(c.parse(graph).value, ServingFiles(tree)) == None
  }

  lemma ServesIff(c: Codec, graph: Bytes, tree: Tree)
    ensures ServingProblem(c, graph, tree) == None <==> Serves(c, graph, tree)
  {
    hide GraphProblem, ServingFiles;
  }

  // A directory is prepared exactly from three fetched artifacts whose manifest agrees with the registry,
  // whose archive extracts and whose graph serves the extracted files; it holds just these.
  lemma FreshIff(c: Codec, source: Registered, row: Version, objects: Objects, limit: int, d: VersionDir)
    requires c.Valid()
    ensures Fresh(c, source, row, objects, limit) == Ok(d) <==>
            && d.manifest.Some? && d.graph.Some? && d.archive.Some? && d.source.Some?
            && Fetch(c, row, objects, ManifestFile) == d.manifest && Fetch(c, row, objects, GraphFile) == d.graph
            && Fetch(c, row, objects, SourceArchive) == d.archive
            && d.ready == Some(c.encodeText(c.naming.sha256(d.manifest.value) + "\n"))
            && (exists m :: ManifestAgrees(c, source, row, d.manifest.value, d.graph.value, d.archive.value) == Ok(m)
                            && Extract(c.unpack(d.archive.value), Get(Get(m, "artifacts"), "source"), limit) == Ok(d.source.value))
            && Serves(c, d.graph.value, d.source.value)
  {
    hide Fetch, ManifestAgrees, Extract, Serves, Get, DigestMatches, FreshFrom, Codec.Valid;
    match (Fetch(c, row, objects, ManifestFile), Fetch(c, row, objects, GraphFile), Fetch(c, row, objects, SourceArchive))
    case (Some(manifest), Some(graph), Some(archive)) =>
      FetchedDigest(c, row, objects, ManifestFile, manifest);
      FreshFromIff(c, source, row, manifest, graph, archive, limit, d);
    case _ =>
  }

  lemma FreshFromIff(c: Codec, source: Registered, row: Version, manifest: Bytes, graph: Bytes, archive: Bytes, limit: int, d: VersionDir)
    requires DigestMatches(c, row, ManifestFile, manifest) && ExpectedDigest(c, row, ManifestFile) == Some(c.naming.sha256(manifest))
    ensures FreshFrom(c, source, row, manifest, graph, archive, limit) == Ok(d) <==>
            && d.manifest == Some(manifest) && d.graph == Some(graph) && d.archive == Some(archive) && d.source.Some?
            && d.ready == Some(c.encodeText(c.naming.sha256(manifest) + "\n"))
            && (exists m :: ManifestAgrees(c, source, row, manifest, graph, archive) == Ok(m)
                            && Extract(c.unpack(archive), Get(Get(m, "artifacts"), "source"), limit) == Ok(d.source.value))
            && Serves(c, graph, d.source.value)
  {
    hide ManifestAgrees, Extract, ServingProblem, Serves, Get, ExpectedDigest, DigestMatches;
    match ManifestAgrees(c, source, row, manifest, graph, archive)
    case Ok(m) =>
      match Extract(c.unpack(archive), Get(Get(m, "artifacts"), "source"), limit) {
        case Ok(tree) => ServesIff(c, graph, tree);
        case Err(_) =>
      }
    case Err(_) =>
  }

  lemma FetchedDigest(c: Codec, row: Version, objects: Objects, a: Artifact, x: Bytes)
    requires Fetch(c, row, objects, a) == Some(x)
    ensures DigestMatches(c, row, a, x) && ExpectedDigest(c, row, a) == Some(c.naming.sha256(x))
  {
    hide KeyUsable, ExpectedDigest;
  }

  // The extracted files are those of the archive, path by path, as far as digests tell.
  ghost predicate HoldsArchive(c: Codec, tree: Tree, archive: Archive) {
    && !archive.broken && AllSafeFiles(archive.members)
    && (forall m <- archive.members ::
          SafePath(m.name).Some? && SafePath(m.name).value in tree && c.naming.sha256(tree[SafePath(m.name).value]) == c.naming.sha256(m.content))
    && forall p <- tree :: exists m :: m in archive.members && SafePath(m.name) == Some(p)
  }

  lemma HoldsArchiveIff(c: Codec, tree: Tree, archive: Archive)
    ensures ExtractedProblem(c, tree, archive) == None <==> HoldsArchive(c, tree, archive)
  {
    MembersProblemMeaning(c, tree, archive.members);
    forall m <- archive.members
      ensures MemberProblem(c, tree, m) == None <==>
              m.kind == File && SafePath(m.name).Some? && SafePath(m.name).value in tree
              && c.naming.sha256(tree[SafePath(m.name).value]) == c.naming.sha256(m.content)
    {
      hide SafePath;
    }
    hide MembersProblem, MemberProblem, SafePath;
    if MembersProblem(c, tree, archive.members) == None && HoldsArchive(c, tree, archive) {
      assert tree.Keys == PathsOf(archive.members);
    }
  }

  // A directory is reused exactly if it is complete, its mark and its three files have the recorded digests,
  // its manifest agrees with the registry, its files are those of its archive and its graph serves them.
  lemma ReusedIff(c: Codec, source: Registered, row: Version, d: VersionDir)
    ensures CachedProblem(c, source, row, d) == None <==>
            && d.ready.Some? && d.manifest.Some? && d.graph.Some? && d.archive.Some? && d.source.Some?
            && c.decodeText(d.ready.value).Some?
            && ExpectedDigest(c, row, ManifestFile) == Some(Strings.Strip(c.decodeText(d.ready.value).value))
            && DigestMatches(c, row, ManifestFile, d.manifest.value) && DigestMatches(c, row, GraphFile, d.graph.value)
            && DigestMatches(c, row, SourceArchive, d.archive.value)
            && ManifestAgrees(c, source, row, d.manifest.value, d.graph.value, d.archive.value).Ok?
            && HoldsArchive(c, d.source.value, c.unpack(d.archive.value))
            && Serves(c, d.graph.value, d.source.value)
  {
    if d.graph.Some? && d.archive.Some? && d.source.Some? {
      ServesIff(c, d.graph.value, d.source.value);
      HoldsArchiveIff(c, d.source.value, c.unpack(d.archive.value));
    }
    hide DigestMatches, ManifestAgrees, ExtractedProblem, ServingProblem, Serves, HoldsArchive, ExpectedDigest, Strings.Strip;
  }

  // Hydration succeeds exactly for the current, succeeded version of its source with a bucket, by reusing an
  // accepted directory or by preparing a refused or missing one anew; it then points at the version, and a
  // failure leaves the cache as it was.
  lemma HydratesIff(c: Codec, source: Registered, v: VersionId, row: Version, bucketSet: bool, objects: Objects, limit: int, cache: Cache)
    ensures var (failure, cache') := Hydrate(c, source, v, row, bucketSet, objects, limit, cache);
            var promoted := bucketSet && source.current == Some(v) && row.id.source == source.id && row.status == Succeeded;
            var reused := v in cache.dirs && CachedProblem(c, source, row, cache.dirs[v]) == None;
            var refused := v !in cache.dirs || CachedProblem(c, source, row, cache.dirs[v]) == Some(Refused);
            && (failure == None <==> promoted && (reused || (refused && Fresh(c, source, row, objects, limit).Ok?)))
            && (failure != None ==> cache' == cache)
            && (failure == None ==> cache'.current == Some(v) && v in cache'.dirs && cache'.dirs - {v} == cache.dirs - {v})
            && (failure == None && reused ==> cache'.dirs == cache.dirs)
            && (failure == None && !reused ==> Fresh(c, source, row, objects, limit) == Ok(cache'.dirs[v]))
            && (!promoted ==> failure == Some(Refused))
  {
    hide CachedProblem, Fresh;
  }

  /******* What a build writes *******/

  // What a manifest says about a request, given its counts and its artifacts.
  function ManifestSaying(c: Codec, r: Request, counts: Json, artifacts: Json): Json {
    Object(map[
      "schema_version" := Number(1),
      "source" := Object(map[
        "id" := Text(c.naming.uuid(r.source)), "canonical_alias" := Text(r.alias), "repository_url" := Text(r.url),
        "commit_sha" := Text(r.commit), "include_paths" := TextsOf(r.includes), "exclude_paths" := TextsOf(r.excludes)]),
      "graphify" := Object(map[
        "package" := Text("graphifyy"), "version" := Text("0.9.40"),
        "command" := List([Text("extract"), Text("--code-only")]), "extraction_config_hash" := Text(r.configHash)]),
      "counts" := counts,
      "artifacts" := artifacts])
  }

  function Entry(c: Codec, file: string, content: Bytes): Json {
    Object(map["file" := Text(file), "sha256" := Text(c.naming.sha256(content)), "size_bytes" := Number(|content|)])
  }

  function CountsSaying(files: nat, indexed: nat, nodes: nat, edges: nat): Json {
    Object(map["source_files" := Number(files), "graph_files" := Number(indexed), "nodes" := Number(nodes), "edges" := Number(edges)])
  }

  function ArtifactsSaying(c: Codec, graph: Bytes, archive: Bytes, report: Bytes, log: Bytes, size: nat, count: nat): Json {
    Object(map["graph" := Entry(c, "graph.json", graph),
               "source" := Object(Entry(c, "source.tar.zst", archive).fields
                                  ["expanded_size_bytes" := Number(size)]["file_count" := Number(count)]),
               "report" := Entry(c, "graph-report.md", report),
               "extraction_log" := Entry(c, "extraction.log", log)])
  }

  // A build writes the normalized graph, the archive of its members, the report, the log, and a manifest
  // that says exactly what was asked for and what was written.
  lemma BuildWrites(c: Codec, r: Request, graph: Json, indexed: Json, members: seq<Member>)
    requires c.Valid() && Packable(members) && graph.Object? && indexed.Object?
    requires "nodes" in graph.fields && graph.fields["nodes"].List? && "links" in graph.fields && graph.fields["links"].List?
    ensures var local := LocalOf(c, r, graph, indexed, members);
            && c.parse(local[GraphFile]) == Some(NormalizeGraph(graph, NamesOf(members)))
            && c.unpack(local[SourceArchive]) == Archive(members, false)
            && local[Report] == r.report && c.decodeText(local[ExtractionLog]) == Some(LogText(r.stdout, r.stderr))
            && c.parse(local[ManifestFile]) == Some(ManifestSaying(c, r,
                 CountsSaying(|members|, |indexed.fields|, |graph.fields["nodes"].items|, |graph.fields["links"].items|),
                 ArtifactsSaying(c, local[GraphFile], local[SourceArchive], local[Report], local[ExtractionLog], TotalSize(members), |members|)))
  {
    var local := LocalOf(c, r, graph, indexed, members);
    var counts, artifacts := CountsJson(members, graph, indexed),
                             ArtifactsJson(c, local[GraphFile], local[SourceArchive], members, local[Report], local[ExtractionLog]);
    ReadsBack(c);
    hide Codec.Valid, NormalizeGraph, NamesOf, LogText, TotalSize, CountsJson, ArtifactsJson, ManifestJson, Packable;
    LocalFields(c, r, graph, indexed, members);
    hide LocalOf;
    ManifestJsonSays(c, r, counts, artifacts);
    CountsSay(members, graph, indexed);
    ArtifactsSay(c, local[GraphFile], local[SourceArchive], members, local[Report], local[ExtractionLog]);
    hide ManifestSaying, CountsSaying, ArtifactsSaying;
    assert c.unpack(c.pack(members)) == Archive(members, false) by { ArchiveReadsBack(c, members); }
  }

  lemma ReadsBack(c: Codec)
    requires c.Valid()
    ensures forall j :: c.parse(c.compact(j)) == Some(j) && c.parse(c.pretty(j)) == Some(j)
    ensures forall s :: c.decodeText(c.encodeText(s)) == Some(s)
  {
  }

  lemma ArchiveReadsBack(c: Codec, members: seq<Member>)
    requires c.Valid() && Packable(members)
    ensures c.unpack(c.pack(members)) == Archive(members, false)
  {
  }

  lemma LocalFields(c: Codec, r: Request, graph: Json, indexed: Json, members: seq<Member>)
    ensures var local := LocalOf(c, r, graph, indexed, members);
            && local[GraphFile] == c.compact(NormalizeGraph(graph, NamesOf(members))) && local[SourceArchive] == c.pack(members)
            && local[Report] == r.report && local[ExtractionLog] == c.encodeText(LogText(r.stdout, r.stderr))
            && local[ManifestFile] == c.pretty(ManifestJson(c, r, CountsJson(members, graph, indexed),
                 ArtifactsJson(c, local[GraphFile], local[SourceArchive], members, local[Report], local[ExtractionLog])))
  {
    hide NormalizeGraph, NamesOf, LogText, CountsJson, ArtifactsJson, ManifestJson;
  }

  lemma ManifestJsonSays(c: Codec, r: Request, counts: Json, artifacts: Json)
    ensures ManifestJson(c, r, counts, artifacts) == ManifestSaying(c, r, counts, artifacts)
  {
    TextsAreSame(r.includes, r.includes);
    TextsAreSame(r.excludes, r.excludes);
    hide Texts, TextsOf;
  }

  lemma CountsSay(members: seq<Member>, graph: Json, indexed: Json)
    requires graph.Object? && indexed.Object?
    requires "nodes" in graph.fields && graph.fields["nodes"].List? && "links" in graph.fields && graph.fields["links"].List?
    ensures CountsJson(members, graph, indexed) ==
            CountsSaying(|members|, |indexed.fields|, |graph.fields["nodes"].items|, |graph.fields["links"].items|)
  {
  }

  lemma ArtifactsSay(c: Codec, graph: Bytes, archive: Bytes, members: seq<Member>, report: Bytes, log: Bytes)
    ensures ArtifactsJson(c, graph, archive, members, report, log) ==
            ArtifactsSaying(c, graph, archive, report, log, TotalSize(members), |members|)
  {
    EntrySays(c, GraphFile, graph);
    EntrySays(c, SourceArchive, archive);
    EntrySays(c, Report, report);
    EntrySays(c, ExtractionLog, log);
    hide TotalSize, EntryJson, Entry;
  }

  lemma EntrySays(c: Codec, a: Artifact, content: Bytes)
    ensures EntryJson(c, a, content) == Entry(c, FileName(a), content)
  {
    hide FileName;
  }

  // The log is the output, then the errors on a line of their own.
  lemma LogSays(stdout: string, stderr: string)
    ensures LogText(stdout, "") == stdout && LogText("", stderr) == stderr
    ensures stdout != "" && stderr != "" ==> LogText(stdout, stderr) == Strings.StripRight(stdout) + "\n" + stderr
  {
  }

  // Reading an object key back gives the prefix, the source, the commit, the configuration and the file name.
  lemma KeyReadsBack(c: Codec, id: Identity, a: Artifact)
    requires c.naming.Valid() && SlashFree(id)
    ensures Split(KeyOf(c.naming, id, a)) ==
            ["knowledge-sources", c.naming.uuid(id.source), id.commit, id.configHash,
             match a
             case GraphFile => "graph.json"
             case SourceArchive => "source.tar.zst"
             case Report => "graph-report.md"
             case ExtractionLog => "extraction.log"
             case ManifestFile => "manifest.json"]
  {
    var parts := ["knowledge-sources", c.naming.uuid(id.source), id.commit, id.configHash, FileName(a)];
    JoinedKey(c.naming.uuid(id.source), id.commit, id.configHash, FileName(a));
    assert '/' !in "knowledge-sources" && '/' !in FileName(a);
    SplitOfJoin(parts);
  }

  lemma JoinedKey(uuid: string, commit: string, hash: string, file: string)
    ensures Join(["knowledge-sources", uuid, commit, hash, file]) == "knowledge-sources/" + uuid + "/" + commit + "/" + hash + "/" + file
  {
    var parts := ["knowledge-sources", uuid, commit, hash, file];
    assert parts[1..] == [uuid, commit, hash, file] && parts[1..][1..] == [commit, hash, file];
    assert [commit, hash, file][1..] == [hash, file] && [hash, file][1..] == [file];
    assert Join([file]) == file;
    assert Join([hash, file]) == hash + "/" + file;
    assert Join([commit, hash, file]) == commit + "/" + (hash + "/" + file);
    assert Join([uuid, commit, hash, file]) == uuid + "/" + (commit + "/" + (hash + "/" + file));
    assert Join(parts) == "knowledge-sources" + "/" + (uuid + "/" + (commit + "/" + (hash + "/" + file)));
    assert "knowledge-sources" + "/" == "knowledge-sources/";
  }

  /******* Refusals and unexpected exceptions *******/

  // Output is refused, unless both files read as objects and the graph raises.
  lemma OutputRaisesIff(c: Codec, graph: Bytes, indexed: Bytes)
    ensures OutputProblem(c, graph, indexed) == Some(Raised) <==>
            && c.parse(graph).Some? && c.parse(graph).value.Object? && c.parse(indexed).Some? && c.parse(indexed).value.Object?
            && GraphProblem(c.parse(graph).value, NamesSafePath) == Some(Raised)
  {
    hide GraphProblem, SafePath, NamesSafePath;
  }

  // Inspecting an archive raises for a limit that is not positive, and at the end of a broken archive of
  // safe regular files within the limit; so does extracting it when they are not in each other's way.
  lemma ArchiveRaisesIff(archive: Archive, entry: Json, limit: int)
    ensures Inspect(archive, limit) == Err(Raised) <==>
            limit <= 0 || (archive.broken && AllSafeFiles(archive.members) && TotalSize(archive.members) <= limit)
    ensures Extract(archive, entry, limit) == Err(Raised) <==>
            limit <= 0 || (archive.broken && AllSafeFiles(archive.members) && TotalSize(archive.members) <= limit && NoneInTheWay(archive.members))
  {
    if limit > 0 { MembersExtractIff(archive.members, limit); }
    hide ExtractMembers, NoneInTheWay, TotalSize, SafePath;
  }

  // Verifying a directory raises exactly if its manifest is fine and inspecting its archive raises.
  lemma VerifyRaisesIff(c: Codec, dir: map<string, Bytes>, limit: int)
    ensures Verify(c, dir, limit) == Err(Raised) <==>
            && "manifest.json" in dir && c.parse(dir["manifest.json"]).Some? && c.parse(dir["manifest.json"]).value.Object?
            && var m := c.parse(dir["manifest.json"]).value;
            && HasField(m, "schema_version", Number(1))
            && "source" in m.fields && m.fields["source"].Object? && "commit_sha" in m.fields["source"].fields
            && var commit := m.fields["source"].fields["commit_sha"];
            && commit.Text? && |commit.text| == 40 && c.base16(commit.text)
            && "artifacts" in m.fields && m.fields["artifacts"].Object?
            && var artifacts := m.fields["artifacts"].fields;
            && artifacts.Keys == {"graph", "source", "report", "extraction_log"}
            && (forall name <- artifacts :: EntryMatches(c, artifacts[name], dir))
            && Inspect(c.unpack(dir[Get(artifacts["source"], "file").text]), limit) == Err(Raised)
  {
    hide EntryMatches, Inspect;
  }

  predicate MemberFine(c: Codec, tree: Tree, m: Member) {
    && m.kind == File && SafePath(m.name).Some? && SafePath(m.name).value in tree
    && c.naming.sha256(tree[SafePath(m.name).value]) == c.naming.sha256(m.content)
  }

  ghost function FineIn(c: Codec, tree: Tree): Member -> bool {
    m => MemberFine(c, tree, m)
  }

  // The first member that does not agree with the extracted files.
  ghost predicate FirstWrong(c: Codec, tree: Tree, members: seq<Member>, k: nat) {
    FirstNot(members, FineIn(c, tree), k)
  }

  predicate SafeLink(m: Member) {
    SafePath(m.name).Some? && m.kind == Link
  }

  lemma {:induction false} MembersRaiseIff(c: Codec, tree: Tree, members: seq<Member>)
    ensures MembersProblem(c, tree, members) == None <==> forall m <- members :: FineIn(c, tree)(m)
    ensures forall k: nat | FirstWrong(c, tree, members, k) :: k < |members|
    ensures MembersProblem(c, tree, members) == Some(Raised) <==>
            exists k: nat :: FirstWrong(c, tree, members, k) && SafeLink(members[k])
  {
    FirstNotWithin(members, FineIn(c, tree));
    if members != [] {
      var n := |members| - 1;
      var init, last := members[..n], members[n];
      MembersRaiseIff(c, tree, init);
      MemberRaisesIff(c, tree, last);
      FirstNotOfMore(members, FineIn(c, tree));
      assert FineIn(c, tree)(last) <==> MemberFine(c, tree, last);
      hide MemberFine, FineIn, SafeLink, MemberProblem, FirstNot;
      if MembersProblem(c, tree, init).None? {
        if !MemberFine(c, tree, last) { assert FirstWrong(c, tree, members, n); }
      } else {
        assert forall k: nat | FirstWrong(c, tree, init, k) :: members[k] == init[k];
      }
    }
  }

  lemma MemberRaisesIff(c: Codec, tree: Tree, m: Member)
    ensures MemberProblem(c, tree, m) == None <==> MemberFine(c, tree, m)
    ensures MemberProblem(c, tree, m) == Some(Raised) <==> SafeLink(m)
  {
    hide SafePath;
  }

  // Comparing an archive with extracted files raises at a link with a safe path, if all members before it
  // agree, and at the end of a broken archive whose members all agree.
  lemma ComparingRaisesIff(c: Codec, tree: Tree, archive: Archive)
    ensures ExtractedProblem(c, tree, archive) == Some(Raised) <==>
            || (exists k: nat :: FirstWrong(c, tree, archive.members, k) && k < |archive.members| && SafeLink(archive.members[k]))
            || (archive.broken && forall m <- archive.members :: MemberFine(c, tree, m))
  {
    MembersRaiseIff(c, tree, archive.members);
    assert forall m :: FineIn(c, tree)(m) <==> MemberFine(c, tree, m);
    hide MembersProblem, FirstWrong, MemberFine, FineIn, PathsOf, SafePath, SafeLink;
  }

  // The cached check raises instead of refusing exactly if mark, digests and manifest are fine and comparing
  // the files raises, or they agree and the graph raises.
  lemma CheckRaisesIff(c: Codec, source: Registered, row: Version, d: VersionDir)
    ensures CachedProblem(c, source, row, d) == Some(Raised) <==>
            && d.ready.Some? && d.manifest.Some? && d.graph.Some? && d.archive.Some? && d.source.Some?
            && c.decodeText(d.ready.value).Some?
            && ExpectedDigest(c, row, ManifestFile) == Some(Strings.Strip(c.decodeText(d.ready.value).value))
            && DigestMatches(c, row, ManifestFile, d.manifest.value) && DigestMatches(c, row, GraphFile, d.graph.value)
            && DigestMatches(c, row, SourceArchive, d.archive.value)
            && ManifestAgrees(c, source, row, d.manifest.value, d.graph.value, d.archive.value).Ok?
            && (ExtractedProblem(c, d.source.value, c.unpack(d.archive.value)) == Some(Raised)
                || (ExtractedProblem(c, d.source.value, c.unpack(d.archive.value)) == None
                    && c.parse(d.graph.value).Some? && c.parse(d.graph.value).value.Object?
                    && GraphProblem(c.parse(d.graph.value).value, ServingFiles(d.source.value)) == Some(Raised)))
  {
    if d.graph.Some? && d.source.Some? { ServingRaisesIff(c, d.graph.value, d.source.value); }
    hide DigestMatches, ManifestAgrees, ExtractedProblem, ServingProblem, ExpectedDigest, Strings.Strip, GraphProblem, ServingFiles;
  }

  lemma ServingRaisesIff(c: Codec, graph: Bytes, tree: Tree)
    ensures ServingProblem(c, graph, tree) == Some(Raised) <==>
            c.parse(graph).Some? && c.parse(graph).value.Object? && GraphProblem(c.parse(graph).value, ServingFiles(tree)) == Some(Raised)
  {
    hide GraphProblem, ServingFiles;
  }

  // Preparing a directory raises exactly if all artifacts are fetched, the manifest agrees, and extracting
  // raises, or it succeeds and the graph raises.
  lemma FreshRaisesIff(c: Codec, source: Registered, row: Version, objects: Objects, limit: int)
    ensures Fresh(c, source, row, objects, limit) == Err(Raised) <==>
            && Fetch(c, row, objects, ManifestFile).Some? && Fetch(c, row, objects, GraphFile).Some?
            && Fetch(c, row, objects, SourceArchive).Some?
            && var manifest, graph, archive := Fetch(c, row, objects, ManifestFile).value, Fetch(c, row, objects, GraphFile).value,
                                               Fetch(c, row, objects, SourceArchive).value;
            var agreed := ManifestAgrees(c, source, row, manifest, graph, archive);
            && agreed.Ok?
            && var tree := Extract(c.unpack(archive), Get(Get(agreed.value, "artifacts"), "source"), limit);
            if tree.Ok? then ServingProblem(c, graph, tree.value) == Some(Raised) else tree.error == Raised
  {
    forall manifest, graph, archive
      ensures ManifestAgrees(c, source, row, manifest, graph, archive).Err? ==>
              ManifestAgrees(c, source, row, manifest, graph, archive).error == Refused
    {
      AgreementRefuses(c, source, row, manifest, graph, archive);
    }
    hide Fetch, ManifestAgrees, Extract, ServingProblem, Get;
  }

  lemma AgreementRefuses(c: Codec, source: Registered, row: Version, manifest: Bytes, graph: Bytes, archive: Bytes)
    ensures var agreed := ManifestAgrees(c, source, row, manifest, graph, archive); agreed.Err? ==> agreed.error == Refused
  {
    hide IdentityJson, DescribesFile, Get;
  }
}
