/**
  JSON values, source archives and the functions that turn them into bytes and back.

  Serialization itself is not modelled: a `Codec` is any set of functions with the stated laws.  JSON
  numbers are integers.
 */
module Formats {
  import opened Wrappers
  import opened RelativePaths
  import Publication

  datatype Json =
    | Null
    | Bool(truth: bool)
    | Number(number: int)
    | Text(text: string)
    | List(items: seq<Json>)
    | Object(fields: map<string, Json>)

  // The value under a key, or null.
  function Get(j: Json, key: string): Json {
    if j.Object? && key in j.fields then j.fields[key] else Null
  }

  datatype Kind = File | Link | Special

  datatype Member = Member(name: string, kind: Kind, content: Bytes)

  // What reading an archive from front to back yields; a broken one raises after its last member.
  datatype Archive = Archive(members: seq<Member>, broken: bool)

  // A rejected input, or an exception that the callers do not expect.
  datatype Failure = Refused | Raised

  predicate Packable(members: seq<Member>) {
    forall m <- members :: m.kind == File && m.name != "" && m.name[|m.name| - 1] != '/'
  }

  predicate HexDigits(s: string) {
    forall c <- s :: '0' <= c <= '9' || 'a' <= c <= 'f'
  }

  datatype Codec = Codec(
    naming: Publication.Naming,
    compact: Json -> Bytes,
    pretty: Json -> Bytes,
    parse: Bytes -> Option<Json>,
    encodeText: string -> Bytes,
    decodeText: Bytes -> Option<string>,
    pack: seq<Member> -> Bytes,
    unpack: Bytes -> Archive,
    base16: string -> bool,
    glob: (string, string) -> bool)
  {
    ghost predicate Valid() {
      && naming.Valid()
      && (forall x :: |naming.sha256(x)| == 64 && HexDigits(naming.sha256(x)) && base16(naming.sha256(x)))
      && (forall j :: parse(compact(j)) == Some(j) && parse(pretty(j)) == Some(j))
      && (forall s :: decodeText(encodeText(s)) == Some(s))
      && (forall ms :: Packable(ms) ==> unpack(pack(ms)) == Archive(ms, false))
    }

    function Sha(x: Bytes): string {
      naming.sha256(x)
    }

    // Text of the given length that reads as a base-16 number.
    predicate HexDigest(s: string, length: nat) {
      |s| == length && base16(s)
    }

    // A JSON object, or a refusal.
    function LoadObject(x: Bytes): Result<Json, Failure> {
      match parse(x)
      case Some(j) => if j.Object? then Ok(j) else Err(Refused)
      case None => Err(Refused)
    }
  }

  function TotalSize(members: seq<Member>): nat {
    if members == [] then 0 else TotalSize(members[..|members| - 1]) + |members[|members| - 1].content|
  }

  /******* Node-link graphs *******/

  // A source file as the extractor may name it, and as the serving side must find it.
  predicate NamesSafePath(v: Json) {
    v.Text? && SafePath(v.text).Some?
  }

  predicate NamesFile(tree: Tree, v: Json) {
    v.Text? && SafePath(v.text).Some? && SafePath(v.text).value in tree
  }

  predicate NodeAccepted(node: Json, seen: set<string>, accepts: Json -> bool) {
    && node.Object? && Get(node, "id").Text? && Get(node, "id").text != "" && Get(node, "id").text !in seen
    && (Get(node, "source_file") in {Null, Text("")} || accepts(Get(node, "source_file")))
  }

  // The ids of the nodes, when all of them are accepted.
  function NodeIds(nodes: seq<Json>, accepts: Json -> bool): Option<set<string>> {
    if nodes == [] then Some({})
    else
      match NodeIds(nodes[..|nodes| - 1], accepts)
      case None => None
      case Some(seen) =>
        var node := nodes[|nodes| - 1];
        if NodeAccepted(node, seen, accepts) then Some(seen + {Get(node, "id").text}) else None
  }

  // Looking up a list or an object among the ids raises.
  function EndpointProblem(v: Json, ids: set<string>): Option<Failure> {
    if v.List? || v.Object? then Some(Raised)
    else if v.Text? && v.text in ids then None
    else Some(Refused)
  }

  function LinkProblem(link: Json, ids: set<string>): Option<Failure> {
    if !link.Object? then Some(Refused)
    else
      match EndpointProblem(Get(link, "source"), ids)
      case Some(f) => Some(f)
      case None => EndpointProblem(Get(link, "target"), ids)
  }

  // The problem of the first bad link.
  function LinksProblem(links: seq<Json>, ids: set<string>): Option<Failure> {
    if links == [] then None
    else
      match LinksProblem(links[..|links| - 1], ids)
      case Some(f) => Some(f)
      case None => LinkProblem(links[|links| - 1], ids)
  }

  function GraphProblem(graph: Json, accepts: Json -> bool): Option<Failure> {
    var nodes, links := Get(graph, "nodes"), Get(graph, "links");
    if !(nodes.List? && links.List? && Get(graph, "hyperedges").List?) then Some(Refused)
    else
      match NodeIds(nodes.items, accepts)
      case None => Some(Refused)
      case Some(ids) => LinksProblem(links.items, ids)
  }

  // The serving contract of a graph: every node has an id of its own and an acceptable source file, and
  // every link joins two nodes.
  ghost predicate WellLinked(graph: Json, accepts: Json -> bool) {
    var nodes, links := Get(graph, "nodes"), Get(graph, "links");
    && nodes.List? && links.List? && Get(graph, "hyperedges").List?
    && NodesDistinct(nodes.items, accepts)
    && forall l <- links.items :: l.Object? && IsNode(nodes.items, Get(l, "source")) && IsNode(nodes.items, Get(l, "target"))
  }

  ghost predicate NodesDistinct(nodes: seq<Json>, accepts: Json -> bool) {
    && (forall i | 0 <= i < |nodes| :: NodeAccepted(nodes[i], {}, accepts))
    && forall i, j | 0 <= i < j < |nodes| :: Get(nodes[i], "id") != Get(nodes[j], "id")
  }

  ghost predicate IsNode(nodes: seq<Json>, id: Json) {
    exists i | 0 <= i < |nodes| :: Get(nodes[i], "id") == id && id.Text?
  }

  lemma OneMoreNode(nodes: seq<Json>, last: Json, id: Json)
    ensures IsNode(nodes + [last], id) <==> IsNode(nodes, id) || (Get(last, "id") == id && id.Text?)
  {
    assert (nodes + [last])[|nodes|] == last;
    if IsNode(nodes, id) {
      var i :| 0 <= i < |nodes| && Get(nodes[i], "id") == id && id.Text?;
      assert (nodes + [last])[i] == nodes[i];
    }
  }

  lemma OneMoreDistinct(nodes: seq<Json>, last: Json, accepts: Json -> bool)
    ensures NodesDistinct(nodes + [last], accepts) <==>
            NodesDistinct(nodes, accepts) && NodeAccepted(last, {}, accepts) && !IsNode(nodes, Get(last, "id"))
  {
    var all := nodes + [last];
    assert all[|nodes|] == last && forall i | 0 <= i < |nodes| :: all[i] == nodes[i];
    AcceptedHasId(last, {}, accepts);
    hide NodeAccepted;
    if NodesDistinct(all, accepts) {
      assert NodeAccepted(all[|nodes|], {}, accepts);
      forall i | 0 <= i < |nodes| ensures NodeAccepted(nodes[i], {}, accepts) { assert NodeAccepted(all[i], {}, accepts); }
      forall i, j | 0 <= i < j < |nodes| ensures Get(nodes[i], "id") != Get(nodes[j], "id") {
        assert Get(all[i], "id") != Get(all[j], "id");
      }
      forall i | 0 <= i < |nodes| ensures Get(nodes[i], "id") != Get(last, "id") {
        assert Get(all[i], "id") != Get(all[|nodes|], "id");
      }
    }
  }

  lemma AcceptedHasId(node: Json, seen: set<string>, accepts: Json -> bool)
    ensures NodeAccepted(node, seen, accepts) <==>
            NodeAccepted(node, {}, accepts) && Get(node, "id").Text? && Get(node, "id").text !in seen
  {
  }

  lemma {:induction false} NodeIdsMeaning(nodes: seq<Json>, accepts: Json -> bool)
    ensures NodeIds(nodes, accepts).Some? <==> NodesDistinct(nodes, accepts)
    ensures NodeIds(nodes, accepts).Some? ==> forall id :: id in NodeIds(nodes, accepts).value <==> IsNode(nodes, Text(id))
  {
    if nodes != [] {
      var init, last := nodes[..|nodes| - 1], nodes[|nodes| - 1];
      NodeIdsMeaning(init, accepts);
      assert nodes == init + [last];
      OneMoreDistinct(init, last, accepts);
      AcceptedHasId(last, {}, accepts);
      if NodeIds(init, accepts).Some? { AcceptedHasId(last, NodeIds(init, accepts).value, accepts); }
      if Get(last, "id").Text? { assert Get(last, "id") == Text(Get(last, "id").text); }
      forall id { OneMoreNode(init, last, Text(id)); }
      hide NodesDistinct, IsNode, NodeAccepted, Get;
    }
  }

  lemma {:induction false} LinksMeaning(links: seq<Json>, nodes: seq<Json>, ids: set<string>)
    requires forall id :: id in ids <==> IsNode(nodes, Text(id))
    ensures LinksProblem(links, ids) == None <==>
            forall l <- links :: l.Object? && IsNode(nodes, Get(l, "source")) && IsNode(nodes, Get(l, "target"))
  {
    if links != [] {
      var init, last := links[..|links| - 1], links[|links| - 1];
      LinksMeaning(init, nodes, ids);
      assert links == init + [last] && last in links;
      forall v ensures EndpointProblem(v, ids) == None <==> IsNode(nodes, v) {
        if v.Text? { assert v.text in ids <==> IsNode(nodes, Text(v.text)); }
      }
    }
  }

  // The checks accept exactly the well-linked graphs.
  lemma GraphAcceptedIff(graph: Json, accepts: Json -> bool)
    ensures GraphProblem(graph, accepts) == None <==> WellLinked(graph, accepts)
  {
    var nodes, links := Get(graph, "nodes"), Get(graph, "links");
    if nodes.List? && links.List? {
      NodeIdsMeaning(nodes.items, accepts);
      match NodeIds(nodes.items, accepts)
      case Some(ids) => LinksMeaning(links.items, nodes.items, ids);
      case None =>
    }
  }

  // The check as the loops perform it: unique ids first, links against all of them afterwards.
  method CheckGraph(graph: Json, accepts: Json -> bool) returns (problem: Option<Failure>)
    ensures problem == GraphProblem(graph, accepts)
    ensures problem == None <==> WellLinked(graph, accepts)
  {
    GraphAcceptedIff(graph, accepts);
    var nodes, links := Get(graph, "nodes"), Get(graph, "links");
    if !(nodes.List? && links.List? && Get(graph, "hyperedges").List?) { return Some(Refused); }
    hide NodeIds, LinksProblem, WellLinked, Get;
    var ids := CollectIds(nodes.items, accepts);
    if ids == None { return Some(Refused); }
    problem := CheckLinks(links.items, ids.value);
  }

  method CollectIds(nodes: seq<Json>, accepts: Json -> bool) returns (r: Option<set<string>>)
    ensures r == NodeIds(nodes, accepts)
  {
    hide NodeAccepted, Get;
    var ids: set<string> := {};
    for i := 0 to |nodes|
      invariant NodeIds(nodes[..i], accepts) == Some(ids)
    {
      assert nodes[..i + 1][..i] == nodes[..i];
      if !NodeAccepted(nodes[i], ids, accepts) {
        RejectedPrefix(nodes, i + 1, accepts);
        return None;
      }
      AcceptedHasId(nodes[i], ids, accepts);
      ids := ids + {Get(nodes[i], "id").text};
    }
    assert nodes[..|nodes|] == nodes;
    return Some(ids);
  }

  method CheckLinks(links: seq<Json>, ids: set<string>) returns (problem: Option<Failure>)
    ensures problem == LinksProblem(links, ids)
  {
    hide LinkProblem;
    for i := 0 to |links|
      invariant LinksProblem(links[..i], ids) == None
    {
      assert links[..i + 1][..i] == links[..i];
      problem := LinkProblem(links[i], ids);
      if problem.Some? {
        FirstProblemStays(links, i + 1, ids);
        return;
      }
    }
    assert links[..|links|] == links;
    problem := None;
  }

  lemma {:induction false} RejectedPrefix(nodes: seq<Json>, k: nat, accepts: Json -> bool)
    requires k <= |nodes| && NodeIds(nodes[..k], accepts) == None
    ensures NodeIds(nodes, accepts) == None
  {
    if k == |nodes| {
      assert nodes[..k] == nodes;
    } else {
      assert nodes[..|nodes| - 1][..k] == nodes[..k];
      RejectedPrefix(nodes[..|nodes| - 1], k, accepts);
    }
  }

  lemma {:induction false} FirstProblemStays(links: seq<Json>, k: nat, ids: set<string>)
    requires k <= |links| && LinksProblem(links[..k], ids).Some?
    ensures LinksProblem(links, ids) == LinksProblem(links[..k], ids)
  {
    if k == |links| {
      assert links[..k] == links;
    } else {
      assert links[..|links| - 1][..k] == links[..k];
      FirstProblemStays(links[..|links| - 1], k, ids);
    }
  }
}
