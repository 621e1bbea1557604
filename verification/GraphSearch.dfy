/**
  Bounded path search over a served code graph.

  `Search` is the breadth-first worklist of the serving code.  Its result is tied to `Answer`, and
  the lemmas relate `Answer` to the independent definition `IsSimplePath`: soundness, completeness,
  shortest-first order, and the exact condition under which the result limit is respected.
 */
module GraphSearch {
  import opened Wrappers
  import opened BreadthFirst

  type NodeId = string
  type Path = seq<NodeId>

  datatype Link = Link(source: NodeId, target: NodeId)

  const MAX_PATH_DEPTH := 12
  const MAX_PATH_RESULTS := 20

  datatype Snapshot = Snapshot(
    alias: string,
    commitSha: string,
    nodes: map<NodeId, map<string, string>>,
    links: seq<Link>)

  // What the hydration checks establish for every served graph: a node carries its own id, and links
  // only join known nodes.
  predicate ValidGraph(s: Snapshot) {
    && (forall n <- s.nodes :: "id" in s.nodes[n] && s.nodes[n]["id"] == n)
    && (forall l <- s.links :: l.source in s.nodes && l.target in s.nodes)
  }

  /******* What a path is, without reference to any search *******/

  predicate HasLink(links: seq<Link>, a: NodeId, b: NodeId) {
    Link(a, b) in links
  }

  predicate StepAt(links: seq<Link>, p: Path, i: nat)
    requires i + 1 < |p|
  {
    HasLink(links, p[i], p[i + 1])
  }

  predicate Distinct(p: Path) {
    forall i, j | 0 <= i < j < |p| :: p[i] != p[j]
  }

  predicate IsWalk(links: seq<Link>, p: Path) {
    forall i | 0 <= i < |p| - 1 :: StepAt(links, p, i)
  }

  predicate IsSimplePath(links: seq<Link>, from: NodeId, to: NodeId, maxDepth: nat, p: Path) {
    && 2 <= |p| <= maxDepth + 1
    && p[0] == from && p[|p| - 1] == to
    && Distinct(p)
    && IsWalk(links, p)
  }

  // No two different positions of the link list join the same two distinct nodes.
  predicate NoParallelLinks(links: seq<Link>) {
    forall i, j | 0 <= i < j < |links| :: links[i] == links[j] ==> links[i].source == links[i].target
  }

  /******* One expansion step *******/

  // The adjacency list of one node, in link order and with repetitions.
  function Targets(links: seq<Link>, u: NodeId): seq<NodeId> {
    if links == [] then []
    else
      var init := Targets(links[..|links| - 1], u);
      var last := links[|links| - 1];
      if last.source == u then init + [last.target] else init
  }

  // Extensions of `path` by the nodes of `ns` not yet on it: those that reach `to` ...
  function Hits(path: Path, to: NodeId, ns: seq<NodeId>): seq<Path> {
    if ns == [] then []
    else
      var init := Hits(path, to, ns[..|ns| - 1]);
      var n := ns[|ns| - 1];
      if n !in path && n == to then init + [path + [n]] else init
  }

  // ... and those that must be extended further.
  function Opens(path: Path, to: NodeId, ns: seq<NodeId>): seq<Path> {
    if ns == [] then []
    else
      var init := Opens(path, to, ns[..|ns| - 1]);
      var n := ns[|ns| - 1];
      if n !in path && n != to then init + [path + [n]] else init
  }

  function HitsOf(links: seq<Link>, to: NodeId, p: Path): seq<Path> {
    if p == [] then [] else Hits(p, to, Targets(links, p[|p| - 1]))
  }

  function OpensOf(links: seq<Link>, to: NodeId, p: Path): seq<Path> {
    if p == [] then [] else Opens(p, to, Targets(links, p[|p| - 1]))
  }

  lemma ExpansionOf(links: seq<Link>, to: NodeId, p: Path)
    requires p != []
    ensures HitsBy(links, to)(p) == Hits(p, to, Targets(links, p[|p| - 1])) == HitsOf(links, to, p)
    ensures OpensBy(links, to)(p) == Opens(p, to, Targets(links, p[|p| - 1])) == OpensOf(links, to, p)
  {
  }

  lemma WalkExtend(links: seq<Link>, p: Path, n: NodeId)
    requires p != []
    ensures IsWalk(links, p + [n]) <==> IsWalk(links, p) && HasLink(links, p[|p| - 1], n)
  {
    var q := p + [n];
    if IsWalk(links, q) {
      assert StepAt(links, q, |p| - 1);
      forall i | 0 <= i < |p| - 1 ensures StepAt(links, p, i) { assert StepAt(links, q, i); }
    }
    if IsWalk(links, p) && HasLink(links, p[|p| - 1], n) {
      forall i | 0 <= i < |q| - 1 ensures StepAt(links, q, i) {
        if i < |p| - 1 { assert StepAt(links, p, i); }
      }
    }
  }

  lemma DistinctExtend(p: Path, n: NodeId)
    ensures Distinct(p + [n]) <==> Distinct(p) && n !in p
  {
    var q := p + [n];
    if Distinct(q) {
      assert Distinct(p) by {
        forall i, j | 0 <= i < j < |p| ensures p[i] != p[j] { assert q[i] != q[j]; }
      }
      forall i | 0 <= i < |p| ensures p[i] != n { assert q[i] != q[|p|]; }
    }
  }

  lemma {:induction false} TargetsMembers(links: seq<Link>, u: NodeId, v: NodeId)
    ensures v in Targets(links, u) <==> HasLink(links, u, v)
  {
    if links != [] {
      var init, last := links[..|links| - 1], links[|links| - 1];
      TargetsMembers(init, u, v);
      assert links == init + [last];
    }
  }

  lemma {:induction false} HitsMembers(path: Path, to: NodeId, ns: seq<NodeId>, q: Path)
    ensures q in Hits(path, to, ns) <==> to in ns && to !in path && q == path + [to]
  {
    if ns != [] {
      var init, last := ns[..|ns| - 1], ns[|ns| - 1];
      HitsMembers(path, to, init, q);
      assert ns == init + [last];
    }
  }

  lemma {:induction false} OpensMembers(path: Path, to: NodeId, ns: seq<NodeId>, q: Path)
    ensures q in Opens(path, to, ns) <==>
            |q| == |path| + 1 && q[..|path|] == path && q[|path|] in ns && q[|path|] !in path && q[|path|] != to
  {
    if ns != [] {
      var init, last := ns[..|ns| - 1], ns[|ns| - 1];
      OpensMembers(path, to, init, q);
      assert ns == init + [last];
      if |q| == |path| + 1 && q[..|path|] == path {
        assert q == path + [q[|path|]];
      }
    }
  }

  /******* The levels of the search *******/

  function HitsBy(links: seq<Link>, to: NodeId): Path -> seq<Path> {
    p => HitsOf(links, to, p)
  }

  function OpensBy(links: seq<Link>, to: NodeId): Path -> seq<Path> {
    p => OpensOf(links, to, p)
  }

  function LevelOf(links: seq<Link>, from: NodeId, to: NodeId, k: nat): seq<Path> {
    LevelAt(OpensBy(links, to), [from], k)
  }

  function QueryOf(links: seq<Link>, from: NodeId, to: NodeId, maxDepth: nat, limit: nat): Query<Path, Path> {
    Query(HitsBy(links, to), OpensBy(links, to), [from], maxDepth, limit)
  }

  // What `Search` returns, before nodes are rendered.
  function Answer(links: seq<Link>, from: NodeId, to: NodeId, maxDepth: nat, limit: nat): seq<Path> {
    QueryOf(links, from, to, maxDepth, limit).Answer()
  }

  predicate IsPartial(links: seq<Link>, from: NodeId, to: NodeId, k: nat, p: Path) {
    && |p| == k + 1
    && p[0] == from && to !in p[1..]
    && Distinct(p)
    && IsWalk(links, p)
  }

  lemma PartialExtend(links: seq<Link>, from: NodeId, to: NodeId, k: nat, p: Path, n: NodeId)
    ensures n != to ==>
              (IsPartial(links, from, to, k + 1, p + [n]) <==>
               IsPartial(links, from, to, k, p) && HasLink(links, p[k], n) && n !in p)
  {
    var q := p + [n];
    if |p| == k + 1 {
      assert q[1..] == p[1..] + [n];
      WalkExtend(links, p, n);
      DistinctExtend(p, n);
    }
  }

  lemma OpensOfMembers(links: seq<Link>, to: NodeId, p: Path, q: Path)
    requires p != []
    ensures q in OpensOf(links, to, p) <==>
            |q| == |p| + 1 && q == p + [q[|p|]] && q[|p|] != to && q[|p|] !in p && HasLink(links, p[|p| - 1], q[|p|])
  {
    var ns := Targets(links, p[|p| - 1]);
    OpensMembers(p, to, ns, q);
    if |q| == |p| + 1 {
      TargetsMembers(links, p[|p| - 1], q[|p|]);
      assert q == q[..|p|] + [q[|p|]];
    }
  }

  // Level k consists of exactly the simple walks with k links that start at `from` and have not yet
  // arrived at `to`.
  lemma {:induction false} LevelMembers(links: seq<Link>, from: NodeId, to: NodeId, k: nat, q: Path)
    ensures q in LevelOf(links, from, to, k) <==> IsPartial(links, from, to, k, q)
  {
    if k == 0 {
      if |q| == 1 { assert q == [q[0]]; }
    } else {
      LevelStep(links, from, to, k, q);
      if |q| == k + 1 {
        var p, n := q[..k], q[k];
        assert q == p + [n];
        LevelMembers(links, from, to, k - 1, p);
        PartialExtend(links, from, to, k - 1, p, n);
        if n == to { assert q[1..][k - 1] == to; }
      }
    }
  }

  lemma LevelStep(links: seq<Link>, from: NodeId, to: NodeId, k: nat, q: Path)
    requires k > 0
    ensures q in LevelOf(links, from, to, k) <==>
            |q| == k + 1 && q[..k] in LevelOf(links, from, to, k - 1)
            && q[k] != to && q[k] !in q[..k] && HasLink(links, q[k - 1], q[k])
  {
    var prev := LevelOf(links, from, to, k - 1);
    forall p <- prev ensures |p| == k { LevelLength(links, from, to, k - 1, p); }
    NextLevelMembers(links, to, prev, k, q);
  }

  lemma NextLevelMembers(links: seq<Link>, to: NodeId, prev: seq<Path>, k: nat, q: Path)
    requires k > 0 && forall p <- prev :: |p| == k
    ensures q in FlatMap(OpensBy(links, to), prev) <==>
            |q| == k + 1 && q[..k] in prev && q[k] != to && q[k] !in q[..k] && HasLink(links, q[k - 1], q[k])
  {
    hide *;
    FlatMapMembers(OpensBy(links, to), prev, q);
    if q in FlatMap(OpensBy(links, to), prev) {
      var p :| p in prev && q in OpensBy(links, to)(p);
      ExpansionOf(links, to, p);
      OpensOfMembers(links, to, p, q);
      assert q[..k] == p;
    }
    if |q| == k + 1 {
      var p := q[..k];
      assert q == p + [q[k]];
      ExpansionOf(links, to, p);
      OpensOfMembers(links, to, p, q);
    }
  }

  lemma {:induction false} LevelLength(links: seq<Link>, from: NodeId, to: NodeId, k: nat, q: Path)
    requires q in LevelOf(links, from, to, k)
    ensures |q| == k + 1
  {
    if k > 0 {
      var prev := LevelOf(links, from, to, k - 1);
      forall p <- prev ensures |p| == k { LevelLength(links, from, to, k - 1, p); }
      NextLevelMembers(links, to, prev, k, q);
    }
  }

  lemma HitsOfMembers(links: seq<Link>, to: NodeId, p: Path, q: Path)
    requires p != []
    ensures q in HitsOf(links, to, p) <==> q == p + [to] && to !in p && HasLink(links, p[|p| - 1], to)
  {
    HitsMembers(p, to, Targets(links, p[|p| - 1]), q);
    TargetsMembers(links, p[|p| - 1], to);
  }

  lemma SimplePathExtend(links: seq<Link>, from: NodeId, to: NodeId, k: nat, p: Path)
    requires |p| == k + 1
    ensures IsSimplePath(links, from, to, k + 1, p + [to]) <==>
            IsPartial(links, from, to, k, p) && to !in p && HasLink(links, p[k], to)
  {
    WalkExtend(links, p, to);
    DistinctExtend(p, to);
    assert forall n <- p[1..] :: n in p;
  }

  lemma EndsAtTarget(links: seq<Link>, from: NodeId, to: NodeId, maxDepth: nat, q: Path)
    requires IsSimplePath(links, from, to, maxDepth, q)
    ensures q == q[..|q| - 1] + [to]
  {
  }

  // The hits of level k are exactly the simple paths with k+1 links.
  lemma LevelHits(links: seq<Link>, from: NodeId, to: NodeId, k: nat, q: Path)
    ensures q in FlatMap(HitsBy(links, to), LevelOf(links, from, to, k)) <==>
            |q| == k + 2 && IsSimplePath(links, from, to, k + 1, q)
  {
    var level := LevelOf(links, from, to, k);
    FlatMapMembers(HitsBy(links, to), level, q);
    hide IsSimplePath, HasLink, LevelOf, HitsOf, FlatMap, IsWalk, Distinct;
    if q in FlatMap(HitsBy(links, to), level) {
      var p :| p in level && q in HitsOf(links, to, p);
      LevelMembers(links, from, to, k, p);
      HitsOfMembers(links, to, p, q);
      SimplePathExtend(links, from, to, k, p);
    }
    if |q| == k + 2 && IsSimplePath(links, from, to, k + 1, q) {
      var p := q[..k + 1];
      assert q == p + [to] by { EndsAtTarget(links, from, to, k + 1, q); }
      SimplePathExtend(links, from, to, k, p);
      LevelMembers(links, from, to, k, p);
      HitsOfMembers(links, to, p, q);
    }
  }

  // All hits of the levels k .. depth-1: which paths they are, and in what order.
  lemma {:induction false} AllHits(links: seq<Link>, from: NodeId, to: NodeId, k: nat, depth: nat, q: Path)
    ensures q in FlatMap(HitsBy(links, to), LevelsFrom(OpensBy(links, to), [from], k, depth)) <==>
            k + 2 <= |q| && IsSimplePath(links, from, to, depth, q)
    decreases depth - k
  {
    if k < depth {
      var here, rest := LevelOf(links, from, to, k), LevelsFrom(OpensBy(links, to), [from], k + 1, depth);
      FlatMapAppend(HitsBy(links, to), here, rest);
      LevelHits(links, from, to, k, q);
      AllHits(links, from, to, k + 1, depth, q);
    }
  }

  predicate ShortestFirst(paths: seq<Path>) {
    forall i, j | 0 <= i < j < |paths| :: |paths[i]| <= |paths[j]|
  }

  lemma {:induction false} AllHitsOrdered(links: seq<Link>, from: NodeId, to: NodeId, k: nat, depth: nat)
    ensures ShortestFirst(FlatMap(HitsBy(links, to), LevelsFrom(OpensBy(links, to), [from], k, depth)))
    decreases depth - k
  {
    if k < depth {
      var here, rest := LevelOf(links, from, to, k), LevelsFrom(OpensBy(links, to), [from], k + 1, depth);
      var a, b := FlatMap(HitsBy(links, to), here), FlatMap(HitsBy(links, to), rest);
      FlatMapAppend(HitsBy(links, to), here, rest);
      AllHitsOrdered(links, from, to, k + 1, depth);
      forall p <- a ensures |p| == k + 2 { LevelHits(links, from, to, k, p); }
      forall p <- b ensures k + 3 <= |p| { AllHits(links, from, to, k + 1, depth, p); }
    }
  }

  /******* The order of equally long paths *******/

  // Both come from the same node, the first by an earlier link.
  ghost predicate LinkBefore(links: seq<Link>, u: NodeId, m: NodeId, n: NodeId) {
    exists a, b :: 0 <= a < b < |links| && links[a] == Link(u, m) && links[b] == Link(u, n)
  }

  ghost predicate StepBefore(links: seq<Link>, p: Path, q: Path, i: nat) {
    0 < i < |p| && |p| == |q| && p[..i] == q[..i] && LinkBefore(links, p[i - 1], p[i], q[i])
  }

  // Up to some step the paths agree, and there p takes an earlier link than q.
  ghost predicate Before(links: seq<Link>, p: Path, q: Path) {
    exists i: nat :: StepBefore(links, p, q, i)
  }

  ghost predicate InLinkOrder(links: seq<Link>, paths: seq<Path>) {
    forall i, j | 0 <= i < j < |paths| :: Before(links, paths[i], paths[j])
  }

  lemma {:induction false} TargetsInOrder(links: seq<Link>, u: NodeId, i: nat, j: nat)
    requires i < j < |Targets(links, u)|
    ensures LinkBefore(links, u, Targets(links, u)[i], Targets(links, u)[j])
  {
    var init, last := links[..|links| - 1], links[|links| - 1];
    assert links == init + [last];
    if j < |Targets(init, u)| {
      TargetsInOrder(init, u, i, j);
      var a, b :| 0 <= a < b < |init| && init[a] == Link(u, Targets(init, u)[i]) && init[b] == Link(u, Targets(init, u)[j]);
      assert links[a] == init[a] && links[b] == init[b];
    } else {
      var m := Targets(init, u)[i];
      assert Targets(links, u)[i] == m;
      TargetsMembers(init, u, m);
      var a :| 0 <= a < |init| && init[a] == Link(u, m);
      assert links[a] == init[a] && links[|links| - 1] == Link(u, Targets(links, u)[j]);
    }
  }

  lemma ExtendedBefore(links: seq<Link>, p: Path, q: Path, m: NodeId, n: NodeId)
    requires Before(links, p, q)
    ensures Before(links, p + [m], q + [n])
  {
    var i: nat :| StepBefore(links, p, q, i);
    assert (p + [m])[..i] == p[..i] && (q + [n])[..i] == q[..i];
    assert StepBefore(links, p + [m], q + [n], i);
  }

  lemma SiblingsBefore(links: seq<Link>, p: Path, m: NodeId, n: NodeId)
    requires p != [] && LinkBefore(links, p[|p| - 1], m, n)
    ensures Before(links, p + [m], p + [n])
  {
    assert (p + [m])[..|p|] == p && (p + [n])[..|p|] == p;
    assert StepBefore(links, p + [m], p + [n], |p|);
  }

  ghost predicate TargetsOrdered(links: seq<Link>, u: NodeId, ns: seq<NodeId>) {
    forall i, j | 0 <= i < j < |ns| :: LinkBefore(links, u, ns[i], ns[j])
  }

  // An extension by an earlier target comes before that by the last one.
  lemma EarlierSibling(links: seq<Link>, p: Path, to: NodeId, ns: seq<NodeId>, q: Path)
    requires p != [] && ns != [] && TargetsOrdered(links, p[|p| - 1], ns)
    requires q in Opens(p, to, ns[..|ns| - 1]) || q in Hits(p, to, ns[..|ns| - 1])
    ensures Before(links, q, p + [ns[|ns| - 1]])
  {
    var init := ns[..|ns| - 1];
    OpensMembers(p, to, init, q);
    HitsMembers(p, to, init, q);
    var m := q[|p|];
    assert q == p + [m];
    var i :| 0 <= i < |init| && init[i] == m;
    hide Opens, Hits, Before;
    assert LinkBefore(links, p[|p| - 1], ns[i], ns[|ns| - 1]);
    SiblingsBefore(links, p, m, ns[|ns| - 1]);
  }

  lemma LastInOrder(links: seq<Link>, paths: seq<Path>, last: Path)
    requires InLinkOrder(links, paths) && forall q <- paths :: Before(links, q, last)
    ensures InLinkOrder(links, paths + [last])
  {
    hide Before;
  }

  lemma {:induction false} ExtensionsInOrder(links: seq<Link>, p: Path, to: NodeId, ns: seq<NodeId>)
    requires p != [] && TargetsOrdered(links, p[|p| - 1], ns)
    ensures InLinkOrder(links, Opens(p, to, ns)) && InLinkOrder(links, Hits(p, to, ns))
  {
    if ns != [] {
      var init, n := ns[..|ns| - 1], ns[|ns| - 1];
      assert TargetsOrdered(links, p[|p| - 1], init) by { FewerOrdered(links, p[|p| - 1], ns); }
      ExtensionsInOrder(links, p, to, init);
      forall q | q in Opens(p, to, init) || q in Hits(p, to, init) ensures Before(links, q, p + [n]) {
        EarlierSibling(links, p, to, ns, q);
      }
      LastInOrder(links, Opens(p, to, init), p + [n]);
      LastInOrder(links, Hits(p, to, init), p + [n]);
      hide Before, InLinkOrder, TargetsOrdered;
    }
  }

  lemma FewerOrdered(links: seq<Link>, u: NodeId, ns: seq<NodeId>)
    requires ns != [] && TargetsOrdered(links, u, ns)
    ensures TargetsOrdered(links, u, ns[..|ns| - 1])
  {
    hide LinkBefore;
  }

  lemma AllTargetsOrdered(links: seq<Link>, u: NodeId)
    ensures TargetsOrdered(links, u, Targets(links, u))
  {
    var ns := Targets(links, u);
    hide LinkBefore, Targets;
    forall i, j | 0 <= i < j < |ns| ensures LinkBefore(links, u, ns[i], ns[j]) { TargetsInOrder(links, u, i, j); }
  }

  // One expansion keeps the order.
  lemma ExpansionInOrder(links: seq<Link>, to: NodeId, prev: seq<Path>)
    requires InLinkOrder(links, prev) && forall p <- prev :: p != []
    ensures InLinkOrder(links, FlatMap(OpensBy(links, to), prev)) && InLinkOrder(links, FlatMap(HitsBy(links, to), prev))
  {
    var before := (p: Path, q: Path) => Before(links, p, q);
    forall p | p in prev
      ensures InLinkOrder(links, OpensBy(links, to)(p)) && InLinkOrder(links, HitsBy(links, to)(p))
    {
      ExpansionOf(links, to, p);
      AllTargetsOrdered(links, p[|p| - 1]);
      ExtensionsInOrder(links, p, to, Targets(links, p[|p| - 1]));
    }
    forall i, j, x, y | 0 <= i < j < |prev| && (x in OpensBy(links, to)(prev[i]) || x in HitsBy(links, to)(prev[i]))
                        && (y in OpensBy(links, to)(prev[j]) || y in HitsBy(links, to)(prev[j]))
      ensures Before(links, x, y)
    {
      ChildOf(links, to, prev[i], x);
      ChildOf(links, to, prev[j], y);
      ExtendedBefore(links, prev[i], prev[j], x[|prev[i]|], y[|prev[j]|]);
    }
    hide Before, OpensBy, HitsBy;
    FlatMapPairs(OpensBy(links, to), prev, before);
    FlatMapPairs(HitsBy(links, to), prev, before);
  }

  lemma ChildOf(links: seq<Link>, to: NodeId, p: Path, q: Path)
    requires p != [] && (q in OpensBy(links, to)(p) || q in HitsBy(links, to)(p))
    ensures |q| == |p| + 1 && q == p + [q[|p|]]
  {
    ExpansionOf(links, to, p);
    OpensOfMembers(links, to, p, q);
    HitsOfMembers(links, to, p, q);
  }

  lemma {:induction false} LevelInOrder(links: seq<Link>, from: NodeId, to: NodeId, k: nat)
    ensures InLinkOrder(links, LevelOf(links, from, to, k))
  {
    if k > 0 {
      var prev := LevelOf(links, from, to, k - 1);
      LevelInOrder(links, from, to, k - 1);
      forall p <- prev ensures p != [] { LevelLength(links, from, to, k - 1, p); }
      ExpansionInOrder(links, to, prev);
      hide InLinkOrder;
    }
  }

  ghost predicate EqualsInOrder(links: seq<Link>, paths: seq<Path>) {
    forall i, j | 0 <= i < j < |paths| :: |paths[i]| == |paths[j]| ==> Before(links, paths[i], paths[j])
  }

  lemma LevelHitsInOrder(links: seq<Link>, from: NodeId, to: NodeId, k: nat)
    ensures InLinkOrder(links, FlatMap(HitsBy(links, to), LevelOf(links, from, to, k)))
    ensures forall p <- FlatMap(HitsBy(links, to), LevelOf(links, from, to, k)) :: |p| == k + 2
  {
    var here := LevelOf(links, from, to, k);
    hide *;
    LevelInOrder(links, from, to, k);
    forall p <- here ensures p != [] { LevelLength(links, from, to, k, p); }
    ExpansionInOrder(links, to, here);
    forall p <- FlatMap(HitsBy(links, to), here) ensures |p| == k + 2 { LevelHits(links, from, to, k, p); }
  }

  lemma {:induction false} AllHitsInOrder(links: seq<Link>, from: NodeId, to: NodeId, k: nat, depth: nat)
    ensures EqualsInOrder(links, FlatMap(HitsBy(links, to), LevelsFrom(OpensBy(links, to), [from], k, depth)))
    decreases depth - k
  {
    if k < depth {
      var here, rest := LevelOf(links, from, to, k), LevelsFrom(OpensBy(links, to), [from], k + 1, depth);
      var a, b := FlatMap(HitsBy(links, to), here), FlatMap(HitsBy(links, to), rest);
      assert LevelsFrom(OpensBy(links, to), [from], k, depth) == here + rest;
      hide *;
      FlatMapAppend(HitsBy(links, to), here, rest);
      AllHitsInOrder(links, from, to, k + 1, depth);
      LevelHitsInOrder(links, from, to, k);
      forall p <- b ensures k + 2 < |p| { AllHits(links, from, to, k + 1, depth, p); }
      JoinedInOrder(links, a, b, k + 2);
    }
  }

  lemma JoinedInOrder(links: seq<Link>, a: seq<Path>, b: seq<Path>, size: nat)
    requires InLinkOrder(links, a) && EqualsInOrder(links, b)
    requires (forall p <- a :: |p| == size) && forall p <- b :: size < |p|
    ensures EqualsInOrder(links, a + b)
  {
    hide Before;
    var all := a + b;
    forall i, j | 0 <= i < j < |all| && |all[i]| == |all[j]| ensures Before(links, all[i], all[j]) {
      assert i < |a| ==> all[i] == a[i] && a[i] in a;
      assert j >= |a| ==> all[j] == b[j - |a|] && b[j - |a|] in b;
      if j < |a| { assert all[j] == a[j]; } else { assert i >= |a| && all[i] == b[i - |a|]; }
    }
  }

  /******* Main results about the answer *******/

  // Equally long paths come in the order of the links they take, compared step by step.
  lemma SearchKeepsLinkOrder(links: seq<Link>, from: NodeId, to: NodeId, maxDepth: nat, limit: nat, i: nat, j: nat)
    requires i < j < |Answer(links, from, to, maxDepth, limit)|
    requires |Answer(links, from, to, maxDepth, limit)[i]| == |Answer(links, from, to, maxDepth, limit)[j]|
    ensures Before(links, Answer(links, from, to, maxDepth, limit)[i], Answer(links, from, to, maxDepth, limit)[j])
  {
    var work := LevelsFrom(OpensBy(links, to), [from], 0, maxDepth);
    CutIsPrefix(HitsBy(links, to), work, limit);
    AllHitsInOrder(links, from, to, 0, maxDepth);
    var all, answer := FlatMap(HitsBy(links, to), work), Answer(links, from, to, maxDepth, limit);
    assert answer[i] == all[i] && answer[j] == all[j];
    hide Before;
  }

  // Every returned path is a simple directed walk between the endpoints with 1 .. maxDepth links, and
  // the paths come shortest first.
  lemma SearchIsSound(links: seq<Link>, from: NodeId, to: NodeId, maxDepth: nat, limit: nat)
    ensures forall p <- Answer(links, from, to, maxDepth, limit) :: IsSimplePath(links, from, to, maxDepth, p)
    ensures ShortestFirst(Answer(links, from, to, maxDepth, limit))
  {
    var work := LevelsFrom(OpensBy(links, to), [from], 0, maxDepth);
    CutIsPrefix(HitsBy(links, to), work, limit);
    AllHitsOrdered(links, from, to, 0, maxDepth);
    forall p <- Answer(links, from, to, maxDepth, limit) ensures IsSimplePath(links, from, to, maxDepth, p) {
      assert p in FlatMap(HitsBy(links, to), work);
      AllHits(links, from, to, 0, maxDepth, p);
    }
  }

  // Below the limit nothing is missing; at the limit, whatever is missing is no shorter than anything
  // that was returned.
  lemma SearchIsComplete(links: seq<Link>, from: NodeId, to: NodeId, maxDepth: nat, limit: nat, p: Path)
    requires IsSimplePath(links, from, to, maxDepth, p)
    requires p !in Answer(links, from, to, maxDepth, limit)
    ensures limit <= |Answer(links, from, to, maxDepth, limit)|
    ensures forall q <- Answer(links, from, to, maxDepth, limit) :: |q| <= |p|
  {
    var work := LevelsFrom(OpensBy(links, to), [from], 0, maxDepth);
    var answer, all := Answer(links, from, to, maxDepth, limit), FlatMap(HitsBy(links, to), work);
    CutIsPrefix(HitsBy(links, to), work, limit);
    AllHits(links, from, to, 0, maxDepth, p);
    AllHitsOrdered(links, from, to, 0, maxDepth);
    var j :| 0 <= j < |all| && all[j] == p;
    assert forall i | 0 <= i < |answer| :: answer[i] == all[i] && answer[i] in answer;
    assert |answer| <= j;
    forall q <- answer ensures |q| <= |p| {
      var i :| 0 <= i < |answer| && answer[i] == q;
      assert all[i] == q;
    }
  }

  /******* The result limit *******/

  function Count(links: seq<Link>, l: Link): nat {
    if links == [] then 0
    else Count(links[..|links| - 1], l) + if links[|links| - 1] == l then 1 else 0
  }

  lemma {:induction false} CountPositive(links: seq<Link>, l: Link)
    ensures l in links <==> Count(links, l) > 0
  {
    if links != [] {
      CountPositive(links[..|links| - 1], l);
      assert links == links[..|links| - 1] + [links[|links| - 1]];
    }
  }

  lemma {:induction false} CountTwice(links: seq<Link>, i: nat, j: nat)
    requires i < j < |links| && links[i] == links[j]
    ensures Count(links, links[i]) >= 2
  {
    var init := links[..|links| - 1];
    if j < |init| {
      CountTwice(init, i, j);
    } else {
      CountPositive(init, links[i]);
      assert init[i] == links[i];
    }
  }

  lemma {:induction false} CountOnce(links: seq<Link>, l: Link)
    requires NoParallelLinks(links) && l.source != l.target
    ensures Count(links, l) <= 1
  {
    if links != [] {
      var init := links[..|links| - 1];
      assert NoParallelLinks(init);
      CountOnce(init, l);
      CountPositive(init, l);
      assert forall i | 0 <= i < |init| :: init[i] == links[i];
    }
  }

  // A partial path is hit once for every link from its end to the target.
  lemma {:induction false} HitsCount(links: seq<Link>, to: NodeId, path: Path, u: NodeId)
    requires to !in path
    ensures |Hits(path, to, Targets(links, u))| == Count(links, Link(u, to))
  {
    if links != [] {
      var init, last := links[..|links| - 1], links[|links| - 1];
      HitsCount(links[..|links| - 1], to, path, u);
      if last.source == u {
        assert Targets(links, u)[..|Targets(links, u)| - 1] == Targets(init, u);
      }
    }
  }

  lemma NoMembers(s: seq<Path>)
    ensures s == [] || exists p :: p in s
  {
    if s != [] { assert s[0] in s; }
  }

  lemma AtMostOneHit(links: seq<Link>, to: NodeId, p: Path)
    requires NoParallelLinks(links)
    ensures |HitsOf(links, to, p)| <= 1
  {
    if p == [] { return; }
    var u := p[|p| - 1];
    if to in p {
      forall q ensures q !in HitsOf(links, to, p) { HitsOfMembers(links, to, p, q); }
      NoMembers(HitsOf(links, to, p));
    } else {
      HitsCount(links, to, p, u);
      CountOnce(links, Link(u, to));
    }
  }

  ghost predicate LimitRespected(links: seq<Link>) {
    forall from: NodeId, to: NodeId, maxDepth: nat, limit: nat |
      1 <= maxDepth <= MAX_PATH_DEPTH && 1 <= limit <= MAX_PATH_RESULTS ::
      |Answer(links, from, to, maxDepth, limit)| <= limit
  }

  // The limit check runs once per dequeued path, so two links with the same ends slip past it:
  // every query on a graph respects its limit exactly when the graph has no such pair.
  lemma LimitHoldsIffNoParallelLinks(links: seq<Link>)
    ensures LimitRespected(links) <==> NoParallelLinks(links)
  {
    if NoParallelLinks(links) {
      forall from: NodeId, to: NodeId, maxDepth: nat, limit: nat |
        1 <= maxDepth <= MAX_PATH_DEPTH && 1 <= limit <= MAX_PATH_RESULTS
        ensures |Answer(links, from, to, maxDepth, limit)| <= limit
      {
        var work := LevelsFrom(OpensBy(links, to), [from], 0, maxDepth);
        forall p <- work ensures |HitsBy(links, to)(p)| <= 1 { AtMostOneHit(links, to, p); }
        CutWithinLimit(HitsBy(links, to), work, limit);
      }
    } else {
      var i, j :| 0 <= i < j < |links| && links[i] == links[j] && links[i].source != links[i].target;
      var u, v := links[i].source, links[i].target;
      CountTwice(links, i, j);
      HitsCount(links, v, [u], u);
      assert LevelsFrom(OpensBy(links, v), [u], 0, 1) == [[u]] by { assert LevelsFrom(OpensBy(links, v), [u], 1, 1) == []; }
      assert |HitsBy(links, v)([u])| >= 2;
      assert |Answer(links, u, v, 1, 1)| >= 2;
    }
  }

  /******* The search itself *******/

  datatype SearchError = UnknownEndpoint | DepthOutOfRange | LimitOutOfRange

  type NodeView = map<string, string>

  // A node as it is returned: without its bulky fields and stamped with its origin.
  function Render(s: Snapshot, n: NodeId): NodeView
    requires n in s.nodes
  {
    (s.nodes[n] - {"embedding", "vector", "local_path"})["source" := s.alias]["commit_sha" := s.commitSha]
  }

  function RenderPath(s: Snapshot, p: Path): seq<NodeView>
    requires forall n <- p :: n in s.nodes
  {
    seq(|p|, i requires 0 <= i < |p| => Render(s, p[i]))
  }

  predicate AllRendered(s: Snapshot, paths: seq<Path>, views: seq<seq<NodeView>>) {
    && |views| == |paths|
    && forall i | 0 <= i < |views| :: (forall n <- paths[i] :: n in s.nodes) && views[i] == RenderPath(s, paths[i])
  }

  // The path can be read back from what a caller receives.
  lemma RenderKeepsIds(s: Snapshot, p: Path)
    requires ValidGraph(s) && forall n <- p :: n in s.nodes
    ensures |RenderPath(s, p)| == |p|
    ensures forall i | 0 <= i < |p| :: "id" in RenderPath(s, p)[i] && RenderPath(s, p)[i]["id"] == p[i]
  {
  }

  // A rendered node has the fields of the node except the bulky ones and its origin, and its origin.
  lemma RenderedFields(s: Snapshot, n: NodeId, key: string)
    requires n in s.nodes
    ensures var view := Render(s, n);
            && "source" in view && view["source"] == s.alias && "commit_sha" in view && view["commit_sha"] == s.commitSha
            && (key != "source" && key != "commit_sha" ==>
                  && (key in view <==> key in s.nodes[n] && key != "embedding" && key != "vector" && key != "local_path")
                  && (key in view ==> view[key] == s.nodes[n][key]))
  {
  }

  method BuildAdjacency(links: seq<Link>) returns (adjacency: map<NodeId, seq<NodeId>>)
    ensures forall u :: (if u in adjacency then adjacency[u] else []) == Targets(links, u)
  {
    adjacency := map[];
    for i := 0 to |links|
      invariant forall u :: (if u in adjacency then adjacency[u] else []) == Targets(links[..i], u)
    {
      var l := links[i];
      assert links[..i + 1][..i] == links[..i];
      adjacency := adjacency[l.source := (if l.source in adjacency then adjacency[l.source] else []) + [l.target]];
    }
    assert links[..|links|] == links;
  }

  lemma PathNodesKnown(s: Snapshot, p: Path)
    requires ValidGraph(s) && p != [] && p[0] in s.nodes && IsWalk(s.links, p)
    ensures forall n <- p :: n in s.nodes
  {
    forall n <- p ensures n in s.nodes {
      var i :| 0 <= i < |p| && p[i] == n;
      if i > 0 { assert StepAt(s.links, p, i - 1); }
    }
  }

  method ExtendPath(s: Snapshot, to: NodeId, path: Path, neighbors: seq<NodeId>,
                    paths0: seq<Path>, views0: seq<seq<NodeView>>, queue0: seq<Path>)
    returns (paths: seq<Path>, views: seq<seq<NodeView>>, queue: seq<Path>)
    requires path != [] && (forall n <- path :: n in s.nodes) && (forall n <- neighbors :: n in s.nodes)
    requires AllRendered(s, paths0, views0)
    ensures paths == paths0 + Hits(path, to, neighbors)
    ensures queue == queue0 + Opens(path, to, neighbors)
    ensures AllRendered(s, paths, views)
  {
    paths, views, queue := paths0, views0, queue0;
    for j := 0 to |neighbors|
      invariant paths == paths0 + Hits(path, to, neighbors[..j])
      invariant queue == queue0 + Opens(path, to, neighbors[..j])
      invariant AllRendered(s, paths, views)
    {
      var neighbor := neighbors[j];
      assert neighbors[..j + 1][..j] == neighbors[..j];
      if neighbor in path { continue; }
      var candidate := path + [neighbor];
      if neighbor == to {
        paths := paths + [candidate];
        views := views + [RenderPath(s, candidate)];
      } else {
        queue := queue + [candidate];
      }
    }
    assert neighbors[..|neighbors|] == neighbors;
  }

  lemma TargetsKnown(s: Snapshot, u: NodeId)
    requires ValidGraph(s)
    ensures forall n <- Targets(s.links, u) :: n in s.nodes
  {
    forall n <- Targets(s.links, u) ensures n in s.nodes {
      TargetsMembers(s.links, u, n);
      assert Link(u, n) in s.links;
    }
  }

  lemma LevelWalk(links: seq<Link>, from: NodeId, to: NodeId, k: nat, i: nat, q: Query<Path, Path>)
    requires q.opens == OpensBy(links, to) && q.start == [from] && i < |q.Level(k)|
    ensures var p := q.Level(k)[i]; |p| == k + 1 && p[0] == from && IsWalk(links, p)
  {
    assert q.Level(k) == LevelOf(links, from, to, k);
    LevelMembers(links, from, to, k, q.Level(k)[i]);
  }

  method Search(s: Snapshot, from: NodeId, to: NodeId, maxDepth: int, limit: int)
    returns (r: Result<seq<Path>, SearchError>, views: seq<seq<NodeView>>)
    requires ValidGraph(s)
    ensures from !in s.nodes || to !in s.nodes ==> r == Err(UnknownEndpoint)
    ensures from in s.nodes && to in s.nodes && !(1 <= maxDepth <= MAX_PATH_DEPTH) ==> r == Err(DepthOutOfRange)
    ensures from in s.nodes && to in s.nodes && 1 <= maxDepth <= MAX_PATH_DEPTH && !(1 <= limit <= MAX_PATH_RESULTS) ==>
              r == Err(LimitOutOfRange)
    ensures from in s.nodes && to in s.nodes && 1 <= maxDepth <= MAX_PATH_DEPTH && 1 <= limit <= MAX_PATH_RESULTS ==>
              r == Ok(Answer(s.links, from, to, maxDepth, limit))
    ensures r.Ok? ==> AllRendered(s, r.value, views)
  {
    views := [];
    if from !in s.nodes || to !in s.nodes { return Err(UnknownEndpoint), views; }
    if !(1 <= maxDepth <= MAX_PATH_DEPTH) { return Err(DepthOutOfRange), views; }
    if !(1 <= limit <= MAX_PATH_RESULTS) { return Err(LimitOutOfRange), views; }
    var adjacency := BuildAdjacency(s.links);
    var queue: seq<Path> := [[from]];
    var paths: seq<Path> := [];
    ghost var q := Query(HitsBy(s.links, to), OpensBy(s.links, to), [from], maxDepth, limit);
    assert q.Answer() == Answer(s.links, from, to, maxDepth, limit) && AllRendered(s, paths, views);
    hide *;
    ghost var k: nat, i: nat := 0, 0;
    q.OnTrackInitially();
    while queue != [] && |paths| < limit
      invariant k <= maxDepth && i <= |q.Level(k)|
      invariant q.OnTrack(k, i, queue, paths)
      invariant AllRendered(s, paths, views)
      decreases maxDepth - k, |q.Level(k)| - i
    {
      k, i := q.Round(k, i, queue, paths);
      LevelWalk(s.links, from, to, k, i - 1, q);
      var path := queue[0];
      queue := queue[1..];
      if |path| - 1 >= maxDepth { continue; }
      PathNodesKnown(s, path);
      TargetsKnown(s, path[|path| - 1]);
      ExpansionOf(s.links, to, path);
      var neighbors := if path[|path| - 1] in adjacency then adjacency[path[|path| - 1]] else [];
      assert neighbors == Targets(s.links, path[|path| - 1]);
      ghost var found, rest := paths + q.hits(path), queue + q.opens(path);
      paths, views, queue := ExtendPath(s, to, path, neighbors, paths, views, queue);
      assert paths == found && queue == rest;
    }
    q.AtEnd(k, i, queue, paths);
    r := Ok(paths);
  }
}
