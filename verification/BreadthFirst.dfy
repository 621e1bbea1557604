/**
  A breadth-first worklist with a depth bound and a result limit, over any expansion step.

  Expanding an item yields results (`hits`) and further items (`opens`).  `Outstanding` says which
  results a partly processed queue still has to deliver; `OnTrack` is the invariant of the worklist.
 */
module BreadthFirst {

  function FlatMap<A, B>(f: A -> seq<B>, work: seq<A>): seq<B> {
    if work == [] then [] else f(work[0]) + FlatMap(f, work[1..])
  }

  // The same, stopping in front of the first element that finds `limit` results or more already there.
  function CutMap<A, B>(f: A -> seq<B>, work: seq<A>, limit: int): seq<B> {
    if work == [] || limit <= 0 then []
    else f(work[0]) + CutMap(f, work[1..], limit - |f(work[0])|)
  }

  lemma Regroup<T>(a: seq<T>, b: seq<T>, c: seq<T>)
    ensures a + (b + c) == (a + b) + c
  {
  }

  lemma {:induction false} FlatMapAppend<A, B>(f: A -> seq<B>, a: seq<A>, b: seq<A>)
    ensures FlatMap(f, a + b) == FlatMap(f, a) + FlatMap(f, b)
  {
    if a == [] {
      assert a + b == b;
    } else {
      FlatMapAppend(f, a[1..], b);
      assert (a + b)[1..] == a[1..] + b;
      Regroup(f(a[0]), FlatMap(f, a[1..]), FlatMap(f, b));
    }
  }

  lemma FlatMapNext<A, B>(f: A -> seq<B>, s: seq<A>, i: nat)
    requires i < |s|
    ensures FlatMap(f, s[..i + 1]) == FlatMap(f, s[..i]) + f(s[i])
  {
    assert s[..i + 1] == s[..i] + [s[i]];
    FlatMapAppend(f, s[..i], [s[i]]);
    assert [s[i]][1..] == [];
  }

  lemma {:induction false} FlatMapMembers<A, B>(f: A -> seq<B>, work: seq<A>, q: B)
    ensures q in FlatMap(f, work) <==> exists p :: p in work && q in f(p)
  {
    if work != [] {
      FlatMapMembers(f, work[1..], q);
      assert work == [work[0]] + work[1..];
    }
  }

  // What holds between results of an item and of a later one holds between all results in order.
  lemma {:induction false} FlatMapPairs<A, B>(f: A -> seq<B>, work: seq<A>, rel: (B, B) -> bool)
    requires forall i, a, b | 0 <= i < |work| && 0 <= a < b < |f(work[i])| :: rel(f(work[i])[a], f(work[i])[b])
    requires forall i, j, x, y | 0 <= i < j < |work| && x in f(work[i]) && y in f(work[j]) :: rel(x, y)
    ensures forall a, b | 0 <= a < b < |FlatMap(f, work)| :: rel(FlatMap(f, work)[a], FlatMap(f, work)[b])
  {
    if work != [] {
      var head, rest := f(work[0]), work[1..];
      assert forall i | 0 <= i < |rest| :: rest[i] == work[i + 1];
      FlatMapPairs(f, rest, rel);
      var tail := FlatMap(f, rest);
      forall x, y | x in head && y in tail ensures rel(x, y) {
        FlatMapMembers(f, rest, y);
        var p :| p in rest && y in f(p);
        var j :| 0 <= j < |rest| && rest[j] == p;
        assert work[j + 1] == p;
      }
    }
  }

  // A cut result is a prefix of the full one, and it is the full one unless the limit is reached.
  lemma {:induction false} CutIsPrefix<A, B>(f: A -> seq<B>, work: seq<A>, limit: int)
    ensures CutMap(f, work, limit) <= FlatMap(f, work)
    ensures |CutMap(f, work, limit)| < limit ==> CutMap(f, work, limit) == FlatMap(f, work)
  {
    if work != [] && limit > 0 {
      CutIsPrefix(f, work[1..], limit - |f(work[0])|);
    }
  }

  lemma {:induction false} CutWithinLimit<A, B>(f: A -> seq<B>, work: seq<A>, limit: nat)
    requires forall p <- work :: |f(p)| <= 1
    ensures |CutMap(f, work, limit)| <= limit
  {
    if work != [] && limit > 0 {
      CutWithinLimit(f, work[1..], limit - |f(work[0])|);
    }
  }

  // The items that are k expansions away from the start, in the order in which they are dequeued.
  function LevelAt<A>(opens: A -> seq<A>, start: A, k: nat): seq<A> {
    if k == 0 then [start] else FlatMap(opens, LevelAt(opens, start, k - 1))
  }

  // The levels k .. depth-1, one after the other.
  function LevelsFrom<A>(opens: A -> seq<A>, start: A, k: nat, depth: nat): seq<A>
    decreases depth - k
  {
    if k >= depth then [] else LevelAt(opens, start, k) + LevelsFrom(opens, start, k + 1, depth)
  }

  datatype Query<!A, !B> = Query(hits: A -> seq<B>, opens: A -> seq<A>, start: A, depth: nat, limit: nat)
  {
    function Level(k: nat): seq<A> {
      LevelAt(opens, start, k)
    }

    // The results of all levels in order, cut at the limit.
    function Answer(): seq<B> {
      CutMap(hits, LevelsFrom(opens, start, 0, depth), limit)
    }

    // The part of the worklist that still counts when `i` items of level `k` have been dequeued.
    ghost function Remaining(k: nat, i: nat): seq<A>
      requires i <= |Level(k)|
    {
      if k < depth then Level(k)[i..] + LevelsFrom(opens, start, k + 1, depth) else []
    }

    ghost function Outstanding(k: nat, i: nat, limit: int): seq<B>
      requires i <= |Level(k)|
    {
      CutMap(hits, Remaining(k, i), limit)
    }

    // The queue holds the rest of the current level, then what the dequeued part of it was extended
    // to.  At the last level nothing is extended any more.
    ghost predicate QueueHolds(k: nat, i: nat, queue: seq<A>)
      requires i <= |Level(k)|
    {
      queue == Level(k)[i..] + if k < depth then FlatMap(opens, Level(k)[..i]) else []
    }

    ghost predicate OnTrack(k: nat, i: nat, queue: seq<A>, found: seq<B>) {
      && k <= depth && i <= |Level(k)|
      && QueueHolds(k, i, queue)
      && Splits(Answer(), found, Outstanding(k, i, limit - |found|))
    }

    lemma OnTrackInitially()
      ensures OnTrack(0, 0, [start], [])
    {
      assert Remaining(0, 0) == LevelsFrom(opens, start, 0, depth);
    }

    lemma NextLevel(k: nat, queue: seq<A>)
      requires k <= depth && queue != [] && QueueHolds(k, |Level(k)|, queue)
      ensures k < depth && QueueHolds(k + 1, 0, queue)
      ensures Remaining(k, |Level(k)|) == Remaining(k + 1, 0)
    {
      assert Level(k)[..|Level(k)|] == Level(k);
    }

    lemma NextItem(k: nat, i: nat, queue: seq<A>)
      requires k <= depth && i < |Level(k)| && QueueHolds(k, i, queue)
      ensures queue != [] && queue[0] == Level(k)[i]
      ensures QueueHolds(k, i + 1, queue[1..] + if k < depth then opens(queue[0]) else [])
    {
      FlatMapNext(opens, Level(k), i);
    }

    lemma NextOutstanding(k: nat, i: nat, limit: int)
      requires k < depth && i < |Level(k)| && limit > 0
      ensures var h := hits(Level(k)[i]);
              Outstanding(k, i, limit) == h + Outstanding(k, i + 1, limit - |h|)
    {
      assert Remaining(k, i)[0] == Level(k)[i] && Remaining(k, i)[1..] == Remaining(k, i + 1);
    }

    // An empty queue means that nothing is left to be searched.
    lemma {:induction false} NothingBelow(k: nat)
      requires Level(k) == []
      ensures LevelsFrom(opens, start, k, depth) == []
      decreases depth - k
    {
      if k < depth { NothingBelow(k + 1); }
    }

    lemma QueueEmpty(k: nat, i: nat)
      requires k <= depth && i <= |Level(k)| && QueueHolds(k, i, [])
      ensures Remaining(k, i) == []
    {
      assert i == |Level(k)| && Level(k)[..i] == Level(k);
      if k < depth { NothingBelow(k + 1); }
    }

    // Where the item at the head of a non-empty queue comes from.
    lemma Dequeue(k: nat, i: nat, queue: seq<A>, found: seq<B>) returns (k': nat, i': nat)
      requires OnTrack(k, i, queue, found) && queue != []
      ensures OnTrack(k', i', queue, found) && i' < |Level(k')|
      ensures (k' == k && i' == i) || (k' == k + 1 && i' == 0)
      ensures queue[0] == Level(k')[i']
    {
      k', i' := k, i;
      if i == |Level(k)| {
        NextLevel(k, queue);
        k', i' := k + 1, 0;
      }
      NextItem(k', i', queue);
    }

    // The head of the queue has been expanded ...
    lemma AfterItem(k: nat, i: nat, queue: seq<A>, found: seq<B>)
      requires OnTrack(k, i, queue, found) && queue != [] && |found| < limit && i < |Level(k)| && k < depth
      ensures OnTrack(k, i + 1, queue[1..] + opens(queue[0]), found + hits(queue[0]))
    {
      NextItem(k, i, queue);
      AfterFound(k, i, found, hits(queue[0]));
    }

    lemma AfterFound(k: nat, i: nat, found: seq<B>, h: seq<B>)
      requires i < |Level(k)| && k < depth && |found| < limit && h == hits(Level(k)[i])
      requires Splits(Answer(), found, Outstanding(k, i, limit - |found|))
      ensures Splits(Answer(), found + h, Outstanding(k, i + 1, limit - |found + h|))
    {
      NextOutstanding(k, i, limit - |found|);
      assert limit - |found| - |h| == limit - |found + h|;
      SplitsShift(Answer(), found, h, Outstanding(k, i + 1, limit - |found + h|));
    }

    // ... or skipped, because it is as deep as allowed.
    lemma AfterLast(k: nat, i: nat, queue: seq<A>, found: seq<B>)
      requires OnTrack(k, i, queue, found) && queue != [] && i < |Level(k)| && k == depth
      ensures OnTrack(k, i + 1, queue[1..], found)
    {
      NextItem(k, i, queue);
      assert queue[1..] + [] == queue[1..];
    }

    // One round of the worklist, whichever of the two it is.
    lemma Round(k: nat, i: nat, queue: seq<A>, found: seq<B>) returns (k': nat, i': nat)
      requires OnTrack(k, i, queue, found) && queue != [] && |found| < limit
      ensures k' <= depth && 0 < i' <= |Level(k')|
      ensures k' > k || (k' == k && i' == i + 1)
      ensures queue[0] == Level(k')[i' - 1]
      ensures k' == depth ==> OnTrack(k', i', queue[1..], found)
      ensures k' < depth ==> OnTrack(k', i', queue[1..] + opens(queue[0]), found + hits(queue[0]))
    {
      hide *;
      var i0;
      k', i0 := Dequeue(k, i, queue, found);
      i' := i0 + 1;
      if k' == depth { AfterLast(k', i0, queue, found); } else { AfterItem(k', i0, queue, found); }
    }

    lemma AtEnd(k: nat, i: nat, queue: seq<A>, found: seq<B>)
      requires OnTrack(k, i, queue, found) && (queue == [] || |found| >= limit)
      ensures found == Answer()
    {
      if |found| < limit { QueueEmpty(k, i); }
    }
  }

  ghost predicate Splits<T>(all: seq<T>, a: seq<T>, b: seq<T>) {
    all == a + b
  }

  lemma SplitsShift<T>(all: seq<T>, a: seq<T>, b: seq<T>, c: seq<T>)
    requires Splits(all, a, b + c)
    ensures Splits(all, a + b, c)
  {
    Regroup(a, b, c);
  }
}
