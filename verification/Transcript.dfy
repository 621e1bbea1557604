/**
  Batching of the conversation transcript.

  Flushes are serialized by a lock, and messages may be appended while a batch is being reported.
  A flush therefore carries what arrives during each of its awaits; a cancelled flush stops in the
  await after the last arrival.  Sequences of appends and such flushes are exactly the interleavings
  of the session loop, its hooks and the flush timer.
 */
module Transcript {

  type Message(!new, ==)

  datatype Batch = Batch(lo: nat, hi: nat, messages: seq<Message>, forced: bool)

  datatype State = State(conversation: seq<Message>, flushed: nat, sent: seq<Batch>)

  datatype Op =
    | Append(messages: seq<Message>)
    | Flush(force: bool, arrivals: seq<seq<Message>>, cancelled: bool)

  // A state in the middle of a flush: what is still to arrive, and whether the flush was cut off.
  datatype Progress = Progress(state: State, arrivals: seq<seq<Message>>, stopped: bool)

  const EMPTY := State([], 0, [])

  predicate Valid(s: State) {
    && s.flushed <= |s.conversation|
    && forall b <- s.sent ::
         b.lo < b.hi <= |s.conversation| && b.messages == s.conversation[b.lo..b.hi]
  }

  function Arrived(arrivals: seq<seq<Message>>): seq<Message> {
    if arrivals == [] then [] else arrivals[0]
  }

  function Later(arrivals: seq<seq<Message>>): seq<seq<Message>> {
    if arrivals == [] then [] else arrivals[1..]
  }

  // A batch is handed to the event reporter ...
  function Send(s: State, hi: nat, forced: bool): State
    requires s.flushed <= hi <= |s.conversation|
  {
    s.(sent := s.sent + [Batch(s.flushed, hi, s.conversation[s.flushed..hi], forced)])
  }

  // ... and its await is over.
  function Settle(s: State, more: seq<Message>, flushed: nat): State {
    s.(conversation := s.conversation + more, flushed := flushed)
  }

  // Full batches, as long as there are any.
  function Drain(s: State, size: nat, arrivals: seq<seq<Message>>, cancelled: bool): Progress
    requires size > 0 && s.flushed <= |s.conversation|
    decreases |arrivals|, |s.conversation| - s.flushed
  {
    if |s.conversation| - s.flushed < size then Progress(s, arrivals, false)
    else
      var sending := Send(s, s.flushed + size, false);
      if cancelled && arrivals == [] then Progress(sending, [], true)
      else Drain(Settle(sending, Arrived(arrivals), s.flushed + size), size, Later(arrivals), cancelled)
  }

  // The remainder, whatever its size.  The new boundary is read after the await.
  function Force(s: State, arrivals: seq<seq<Message>>, cancelled: bool): Progress
    requires s.flushed <= |s.conversation|
  {
    if s.flushed == |s.conversation| then Progress(s, arrivals, false)
    else
      var sending := Send(s, |s.conversation|, true);
      if cancelled && arrivals == [] then Progress(sending, [], true)
      else
        var more := Arrived(arrivals);
        Progress(Settle(sending, more, |s.conversation + more|), Later(arrivals), false)
  }

  // What may change between two states of a run.
  ghost predicate Grows(s: State, s': State) {
    && s.conversation <= s'.conversation && s.sent <= s'.sent && s.flushed <= s'.flushed
    && forall k | |s.sent| <= k < |s'.sent| :: s.flushed <= s'.sent[k].lo
  }

  predicate RightSize(b: Batch, size: nat) {
    b.lo <= b.hi && if b.forced then b.hi - b.lo < size else b.hi - b.lo == size
  }

  // Of the batches sent in between, the unforced ones have the configured size and forced ones are smaller.
  ghost predicate Sized(s: State, s': State, size: nat) {
    forall k | |s.sent| <= k < |s'.sent| :: RightSize(s'.sent[k], size)
  }

  lemma GrowsTransitive(a: State, b: State, c: State, size: nat)
    requires Grows(a, b) && Grows(b, c) && Sized(a, b, size) && Sized(b, c, size)
    ensures Grows(a, c) && Sized(a, c, size)
  {
    forall k | |a.sent| <= k < |c.sent|
      ensures a.flushed <= c.sent[k].lo && RightSize(c.sent[k], size)
    {
      if k < |b.sent| { assert c.sent[k] == b.sent[k]; }
    }
  }

  lemma SendFacts(s: State, hi: nat, forced: bool, size: nat)
    requires Valid(s) && s.flushed < hi <= |s.conversation| && if forced then hi - s.flushed < size else hi - s.flushed == size
    ensures Valid(Send(s, hi, forced)) && Grows(s, Send(s, hi, forced)) && Sized(s, Send(s, hi, forced), size)
    ensures Contiguous(Send(s, hi, forced).sent, hi) <==> Contiguous(s.sent, s.flushed)
    ensures !Contiguous(Send(s, hi, forced).sent, s.flushed)
  {
    var s' := Send(s, hi, forced);
    assert s'.sent[..|s.sent|] == s.sent;
  }

  lemma SettleFacts(s: State, more: seq<Message>, flushed: nat, size: nat)
    requires Valid(s) && s.flushed <= flushed <= |s.conversation| + |more|
    ensures Valid(Settle(s, more, flushed)) && Grows(s, Settle(s, more, flushed)) && Sized(s, Settle(s, more, flushed), size)
  {
    forall b <- s.sent ensures b.messages == (s.conversation + more)[b.lo..b.hi] {}
  }

  lemma {:induction false} DrainFacts(s: State, size: nat, arrivals: seq<seq<Message>>, cancelled: bool)
    requires size > 0 && Valid(s)
    ensures var p := Drain(s, size, arrivals, cancelled);
            && Valid(p.state) && Grows(s, p.state) && Sized(s, p.state, size)
            && (!p.stopped ==> |p.state.conversation| - p.state.flushed < size)
            && (p.stopped ==> cancelled)
            && (Contiguous(p.state.sent, p.state.flushed) <==> Contiguous(s.sent, s.flushed) && !p.stopped)
    decreases |arrivals|, |s.conversation| - s.flushed
  {
    hide Valid, Grows, Sized, Contiguous;
    Reflexive(s, size);
    if |s.conversation| - s.flushed >= size {
      var hi := s.flushed + size;
      SendFacts(s, hi, false, size);
      var sending := Send(s, hi, false);
      if !(cancelled && arrivals == []) {
        var s' := Settle(sending, Arrived(arrivals), hi);
        SettleFacts(sending, Arrived(arrivals), hi, size);
        DrainFacts(s', size, Later(arrivals), cancelled);
        GrowsTransitive(s, sending, s', size);
        GrowsTransitive(s, s', Drain(s', size, Later(arrivals), cancelled).state, size);
      }
    }
  }

  lemma Bounds(s: State)
    requires Valid(s)
    ensures s.flushed <= |s.conversation|
  {
  }

  lemma Reflexive(s: State, size: nat)
    ensures Grows(s, s) && Sized(s, s, size)
  {
  }

  lemma ForceFacts(s: State, size: nat, arrivals: seq<seq<Message>>, cancelled: bool)
    requires Valid(s) && |s.conversation| - s.flushed < size
    ensures var p := Force(s, arrivals, cancelled);
            && Valid(p.state) && Grows(s, p.state) && Sized(s, p.state, size)
            && (Contiguous(p.state.sent, p.state.flushed) <==>
                Contiguous(s.sent, s.flushed) && !p.stopped
                && (s.flushed < |s.conversation| ==> Arrived(arrivals) == []))
  {
    Reflexive(s, size);
    Bounds(s);
    hide Valid, Grows, Sized, RightSize;
    if s.flushed < |s.conversation| {
      SendFacts(s, |s.conversation|, true, size);
      if !(cancelled && arrivals == []) {
        var more := Arrived(arrivals);
        SettleFacts(Send(s, |s.conversation|, true), more, |s.conversation + more|, size);
        GrowsTransitive(s, Send(s, |s.conversation|, true), Force(s, arrivals, cancelled).state, size);
      }
    }
  }

  // Once the lock is held: full batches first, then the remainder if forced.
  function FlushAll(s: State, size: nat, op: Op): Progress
    requires size > 0 && Valid(s) && op.Flush?
  {
    DrainFacts(s, size, op.arrivals, op.cancelled);
    var p := Drain(s, size, op.arrivals, op.cancelled);
    if p.stopped || !op.force then p else Force(p.state, p.arrivals, op.cancelled)
  }

  function Next(s: State, size: nat, op: Op): State
    requires size > 0 && Valid(s)
  {
    match op
    case Append(ms) => s.(conversation := s.conversation + ms)
    case Flush(_, _, _) => FlushAll(s, size, op).state
  }

  /******* What every step keeps *******/

  lemma NextKeeps(s: State, size: nat, op: Op)
    requires size > 0 && Valid(s)
    ensures Valid(Next(s, size, op)) && Grows(s, Next(s, size, op)) && Sized(s, Next(s, size, op), size)
  {
    hide Grows, Sized;
    match op
    case Append(ms) =>
      SettleFacts(s, ms, s.flushed, size);
      assert Next(s, size, op) == Settle(s, ms, s.flushed);
    case Flush(force, arrivals, cancelled) =>
      DrainFacts(s, size, arrivals, cancelled);
      var p := Drain(s, size, arrivals, cancelled);
      if !p.stopped && force {
        ForceFacts(p.state, size, p.arrivals, cancelled);
        GrowsTransitive(s, p.state, Force(p.state, p.arrivals, cancelled).state, size);
      }
  }

  function Run(s: State, size: nat, ops: seq<Op>): (r: State)
    requires size > 0 && Valid(s)
    ensures Valid(r)
  {
    if ops == [] then s
    else
      NextKeeps(Run(s, size, ops[..|ops| - 1]), size, ops[|ops| - 1]);
      Next(Run(s, size, ops[..|ops| - 1]), size, ops[|ops| - 1])
  }

  // In every run, every reported batch is a stretch of the transcript; unforced batches have exactly the
  // configured size and forced ones are smaller.
  lemma {:induction false} BatchesAreStretches(size: nat, ops: seq<Op>)
    requires size > 0
    ensures Valid(Run(EMPTY, size, ops))
    ensures forall b <- Run(EMPTY, size, ops).sent :: if b.forced then b.hi - b.lo < size else b.hi - b.lo == size
  {
    if ops != [] {
      var s := Run(EMPTY, size, ops[..|ops| - 1]);
      BatchesAreStretches(size, ops[..|ops| - 1]);
      NextKeeps(s, size, ops[|ops| - 1]);
      var s' := Next(s, size, ops[|ops| - 1]);
      forall b <- s'.sent ensures if b.forced then b.hi - b.lo < size else b.hi - b.lo == size {
        var k :| 0 <= k < |s'.sent| && s'.sent[k] == b;
        if k < |s.sent| { assert b == s.sent[k]; } else { assert RightSize(b, size); }
      }
    }
  }

  /******* What a flush leaves behind *******/

  function Flattened(parts: seq<seq<Message>>): seq<Message> {
    if parts == [] then [] else parts[0] + Flattened(parts[1..])
  }

  // As many of the arrivals as there were completed awaits, one for each batch that was not cut off.
  function ArrivedDuring(s: State, p: Progress, arrivals: seq<seq<Message>>): seq<seq<Message>>
    requires |s.sent| <= |p.state.sent| && (p.stopped ==> |s.sent| < |p.state.sent|)
  {
    var awaits := |p.state.sent| - |s.sent| - if p.stopped then 1 else 0;
    if awaits <= |arrivals| then arrivals[..awaits] else arrivals
  }

  ghost predicate KeepsArrivals(s: State, p: Progress, arrivals: seq<seq<Message>>) {
    && |s.sent| <= |p.state.sent| && (p.stopped ==> |s.sent| < |p.state.sent|)
    && p.state.conversation == s.conversation + Flattened(ArrivedDuring(s, p, arrivals))
    && p.arrivals == arrivals[|ArrivedDuring(s, p, arrivals)|..]
  }

  lemma {:induction false} DrainKeepsArrivals(s: State, size: nat, arrivals: seq<seq<Message>>, cancelled: bool)
    requires size > 0 && Valid(s)
    ensures KeepsArrivals(s, Drain(s, size, arrivals, cancelled), arrivals)
    decreases |arrivals|, |s.conversation| - s.flushed
  {
    Bounds(s);
    hide *;
    if |s.conversation| - s.flushed < size || (cancelled && arrivals == []) {
      DrainStops(s, size, arrivals, cancelled);
    } else {
      var next := AfterBatch(s, size, arrivals, cancelled);
      DrainKeepsArrivals(next, size, Later(arrivals), cancelled);
      OneMoreArrived(s, next, Drain(next, size, Later(arrivals), cancelled), arrivals);
    }
  }

  // The state in which draining goes on after one batch.
  lemma AfterBatch(s: State, size: nat, arrivals: seq<seq<Message>>, cancelled: bool) returns (next: State)
    requires size > 0 && Valid(s) && s.flushed + size <= |s.conversation| && !(cancelled && arrivals == [])
    ensures Valid(next) && next.flushed <= |next.conversation|
    ensures |Later(arrivals)| < |arrivals| || (Later(arrivals) == arrivals && |next.conversation| - next.flushed < |s.conversation| - s.flushed)
    ensures Drain(s, size, arrivals, cancelled) == Drain(next, size, Later(arrivals), cancelled)
    ensures |next.sent| == |s.sent| + 1 && next.conversation == s.conversation + Arrived(arrivals)
  {
    hide *;
    var hi := s.flushed + size;
    var sending := Send(s, hi, false);
    next := Settle(sending, Arrived(arrivals), hi);
    BatchFields(s, hi, arrivals);
    SendFacts(s, hi, false, size);
    SettleFacts(sending, Arrived(arrivals), hi, size);
    Bounds(next);
    DrainOnce(s, size, arrivals, cancelled);
  }

  lemma BatchFields(s: State, hi: nat, arrivals: seq<seq<Message>>)
    requires s.flushed <= hi <= |s.conversation|
    ensures var sending := Send(s, hi, false);
            var next := Settle(sending, Arrived(arrivals), hi);
            && |next.sent| == |s.sent| + 1 && next.flushed == hi && next.conversation == s.conversation + Arrived(arrivals)
            && sending.flushed == s.flushed && sending.conversation == s.conversation
    ensures if arrivals == [] then Later(arrivals) == [] && Arrived(arrivals) == [] else |Later(arrivals)| < |arrivals|
  {
  }

  lemma DrainStops(s: State, size: nat, arrivals: seq<seq<Message>>, cancelled: bool)
    requires size > 0 && Valid(s) && (|s.conversation| - s.flushed < size || (cancelled && arrivals == []))
    ensures KeepsArrivals(s, Drain(s, size, arrivals, cancelled), arrivals)
  {
    hide Valid;
  }

  lemma OneMoreArrived(s: State, next: State, p: Progress, arrivals: seq<seq<Message>>)
    requires |next.sent| == |s.sent| + 1 && next.conversation == s.conversation + Arrived(arrivals)
    requires KeepsArrivals(next, p, Later(arrivals))
    ensures KeepsArrivals(s, p, arrivals)
  {
    var later := ArrivedDuring(next, p, Later(arrivals));
    if arrivals != [] {
      assert ArrivedDuring(s, p, arrivals) == [arrivals[0]] + later;
      assert ([arrivals[0]] + later)[1..] == later;
    }
  }

  lemma {:induction false} FlattenedMore(a: seq<seq<Message>>, b: seq<seq<Message>>)
    ensures Flattened(a + b) == Flattened(a) + Flattened(b)
  {
    if a == [] {
      assert a + b == b;
    } else {
      assert (a + b)[1..] == a[1..] + b;
      FlattenedMore(a[1..], b);
    }
  }

  // A flush appends exactly what arrived during its completed awaits.  Unless it was cut off, less than a
  // batch is left, and nothing after a forced flush.
  lemma FlushOutcome(s: State, size: nat, op: Op)
    requires size > 0 && Valid(s) && op.Flush?
    ensures var p := FlushAll(s, size, op);
            && KeepsArrivals(s, p, op.arrivals)
            && (p.stopped ==> op.cancelled)
            && (!p.stopped ==> |p.state.conversation| - p.state.flushed < size)
            && (!p.stopped && op.force ==> p.state.flushed == |p.state.conversation|)
  {
    var p := Drain(s, size, op.arrivals, op.cancelled) by { Bounds(s); }
    FlushIs(s, size, op);
    hide *;
    DrainFacts(s, size, op.arrivals, op.cancelled);
    DrainKeepsArrivals(s, size, op.arrivals, op.cancelled);
    if !p.stopped && op.force {
      Bounds(p.state);
      ForceEnds(p.state, p.arrivals, op.cancelled);
      if p.state.flushed < |p.state.conversation| { ForceKeepsArrivals(s, p, op.arrivals, op.cancelled); }
    }
  }

  lemma FlushIs(s: State, size: nat, op: Op)
    requires size > 0 && Valid(s) && op.Flush?
    ensures s.flushed <= |s.conversation| && Valid(Drain(s, size, op.arrivals, op.cancelled).state)
    ensures var p := Drain(s, size, op.arrivals, op.cancelled);
            p.state.flushed <= |p.state.conversation| &&
            FlushAll(s, size, op) == if p.stopped || !op.force then p else Force(p.state, p.arrivals, op.cancelled)
  {
    DrainFacts(s, size, op.arrivals, op.cancelled);
    hide Drain, Force, Grows, Sized, Contiguous;
  }

  lemma ForceEnds(s: State, arrivals: seq<seq<Message>>, cancelled: bool)
    requires s.flushed <= |s.conversation|
    ensures var p := Force(s, arrivals, cancelled);
            && (s.flushed == |s.conversation| ==> p == Progress(s, arrivals, false))
            && (p.stopped ==> cancelled) && (!p.stopped ==> p.state.flushed == |p.state.conversation|)
  {
  }

  lemma ForceKeepsArrivals(s: State, p: Progress, arrivals: seq<seq<Message>>, cancelled: bool)
    requires KeepsArrivals(s, p, arrivals) && !p.stopped && p.state.flushed < |p.state.conversation|
    ensures KeepsArrivals(s, Force(p.state, p.arrivals, cancelled), arrivals)
  {
    var forced := Force(p.state, p.arrivals, cancelled);
    var before := ArrivedDuring(s, p, arrivals);
    if !forced.stopped {
      var more := ArrivedDuring(s, forced, arrivals);
      if p.arrivals == [] {
        assert more == before;
      } else {
        assert more == before + [p.arrivals[0]];
        FlattenedMore(before, [p.arrivals[0]]);
        assert [p.arrivals[0]][1..] == [];
        assert Flattened([p.arrivals[0]]) == p.arrivals[0];
      }
    } else {
      assert ArrivedDuring(s, forced, arrivals) == before;
    }
  }

  /******* When the batches partition the transcript *******/

  ghost predicate Contiguous(sent: seq<Batch>, flushed: nat) {
    if sent == [] then flushed == 0
    else sent[|sent| - 1].hi == flushed && Contiguous(sent[..|sent| - 1], sent[|sent| - 1].lo)
  }

  function Messages(sent: seq<Batch>): seq<Message> {
    if sent == [] then [] else Messages(sent[..|sent| - 1]) + sent[|sent| - 1].messages
  }

  lemma {:induction false} ContiguousMessages(conversation: seq<Message>, sent: seq<Batch>, flushed: nat)
    requires Contiguous(sent, flushed) && Valid(State(conversation, flushed, sent))
    ensures Messages(sent) == conversation[..flushed]
  {
    if sent != [] {
      var init, b := sent[..|sent| - 1], sent[|sent| - 1];
      BatchesBefore(conversation, sent, flushed);
      hide Valid;
      ContiguousMessages(conversation, init, b.lo);
      Joined(conversation, b.lo, b.hi);
    }
  }

  lemma BatchesBefore(conversation: seq<Message>, sent: seq<Batch>, flushed: nat)
    requires Valid(State(conversation, flushed, sent)) && sent != []
    ensures var b := sent[|sent| - 1];
            && Valid(State(conversation, b.lo, sent[..|sent| - 1]))
            && b.lo < b.hi <= |conversation| && b.messages == conversation[b.lo..b.hi]
  {
    assert sent[|sent| - 1] in sent && forall x <- sent[..|sent| - 1] :: x in sent;
  }

  lemma Joined<T>(s: seq<T>, lo: nat, hi: nat)
    requires lo <= hi <= |s|
    ensures s[..lo] + s[lo..hi] == s[..hi]
  {
  }

  ghost predicate Distinct(conversation: seq<Message>) {
    forall i, j | 0 <= i < j < |conversation| :: conversation[i] != conversation[j]
  }

  // Without repetitions a stretch at the end of a prefix ends where the prefix ends.
  lemma LastBatchEnds(conversation: seq<Message>, before: seq<Message>, lo: nat, hi: nat, flushed: nat)
    requires Distinct(conversation) && lo < hi <= |conversation| && flushed <= |conversation|
    requires before + conversation[lo..hi] == conversation[..flushed]
    ensures hi == flushed && before == conversation[..lo]
  {
    var all := before + conversation[lo..hi];
    assert all[|all| - 1] == conversation[hi - 1] && conversation[..flushed][|all| - 1] == conversation[flushed - 1];
    assert hi == flushed;
    assert all[..|before|] == before && conversation[..flushed][..lo] == conversation[..lo];
  }

  // When no message occurs twice, the reported messages can only be the flushed part of the transcript
  // if the batches follow one another.
  lemma {:induction false} MessagesContiguous(conversation: seq<Message>, sent: seq<Batch>, flushed: nat)
    requires Valid(State(conversation, flushed, sent)) && Distinct(conversation)
    requires Messages(sent) == conversation[..flushed]
    ensures Contiguous(sent, flushed)
  {
    if sent != [] {
      var init, b := sent[..|sent| - 1], sent[|sent| - 1];
      BatchesBefore(conversation, sent, flushed);
      LastBatchEnds(conversation, Messages(init), b.lo, b.hi, flushed);
      hide Valid, Distinct;
      MessagesContiguous(conversation, init, b.lo);
    }
  }

  // A flush is undisturbed if it was not cut off and nothing arrived while its forced batch was reported.
  ghost predicate Undisturbed(s: State, size: nat, op: Op)
    requires size > 0 && Valid(s)
  {
    op.Flush? ==>
      && !FlushAll(s, size, op).stopped
      && (op.force ==>
            (DrainFacts(s, size, op.arrivals, op.cancelled);
             var p := Drain(s, size, op.arrivals, op.cancelled);
             p.state.flushed < |p.state.conversation| ==> Arrived(p.arrivals) == []))
  }

  // One step keeps the partition exactly if it is undisturbed, and no step ever restores it.
  lemma PartitionStep(s: State, size: nat, op: Op)
    requires size > 0 && Valid(s)
    ensures var s' := Next(s, size, op);
            Contiguous(s'.sent, s'.flushed) <==> Contiguous(s.sent, s.flushed) && Undisturbed(s, size, op)
  {
    hide Contiguous;
    if op.Flush? {
      DrainFacts(s, size, op.arrivals, op.cancelled);
      var p := Drain(s, size, op.arrivals, op.cancelled);
      if !p.stopped && op.force { ForceFacts(p.state, size, p.arrivals, op.cancelled); }
    }
  }

  ghost predicate AllUndisturbed(size: nat, ops: seq<Op>)
    requires size > 0
  {
    forall k | 0 <= k < |ops| :: Undisturbed(Run(EMPTY, size, ops[..k]), size, ops[k])
  }

  lemma AllUndisturbedLast(size: nat, ops: seq<Op>)
    requires size > 0 && ops != []
    ensures var init := ops[..|ops| - 1];
            AllUndisturbed(size, ops) <==>
            AllUndisturbed(size, init) && Undisturbed(Run(EMPTY, size, init), size, ops[|ops| - 1])
  {
    hide Undisturbed, Run;
    var init := ops[..|ops| - 1];
    assert forall k | 0 <= k < |init| :: ops[..k] == init[..k] && ops[k] == init[k];
  }

  // Over whole runs: the batches partition conversation[..flushed] if and only if no forced batch was
  // overtaken by an append and no flush was cut off.
  lemma {:induction false} PartitionIffUndisturbed(size: nat, ops: seq<Op>)
    requires size > 0
    ensures Contiguous(Run(EMPTY, size, ops).sent, Run(EMPTY, size, ops).flushed) <==> AllUndisturbed(size, ops)
  {
    if ops != [] {
      hide AllUndisturbed, Undisturbed, Contiguous, Next;
      var init := ops[..|ops| - 1];
      PartitionIffUndisturbed(size, init);
      PartitionStep(Run(EMPTY, size, init), size, ops[|ops| - 1]);
      AllUndisturbedLast(size, ops);
    }
  }

  // The same for the messages themselves, which carry the times at which they were recorded.
  lemma ReportsIffUndisturbed(size: nat, ops: seq<Op>)
    requires size > 0 && Distinct(Run(EMPTY, size, ops).conversation)
    ensures var s := Run(EMPTY, size, ops);
            Messages(s.sent) == s.conversation[..s.flushed] <==> AllUndisturbed(size, ops)
  {
    var s := Run(EMPTY, size, ops);
    PartitionIffUndisturbed(size, ops);
    hide AllUndisturbed, Run, Contiguous;
    if Messages(s.sent) == s.conversation[..s.flushed] { MessagesContiguous(s.conversation, s.sent, s.flushed); }
    if Contiguous(s.sent, s.flushed) { ContiguousMessages(s.conversation, s.sent, s.flushed); }
  }

  // An undisturbed run that ends with a forced flush has reported the whole transcript, in order.
  lemma FinalFlushCoversTranscript(size: nat, ops: seq<Op>, op: Op)
    requires size > 0 && AllUndisturbed(size, ops + [op])
    requires op.Flush? && op.force && op.arrivals == []
    ensures var s := Run(EMPTY, size, ops + [op]);
            s.conversation == Run(EMPTY, size, ops).conversation && Messages(s.sent) == s.conversation
  {
    var all := ops + [op];
    assert all[..|ops|] == ops;
    var before, s := Run(EMPTY, size, ops), Run(EMPTY, size, all);
    PartitionIffUndisturbed(size, all);
    ContiguousMessages(s.conversation, s.sent, s.flushed);
    assert Undisturbed(Run(EMPTY, size, all[..|ops|]), size, all[|ops|]);
    DrainNoArrivals(before, size, op.cancelled);
    assert s.conversation[..|s.conversation|] == s.conversation;
  }

  lemma {:induction false} DrainNoArrivals(s: State, size: nat, cancelled: bool)
    requires size > 0 && Valid(s)
    ensures var p := Drain(s, size, [], cancelled); p.state.conversation == s.conversation && p.arrivals == []
    decreases |s.conversation| - s.flushed
  {
    if |s.conversation| - s.flushed >= size && !cancelled {
      var hi := s.flushed + size;
      SendFacts(s, hi, false, size);
      SettleFacts(Send(s, hi, false), [], hi, size);
      DrainNoArrivals(Settle(Send(s, hi, false), [], hi), size, cancelled);
    }
  }

  /******* What a disturbed flush does *******/

  ghost predicate Reported(s: State, i: nat) {
    exists b :: b in s.sent && b.lo <= i < b.hi
  }

  // A flush that is cut off while a full batch is reported leaves that batch to be reported again.
  lemma CutOffBatchIsRepeated(messages: seq<Message>)
    requires messages != []
    ensures var s := Run(EMPTY, |messages|, [Append(messages), Op.Flush(false, [], true), Op.Flush(false, [], false)]);
            && |s.sent| == 2 && s.sent[0].messages == s.sent[1].messages == messages
            && s.sent[0].lo == s.sent[1].lo == 0 && s.flushed == |messages|
  {
    var size := |messages|;
    var ops := [Append(messages), Op.Flush(false, [], true), Op.Flush(false, [], false)];
    assert ops[..2][..1] == ops[..1] && ops[..1][..0] == [];
    var waiting := State(messages, 0, []);
    assert [] + messages == messages && messages[0..size] == messages;
    assert Run(EMPTY, size, ops[..1]) == waiting;
    var once := Send(waiting, size, false);
    assert Next(waiting, size, ops[1]) == once;
    assert Run(EMPTY, size, ops[..2]) == once;
    var twice := Send(once, size, false);
    assert messages + [] == messages;
    assert Drain(once, size, [], false).state == Settle(twice, [], size);
    assert Run(EMPTY, size, ops) == Next(once, size, ops[2]);
  }

  // A message that arrives during the await of a forced batch is marked flushed without being
  // reported ...
  lemma OvertakenMessageIsMarkedFlushed(m: Message, late: Message, size: nat)
    requires size > 1
    ensures var s := Run(EMPTY, size, [Append([m]), Flush(true, [[late]], false)]);
            s.conversation == [m, late] && s.flushed == 2 && !Reported(s, 1)
  {
    var ops := [Append([m]), Flush(true, [[late]], false)];
    assert ops[..1] == [Append([m])] && ops[..1][..0] == [];
    var s1 := State([m], 0, []);
    assert Run(EMPTY, size, ops[..1]) == s1;
    assert Drain(s1, size, [[late]], false) == Progress(s1, [[late]], false);
  }

  // ... and stays unreported whatever happens afterwards.
  lemma {:induction false} UnreportedForever(s: State, size: nat, ops: seq<Op>, i: nat)
    requires size > 0 && Valid(s) && i < s.flushed && !Reported(s, i)
    ensures i < Run(s, size, ops).flushed && !Reported(Run(s, size, ops), i)
  {
    if ops != [] {
      var mid := Run(s, size, ops[..|ops| - 1]);
      UnreportedForever(s, size, ops[..|ops| - 1], i);
      NextKeeps(mid, size, ops[|ops| - 1]);
      var s' := Next(mid, size, ops[|ops| - 1]);
      forall b <- s'.sent ensures !(b.lo <= i < b.hi) {
        var k :| 0 <= k < |s'.sent| && s'.sent[k] == b;
        if k < |mid.sent| { assert b == mid.sent[k]; }
      }
    }
  }

  /******* The same, in place *******/

  class TranscriptWriter {
    var conversation: seq<Message>
    var flushed: nat
    var sent: seq<Batch>
    // Whether the age of unflushed messages is being measured.
    var batchPending: bool
    const size: nat

    constructor (size: nat)
      requires size > 0
      ensures this.size == size && Value() == EMPTY && Timed()
    {
      this.size := size;
      conversation, flushed, sent, batchPending := [], 0, [], false;
    }

    function Value(): State
      reads this
    {
      State(conversation, flushed, sent)
    }

    // The timer runs exactly while something is waiting to be flushed.
    predicate Timed()
      reads this
    {
      batchPending <==> flushed < |conversation|
    }

    method AppendTranscript(messages: seq<Message>, arrivals: seq<seq<Message>>)
      requires size > 0 && Valid(Value())
      modifies this
      ensures messages == [] ==> Value() == old(Value())
      ensures messages != [] ==>
                Value() == Run(old(Value()), size, [Append(messages), Op.Flush(false, arrivals, false)]) && Timed()
    {
      if messages == [] { return; }
      ghost var s := Value();
      conversation := conversation + messages;
      NextKeeps(s, size, Append(messages));
      DrainFacts(Next(s, size, Append(messages)), size, arrivals, false);
      var _ := Flush(false, arrivals, false);
      var ops := [Append(messages), Op.Flush(false, arrivals, false)];
      assert ops[..1] == [Append(messages)] && ops[..1][..0] == [];
      assert Run(s, size, ops[..1]) == Next(Run(s, size, ops[..1][..0]), size, ops[..1][0]);
    }

    method Flush(force: bool, arrivals: seq<seq<Message>>, cancelled: bool) returns (stopped: bool)
      requires size > 0 && Valid(Value())
      modifies this
      ensures Value() == Next(old(Value()), size, Op.Flush(force, arrivals, cancelled))
      ensures stopped == FlushAll(old(Value()), size, Op.Flush(force, arrivals, cancelled)).stopped
      ensures !stopped ==> Timed()
    {
      DrainFacts(Value(), size, arrivals, cancelled);
      var rest;
      stopped, rest := FlushFull(arrivals, cancelled);
      if stopped { return; }
      if force && flushed < |conversation| {
        sent := sent + [Batch(flushed, |conversation|, conversation[flushed..|conversation|], true)];
        if cancelled && rest == [] { return true; }
        conversation := conversation + Arrived(rest);
        flushed := |conversation|;
      }
      batchPending := flushed < |conversation|;
    }

    method FlushFull(arrivals: seq<seq<Message>>, cancelled: bool) returns (stopped: bool, rest: seq<seq<Message>>)
      requires size > 0 && flushed <= |conversation|
      modifies this
      ensures Progress(Value(), rest, stopped) == Drain(old(Value()), size, arrivals, cancelled)
    {
      rest := arrivals;
      ghost var drained := Drain(Value(), size, arrivals, cancelled);
      hide Drain;
      while |conversation| - flushed >= size
        invariant flushed <= |conversation|
        invariant Drain(Value(), size, rest, cancelled) == drained
        decreases |rest|, |conversation| - flushed
      {
        DrainOnce(Value(), size, rest, cancelled);
        var boundary := flushed + size;
        sent := sent + [Batch(flushed, boundary, conversation[flushed..boundary], false)];
        if cancelled && rest == [] { return true, []; }
        conversation := conversation + Arrived(rest);
        rest := Later(rest);
        flushed := boundary;
      }
      DrainDone(Value(), size, rest, cancelled);
      stopped := false;
    }
  }

  lemma DrainOnce(s: State, size: nat, arrivals: seq<seq<Message>>, cancelled: bool)
    requires size > 0 && s.flushed + size <= |s.conversation|
    ensures Drain(s, size, arrivals, cancelled) ==
            var sending := Send(s, s.flushed + size, false);
            if cancelled && arrivals == [] then Progress(sending, [], true)
            else Drain(Settle(sending, Arrived(arrivals), s.flushed + size), size, Later(arrivals), cancelled)
  {
  }

  lemma DrainDone(s: State, size: nat, arrivals: seq<seq<Message>>, cancelled: bool)
    requires size > 0 && s.flushed <= |s.conversation| < s.flushed + size
    ensures Drain(s, size, arrivals, cancelled) == Progress(s, arrivals, false)
  {
  }
}
