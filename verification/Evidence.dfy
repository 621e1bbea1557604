/**
  Trimming an evidence bundle to a byte budget.

  `Trim` and `Shrink` describe the nested loops as chains of single steps, for any measure of size;
  `EvidenceBundle.Fit` performs the loops in place.  `JsonSize` is the length of the compact JSON text,
  and for it the bundles whose trimmed form fits are characterized.
 */
module Evidence {
  import opened Wrappers

  // Parts that are never looked at, as ASCII JSON text: the further entries of an object, each with its
  // key, or the pieces of another value.
  type Json = seq<string>

  const EXCERPT_CHARS := 256
  const EXCERPT_FIELDS: seq<string> := ["stack_excerpt", "message_excerpt", "detail"]

  // The excerpts of a sample by field name.
  type Excerpts = m: map<string, string> | forall f <- m :: f in EXCERPT_FIELDS witness map[]

  datatype Sample =
    | SampleObject(text: Excerpts, stackTruncated: Option<bool>, rest: Json)
    | OtherSample(rest: Json)

  datatype Group =
    | GroupObject(samples: seq<Sample>, rest: Json)
    | OtherGroup(rest: Json)

  datatype Bundle = Bundle(
    truncated: Option<bool>, warnings: Option<seq<string>>, groups: Option<seq<Group>>, omitted: Option<nat>, rest: Json)

  const BUDGET_WARNING := "serialized_budget_exceeded"

  datatype Budget = Budget(size: Bundle -> nat, maxBytes: nat)
  {
    predicate Fits(b: Bundle) {
      size(b) <= maxBytes
    }
  }

  function SampleCount(g: Group): nat {
    if g.GroupObject? then |g.samples| else 0
  }

  /******* Dropping samples and groups *******/

  // The last group that has more than one sample.
  function LastCrowded(groups: seq<Group>): (r: Option<nat>)
    ensures r.Some? ==> r.value < |groups| && SampleCount(groups[r.value]) > 1
    ensures r.Some? ==> forall i | r.value < i < |groups| :: SampleCount(groups[i]) <= 1
    ensures r.None? ==> forall g <- groups :: SampleCount(g) <= 1
  {
    if groups == [] then None
    else if SampleCount(groups[|groups| - 1]) > 1 then Some(|groups| - 1)
    else
      var r := LastCrowded(groups[..|groups| - 1]);
      assert groups == groups[..|groups| - 1] + [groups[|groups| - 1]];
      r
  }

  function DropSample(g: Group): Group
    requires SampleCount(g) > 0
  {
    g.(samples := g.samples[..|g.samples| - 1])
  }

  // One step of trimming: a sample of the last crowded group, or else the last group.
  function TrimStep(groups: seq<Group>): Option<seq<Group>> {
    match LastCrowded(groups)
    case Some(i) => Some(groups[i := DropSample(groups[i])])
    case None => if |groups| > 1 then Some(groups[..|groups| - 1]) else None
  }

  function Weight(groups: seq<Group>): nat {
    if groups == [] then 0 else Weight(groups[..|groups| - 1]) + SampleCount(groups[|groups| - 1]) + 1
  }

  lemma {:induction false} WeightUpdate(groups: seq<Group>, i: nat, g: Group)
    requires i < |groups|
    ensures Weight(groups[i := g]) == Weight(groups) - SampleCount(groups[i]) + SampleCount(g)
  {
    var n := |groups| - 1;
    if i < n {
      WeightUpdate(groups[..n], i, g);
      assert groups[i := g][..n] == groups[..n][i := g];
    } else {
      assert groups[i := g][..n] == groups[..n];
    }
  }

  lemma TrimStepShrinks(groups: seq<Group>)
    requires TrimStep(groups).Some?
    ensures Weight(TrimStep(groups).value) < Weight(groups)
  {
    if LastCrowded(groups).Some? {
      var i := LastCrowded(groups).value;
      WeightUpdate(groups, i, DropSample(groups[i]));
    }
  }

  // Steps until the bundle fits or nothing is left to drop.
  function Trim(budget: Budget, b: Bundle): Bundle
    requires b.groups.Some?
    decreases Weight(b.groups.value)
  {
    if budget.Fits(b) then b
    else
      match TrimStep(b.groups.value)
      case None => b
      case Some(groups) =>
        TrimStepShrinks(b.groups.value);
        Trim(budget, b.(groups := Some(groups)))
  }

  // Group a is what is left of group b: the same group with the first of its samples.
  predicate RestOf(a: Group, b: Group) {
    if b.GroupObject? then
      a.GroupObject? && a.rest == b.rest && a.samples <= b.samples && (b.samples != [] ==> a.samples != [])
    else a == b
  }

  predicate RestsOf(a: seq<Group>, b: seq<Group>) {
    |a| <= |b| && forall i | 0 <= i < |a| :: RestOf(a[i], b[i])
  }

  // Kept groups are a prefix of the groups, kept samples a non-empty prefix of each group's samples,
  // and trimming ends with a bundle that fits or with at most one group of at most one sample.
  lemma {:induction false} TrimKeepsPrefixes(budget: Budget, b: Bundle)
    requires b.groups.Some?
    ensures var t := Trim(budget, b);
            && t == b.(groups := t.groups) && t.groups.Some? && RestsOf(t.groups.value, b.groups.value)
            && (b.groups.value != [] ==> t.groups.value != [])
            && (!budget.Fits(t) ==> |t.groups.value| <= 1 && forall g <- t.groups.value :: SampleCount(g) <= 1)
    decreases Weight(b.groups.value)
  {
    if !budget.Fits(b) && TrimStep(b.groups.value).Some? {
      var b' := b.(groups := TrimStep(b.groups.value));
      TrimStepShrinks(b.groups.value);
      TrimStepKeepsRests(b.groups.value);
      TrimKeepsPrefixes(budget, b');
      hide TrimStep, Weight, RestsOf;
      RestsOfRests(Trim(budget, b').groups.value, b'.groups.value, b.groups.value);
    } else {
      RestsReflexive(b.groups.value);
      assert TrimStep(b.groups.value).None? ==> LastCrowded(b.groups.value).None?;
    }
  }

  lemma RestsReflexive(a: seq<Group>)
    ensures RestsOf(a, a)
  {
  }

  lemma TrimStepKeepsRests(groups: seq<Group>)
    requires TrimStep(groups).Some?
    ensures RestsOf(TrimStep(groups).value, groups) && TrimStep(groups).value != []
  {
  }

  lemma RestsOfRests(a: seq<Group>, b: seq<Group>, c: seq<Group>)
    requires RestsOf(a, b) && RestsOf(b, c)
    ensures RestsOf(a, c)
  {
    forall i | 0 <= i < |a| ensures RestOf(a[i], c[i]) {
      assert RestOf(a[i], b[i]) && RestOf(b[i], c[i]);
    }
  }

  // The bundle after n steps, however large it is.
  function Steps(b: Bundle, n: nat): Bundle
    requires b.groups.Some?
    ensures Steps(b, n).groups.Some?
    decreases n
  {
    if n == 0 then b
    else
      match TrimStep(b.groups.value)
      case None => b
      case Some(groups) => Steps(b.(groups := Some(groups)), n - 1)
  }

  // Samples go from the last group on, and groups only when no group has more than one sample.
  ghost predicate FromTheEnd(t: seq<Group>, b: seq<Group>) {
    && |t| <= |b|
    && (forall i, j | 0 <= i < j < |t| :: SampleCount(t[i]) < SampleCount(b[i]) ==> SampleCount(t[j]) <= 1)
    && (|t| < |b| ==> forall i | 0 <= i < |t| :: SampleCount(t[i]) <= 1)
    && forall i | 0 <= i < |t| :: SampleCount(t[i]) <= SampleCount(b[i])
  }

  lemma TrimStepFromTheEnd(groups: seq<Group>, b: seq<Group>)
    requires FromTheEnd(groups, b) && TrimStep(groups).Some?
    ensures FromTheEnd(TrimStep(groups).value, b)
  {
    var after := TrimStep(groups).value;
    match LastCrowded(groups)
    case Some(k) =>
      assert |groups| == |b|;
      assert forall i | 0 <= i < |after| :: i != k ==> after[i] == groups[i];
    case None =>
      assert forall i | 0 <= i < |groups| :: SampleCount(groups[i]) <= 1 by {
        forall i | 0 <= i < |groups| ensures groups[i] in groups {}
      }
  }

  lemma {:induction false} TrimFromTheEnd(budget: Budget, b: Bundle, original: seq<Group>)
    requires b.groups.Some? && FromTheEnd(b.groups.value, original)
    ensures Trim(budget, b).groups.Some? && FromTheEnd(Trim(budget, b).groups.value, original)
    decreases Weight(b.groups.value)
  {
    if !budget.Fits(b) && TrimStep(b.groups.value).Some? {
      TrimStepShrinks(b.groups.value);
      TrimStepFromTheEnd(b.groups.value, original);
      hide TrimStep, Weight, FromTheEnd;
      TrimFromTheEnd(budget, b.(groups := TrimStep(b.groups.value)), original);
    }
  }

  // Nothing is dropped needlessly: before every step that was taken, the bundle did not fit.
  lemma {:induction false} TrimStopsAtFirstFit(budget: Budget, b: Bundle) returns (n: nat)
    requires b.groups.Some?
    ensures Trim(budget, b) == Steps(b, n)
    ensures forall k: nat | k < n :: !budget.Fits(Steps(b, k))
    decreases Weight(b.groups.value)
  {
    n := 0;
    if !budget.Fits(b) && TrimStep(b.groups.value).Some? {
      var b' := b.(groups := TrimStep(b.groups.value));
      TrimStepShrinks(b.groups.value);
      var m := TrimStopsAtFirstFit(budget, b');
      n := m + 1;
      forall k: nat | k < n ensures !budget.Fits(Steps(b, k)) {
        if k > 0 { assert Steps(b, k) == Steps(b', k - 1); }
      }
    }
  }

  /******* Halving long excerpts *******/

  predicate Long(s: Sample, field: string) {
    s.SampleObject? && field in s.text && |s.text[field]| > EXCERPT_CHARS
  }

  predicate LongSample(s: Sample) {
    exists f <- EXCERPT_FIELDS :: Long(s, f)
  }

  // The first long field, in the order in which fields are visited.
  function FirstLong(s: Sample): (r: Option<string>)
    ensures r.Some? <==> LongSample(s)
    ensures r.Some? ==> r.value in EXCERPT_FIELDS && Long(s, r.value)
  {
    assert EXCERPT_FIELDS[0] in EXCERPT_FIELDS && EXCERPT_FIELDS[1] in EXCERPT_FIELDS && EXCERPT_FIELDS[2] in EXCERPT_FIELDS;
    if Long(s, EXCERPT_FIELDS[0]) then Some(EXCERPT_FIELDS[0])
    else if Long(s, EXCERPT_FIELDS[1]) then Some(EXCERPT_FIELDS[1])
    else if Long(s, EXCERPT_FIELDS[2]) then Some(EXCERPT_FIELDS[2])
    else None
  }

  function Halve(s: Sample, field: string): Sample
    requires Long(s, field)
  {
    s.(text := s.text[field := s.text[field][..|s.text[field]| / 2]], stackTruncated := Some(true))
  }

  // Position of the first sample of a group that has a long field, or the number of samples.
  function FirstLongSample(samples: seq<Sample>): (r: nat)
    ensures r <= |samples|
    ensures r < |samples| ==> LongSample(samples[r])
    ensures forall i | 0 <= i < r :: !LongSample(samples[i])
  {
    if samples == [] || LongSample(samples[0]) then 0 else 1 + FirstLongSample(samples[1..])
  }

  predicate LongGroup(g: Group) {
    g.GroupObject? && FirstLongSample(g.samples) < |g.samples|
  }

  function FirstLongGroup(groups: seq<Group>): (r: nat)
    ensures r <= |groups|
    ensures r < |groups| ==> LongGroup(groups[r])
    ensures forall i | 0 <= i < r :: !LongGroup(groups[i])
  {
    if groups == [] || LongGroup(groups[0]) then 0
    else
      assert forall i | 1 <= i < |groups| :: groups[i] == groups[1..][i - 1];
      1 + FirstLongGroup(groups[1..])
  }

  function HalveAt(groups: seq<Group>, i: nat, j: nat, field: string): seq<Group>
    requires i < |groups| && groups[i].GroupObject? && j < |groups[i].samples| && Long(groups[i].samples[j], field)
  {
    groups[i := groups[i].(samples := groups[i].samples[j := Halve(groups[i].samples[j], field)])]
  }

  // One step of shrinking: the first long field of the bundle is halved.
  function ShrinkStep(groups: seq<Group>): Option<seq<Group>> {
    var i := FirstLongGroup(groups);
    if i == |groups| then None
    else
      var j := FirstLongSample(groups[i].samples);
      Some(HalveAt(groups, i, j, FirstLong(groups[i].samples[j]).value))
  }

  function TextLength(s: Sample, field: string): nat {
    if s.SampleObject? && field in s.text then |s.text[field]| else 0
  }

  function SampleLength(s: Sample): nat {
    TextLength(s, EXCERPT_FIELDS[0]) + TextLength(s, EXCERPT_FIELDS[1]) + TextLength(s, EXCERPT_FIELDS[2])
  }

  function SamplesLength(samples: seq<Sample>): nat {
    if samples == [] then 0 else SampleLength(samples[0]) + SamplesLength(samples[1..])
  }

  function GroupsLength(groups: seq<Group>): nat {
    if groups == [] then 0
    else (if groups[0].GroupObject? then SamplesLength(groups[0].samples) else 0) + GroupsLength(groups[1..])
  }

  lemma HalveShortens(s: Sample, field: string)
    requires Long(s, field) && field in EXCERPT_FIELDS
    ensures SampleLength(Halve(s, field)) < SampleLength(s)
  {
    assert field == EXCERPT_FIELDS[0] || field == EXCERPT_FIELDS[1] || field == EXCERPT_FIELDS[2];
    assert EXCERPT_FIELDS[0][0] != EXCERPT_FIELDS[1][0] && EXCERPT_FIELDS[0][0] != EXCERPT_FIELDS[2][0]
           && EXCERPT_FIELDS[1][0] != EXCERPT_FIELDS[2][0];
  }

  lemma {:induction false} SamplesLengthUpdate(samples: seq<Sample>, j: nat, s: Sample)
    requires j < |samples| && SampleLength(s) < SampleLength(samples[j])
    ensures SamplesLength(samples[j := s]) < SamplesLength(samples)
  {
    hide SampleLength;
    if j > 0 {
      SamplesLengthUpdate(samples[1..], j - 1, s);
      assert samples[j := s][1..] == samples[1..][j - 1 := s];
    } else {
      assert samples[j := s][1..] == samples[1..];
    }
  }

  lemma {:induction false} GroupsLengthUpdate(groups: seq<Group>, i: nat, g: Group)
    requires i < |groups| && groups[i].GroupObject? && g.GroupObject?
    requires SamplesLength(g.samples) < SamplesLength(groups[i].samples)
    ensures GroupsLength(groups[i := g]) < GroupsLength(groups)
  {
    if i > 0 {
      GroupsLengthUpdate(groups[1..], i - 1, g);
      assert groups[i := g][1..] == groups[1..][i - 1 := g];
    } else {
      assert groups[i := g][1..] == groups[1..];
    }
  }

  lemma HalveAtShortens(groups: seq<Group>, i: nat, j: nat, field: string)
    requires i < |groups| && groups[i].GroupObject? && j < |groups[i].samples| && Long(groups[i].samples[j], field)
    requires field in EXCERPT_FIELDS
    ensures GroupsLength(HalveAt(groups, i, j, field)) < GroupsLength(groups)
  {
    HalveShortens(groups[i].samples[j], field);
    SamplesLengthUpdate(groups[i].samples, j, Halve(groups[i].samples[j], field));
    GroupsLengthUpdate(groups, i, groups[i].(samples := groups[i].samples[j := Halve(groups[i].samples[j], field)]));
  }

  lemma ShrinkStepShortens(groups: seq<Group>)
    requires ShrinkStep(groups).Some?
    ensures GroupsLength(ShrinkStep(groups).value) < GroupsLength(groups)
  {
    var i := FirstLongGroup(groups);
    var j := FirstLongSample(groups[i].samples);
    HalveAtShortens(groups, i, j, FirstLong(groups[i].samples[j]).value);
  }

  // Halving until the bundle fits or nothing is long.  The size is only looked at after a step.
  function Shrink(budget: Budget, b: Bundle): Bundle
    requires b.groups.Some?
    decreases GroupsLength(b.groups.value)
  {
    match ShrinkStep(b.groups.value)
    case None => b
    case Some(groups) =>
      ShrinkStepShortens(b.groups.value);
      var b' := b.(groups := Some(groups));
      if budget.Fits(b') then b' else Shrink(budget, b')
  }

  // Sample a is what is left of sample b: excerpts are prefixes, a shortened one keeps at least half the
  // excerpt limit, and the sample is marked exactly if any is shortened.
  predicate Excerpted(a: Sample, b: Sample) {
    if b.SampleObject? then
      && a.SampleObject? && a.rest == b.rest && a.text.Keys == b.text.Keys
      && a.stackTruncated == (if a.text == b.text then b.stackTruncated else Some(true))
      && forall f <- b.text :: a.text[f] <= b.text[f] && (a.text[f] != b.text[f] ==> |a.text[f]| >= EXCERPT_CHARS / 2)
    else a == b
  }

  predicate ExcerptedGroup(a: Group, b: Group) {
    if b.GroupObject? then
      && a.GroupObject? && a.rest == b.rest && |a.samples| == |b.samples|
      && forall i | 0 <= i < |a.samples| :: Excerpted(a.samples[i], b.samples[i])
    else a == b
  }

  predicate ExcerptedGroups(a: seq<Group>, b: seq<Group>) {
    |a| == |b| && forall i | 0 <= i < |a| :: ExcerptedGroup(a[i], b[i])
  }

  predicate NothingLong(groups: seq<Group>) {
    forall g <- groups :: g.GroupObject? ==> forall s <- g.samples :: !LongSample(s)
  }

  lemma NoStepMeansNothingLong(groups: seq<Group>)
    ensures ShrinkStep(groups).None? <==> NothingLong(groups)
  {
    var i := FirstLongGroup(groups);
    if i < |groups| {
      var j := FirstLongSample(groups[i].samples);
      assert groups[i] in groups && groups[i].samples[j] in groups[i].samples;
    } else {
      forall g <- groups | g.GroupObject?
        ensures forall s <- g.samples :: !LongSample(s)
      {
        assert !LongGroup(g);
      }
    }
  }

  lemma HalveExcerpts(groups: seq<Group>, b: seq<Group>)
    requires ExcerptedGroups(groups, b) && ShrinkStep(groups).Some?
    ensures ExcerptedGroups(ShrinkStep(groups).value, b)
  {
    var i := FirstLongGroup(groups);
    var j := FirstLongSample(groups[i].samples);
    var s := groups[i].samples[j];
    var f := FirstLong(s).value;
    assert ExcerptedGroup(groups[i], b[i]) && Excerpted(s, b[i].samples[j]);
    HalveExcerpt(s, f, b[i].samples[j]);
    ExcerptedAfter(groups, b, i, j, Halve(s, f));
    hide Excerpted, Halve, LongGroup, LongSample, Long, ExcerptedGroups;
  }

  lemma ExcerptedAfter(groups: seq<Group>, b: seq<Group>, i: nat, j: nat, s: Sample)
    requires ExcerptedGroups(groups, b) && i < |groups| && groups[i].GroupObject? && j < |groups[i].samples|
    requires ExcerptedGroup(groups[i], b[i]) && b[i].GroupObject? && j < |b[i].samples| && Excerpted(s, b[i].samples[j])
    ensures ExcerptedGroups(groups[i := groups[i].(samples := groups[i].samples[j := s])], b)
  {
    hide Excerpted;
  }

  lemma HalveExcerpt(s: Sample, f: string, original: Sample)
    requires Long(s, f) && f in EXCERPT_FIELDS && Excerpted(s, original)
    ensures Excerpted(Halve(s, f), original)
  {
  }

  // Shrinking only shortens excerpts, and it ends with a bundle that fits or without long excerpts.
  lemma {:induction false} ShrinkKeepsExcerpts(budget: Budget, b: Bundle, original: seq<Group>)
    requires b.groups.Some? && ExcerptedGroups(b.groups.value, original)
    ensures var s := Shrink(budget, b);
            && s == b.(groups := s.groups) && s.groups.Some? && ExcerptedGroups(s.groups.value, original)
            && (budget.Fits(s) || NothingLong(s.groups.value))
    decreases GroupsLength(b.groups.value)
  {
    NoStepMeansNothingLong(b.groups.value);
    if ShrinkStep(b.groups.value).Some? {
      ShrinkStepShortens(b.groups.value);
      HalveExcerpts(b.groups.value, original);
      var b' := b.(groups := ShrinkStep(b.groups.value));
      if !budget.Fits(b') { ShrinkKeepsExcerpts(budget, b', original); }
    }
  }

  /******* The order in which excerpts are halved *******/

  // Field f of sample j of group i.
  datatype Place = Place(i: nat, j: nat, f: nat)

  predicate Earlier(p: Place, q: Place) {
    p.i < q.i || (p.i == q.i && (p.j < q.j || (p.j == q.j && p.f < q.f)))
  }

  // The text at a place, if there is one.
  function TextAt(groups: seq<Group>, p: Place): Option<string> {
    if p.i < |groups| && groups[p.i].GroupObject? && p.j < |groups[p.i].samples| && groups[p.i].samples[p.j].SampleObject?
       && p.f < |EXCERPT_FIELDS| && EXCERPT_FIELDS[p.f] in groups[p.i].samples[p.j].text
    then Some(groups[p.i].samples[p.j].text[EXCERPT_FIELDS[p.f]]) else None
  }

  predicate LongAt(groups: seq<Group>, p: Place) {
    TextAt(groups, p).Some? && |TextAt(groups, p).value| > EXCERPT_CHARS
  }

  // The next text to be halved, and what becomes of it; no earlier one is long.
  lemma ShrinkStepPlace(groups: seq<Group>) returns (p: Place)
    requires ShrinkStep(groups).Some?
    ensures LongAt(groups, p) && forall q | Earlier(q, p) :: !LongAt(groups, q)
    ensures var t := TextAt(groups, p).value; TextAt(ShrinkStep(groups).value, p) == Some(t[..|t| / 2])
    ensures forall q | q != p :: TextAt(ShrinkStep(groups).value, q) == TextAt(groups, q)
  {
    var i := FirstLongGroup(groups);
    var j := FirstLongSample(groups[i].samples);
    var s := groups[i].samples[j];
    var field := FirstLong(s).value;
    var f: nat :| f < |EXCERPT_FIELDS| && EXCERPT_FIELDS[f] == field;
    p := Place(i, j, f);
    FirstFieldIsFirst(s, f);
    HalvedAt(groups, p);
    hide FirstLong, Halve;
    forall q | Earlier(q, p) ensures !LongAt(groups, q) {
      if q.i < i {
        assert !LongGroup(groups[q.i]);
        NotLongWithin(groups, q);
      } else if q.j < j {
        assert !LongSample(groups[i].samples[q.j]);
        if q.f < |EXCERPT_FIELDS| { NotLongField(groups[i].samples[q.j], q.f); }
      } else {
        assert !Long(s, EXCERPT_FIELDS[q.f]);
      }
    }
  }

  lemma FirstFieldIsFirst(s: Sample, f: nat)
    requires LongSample(s) && f < |EXCERPT_FIELDS| && EXCERPT_FIELDS[f] == FirstLong(s).value
    ensures Long(s, EXCERPT_FIELDS[f]) && forall g | 0 <= g < f :: !Long(s, EXCERPT_FIELDS[g])
  {
  }

  lemma NotLongField(s: Sample, f: nat)
    requires !LongSample(s) && f < |EXCERPT_FIELDS|
    ensures !Long(s, EXCERPT_FIELDS[f])
  {
    assert EXCERPT_FIELDS[f] in EXCERPT_FIELDS;
  }

  lemma NotLongWithin(groups: seq<Group>, q: Place)
    requires q.i < |groups| && !LongGroup(groups[q.i])
    ensures !LongAt(groups, q)
  {
    if TextAt(groups, q).Some? { NotLongField(groups[q.i].samples[q.j], q.f); }
  }

  lemma HalvedAt(groups: seq<Group>, p: Place)
    requires LongAt(groups, p) && Long(groups[p.i].samples[p.j], EXCERPT_FIELDS[p.f])
    ensures var after, t := HalveAt(groups, p.i, p.j, EXCERPT_FIELDS[p.f]), TextAt(groups, p).value;
            TextAt(after, p) == Some(t[..|t| / 2]) && forall q | q != p :: TextAt(after, q) == TextAt(groups, q)
  {
    var after := HalveAt(groups, p.i, p.j, EXCERPT_FIELDS[p.f]);
    forall q | q != p ensures TextAt(after, q) == TextAt(groups, q) {
      if q.i == p.i && q.j == p.j && q.f < |EXCERPT_FIELDS| { assert EXCERPT_FIELDS[q.f] != EXCERPT_FIELDS[p.f]; }
    }
  }

  // Wherever a text was shortened, no earlier one is long any more.
  ghost predicate FromTheFront(groups: seq<Group>, original: seq<Group>) {
    forall p, q | Earlier(p, q) && TextAt(groups, q) != TextAt(original, q) :: !LongAt(groups, p)
  }

  lemma ShrinkStepFromTheFront(groups: seq<Group>, original: seq<Group>)
    requires FromTheFront(groups, original) && ShrinkStep(groups).Some?
    ensures FromTheFront(ShrinkStep(groups).value, original)
  {
    var p := ShrinkStepPlace(groups);
    var after := ShrinkStep(groups).value;
    hide ShrinkStep, TextAt;
    forall x, y | Earlier(x, y) && TextAt(after, y) != TextAt(original, y) ensures !LongAt(after, x) {
      if y != p { assert !LongAt(groups, x); }
    }
  }

  // Excerpts are halved in the order of groups, samples and fields.
  lemma {:induction false} ShrinkFromTheFront(budget: Budget, b: Bundle, original: seq<Group>)
    requires b.groups.Some? && FromTheFront(b.groups.value, original)
    ensures Shrink(budget, b).groups.Some? && FromTheFront(Shrink(budget, b).groups.value, original)
    decreases GroupsLength(b.groups.value)
  {
    if ShrinkStep(b.groups.value).Some? {
      ShrinkStepShortens(b.groups.value);
      ShrinkStepFromTheFront(b.groups.value, original);
      hide ShrinkStep, FromTheFront;
      var b' := b.(groups := ShrinkStep(b.groups.value));
      if !budget.Fits(b') { ShrinkFromTheFront(budget, b', original); }
    }
  }

  /******* The whole operation *******/

  function Marked(b: Bundle): Bundle {
    var warnings := if b.warnings.Some? then b.warnings.value else [];
    b.(truncated := Some(true),
       warnings := Some(if BUDGET_WARNING in warnings then warnings else warnings + [BUDGET_WARNING]))
  }

  // After trimming, the number of dropped groups is recorded.
  function Counted(t: Bundle, before: nat): Bundle
    requires t.groups.Some? && |t.groups.value| <= before
  {
    if |t.groups.value| < before then t.(omitted := Some(before - |t.groups.value|)) else t
  }

  function Trimmed(budget: Budget, b: Bundle): (t: Bundle)
    requires b.groups.Some?
    ensures t.groups.Some?
  {
    TrimKeepsPrefixes(budget, Marked(b));
    Counted(Trim(budget, Marked(b)), |b.groups.value|)
  }

  function Fitted(budget: Budget, b: Bundle): Bundle {
    if budget.Fits(b) then b
    else if b.groups.None? then Marked(b)
    else
      TrimKeepsPrefixes(budget, Marked(b));
      Shrink(budget, Trimmed(budget, b))
  }

  // What a caller can rely on.
  lemma FittedBundle(budget: Budget, b: Bundle)
    requires b.groups.Some? && !budget.Fits(b)
    ensures var r := Fitted(budget, b);
            var t := Trim(budget, Marked(b));
            && r.truncated == Some(true) && r.rest == b.rest
            && (var warnings := if b.warnings.Some? then b.warnings.value else [];
                r.warnings == Some(if "serialized_budget_exceeded" in warnings then warnings else warnings + ["serialized_budget_exceeded"]))
            && t.groups.Some? && RestsOf(t.groups.value, b.groups.value)
            && r.groups.Some? && ExcerptedGroups(r.groups.value, t.groups.value)
            && (var dropped := |b.groups.value| - |r.groups.value|;
                r.omitted == if dropped > 0 then Some(dropped) else b.omitted)
            && (budget.Fits(r) || NothingLong(r.groups.value))
  {
    TrimKeepsPrefixes(budget, Marked(b));
    var t := Trim(budget, Marked(b));
    Unexcerpted(t.groups.value);
    ShrinkKeepsExcerpts(budget, Trimmed(budget, b), t.groups.value);
  }

  lemma Unexcerpted(groups: seq<Group>)
    ensures ExcerptedGroups(groups, groups)
  {
    forall g <- groups ensures ExcerptedGroup(g, g) {
      if g.GroupObject? {
        forall s <- g.samples ensures Excerpted(s, s) {}
      }
    }
  }

  // Excerpts are left alone exactly if none of them is long: the halving loop does not look at the size
  // before its first step, so it also shortens bundles that already fit.
  lemma ShrinksIffLong(budget: Budget, b: Bundle)
    requires b.groups.Some? && !budget.Fits(b)
    ensures Fitted(budget, b) == Trimmed(budget, b) <==> NothingLong(Trimmed(budget, b).groups.value)
  {
    TrimKeepsPrefixes(budget, Marked(b));
    var t := Trimmed(budget, b);
    NoStepMeansNothingLong(t.groups.value);
    if ShrinkStep(t.groups.value).Some? {
      ShrinkReducesLength(budget, t);
    }
  }

  lemma {:induction false} ShrinkReducesLength(budget: Budget, b: Bundle)
    requires b.groups.Some? && ShrinkStep(b.groups.value).Some?
    ensures Shrink(budget, b).groups.Some?
    ensures GroupsLength(Shrink(budget, b).groups.value) < GroupsLength(b.groups.value)
    decreases GroupsLength(b.groups.value)
  {
    ShrinkStepShortens(b.groups.value);
    var b' := b.(groups := ShrinkStep(b.groups.value));
    if !budget.Fits(b') && ShrinkStep(b'.groups.value).Some? { ShrinkReducesLength(budget, b'); }
  }

  /******* The length of the JSON text *******/

  // Characters of a JSON string for one character of text, with everything outside ASCII escaped.
  function CharSize(c: char): nat {
    if c in {'"', '\\', '\n', '\r', '\t'} || c as int in {8, 12} then 2
    else if ' ' <= c <= '~' then 1
    else if c as int < 0x10000 then 6
    else 12
  }

  function CharsSize(s: string): nat {
    if s == "" then 0 else CharsSize(s[..|s| - 1]) + CharSize(s[|s| - 1])
  }

  function TextSize(s: string): nat {
    2 + CharsSize(s)
  }

  // An entry of an object with the comma behind it; names are plain.
  function EntrySize(name: string, value: nat): nat {
    |name| + 4 + value
  }

  // Brackets around entries or elements, each with its comma; the last comma is not there.
  function Enclosed(parts: nat): nat {
    if parts == 0 then 2 else parts + 1
  }

  function RestSize(rest: Json): nat {
    if rest == [] then 0 else RestSize(rest[..|rest| - 1]) + |rest[|rest| - 1]| + 1
  }

  function PiecesSize(pieces: Json): nat {
    if pieces == [] then 0 else PiecesSize(pieces[..|pieces| - 1]) + |pieces[|pieces| - 1]|
  }

  function FlagSize(name: string, flag: Option<bool>): nat {
    match flag
    case Some(b) => EntrySize(name, if b then 4 else 5)
    case None => 0
  }

  function ExcerptSize(s: Sample, field: string): nat {
    if s.SampleObject? && field in s.text then EntrySize(field, TextSize(s.text[field])) else 0
  }

  function SampleSize(s: Sample): nat {
    match s
    case SampleObject(_, flag, rest) =>
      Enclosed(ExcerptSize(s, EXCERPT_FIELDS[0]) + ExcerptSize(s, EXCERPT_FIELDS[1]) + ExcerptSize(s, EXCERPT_FIELDS[2])
               + FlagSize("stack_truncated", flag) + RestSize(rest))
    case OtherSample(pieces) => PiecesSize(pieces)
  }

  function SamplesSize(samples: seq<Sample>): nat {
    if samples == [] then 0 else SamplesSize(samples[..|samples| - 1]) + SampleSize(samples[|samples| - 1]) + 1
  }

  function GroupSize(g: Group): nat {
    match g
    case GroupObject(samples, rest) => Enclosed(EntrySize("samples", Enclosed(SamplesSize(samples))) + RestSize(rest))
    case OtherGroup(pieces) => PiecesSize(pieces)
  }

  function GroupsSize(groups: seq<Group>): nat {
    if groups == [] then 0 else GroupsSize(groups[..|groups| - 1]) + GroupSize(groups[|groups| - 1]) + 1
  }

  function TextsSize(texts: seq<string>): nat {
    if texts == [] then 0 else TextsSize(texts[..|texts| - 1]) + TextSize(texts[|texts| - 1]) + 1
  }

  function Digits(n: nat): nat {
    if n < 10 then 1 else Digits(n / 10) + 1
  }

  function GroupsEntry(groups: Option<seq<Group>>): nat {
    match groups
    case Some(gs) => EntrySize("groups", Enclosed(GroupsSize(gs)))
    case None => 0
  }

  function CountEntry(omitted: Option<nat>): nat {
    match omitted
    case Some(n) => EntrySize("omitted_groups", Digits(n))
    case None => 0
  }

  function JsonSize(b: Bundle): nat {
    Enclosed(FlagSize("truncated", b.truncated)
             + (match b.warnings case Some(ws) => EntrySize("warnings", Enclosed(TextsSize(ws))) case None => 0)
             + GroupsEntry(b.groups) + CountEntry(b.omitted) + RestSize(b.rest))
  }

  function ByteBudget(maxBytes: nat): Budget {
    Budget(b => JsonSize(b), maxBytes)
  }

  // What a new count adds to a bundle: its entry, or the difference to the count that it replaces.
  function CountGrowth(before: Option<nat>, n: nat): int {
    match before
    case None => 18 + Digits(n)
    case Some(m) => Digits(n) - Digits(m)
  }

  lemma CountAdds(b: Bundle, n: nat)
    requires b.truncated.Some?
    ensures JsonSize(b.(omitted := Some(n))) == JsonSize(b) + CountGrowth(b.omitted, n)
  {
  }

  /******* Trimming in terms of the input *******/

  // A group with no more than its first sample.
  function Least(g: Group): Group {
    if SampleCount(g) > 1 then g.(samples := g.samples[..1]) else g
  }

  // The bundle with the first k groups, each with no more than its first sample.
  function Base(b: Bundle, k: nat): Bundle
    requires b.groups.Some? && k <= |b.groups.value|
  {
    b.(groups := Some(seq(k, i requires 0 <= i < k => Least(b.groups.value[i]))))
  }

  // The largest number up to k of groups that fit with no more than their first samples, but not less
  // than one.
  function Kept(budget: Budget, b: Bundle, k: nat): (r: nat)
    requires b.groups.Some? && k <= |b.groups.value|
    ensures r <= k && (k <= 1 ==> r == k) && (r < k ==> !budget.Fits(Base(b, k)))
  {
    if k <= 1 || budget.Fits(Base(b, k)) then k else Kept(budget, b, k - 1)
  }

  lemma {:induction false} SamplesPrefix(samples: seq<Sample>, k: nat)
    requires k <= |samples|
    ensures SamplesSize(samples[..k]) <= SamplesSize(samples)
  {
    if k == |samples| {
      assert samples[..k] == samples;
    } else {
      assert samples[..|samples| - 1][..k] == samples[..k];
      SamplesPrefix(samples[..|samples| - 1], k);
    }
  }

  lemma LeastIsSmaller(g: Group)
    ensures GroupSize(Least(g)) <= GroupSize(g)
  {
    if SampleCount(g) > 1 { SamplesPrefix(g.samples, 1); }
  }

  lemma {:induction false} LeastsAreSmaller(groups: seq<Group>, least: seq<Group>)
    requires |least| == |groups| && forall i | 0 <= i < |groups| :: least[i] == Least(groups[i])
    ensures GroupsSize(least) <= GroupsSize(groups)
  {
    if groups != [] {
      hide Least, GroupSize;
      LeastsAreSmaller(groups[..|groups| - 1], least[..|least| - 1]);
      LeastIsSmaller(groups[|groups| - 1]);
    }
  }

  lemma SmallerGroups(b: Bundle, groups: seq<Group>)
    requires b.groups.Some? && GroupsSize(groups) <= GroupsSize(b.groups.value)
    ensures JsonSize(b.(groups := Some(groups))) <= JsonSize(b)
  {
    hide GroupsSize, RestSize, FlagSize, TextsSize, CountEntry;
  }

  lemma BaseIsSmaller(b: Bundle)
    requires b.groups.Some?
    ensures JsonSize(Base(b, |b.groups.value|)) <= JsonSize(b)
  {
    var least := Base(b, |b.groups.value|).groups.value;
    LeastsAreSmaller(b.groups.value, least);
    hide JsonSize, Least;
    SmallerGroups(b, least);
  }

  // A trimming step changes what the groups amount to at least only by the group that it drops.
  lemma StepKeepsBase(b: Bundle, groups: seq<Group>, k: nat)
    requires b.groups.Some? && TrimStep(b.groups.value) == Some(groups) && k <= |groups|
    ensures |groups| <= |b.groups.value| && Base(b.(groups := Some(groups)), k) == Base(b, k)
  {
    forall i | 0 <= i < |groups| ensures Least(groups[i]) == Least(b.groups.value[i]) {
      if LastCrowded(b.groups.value) == Some(i) {
        var samples := b.groups.value[i].samples;
        assert samples[..|samples| - 1][..1] == samples[..1];
        if |samples| == 2 { assert samples[..|samples| - 1] == samples[..1]; }
      }
    }
    assert Base(b.(groups := Some(groups)), k).groups.value == Base(b, k).groups.value;
  }

  lemma {:induction false} SameBaseSameKept(budget: Budget, b: Bundle, c: Bundle, k: nat)
    requires b.groups.Some? && c.groups.Some? && k <= |b.groups.value| && k <= |c.groups.value|
    requires forall j | 0 <= j <= k :: Base(b, j) == Base(c, j)
    ensures Kept(budget, b, k) == Kept(budget, c, k)
  {
    hide Base, Budget.Fits;
    if k > 1 { SameBaseSameKept(budget, b, c, k - 1); }
  }

  lemma UncrowdedIsBase(b: Bundle)
    requires b.groups.Some? && LastCrowded(b.groups.value).None?
    ensures Base(b, |b.groups.value|) == b
  {
    forall i | 0 <= i < |b.groups.value| ensures Least(b.groups.value[i]) == b.groups.value[i] {
      assert b.groups.value[i] in b.groups.value;
    }
    assert Base(b, |b.groups.value|).groups.value == b.groups.value;
  }

  // The trimmed bundle t of b: how many groups it has, and what they are when that was a tight fit.
  ghost predicate TrimsTo(maxBytes: nat, b: Bundle, t: Bundle)
    requires b.groups.Some?
  {
    var budget, n := ByteBudget(maxBytes), |b.groups.value|;
    var k := Kept(budget, b, n);
    && t.groups.Some? && |t.groups.value| == k
    && (k < n || !budget.Fits(Base(b, n)) ==> t == Base(b, k))
    && (k == n && budget.Fits(Base(b, n)) ==> budget.Fits(t))
  }

  lemma SampleStepTrims(maxBytes: nat, b: Bundle, b': Bundle, t: Bundle)
    requires b.groups.Some? && b'.groups.Some? && |b'.groups.value| == |b.groups.value|
    requires forall k: nat | k <= |b.groups.value| :: Base(b', k) == Base(b, k)
    requires TrimsTo(maxBytes, b', t)
    ensures TrimsTo(maxBytes, b, t)
  {
    SameBaseSameKept(ByteBudget(maxBytes), b, b', |b.groups.value|);
    hide Base, Kept, Budget.Fits;
  }

  lemma GroupStepTrims(maxBytes: nat, b: Bundle, b': Bundle, t: Bundle)
    requires b.groups.Some? && b'.groups.Some? && |b'.groups.value| == |b.groups.value| - 1 > 0
    requires forall k: nat | k <= |b'.groups.value| :: Base(b', k) == Base(b, k)
    requires Base(b', |b'.groups.value|) == b' && !ByteBudget(maxBytes).Fits(Base(b, |b.groups.value|))
    requires TrimsTo(maxBytes, b', t) && (ByteBudget(maxBytes).Fits(b') ==> t == b')
    ensures TrimsTo(maxBytes, b, t)
  {
    var budget, n := ByteBudget(maxBytes), |b.groups.value|;
    SameBaseSameKept(budget, b, b', n - 1);
    KeptBelow(budget, b);
    hide Base, Kept, JsonSize, Budget.Fits;
    assert Base(b', n - 1) == Base(b, n - 1);
  }

  lemma KeptBelow(budget: Budget, b: Bundle)
    requires b.groups.Some? && |b.groups.value| > 1 && !budget.Fits(Base(b, |b.groups.value|))
    ensures Kept(budget, b, |b.groups.value|) == Kept(budget, b, |b.groups.value| - 1) < |b.groups.value|
  {
    hide Base, Budget.Fits;
  }

  // How many groups trimming keeps, in terms of the bundle before it: all of them if their first samples
  // fit, and otherwise the most whose first samples fit, but at least one.  Groups are only dropped down
  // to their first samples.
  lemma {:induction false} TrimmedGroups(maxBytes: nat, b: Bundle)
    requires b.groups.Some?
    ensures TrimsTo(maxBytes, b, Trim(ByteBudget(maxBytes), b))
    decreases Weight(b.groups.value)
  {
    var budget := ByteBudget(maxBytes);
    if budget.Fits(b) {
      BaseIsSmaller(b);
    } else if TrimStep(b.groups.value).None? {
      UncrowdedIsBase(b);
    } else {
      var groups := TrimStep(b.groups.value).value;
      var b' := b.(groups := Some(groups));
      TrimStepShrinks(b.groups.value);
      TrimmedGroups(maxBytes, b');
      forall k: nat | k <= |groups| ensures Base(b', k) == Base(b, k) { StepKeepsBase(b, groups, k); }
      hide Base, JsonSize, TrimsTo, Weight;
      if LastCrowded(b.groups.value).None? {
        UncrowdedIsBase(b);
        assert forall g <- groups :: g in b.groups.value;
        UncrowdedIsBase(b');
        GroupStepTrims(maxBytes, b, b', Trim(budget, b'));
      } else {
        SampleStepTrims(maxBytes, b, b', Trim(budget, b'));
      }
    }
  }

  // A group is dropped exactly if there are several and their first samples alone do not fit.
  lemma GroupDroppedIff(maxBytes: nat, b: Bundle)
    requires b.groups.Some?
    ensures var budget, n := ByteBudget(maxBytes), |b.groups.value|;
            var t := Trim(budget, b);
            t.groups.Some? && (|t.groups.value| < n <==> n > 1 && !budget.Fits(Base(b, n)))
  {
    TrimmedGroups(maxBytes, b);
    hide Trim, Base, Budget.Fits;
  }

  /******* Shrinking in terms of the input *******/

  // Every long excerpt halved as often as it takes.
  function HalvedOut(groups: seq<Group>): seq<Group>
    decreases GroupsLength(groups)
  {
    match ShrinkStep(groups)
    case None => groups
    case Some(next) =>
      ShrinkStepShortens(groups);
      HalvedOut(next)
  }

  // What becomes of a text: the longest of its halves, quarters and so on within the excerpt limit.
  function HalvedText(t: string): string {
    if |t| <= EXCERPT_CHARS then t else HalvedText(t[..|t| / 2])
  }

  function Power(k: nat): nat {
    if k == 0 then 1 else 2 * Power(k - 1)
  }

  // A text within the limit stays; a longer one is cut to the first of its halves, quarters and so on
  // that is within the limit: half of the last such part, m characters long, that is not.
  lemma {:induction false} HalvedTextIs(t: string) returns (m: nat, k: nat)
    ensures |t| <= 256 ==> HalvedText(t) == t
    ensures |t| > 256 ==> 256 < m && m / 2 <= 256 && m <= |t| && HalvedText(t) == t[..m / 2]
    ensures |t| > 256 ==> m * Power(k) <= |t| < (m + 1) * Power(k)
    decreases |t|
  {
    m, k := |t|, 0;
    if |t| / 2 > 256 {
      var half := t[..|t| / 2];
      m, k := HalvedTextIs(half);
      assert half[..m / 2] == t[..m / 2];
      assert HalvedText(t) == HalvedText(half);
      hide HalvedText;
      TwiceAsLong(m, Power(k), |t|);
      k := k + 1;
    } else if |t| > 256 {
      assert HalvedText(t[..|t| / 2]) == t[..|t| / 2];
    }
  }

  lemma TwiceAsLong(m: nat, power: nat, n: nat)
    requires m * power <= n / 2 < (m + 1) * power
    ensures m * (2 * power) <= n < (m + 1) * (2 * power)
  {
    assert m * (2 * power) == 2 * (m * power) && (m + 1) * (2 * power) == 2 * ((m + 1) * power);
  }

  function ShortSample(s: Sample): Sample {
    match s
    case SampleObject(text, flag, rest) =>
      var short: Excerpts := map f | f in text :: HalvedText(text[f]);
      SampleObject(short, if LongSample(s) then Some(true) else flag, rest)
    case OtherSample(_) => s
  }

  function ShortSamples(samples: seq<Sample>): seq<Sample> {
    seq(|samples|, i requires 0 <= i < |samples| => ShortSample(samples[i]))
  }

  function ShortGroup(g: Group): Group {
    match g
    case GroupObject(samples, rest) => GroupObject(ShortSamples(samples), rest)
    case OtherGroup(_) => g
  }

  // Every excerpt shortened, and every sample with a long one marked.
  function ShortGroups(groups: seq<Group>): seq<Group> {
    seq(|groups|, i requires 0 <= i < |groups| => ShortGroup(groups[i]))
  }

  lemma ShortStays(s: Sample)
    requires !LongSample(s)
    ensures ShortSample(s) == s
  {
    if s.SampleObject? {
      forall f <- s.text ensures HalvedText(s.text[f]) == s.text[f] {
        assert f in EXCERPT_FIELDS && !Long(s, f);
      }
    }
  }

  lemma HalvedIsShort(s: Sample, field: string)
    requires Long(s, field) && field in EXCERPT_FIELDS
    ensures ShortSample(Halve(s, field)) == ShortSample(s)
  {
    assert LongSample(s);
    var h := Halve(s, field);
    assert h.text.Keys == s.text.Keys;
    forall f <- s.text ensures HalvedText(h.text[f]) == HalvedText(s.text[f]) {}
    assert ShortSample(h).text == ShortSample(s).text;
  }

  lemma NothingLongStays(groups: seq<Group>)
    requires NothingLong(groups)
    ensures ShortGroups(groups) == groups
  {
    hide LongSample;
    forall i | 0 <= i < |groups| ensures ShortGroup(groups[i]) == groups[i] {
      var g := groups[i];
      assert g in groups;
      if g.GroupObject? {
        forall j | 0 <= j < |g.samples| ensures ShortSample(g.samples[j]) == g.samples[j] { ShortStays(g.samples[j]); }
        assert ShortSamples(g.samples) == g.samples;
      }
    }
  }

  lemma StepStaysShort(groups: seq<Group>)
    requires ShrinkStep(groups).Some?
    ensures ShortGroups(ShrinkStep(groups).value) == ShortGroups(groups)
  {
    var i := FirstLongGroup(groups);
    var g := groups[i];
    var j := FirstLongSample(g.samples);
    var field := FirstLong(g.samples[j]).value;
    var s := Halve(g.samples[j], field);
    HalvedIsShort(g.samples[j], field);
    SamplesStayShort(g.samples, j, s);
    GroupsStayShort(groups, i, g.(samples := g.samples[j := s]));
    assert ShrinkStep(groups).value == groups[i := g.(samples := g.samples[j := s])] by { hide Halve, LongSample, Long; }
    hide ShortGroups, ShrinkStep;
  }

  lemma SamplesStayShort(samples: seq<Sample>, j: nat, s: Sample)
    requires j < |samples| && ShortSample(s) == ShortSample(samples[j])
    ensures ShortSamples(samples[j := s]) == ShortSamples(samples)
  {
    hide ShortSample;
  }

  lemma GroupsStayShort(groups: seq<Group>, i: nat, g: Group)
    requires i < |groups| && ShortGroup(g) == ShortGroup(groups[i])
    ensures ShortGroups(groups[i := g]) == ShortGroups(groups)
  {
    hide ShortGroup;
  }

  // Halving as long as anything is long shortens every excerpt by itself.
  lemma {:induction false} HalvedOutIsShort(groups: seq<Group>)
    ensures HalvedOut(groups) == ShortGroups(groups)
    decreases GroupsLength(groups)
  {
    NoStepMeansNothingLong(groups);
    hide ShortGroups, NothingLong, ShrinkStep;
    if ShrinkStep(groups).None? {
      NothingLongStays(groups);
    } else {
      ShrinkStepShortens(groups);
      StepStaysShort(groups);
      HalvedOutIsShort(ShrinkStep(groups).value);
    }
  }

  function AllHalved(b: Bundle): Bundle
    requires b.groups.Some?
  {
    b.(groups := Some(ShortGroups(b.groups.value)))
  }

  lemma {:induction false} CharsPrefix(s: string, k: nat)
    requires k <= |s|
    ensures CharsSize(s[..k]) + |s| - k <= CharsSize(s)
  {
    if k == |s| {
      assert s[..k] == s;
    } else {
      assert s[..|s| - 1][..k] == s[..k];
      CharsPrefix(s[..|s| - 1], k);
    }
  }

  lemma HalvedExcerptSize(s: Sample, field: string, f: string)
    requires Long(s, field) && field in EXCERPT_FIELDS
    ensures ExcerptSize(Halve(s, field), f) <= ExcerptSize(s, f) - if f == field then 128 else 0
  {
    if f == field { CharsPrefix(s.text[field], |s.text[field]| / 2); }
    hide CharsSize;
  }

  // Half of a long excerpt goes, which outweighs the mark that is added.
  lemma HalveIsSmaller(s: Sample, field: string)
    requires Long(s, field) && field in EXCERPT_FIELDS
    ensures SampleSize(Halve(s, field)) <= SampleSize(s)
  {
    assert field == EXCERPT_FIELDS[0] || field == EXCERPT_FIELDS[1] || field == EXCERPT_FIELDS[2];
    HalvedExcerptSize(s, field, EXCERPT_FIELDS[0]);
    HalvedExcerptSize(s, field, EXCERPT_FIELDS[1]);
    HalvedExcerptSize(s, field, EXCERPT_FIELDS[2]);
    hide ExcerptSize, RestSize, LongSample;
  }

  lemma {:induction false} SamplesSizeUpdate(samples: seq<Sample>, j: nat, s: Sample)
    requires j < |samples| && SampleSize(s) <= SampleSize(samples[j])
    ensures SamplesSize(samples[j := s]) <= SamplesSize(samples)
  {
    var n := |samples| - 1;
    hide SampleSize;
    if j < n {
      SamplesSizeUpdate(samples[..n], j, s);
      assert samples[j := s][..n] == samples[..n][j := s];
    } else {
      assert samples[j := s][..n] == samples[..n];
    }
  }

  lemma {:induction false} GroupsSizeUpdate(groups: seq<Group>, i: nat, g: Group)
    requires i < |groups| && GroupSize(g) <= GroupSize(groups[i])
    ensures GroupsSize(groups[i := g]) <= GroupsSize(groups)
  {
    var n := |groups| - 1;
    hide GroupSize;
    if i < n {
      GroupsSizeUpdate(groups[..n], i, g);
      assert groups[i := g][..n] == groups[..n][i := g];
    } else {
      assert groups[i := g][..n] == groups[..n];
    }
  }

  lemma ShrinkStepIsSmaller(groups: seq<Group>)
    requires ShrinkStep(groups).Some?
    ensures GroupsSize(ShrinkStep(groups).value) <= GroupsSize(groups)
  {
    var i := FirstLongGroup(groups);
    var g := groups[i];
    var j := FirstLongSample(g.samples);
    var field := FirstLong(g.samples[j]).value;
    HalveIsSmaller(g.samples[j], field);
    SamplesSizeUpdate(g.samples, j, Halve(g.samples[j], field));
    hide SamplesSize, RestSize, SampleSize;
    GroupsSizeUpdate(groups, i, g.(samples := g.samples[j := Halve(g.samples[j], field)]));
  }

  lemma {:induction false} HalvedOutIsSmaller(groups: seq<Group>)
    ensures GroupsSize(HalvedOut(groups)) <= GroupsSize(groups)
    decreases GroupsLength(groups)
  {
    if ShrinkStep(groups).Some? {
      ShrinkStepShortens(groups);
      ShrinkStepIsSmaller(groups);
      hide GroupsSize, ShrinkStep;
      HalvedOutIsSmaller(ShrinkStep(groups).value);
    }
  }

  // Shrinking ends with a bundle that fits exactly if the bundle with all excerpts halved out fits.
  lemma {:induction false} ShrinkFitsIff(maxBytes: nat, b: Bundle)
    requires b.groups.Some?
    ensures ByteBudget(maxBytes).Fits(Shrink(ByteBudget(maxBytes), b)) <==> JsonSize(AllHalved(b)) <= maxBytes
    decreases GroupsLength(b.groups.value)
  {
    HalvedOutIsShort(b.groups.value);
    hide ShortGroups;
    if ShrinkStep(b.groups.value).Some? {
      var groups := ShrinkStep(b.groups.value).value;
      var b' := b.(groups := Some(groups));
      ShrinkStepShortens(b.groups.value);
      HalvedOutIsShort(groups);
      HalvedOutIsSmaller(groups);
      SmallerGroups(b', HalvedOut(groups));
      hide JsonSize, GroupsSize, ShrinkStep;
      if JsonSize(b') > maxBytes { ShrinkFitsIff(maxBytes, b'); }
    }
  }

  /******* When the result fits *******/

  // The marked bundle after as many groups are dropped as trimming drops, with the count of them.
  function Leanest(maxBytes: nat, b: Bundle): Bundle
    requires b.groups.Some?
  {
    var n := |b.groups.value|;
    var k := Kept(ByteBudget(maxBytes), Marked(b), n);
    Counted(Base(Marked(b), k), n)
  }

  // The result fits exactly if this bundle, with all long excerpts halved out, fits: the marked input
  // cut down to the first samples of the groups that are kept, with the count of the others in it.
  lemma ResultFitsIff(maxBytes: nat, b: Bundle)
    requires b.groups.Some? && !ByteBudget(maxBytes).Fits(b)
    ensures ByteBudget(maxBytes).Fits(Fitted(ByteBudget(maxBytes), b)) <==> JsonSize(AllHalved(Leanest(maxBytes, b))) <= maxBytes
  {
    var budget, n := ByteBudget(maxBytes), |b.groups.value|;
    var t, k := Trim(budget, Marked(b)), Kept(budget, Marked(b), n);
    TrimmedGroups(maxBytes, Marked(b));
    TrimKeepsPrefixes(budget, Marked(b));
    ShrinkFitsIff(maxBytes, Trimmed(budget, b));
    hide JsonSize, Trim, Shrink, Kept, HalvedOut, GroupsSize, RestsOf;
    if k < n || !budget.Fits(Base(Marked(b), n)) {
      assert Trimmed(budget, b) == Leanest(maxBytes, b);
    } else {
      assert Trimmed(budget, b) == t && Leanest(maxBytes, b) == Base(Marked(b), n);
      HalvedFits(t);
      HalvedFits(Base(Marked(b), n));
    }
  }

  lemma HalvedFits(b: Bundle)
    requires b.groups.Some?
    ensures JsonSize(AllHalved(b)) <= JsonSize(b)
  {
    HalvedOutIsSmaller(b.groups.value);
    HalvedOutIsShort(b.groups.value);
    hide JsonSize, ShortGroups;
    SmallerGroups(b, HalvedOut(b.groups.value));
  }

  // The count of dropped groups is added after the last size check of the trimming loops.  Without long
  // excerpts the result therefore fits exactly if
  // - no group has to be dropped and the first samples of all groups fit, or
  // - the first samples of the kept groups leave room for the count.
  lemma FitsIffCountFits(maxBytes: nat, b: Bundle)
    requires b.groups.Some? && !ByteBudget(maxBytes).Fits(b) && NothingLong(b.groups.value)
    ensures var budget, n := ByteBudget(maxBytes), |b.groups.value|;
            var k := Kept(budget, Marked(b), n);
            budget.Fits(Fitted(budget, b)) <==>
              if k == n then JsonSize(Base(Marked(b), n)) <= maxBytes
              else JsonSize(Base(Marked(b), k)) + CountGrowth(b.omitted, n - k) <= maxBytes
  {
    ResultFitsIff(maxBytes, b);
    LeanestNothingLong(maxBytes, b);
    LeanestSize(maxBytes, b);
    hide *;
  }

  lemma LeanestSize(maxBytes: nat, b: Bundle)
    requires b.groups.Some?
    ensures var n := |b.groups.value|;
            var k := Kept(ByteBudget(maxBytes), Marked(b), n);
            JsonSize(Leanest(maxBytes, b)) ==
            JsonSize(Base(Marked(b), k)) + if k == n then 0 else CountGrowth(b.omitted, n - k)
  {
    var n := |b.groups.value|;
    var k := Kept(ByteBudget(maxBytes), Marked(b), n);
    BaseKeepsRest(Marked(b), k);
    hide JsonSize, Kept, CountGrowth, Base;
    if k < n { CountAdds(Base(Marked(b), k), n - k); }
  }

  lemma BaseKeepsRest(b: Bundle, k: nat)
    requires b.groups.Some? && k <= |b.groups.value|
    ensures Base(b, k) == b.(groups := Base(b, k).groups) && Base(b, k).groups.Some? && |Base(b, k).groups.value| == k
  {
  }

  lemma LeanestNothingLong(maxBytes: nat, b: Bundle)
    requires b.groups.Some? && NothingLong(b.groups.value)
    ensures AllHalved(Leanest(maxBytes, b)) == Leanest(maxBytes, b)
  {
    var lean := Leanest(maxBytes, b);
    BaseNothingLong(Marked(b), Kept(ByteBudget(maxBytes), Marked(b), |b.groups.value|));
    NothingLongStays(lean.groups.value);
    hide Kept, ShortGroups, NothingLong, Base;
  }

  lemma BaseNothingLong(b: Bundle, k: nat)
    requires b.groups.Some? && k <= |b.groups.value| && NothingLong(b.groups.value)
    ensures NothingLong(Base(b, k).groups.value)
  {
    var groups := Base(b, k).groups.value;
    forall g <- groups | g.GroupObject? ensures forall s <- g.samples :: !LongSample(s) {
      var i :| 0 <= i < |groups| && groups[i] == g;
      assert b.groups.value[i] in b.groups.value && forall s <- g.samples :: s in b.groups.value[i].samples;
    }
  }

  // Excerpts are halved even when that is not needed: a group with a long excerpt, and another one whose
  // omission makes the bundle fit with the count in it.
  function LongAndOther(text: string, value: string): Bundle {
    GroupsAlone([LongGroupOf(text), OtherGroup([value])])
  }

  function LongGroupOf(text: string): Group {
    GroupObject([SampleObject(map["detail" := text], None, [])], [])
  }

  function GroupsAlone(groups: seq<Group>): Bundle {
    Bundle(None, None, Some(groups), None, [])
  }

  function MarkedGroups(groups: seq<Group>): Bundle {
    Bundle(Some(true), Some([BUDGET_WARNING]), Some(groups), None, [])
  }

  // Marking a bundle of groups alone adds 59 bytes.
  lemma MarkAdds(groups: seq<Group>)
    requires groups != []
    ensures Marked(GroupsAlone(groups)) == MarkedGroups(groups)
    ensures JsonSize(GroupsAlone(groups)) == GroupsSize(groups) + 12
    ensures JsonSize(MarkedGroups(groups)) == JsonSize(GroupsAlone(groups)) + 59
  {
    assert Marked(GroupsAlone(groups)) == MarkedGroups(groups) by { assert [] + [BUDGET_WARNING] == [BUDGET_WARNING]; }
    NoEmptyGroups(groups);
    WarningSize();
    hide TextsSize, GroupsSize, Marked;
  }

  lemma WarningSize()
    ensures TextsSize([BUDGET_WARNING]) == 29
  {
    PlainText(BUDGET_WARNING);
    assert [BUDGET_WARNING][..0] == [];
    hide TextSize;
  }

  lemma NoEmptyGroups(groups: seq<Group>)
    ensures GroupsSize(groups) == 0 <==> groups == []
  {
    hide GroupSize;
  }

  lemma TwoGroupsSize(g: Group, value: string)
    ensures GroupsSize([g]) == GroupSize(g) + 1
    ensures GroupsSize([g, OtherGroup([value])]) == GroupsSize([g]) + |value| + 1
  {
    var o := OtherGroup([value]);
    assert [value][..0] == [] && [g, o][..1] == [g] && [g][..0] == [];
    assert PiecesSize([value]) == |value|;
    hide GroupSize, PiecesSize;
    assert GroupsSize([]) == 0 && GroupsSize([g, o]) == GroupsSize([g]) + GroupSize(o) + 1;
  }

  // The marked bundle with the first of two uncrowded groups is where trimming stops when it fits and the
  // whole does not.
  lemma TrimsToFirst(budget: Budget, b: Bundle, g: Group, o: Group)
    requires b.groups == Some([g, o]) && SampleCount(g) <= 1 && SampleCount(o) <= 1
    requires !budget.Fits(b) && budget.Fits(b.(groups := Some([g])))
    ensures Trim(budget, b) == b.(groups := Some([g]))
  {
    assert LastCrowded([g, o]).None? && [g, o][..1] == [g];
    assert TrimStep([g, o]) == Some([g]);
    hide Budget.Fits, TrimStep, LastCrowded;
  }

  // What is left of it: the group with the long excerpt, and a count of one.
  function LongAndCount(text: string): Bundle {
    MarkedGroups([LongGroupOf(text)]).(omitted := Some(1))
  }

  // A budget that this just meets.
  function RoomForCount(text: string): Budget {
    ByteBudget(JsonSize(MarkedGroups([LongGroupOf(text)])) + 19)
  }

  lemma FittingExcerptIsHalved(text: string, value: string)
    requires |text| > EXCERPT_CHARS && |value| > 77
    ensures !RoomForCount(text).Fits(LongAndOther(text, value)) && LongAndOther(text, value).groups.Some?
    ensures Trimmed(RoomForCount(text), LongAndOther(text, value)) == LongAndCount(text)
    ensures RoomForCount(text).Fits(LongAndCount(text))
    ensures Fitted(RoomForCount(text), LongAndOther(text, value)) != LongAndCount(text)
  {
    var g, o := LongGroupOf(text), OtherGroup([value]);
    LongGroupIsLong(text);
    hide LongGroupOf, JsonSize, NothingLong, Trimmed, Fitted, Trim, Marked, SampleCount, ByteBudget, Budget.Fits;
    FirstFitsCounted(g, value, RoomForCount(text));
    TrimmedToFirst(RoomForCount(text), g, o);
    FitsButLong(RoomForCount(text), LongAndOther(text, value), g);
  }

  // With a budget for the first group and the count, the two groups do not fit.
  lemma FirstFitsCounted(g: Group, value: string, budget: Budget)
    requires |value| > 77 && budget == ByteBudget(JsonSize(MarkedGroups([g])) + 19)
    ensures var both := GroupsAlone([g, OtherGroup([value])]);
            && Marked(both) == MarkedGroups([g, OtherGroup([value])]) && SampleCount(OtherGroup([value])) <= 1
            && !budget.Fits(both) && !budget.Fits(Marked(both))
            && budget.Fits(MarkedGroups([g])) && budget.Fits(MarkedGroups([g]).(omitted := Some(1)))
  {
    TwoGroupsSize(g, value);
    hide JsonSize, GroupsSize, GroupSize, Marked;
    MarkAdds([g, OtherGroup([value])]);
    MarkAdds([g]);
    CountAdds(MarkedGroups([g]), 1);
  }

  lemma FitsButLong(budget: Budget, b: Bundle, g: Group)
    requires b.groups.Some? && !budget.Fits(b) && !NothingLong([g])
    requires Trimmed(budget, b) == MarkedGroups([g]).(omitted := Some(1))
    ensures Fitted(budget, b) != Trimmed(budget, b)
  {
    hide Fitted, Trimmed, NothingLong, Budget.Fits;
    ShrinksIffLong(budget, b);
  }

  lemma TrimmedToFirst(budget: Budget, g: Group, o: Group)
    requires SampleCount(g) <= 1 && SampleCount(o) <= 1
    requires Marked(GroupsAlone([g, o])) == MarkedGroups([g, o])
    requires !budget.Fits(MarkedGroups([g, o])) && budget.Fits(MarkedGroups([g]))
    ensures Trim(budget, Marked(GroupsAlone([g, o]))) == MarkedGroups([g])
    ensures Trimmed(budget, GroupsAlone([g, o])) == MarkedGroups([g]).(omitted := Some(1))
  {
    hide Budget.Fits, Marked, Trim, SampleCount;
    TrimsToFirst(budget, MarkedGroups([g, o]), g, o);
  }

  lemma LongGroupIsLong(text: string)
    requires |text| > EXCERPT_CHARS
    ensures !NothingLong([LongGroupOf(text)]) && SampleCount(LongGroupOf(text)) == 1
  {
    var s := SampleObject(map["detail" := text], None, []);
    assert EXCERPT_FIELDS[2] == "detail" && EXCERPT_FIELDS[2] in EXCERPT_FIELDS && Long(s, "detail");
    assert LongGroupOf(text) in [LongGroupOf(text)] && s in LongGroupOf(text).samples;
  }

  // A failing family: two groups of the same serialized text and a budget that one of them just meets.
  function TwoGroups(value: string): Bundle {
    GroupsAlone([OtherGroup([value]), OtherGroup([value])])
  }

  predicate Plain(c: char) {
    'a' <= c <= 'z' || c == '_'
  }

  lemma {:induction false} PlainText(s: string)
    requires forall i | 0 <= i < |s| :: Plain(s[i])
    ensures TextSize(s) == |s| + 2
  {
    if s != "" { PlainText(s[..|s| - 1]); }
  }

  // Of two groups with a text of more than 58 bytes the first one is kept and fits; with the count of the
  // other one the result is 19 bytes too long.
  lemma CountCanExceedBudget(value: string)
    requires |value| > 58
    ensures var budget, b := ByteBudget(72 + |value|), TwoGroups(value);
            && !budget.Fits(b) && budget.Fits(Trim(budget, Marked(b)))
            && JsonSize(Fitted(budget, b)) == 72 + |value| + 19
  {
    var budget := ByteBudget(72 + |value|);
    var g := OtherGroup([value]);
    var counted := MarkedGroups([g]).(omitted := Some(1));
    TwoGroupsSize(g, value);
    OtherGroupFacts(value);
    MarkAdds([g, g]);
    MarkAdds([g]);
    CountAdds(MarkedGroups([g]), 1);
    hide JsonSize, GroupsSize, GroupSize, Marked, Trim, Shrink, ShrinkStep, SampleCount, NothingLong;
    TrimmedToFirst(budget, g, g);
    ShrinkOfNothing(budget, counted);
  }

  lemma OtherGroupFacts(value: string)
    ensures var g := OtherGroup([value]);
            GroupSize(g) == |value| && SampleCount(g) == 0 && ShrinkStep([g]).None?
  {
    assert [value][..0] == [];
    assert PiecesSize([value]) == |value|;
    assert NothingLong([OtherGroup([value])]);
    NoStepMeansNothingLong([OtherGroup([value])]);
  }

  lemma ShrinkOfNothing(budget: Budget, b: Bundle)
    requires b.groups.Some? && ShrinkStep(b.groups.value).None?
    ensures Shrink(budget, b) == b
  {
  }

  /******* The same, in place *******/

  class EvidenceBundle {
    var truncated: Option<bool>
    var warnings: Option<seq<string>>
    var groups: Option<seq<Group>>
    var omitted: Option<nat>
    const rest: Json

    constructor (b: Bundle)
      ensures Value() == b
    {
      truncated, warnings, groups, omitted, rest := b.truncated, b.warnings, b.groups, b.omitted, b.rest;
    }

    function Value(): Bundle
      reads this
    {
      Bundle(truncated, warnings, groups, omitted, rest)
    }

    method Fit(budget: Budget)
      modifies this
      ensures Value() == Fitted(budget, old(Value()))
    {
      if budget.Fits(Value()) { return; }
      truncated := Some(true);
      if warnings.None? { warnings := Some([]); }
      if BUDGET_WARNING !in warnings.value { warnings := Some(warnings.value + [BUDGET_WARNING]); }
      if groups.None? { return; }
      ghost var marked := Value();
      assert marked == Marked(old(Value()));
      hide Marked, Shrink, Trim, Budget.Fits;
      DropSamples(budget);
      var dropped := DropGroups(budget);
      TrimKeepsPrefixes(budget, marked);
      if dropped > 0 { omitted := Some(dropped); }
      assert Value() == Trimmed(budget, old(Value()));
      HalveExcerpts(budget);
    }

    // From the last group to the first: all but one sample, as long as the bundle is too large.
    method DropSamples(budget: Budget)
      requires groups.Some?
      modifies this`groups
      ensures groups.Some? && Trim(budget, Value()) == Trim(budget, old(Value()))
      ensures |groups.value| == old(|groups.value|)
      ensures budget.Fits(Value()) || forall g <- groups.value :: SampleCount(g) <= 1
    {
      ghost var start := Value();
      var i := |groups.value|;
      while i > 0
        invariant groups.Some? && 0 <= i <= |groups.value| == |start.groups.value|
        invariant Trim(budget, Value()) == Trim(budget, start)
        invariant budget.Fits(Value()) || forall k | i <= k < |groups.value| :: SampleCount(groups.value[k]) <= 1
      {
        i := i - 1;
        while SampleCount(groups.value[i]) > 1 && !budget.Fits(Value())
          invariant groups.Some? && |groups.value| == |start.groups.value|
          invariant Trim(budget, Value()) == Trim(budget, start)
          invariant budget.Fits(Value()) || forall k | i < k < |groups.value| :: SampleCount(groups.value[k]) <= 1
          decreases SampleCount(groups.value[i])
        {
          assert LastCrowded(groups.value) == Some(i);
          groups := Some(groups.value[i := DropSample(groups.value[i])]);
        }
      }
    }

    method DropGroups(budget: Budget) returns (dropped: nat)
      requires groups.Some?
      requires budget.Fits(Value()) || forall g <- groups.value :: SampleCount(g) <= 1
      modifies this`groups
      ensures groups.Some? && Value() == Trim(budget, old(Value()))
      ensures dropped == old(|groups.value|) - |groups.value|
    {
      ghost var start := Value();
      dropped := 0;
      while |groups.value| > 1 && !budget.Fits(Value())
        invariant groups.Some? && dropped == |start.groups.value| - |groups.value|
        invariant Trim(budget, Value()) == Trim(budget, start)
        invariant budget.Fits(Value()) || forall g <- groups.value :: SampleCount(g) <= 1
        decreases |groups.value|
      {
        assert LastCrowded(groups.value) == None;
        groups := Some(groups.value[..|groups.value| - 1]);
        dropped := dropped + 1;
      }
    }

    // Every excerpt in turn, until the bundle fits.
    method HalveExcerpts(budget: Budget)
      requires groups.Some?
      modifies this`groups
      ensures Value() == Shrink(budget, old(Value()))
    {
      ghost var start := Value();
      var i := 0;
      hide LongGroup, GroupsVisited;
      NoGroupVisited(groups.value);
      while i < |groups.value|
        invariant groups.Some? && GroupsVisited(groups.value, i)
        invariant Shrink(budget, Value()) == Shrink(budget, start)
        decreases |groups.value| - i
      {
        var fitted := HalveGroup(budget, i);
        if fitted { return; }
        i := i + 1;
      }
      NothingLeftToShrink(budget, Value());
    }

    method HalveGroup(budget: Budget, i: nat) returns (fitted: bool)
      requires groups.Some? && i < |groups.value| && GroupsVisited(groups.value, i)
      modifies this`groups
      ensures groups.Some? && |groups.value| == old(|groups.value|)
      ensures fitted ==> Value() == Shrink(budget, old(Value()))
      ensures !fitted ==> Shrink(budget, Value()) == Shrink(budget, old(Value())) && GroupsVisited(groups.value, i + 1)
    {
      ghost var start := Value();
      GroupVisited(groups.value, i);
      if groups.value[i].OtherGroup? { return false; }
      var j := 0;
      hide LongGroup, LongSample, GroupsVisited, SamplesVisited, Shrink;
      while j < |groups.value[i].samples|
        invariant groups.Some? && |groups.value| == |start.groups.value| && SamplesVisited(groups.value, i, j)
        invariant Shrink(budget, Value()) == Shrink(budget, start)
        decreases |groups.value[i].samples| - j
      {
        fitted := HalveSample(budget, i, j);
        if fitted { return; }
        j := j + 1;
      }
      AllSamplesVisited(groups.value, i);
      fitted := false;
    }

    method HalveSample(budget: Budget, i: nat, j: nat) returns (fitted: bool)
      requires groups.Some? && SamplesVisited(groups.value, i, j) && j < |groups.value[i].samples|
      modifies this`groups
      ensures groups.Some? && |groups.value| == old(|groups.value|)
      ensures i < |groups.value| && SampleCount(groups.value[i]) == old(SampleCount(groups.value[i]))
      ensures fitted ==> Value() == Shrink(budget, old(Value()))
      ensures !fitted ==> Shrink(budget, Value()) == Shrink(budget, old(Value())) && SamplesVisited(groups.value, i, j + 1)
    {
      ghost var start := Value();
      var f := 0;
      FirstField(groups.value, i, j);
      hide Visited, SamplesVisited, HalveAt, Long, LongSample, LongGroup, Shrink, GroupsLength, Budget.Fits;
      while f < |EXCERPT_FIELDS|
        invariant groups.Some? && Visited(groups.value, i, j, f)
        invariant |groups.value| == |start.groups.value| && SampleCount(groups.value[i]) == SampleCount(start.groups.value[i])
        invariant Shrink(budget, Value()) == Shrink(budget, start)
        decreases |EXCERPT_FIELDS| - f, GroupsLength(groups.value)
      {
        var field := EXCERPT_FIELDS[f];
        if Long(groups.value[i].samples[j], field) {
          HalveOnce(budget, Value(), i, j, f);
          groups := Some(HalveAt(groups.value, i, j, field));
          if budget.Fits(Value()) { return true; }
        } else {
          NextField(groups.value, i, j, f);
          f := f + 1;
        }
      }
      LastField(groups.value, i, j, f);
      fitted := false;
    }
  }

  // Nothing is long in the first i groups ...
  ghost predicate GroupsVisited(groups: seq<Group>, i: nat)
    ensures GroupsVisited(groups, i) ==> i <= |groups|
  {
    i <= |groups| && forall k | 0 <= k < i :: !LongGroup(groups[k])
  }

  // ... nor in the first j samples of group i.
  ghost predicate SamplesVisited(groups: seq<Group>, i: nat, j: nat)
    ensures SamplesVisited(groups, i, j) ==> i < |groups| && groups[i].GroupObject? && j <= |groups[i].samples|
  {
    && GroupsVisited(groups, i) && i < |groups| && groups[i].GroupObject? && j <= |groups[i].samples|
    && forall k | 0 <= k < j :: !LongSample(groups[i].samples[k])
  }

  lemma NoGroupVisited(groups: seq<Group>)
    ensures GroupsVisited(groups, 0)
  {
  }

  lemma NothingLeftToShrink(budget: Budget, b: Bundle)
    requires b.groups.Some? && GroupsVisited(b.groups.value, |b.groups.value|)
    ensures Shrink(budget, b) == b
  {
    FirstLongGroupAt(b.groups.value, |b.groups.value|);
  }

  lemma GroupVisited(groups: seq<Group>, i: nat)
    requires GroupsVisited(groups, i) && i < |groups|
    ensures if groups[i].GroupObject? then SamplesVisited(groups, i, 0) else GroupsVisited(groups, i + 1)
  {
  }

  lemma AllSamplesVisited(groups: seq<Group>, i: nat)
    requires i < |groups| && groups[i].GroupObject? && SamplesVisited(groups, i, |groups[i].samples|)
    ensures GroupsVisited(groups, i + 1)
  {
    FirstLongSampleAt(groups[i].samples, |groups[i].samples|);
    hide LongSample;
  }

  // Nothing is long up to field f of sample j of group i, in the order in which they are visited.
  ghost predicate Visited(groups: seq<Group>, i: nat, j: nat, f: nat)
    ensures Visited(groups, i, j, f) ==>
              i < |groups| && groups[i].GroupObject? && j < |groups[i].samples| && f <= |EXCERPT_FIELDS|
  {
    && i < |groups| && groups[i].GroupObject? && j < |groups[i].samples| && f <= |EXCERPT_FIELDS|
    && (forall k | 0 <= k < i :: !LongGroup(groups[k]))
    && (forall k | 0 <= k < j :: !LongSample(groups[i].samples[k]))
    && forall k | 0 <= k < f :: !Long(groups[i].samples[j], EXCERPT_FIELDS[k])
  }

  lemma FirstField(groups: seq<Group>, i: nat, j: nat)
    requires SamplesVisited(groups, i, j) && j < |groups[i].samples|
    ensures Visited(groups, i, j, 0)
  {
    hide LongGroup, LongSample;
  }

  lemma NextField(groups: seq<Group>, i: nat, j: nat, f: nat)
    requires Visited(groups, i, j, f) && f < |EXCERPT_FIELDS| && !Long(groups[i].samples[j], EXCERPT_FIELDS[f])
    ensures Visited(groups, i, j, f + 1)
  {
  }

  lemma LastField(groups: seq<Group>, i: nat, j: nat, f: nat)
    requires Visited(groups, i, j, f) && f == |EXCERPT_FIELDS|
    ensures SamplesVisited(groups, i, j + 1)
  {
    hide LongGroup, Long;
  }

  // A step of shrinking at the first long field.
  lemma HalveOnce(budget: Budget, b: Bundle, i: nat, j: nat, f: nat)
    requires b.groups.Some? && Visited(b.groups.value, i, j, f)
    requires f < |EXCERPT_FIELDS| && Long(b.groups.value[i].samples[j], EXCERPT_FIELDS[f])
    ensures var before, after := b.groups.value, HalveAt(b.groups.value, i, j, EXCERPT_FIELDS[f]);
            && Visited(after, i, j, f) && |after| == |before| && SampleCount(after[i]) == SampleCount(before[i])
            && GroupsLength(after) < GroupsLength(before)
            && var b' := b.(groups := Some(after));
               Shrink(budget, b) == if budget.Fits(b') then b' else Shrink(budget, b')
  {
    var groups := b.groups.value;
    assert ShrinkStep(groups) == Some(HalveAt(groups, i, j, EXCERPT_FIELDS[f])) by { FirstIs(groups, i, j, f); }
    HalveAtShortens(groups, i, j, EXCERPT_FIELDS[f]);
    VisitedAfterHalving(groups, i, j, f);
    hide Budget.Fits, GroupsLength, LongGroup, LongSample, Visited, Long, HalveAt;
  }

  lemma VisitedAfterHalving(groups: seq<Group>, i: nat, j: nat, f: nat)
    requires Visited(groups, i, j, f) && f < |EXCERPT_FIELDS| && Long(groups[i].samples[j], EXCERPT_FIELDS[f])
    ensures var after := HalveAt(groups, i, j, EXCERPT_FIELDS[f]);
            Visited(after, i, j, f) && |after| == |groups| && SampleCount(after[i]) == SampleCount(groups[i])
  {
    HalvedFieldsStayShort(groups[i].samples[j], f);
    hide LongGroup, LongSample, Long, Halve;
  }

  lemma {:induction false} FirstLongSampleAt(samples: seq<Sample>, j: nat)
    requires j <= |samples| && forall k | 0 <= k < j :: !LongSample(samples[k])
    requires j < |samples| ==> LongSample(samples[j])
    ensures FirstLongSample(samples) == j
  {
    if j > 0 { FirstLongSampleAt(samples[1..], j - 1); }
  }

  lemma {:induction false} FirstLongGroupAt(groups: seq<Group>, i: nat)
    requires i <= |groups| && forall k | 0 <= k < i :: !LongGroup(groups[k])
    requires i < |groups| ==> LongGroup(groups[i])
    ensures FirstLongGroup(groups) == i
  {
    if i > 0 { FirstLongGroupAt(groups[1..], i - 1); }
  }

  lemma FirstIs(groups: seq<Group>, i: nat, j: nat, f: nat)
    requires i < |groups| && groups[i].GroupObject? && j < |groups[i].samples| && f < |EXCERPT_FIELDS|
    requires forall k | 0 <= k < i :: !LongGroup(groups[k])
    requires forall k | 0 <= k < j :: !LongSample(groups[i].samples[k])
    requires forall k | 0 <= k < f :: !Long(groups[i].samples[j], EXCERPT_FIELDS[k])
    requires Long(groups[i].samples[j], EXCERPT_FIELDS[f])
    ensures ShrinkStep(groups) == Some(HalveAt(groups, i, j, EXCERPT_FIELDS[f]))
  {
    assert EXCERPT_FIELDS[f] in EXCERPT_FIELDS;
    assert LongSample(groups[i].samples[j]);
    FirstLongSampleAt(groups[i].samples, j);
    FirstLongGroupAt(groups, i);
    assert FirstLong(groups[i].samples[j]) == Some(EXCERPT_FIELDS[f]);
  }

  lemma HalvedFieldsStayShort(s: Sample, f: nat)
    requires f < |EXCERPT_FIELDS| && Long(s, EXCERPT_FIELDS[f])
    requires forall k | 0 <= k < f :: !Long(s, EXCERPT_FIELDS[k])
    ensures forall k | 0 <= k < f :: !Long(Halve(s, EXCERPT_FIELDS[f]), EXCERPT_FIELDS[k])
  {
  }
}
