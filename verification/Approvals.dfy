/**
  Approval records derived from session events.

  `Apply` is the event fold.  The class `ApprovalTable` performs it in place.  A `World` is the table
  together with the event log that produced it; its steps are collected events, delivered prompts,
  operator clicks, archiving, deletion of tasks and replay.  The main results hold in every reachable
  world: one pending approval per task and tool, resolved approvals are final, a click resolves what was
  clicked, and replaying the log rebuilds the table.
 */
module Approvals {
  import opened Identifiers
  import opened Wrappers
  import opened Text

  type TaskId = nat

  datatype EventType = PermissionCallback | ApprovalRequested | ApprovalResult | OtherEvent

  // The payload fields that are read; a missing field is the empty string or false.
  datatype Payload = Payload(
    toolName: string, kind: string, preview: string, approved: bool, reason: string, requestId: string)

  datatype Event = Event(id: nat, task: TaskId, kind: EventType, timestamp: Time, data: Payload)

  datatype Status = Pending | Approved | Rejected

  datatype Delivery = Delivery(postId: string, channelId: string)

  datatype Approval = Approval(
    id: nat,
    task: TaskId,
    workflow: Option<string>,
    kind: string,
    tool: string,
    status: Status,
    preview: Option<string>,
    reason: Option<string>,
    metadata: map<EventType, Payload>,
    delivery: Option<Delivery>,
    requestedAt: Time,
    resolvedAt: Option<Time>,
    createdAt: Time,
    updatedAt: Time,
    archivedAt: Option<Time>)

  datatype Table = Table(rows: seq<Approval>, nextId: nat)

  const OPERATOR_APPROVAL := "operator_approval"

  function StatusOf(data: Payload): Status {
    if data.approved then Approved else Rejected
  }

  /******* Queries *******/

  predicate After(a: Approval, b: Approval) {
    a.requestedAt > b.requestedAt || (a.requestedAt == b.requestedAt && a.createdAt > b.createdAt)
  }

  // First row, in descending order of request and creation time, that satisfies the condition.
  function Latest(rows: seq<Approval>, p: Approval -> bool): (r: Option<nat>)
    ensures r.Some? ==> r.value < |rows| && p(rows[r.value])
    ensures r.None? ==> forall i | 0 <= i < |rows| :: !p(rows[i])
    ensures r.Some? ==> forall i | 0 <= i < |rows| && p(rows[i]) :: !After(rows[i], rows[r.value])
  {
    if rows == [] then None
    else
      var n := |rows| - 1;
      var best := Latest(rows[..n], p);
      if p(rows[n]) && (best.None? || After(rows[n], rows[best.value])) then Some(n) else best
  }

  function IsOpen(task: TaskId, tool: string): Approval -> bool {
    (a: Approval) => a.task == task && a.tool == tool && a.status == Pending
  }

  function FindOpen(rows: seq<Approval>, task: TaskId, tool: string): Option<nat> {
    Latest(rows, IsOpen(task, tool))
  }

  function HasRequest(task: TaskId, tool: string, requestId: string): Approval -> bool {
    (a: Approval) =>
      a.task == task && a.tool == tool &&
      (if ApprovalRequested in a.metadata then a.metadata[ApprovalRequested].requestId else "") == requestId
  }

  function FindByRequest(rows: seq<Approval>, task: TaskId, tool: string, requestId: string): Option<nat> {
    Latest(rows, HasRequest(task, tool, requestId))
  }

  /******* The event fold *******/

  // Whether the event concerns approvals at all.
  predicate Relevant(e: Event) {
    && Strip(e.data.toolName) != ""
    && match e.kind
       case PermissionCallback => e.data.kind == OPERATOR_APPROVAL
       case OtherEvent => false
       case _ => true
  }

  // What a relevant event makes of the open approval it finds ...
  function Merge(a: Approval, e: Event): Approval {
    var merged := a.(metadata := a.metadata[e.kind := e.data], updatedAt := e.timestamp);
    match e.kind
    case PermissionCallback => merged.(kind := e.data.kind)
    case ApprovalRequested => if e.data.preview != "" then merged.(preview := Some(e.data.preview)) else merged
    case ApprovalResult =>
      merged.(status := StatusOf(e.data), reason := NonEmpty(e.data.reason), resolvedAt := Some(e.timestamp))
    case OtherEvent => a
  }

  // ... and the approval it creates when it finds none.
  function Create(e: Event, id: nat, workflow: Option<string>, now: Time): Approval {
    Approval(
      id, e.task, workflow, OPERATOR_APPROVAL, Strip(e.data.toolName),
      if e.kind == ApprovalResult then StatusOf(e.data) else Pending,
      if e.kind == ApprovalRequested then NonEmpty(e.data.preview) else None,
      if e.kind == ApprovalResult then NonEmpty(e.data.reason) else None,
      map[e.kind := e.data],
      None,
      e.timestamp,
      if e.kind == ApprovalResult then Some(e.timestamp) else None,
      now,
      e.timestamp,
      None)
  }

  type Workflows = map<TaskId, string>

  function WorkflowOf(w: Workflows, task: TaskId): Option<string> {
    if task in w then Some(w[task]) else None
  }

  function Apply(t: Table, w: Workflows, e: Event, now: Time): Table {
    if !Relevant(e) then t
    else
      match FindOpen(t.rows, e.task, Strip(e.data.toolName))
      case Some(i) => t.(rows := t.rows[i := Merge(t.rows[i], e)])
      case None => Table(t.rows + [Create(e, t.nextId, WorkflowOf(w, e.task), now)], t.nextId + 1)
  }

  // The row that the event was applied to, if any.
  function Applied(t: Table, e: Event): Option<nat> {
    if !Relevant(e) then None
    else
      match FindOpen(t.rows, e.task, Strip(e.data.toolName))
      case Some(i) => Some(i)
      case None => Some(|t.rows|)
  }

  /******* Invariants *******/

  ghost predicate SameSlot(a: Approval, b: Approval) {
    a.task == b.task && a.tool == b.tool && a.status == Pending && b.status == Pending
  }

  ghost predicate OnePending(rows: seq<Approval>) {
    forall i, j | 0 <= i < j < |rows| :: !SameSlot(rows[i], rows[j])
  }

  ghost predicate WellFormed(t: Table) {
    && OnePending(t.rows)
    && (forall i | 0 <= i < |t.rows| :: t.rows[i].id < t.nextId)
    && (forall i, j | 0 <= i < j < |t.rows| :: t.rows[i].id != t.rows[j].id)
    && (forall a <- t.rows :: a.tool != "" && Strip(a.tool) == a.tool)
    && (forall a <- t.rows :: a.status == Pending <==> a.resolvedAt.None?)
  }

  // The same approval later: a resolved one keeps its decision.
  predicate Kept(a: Approval, b: Approval) {
    && b.task == a.task && b.tool == a.tool && b.requestedAt == a.requestedAt
    && (a.status != Pending ==> b.status == a.status && b.resolvedAt == a.resolvedAt && b.reason == a.reason)
  }

  // Rows are never reordered or dropped.
  ghost predicate Evolves(old_: seq<Approval>, new_: seq<Approval>) {
    && |old_| <= |new_|
    && forall i | 0 <= i < |old_| :: new_[i].id == old_[i].id && Kept(old_[i], new_[i])
  }

  // From one table to a later one: approvals of other tasks than `gone` are kept, and ids are not reused.
  ghost predicate Carries(t: Table, t': Table, gone: set<TaskId>) {
    && t.nextId <= t'.nextId
    && (forall b <- t'.rows :: b.id < t.nextId ==> exists a :: a in t.rows && a.id == b.id && Kept(a, b))
    && (forall a <- t.rows :: a.task !in gone ==> exists b :: b in t'.rows && b.id == a.id && Kept(a, b))
  }

  // A change to one pending row that leaves its slot alone or gives it up.
  lemma UpdateKeepsWellFormed(t: Table, i: nat, a: Approval)
    requires WellFormed(t) && i < |t.rows| && t.rows[i].status == Pending
    requires a.id == t.rows[i].id && a.task == t.rows[i].task && a.tool == t.rows[i].tool
    requires a.requestedAt == t.rows[i].requestedAt && (a.status == Pending <==> a.resolvedAt.None?)
    ensures WellFormed(t.(rows := t.rows[i := a])) && Evolves(t.rows, t.rows[i := a])
  {
    var rows := t.rows[i := a];
    forall j, k | 0 <= j < k < |rows| ensures !SameSlot(rows[j], rows[k]) {
      assert !SameSlot(t.rows[j], t.rows[k]);
    }
    assert t.rows[i] in t.rows;
    forall b <- rows ensures b == a || b in t.rows {}
  }

  // A new row for a free slot, or one that is resolved from the start.
  lemma InsertKeepsWellFormed(t: Table, a: Approval)
    requires WellFormed(t) && a.id == t.nextId && a.tool != "" && Strip(a.tool) == a.tool
    requires a.status == Pending <==> a.resolvedAt.None?
    requires forall b <- t.rows :: !SameSlot(b, a)
    ensures WellFormed(Table(t.rows + [a], t.nextId + 1)) && Evolves(t.rows, t.rows + [a])
  {
    var rows := t.rows + [a];
    forall j, k | 0 <= j < k < |rows| ensures !SameSlot(rows[j], rows[k]) {
      if k < |t.rows| { assert !SameSlot(t.rows[j], t.rows[k]); } else { assert t.rows[j] in t.rows; }
    }
  }

  lemma ApplyKeepsWellFormed(t: Table, w: Workflows, e: Event, now: Time)
    requires WellFormed(t)
    ensures WellFormed(Apply(t, w, e, now))
    ensures Evolves(t.rows, Apply(t, w, e, now).rows)
  {
    hide WellFormed, OnePending, Evolves;
    EvolvesReflexive(t.rows);
    if Relevant(e) {
      var tool := Strip(e.data.toolName);
      StripTwice(e.data.toolName);
      match FindOpen(t.rows, e.task, tool)
      case Some(i) =>
        PendingIsUnresolved(t, i);
        UpdateKeepsWellFormed(t, i, Merge(t.rows[i], e));
      case None =>
        forall b <- t.rows ensures !SameSlot(b, Create(e, t.nextId, WorkflowOf(w, e.task), now)) {
          var i :| 0 <= i < |t.rows| && t.rows[i] == b;
          assert !IsOpen(e.task, tool)(t.rows[i]);
        }
        InsertKeepsWellFormed(t, Create(e, t.nextId, WorkflowOf(w, e.task), now));
    }
  }

  // With one pending approval per slot, the query cannot pick the wrong one.
  lemma OpenIsUnique(rows: seq<Approval>, task: TaskId, tool: string, i: nat)
    requires OnePending(rows) && i < |rows| && IsOpen(task, tool)(rows[i])
    ensures FindOpen(rows, task, tool) == Some(i)
  {
    var r := FindOpen(rows, task, tool);
    assert r.Some?;
    if r.value < i { assert SameSlot(rows[r.value], rows[i]); }
    if i < r.value { assert SameSlot(rows[i], rows[r.value]); }
  }

  /******* Operator clicks *******/

  datatype Click = Click(
    decision: string, approvalId: Option<nat>, requestId: string, user: string, post: string, channel: string)

  datatype ClickError =
    | UnsupportedAction | InvalidIdentifier | ApprovalNotFound | TaskNotFound
    | RequestMismatch | PostMismatch | ChannelMismatch

  datatype ClickOutcome = Refused(error: ClickError) | AlreadyResolved(status: Status) | Accepted(approved: bool)

  function RowById(rows: seq<Approval>, id: nat): (r: Option<nat>)
    ensures r.Some? ==> r.value < |rows| && rows[r.value].id == id
    ensures r.None? ==> forall i | 0 <= i < |rows| :: rows[i].id != id
  {
    if rows == [] then None
    else if rows[|rows| - 1].id == id then Some(|rows| - 1)
    else RowById(rows[..|rows| - 1], id)
  }

  // The guards in front of the resolution, in order.
  function Judge(t: Table, w: Workflows, c: Click): ClickOutcome {
    var decision := Lower(Strip(c.decision));
    if decision != "approve" && decision != "reject" then Refused(UnsupportedAction)
    else if c.approvalId.None? then Refused(InvalidIdentifier)
    else
      var row := RowById(t.rows, c.approvalId.value);
      if row.None? then Refused(ApprovalNotFound)
      else
        var a := t.rows[row.value];
        var matched := FindByRequest(t.rows, a.task, a.tool, c.requestId);
        if a.task !in w then Refused(TaskNotFound)
        else if c.requestId != "" && (matched.None? || t.rows[matched.value].id != a.id) then Refused(RequestMismatch)
        else if a.delivery.Some? && a.delivery.value.postId != "" && c.post != "" && a.delivery.value.postId != c.post
        then Refused(PostMismatch)
        else if a.delivery.Some? && a.delivery.value.channelId != "" && c.channel != ""
                && a.delivery.value.channelId != c.channel
        then Refused(ChannelMismatch)
        else if a.status != Pending then AlreadyResolved(a.status)
        else Accepted(decision == "approve")
  }

  // The event an accepted click records and applies; it names the tool, not the approval.
  function ResultEvent(a: Approval, c: Click, approved: bool, eventId: nat, now: Time): Event {
    var user := if c.user == "" then "operator" else c.user;
    var reason := if approved then "" else "Approval rejected in message provider by " + user;
    Event(eventId, a.task, ApprovalResult, now, Payload(a.tool, "", "", approved, reason, ""))
  }

  // An accepted click resolves exactly the approval that was clicked, and the fold always finds it.
  lemma AcceptedClickResolvesItsApproval(t: Table, w: Workflows, c: Click, eventId: nat, now: Time)
    requires WellFormed(t)
    requires Judge(t, w, c).Accepted?
    ensures c.approvalId.Some? && RowById(t.rows, c.approvalId.value).Some?
    ensures var i := RowById(t.rows, c.approvalId.value).value;
            var approved := Judge(t, w, c).approved;
            var e := ResultEvent(t.rows[i], c, approved, eventId, now);
            var after := Apply(t, w, e, now).rows;
            && Applied(t, e) == Some(i)
            && |after| == |t.rows|
            && t.rows[i].status == Pending
            && after[i].id == c.approvalId.value
            && after[i].status == (if approved then Approved else Rejected)
            && after[i].resolvedAt == Some(now)
            && forall j | 0 <= j < |after| && j != i :: after[j] == t.rows[j]
  {
    var i := RowById(t.rows, c.approvalId.value).value;
    assert t.rows[i].status == Pending;
    hide Judge;
    ResultResolvesOpen(t, w, i, ResultEvent(t.rows[i], c, Judge(t, w, c).approved, eventId, now), now);
  }

  // Approval b holds this request id for the same task and tool as a.
  predicate HoldsRequest(a: Approval, b: Approval, requestId: string) {
    && b.task == a.task && b.tool == a.tool
    && ApprovalRequested in b.metadata && b.metadata[ApprovalRequested].requestId == requestId
  }

  // Row i is the newest with its task, tool and this request id, and the first listed of equally new ones.
  ghost predicate NewestWithRequest(rows: seq<Approval>, i: nat, requestId: string) {
    && i < |rows| && HoldsRequest(rows[i], rows[i], requestId)
    && forall j | 0 <= j < |rows| && j != i && HoldsRequest(rows[i], rows[j], requestId) ::
         || rows[j].requestedAt < rows[i].requestedAt
         || (rows[j].requestedAt == rows[i].requestedAt
             && (rows[j].createdAt < rows[i].createdAt || (rows[j].createdAt == rows[i].createdAt && i < j)))
  }

  predicate SamePost(a: Approval, c: Click) {
    a.delivery.Some? && a.delivery.value.postId != "" && c.post != "" ==> a.delivery.value.postId == c.post
  }

  predicate SameChannel(a: Approval, c: Click) {
    a.delivery.Some? && a.delivery.value.channelId != "" && c.channel != "" ==> a.delivery.value.channelId == c.channel
  }

  predicate KnownDecision(c: Click) {
    Lower(Strip(c.decision)) == "approve" || Lower(Strip(c.decision)) == "reject"
  }

  lemma {:induction false} LatestIsFirst(rows: seq<Approval>, p: Approval -> bool, i: nat)
    requires i < |rows| && p(rows[i])
    requires forall j | 0 <= j < |rows| && p(rows[j]) :: !After(rows[j], rows[i]) && (j < i ==> After(rows[i], rows[j]))
    ensures Latest(rows, p) == Some(i)
  {
    var n := |rows| - 1;
    if i < n {
      LatestIsFirst(rows[..n], p, i);
    }
  }

  lemma {:induction false} LatestComesFirst(rows: seq<Approval>, p: Approval -> bool)
    ensures var r := Latest(rows, p);
            r.Some? ==> forall j | 0 <= j < r.value && p(rows[j]) :: After(rows[r.value], rows[j])
  {
    if rows != [] { LatestComesFirst(rows[..|rows| - 1], p); }
  }

  lemma RequestIsMatchedIff(rows: seq<Approval>, i: nat, requestId: string)
    requires i < |rows| && requestId != ""
    ensures FindByRequest(rows, rows[i].task, rows[i].tool, requestId) == Some(i) <==> NewestWithRequest(rows, i, requestId)
  {
    var p := HasRequest(rows[i].task, rows[i].tool, requestId);
    forall j | 0 <= j < |rows| ensures p(rows[j]) <==> HoldsRequest(rows[i], rows[j], requestId) {}
    LatestComesFirst(rows, p);
    if NewestWithRequest(rows, i, requestId) {
      LatestIsFirst(rows, p, i);
    }
    hide Latest;
  }

  // What the guards say about a click on row i, in terms of the click and the row.
  lemma JudgedByGuards(t: Table, w: Workflows, c: Click, i: nat)
    requires WellFormed(t) && i < |t.rows| && c.approvalId == Some(t.rows[i].id) && KnownDecision(c)
    ensures var a, outcome := t.rows[i], Judge(t, w, c);
            var requested := c.requestId == "" || NewestWithRequest(t.rows, i, c.requestId);
            && (outcome == Refused(TaskNotFound) <==> a.task !in w)
            && (outcome == Refused(RequestMismatch) <==> a.task in w && !requested)
            && (outcome == Refused(PostMismatch) <==> a.task in w && requested && !SamePost(a, c))
            && (outcome == Refused(ChannelMismatch) <==> a.task in w && requested && SamePost(a, c) && !SameChannel(a, c))
            && (outcome == AlreadyResolved(a.status) <==>
                  a.task in w && requested && SamePost(a, c) && SameChannel(a, c) && a.status != Pending)
            && (outcome == Accepted(Lower(Strip(c.decision)) == "approve") <==>
                  a.task in w && requested && SamePost(a, c) && SameChannel(a, c) && a.status == Pending)
  {
    RowIsOnly(t, i);
    if c.requestId != "" { RequestIsMatchedIff(t.rows, i, c.requestId); }
    var matched := FindByRequest(t.rows, t.rows[i].task, t.rows[i].tool, c.requestId);
    assert matched.Some? ==> (t.rows[matched.value].id == t.rows[i].id <==> matched.value == i);
    hide NewestWithRequest, FindByRequest, RowById, Lower, Strip, WellFormed;
  }

  lemma RowIsOnly(t: Table, i: nat)
    requires WellFormed(t) && i < |t.rows|
    ensures RowById(t.rows, t.rows[i].id) == Some(i)
    ensures forall j | 0 <= j < |t.rows| :: t.rows[j].id == t.rows[i].id <==> j == i
  {
    hide OnePending;
    var r := RowById(t.rows, t.rows[i].id);
    assert r.Some?;
  }

  // A click is accepted exactly if its decision is known, its approval and task are, the request id is
  // empty or that of this approval, post and channel do not contradict the prompt, and it is pending.
  lemma AcceptedIff(t: Table, w: Workflows, c: Click)
    requires WellFormed(t)
    ensures Judge(t, w, c).Accepted? <==>
            && (Lower(Strip(c.decision)) == "approve" || Lower(Strip(c.decision)) == "reject")
            && exists i :: 0 <= i < |t.rows| && c.approvalId == Some(t.rows[i].id) && t.rows[i].task in w
                           && (c.requestId == "" || NewestWithRequest(t.rows, i, c.requestId))
                           && SamePost(t.rows[i], c) && SameChannel(t.rows[i], c) && t.rows[i].status == Pending
    ensures Judge(t, w, c) == Refused(UnsupportedAction) <==> !KnownDecision(c)
    ensures Judge(t, w, c) == Refused(InvalidIdentifier) <==> KnownDecision(c) && c.approvalId.None?
    ensures Judge(t, w, c) == Refused(ApprovalNotFound) <==>
            KnownDecision(c) && c.approvalId.Some? && forall a <- t.rows :: a.id != c.approvalId.value
  {
    hide Lower, Strip, WellFormed, NewestWithRequest, FindByRequest, SamePost, SameChannel;
    if KnownDecision(c) && c.approvalId.Some? {
      var r := RowById(t.rows, c.approvalId.value);
      if r.Some? {
        assert t.rows[r.value] in t.rows;
        JudgedByGuards(t, w, c, r.value);
        RowIsOnly(t, r.value);
        hide Judge;
      }
    }
  }

  // An accepted click leaves the approval it names with the decision that the click states, for the reason
  // and at the time of the click, and touches no other row.
  lemma ClickDecides(t: Table, w: Workflows, c: Click, eventId: nat, now: Time)
    requires WellFormed(t) && Judge(t, w, c).Accepted?
    ensures exists i :: 0 <= i < |t.rows| && c.approvalId == Some(t.rows[i].id) && t.rows[i].status == Pending &&
              var approve := Lower(Strip(c.decision)) == "approve";
              var reason := "Approval rejected in message provider by " + if c.user == "" then "operator" else c.user;
              var data := Payload(t.rows[i].tool, "", "", approve, if approve then "" else reason, "");
              Next(World(t, []), w, Act(c, eventId, now)) ==
              World(t.(rows := t.rows[i := t.rows[i].(
                      status := if approve then Approved else Rejected, reason := if approve then None else Some(reason),
                      metadata := t.rows[i].metadata[ApprovalResult := data], resolvedAt := Some(now), updatedAt := now)]),
                    [Event(eventId, t.rows[i].task, ApprovalResult, now, data)])
  {
    AcceptedIff(t, w, c);
    hide *;
    var i :| 0 <= i < |t.rows| && c.approvalId == Some(t.rows[i].id) && t.rows[i].status == Pending;
    ClickChanges(t, w, c, eventId, now, i);
  }

  lemma ClickChanges(t: Table, w: Workflows, c: Click, eventId: nat, now: Time, i: nat)
    requires WellFormed(t) && Judge(t, w, c).Accepted?
    requires i < |t.rows| && c.approvalId == Some(t.rows[i].id) && t.rows[i].status == Pending
    ensures var approve := Lower(Strip(c.decision)) == "approve";
            var reason := "Approval rejected in message provider by " + if c.user == "" then "operator" else c.user;
            var data := Payload(t.rows[i].tool, "", "", approve, if approve then "" else reason, "");
            Next(World(t, []), w, Act(c, eventId, now)) ==
            World(t.(rows := t.rows[i := t.rows[i].(
                    status := if approve then Approved else Rejected, reason := if approve then None else Some(reason),
                    metadata := t.rows[i].metadata[ApprovalResult := data], resolvedAt := Some(now), updatedAt := now)]),
                  [Event(eventId, t.rows[i].task, ApprovalResult, now, data)])
  {
    ActRecords(World(t, []), w, c, eventId, now);
    AcceptedIff(t, w, c);
    hide Judge, Lower, Strip, WellFormed, Next, Apply, RowById, NewestWithRequest, SamePost, SameChannel;
    RowIsOnly(t, i);
    JudgedByGuards(t, w, c, i);
    ToolIsStripped(t, i);
    var e := ResultEvent(t.rows[i], c, Judge(t, w, c).approved, eventId, now);
    assert e.data.reason == "" <==> e.data.approved;
    EventOnOpen(t, w, e, now, i);
  }

  lemma ToolIsStripped(t: Table, i: nat)
    requires WellFormed(t) && i < |t.rows|
    ensures Strip(t.rows[i].tool) == t.rows[i].tool
  {
    hide Strip;
    assert t.rows[i] in t.rows;
  }

  // What an event does to the pending approval of its task and tool ...
  lemma EventOnOpen(t: Table, w: Workflows, e: Event, now: Time, i: nat)
    requires WellFormed(t) && i < |t.rows| && Strip(e.data.toolName) == t.rows[i].tool
    requires e.task == t.rows[i].task && t.rows[i].status == Pending
    ensures var a, after := t.rows[i], Apply(t, w, e, now);
            var metadata := a.metadata[e.kind := e.data];
            match e.kind
            case PermissionCallback =>
              after == if e.data.kind != OPERATOR_APPROVAL then t
                       else t.(rows := t.rows[i := a.(kind := OPERATOR_APPROVAL, metadata := metadata, updatedAt := e.timestamp)])
            case ApprovalRequested =>
              after == t.(rows := t.rows[i := a.(preview := if e.data.preview == "" then a.preview else Some(e.data.preview),
                                                 metadata := metadata, updatedAt := e.timestamp)])
            case ApprovalResult =>
              after == t.(rows := t.rows[i := a.(status := if e.data.approved then Approved else Rejected,
                                                 reason := if e.data.reason == "" then None else Some(e.data.reason),
                                                 metadata := metadata, resolvedAt := Some(e.timestamp), updatedAt := e.timestamp)])
            case OtherEvent => after == t
  {
    assert t.rows[i] in t.rows;
    OpenIsUnique(t.rows, e.task, t.rows[i].tool, i);
    hide FindOpen, WellFormed, Strip;
  }

  // ... and what it creates when there is none.
  lemma EventCreates(t: Table, w: Workflows, e: Event, now: Time)
    requires Strip(e.data.toolName) != "" && e.kind != OtherEvent && (e.kind == PermissionCallback ==> e.data.kind == OPERATOR_APPROVAL)
    requires forall a <- t.rows :: !(a.task == e.task && a.tool == Strip(e.data.toolName) && a.status == Pending)
    ensures var after, result := Apply(t, w, e, now), e.kind == ApprovalResult;
            && after.nextId == t.nextId + 1 && |after.rows| == |t.rows| + 1 && after.rows[..|t.rows|] == t.rows
            && var a := after.rows[|t.rows|];
            && a.id == t.nextId && a.task == e.task && a.tool == Strip(e.data.toolName) && a.kind == OPERATOR_APPROVAL
            && a.workflow == (if e.task in w then Some(w[e.task]) else None)
            && a.status == (if !result then Pending else if e.data.approved then Approved else Rejected)
            && a.reason == (if result && e.data.reason != "" then Some(e.data.reason) else None)
            && a.preview == (if e.kind == ApprovalRequested && e.data.preview != "" then Some(e.data.preview) else None)
            && a.metadata == map[e.kind := e.data] && a.delivery == None && a.archivedAt == None
            && a.requestedAt == e.timestamp && a.updatedAt == e.timestamp && a.createdAt == now
            && a.resolvedAt == (if result then Some(e.timestamp) else None)
  {
    hide Strip;
    assert FindOpen(t.rows, e.task, Strip(e.data.toolName)).None?;
  }

  // A result event for the tool of a pending approval resolves that approval.
  lemma ResultResolvesOpen(t: Table, w: Workflows, i: nat, e: Event, now: Time)
    requires WellFormed(t) && i < |t.rows| && t.rows[i].status == Pending
    requires e.kind == ApprovalResult && e.task == t.rows[i].task && e.data.toolName == t.rows[i].tool
    ensures Applied(t, e) == Some(i)
    ensures var after := Apply(t, w, e, now).rows;
            && |after| == |t.rows| && after[i].id == t.rows[i].id
            && after[i].status == (if e.data.approved then Approved else Rejected) && after[i].resolvedAt == Some(e.timestamp)
            && forall j | 0 <= j < |after| && j != i :: after[j] == t.rows[j]
  {
    assert t.rows[i] in t.rows;
    OpenIsUnique(t.rows, t.rows[i].task, t.rows[i].tool, i);
    hide OnePending, FindOpen;
  }

  /******* Worlds and runs *******/

  datatype World = World(table: Table, log: seq<Event>)

  datatype Step =
    | Collect(event: Event, now: Time)
    | Deliver(approvalId: nat, delivery: Delivery, now: Time)
    | Act(click: Click, eventId: nat, now: Time)
    | Archive(ids: set<TaskId>, at: Option<Time>)
    | DeleteTasks(ids: set<TaskId>)
    | Backfill(ids: set<TaskId>, ordered: seq<Event>, now: Time)

  const EMPTY := World(Table([], 0), [])

  ghost function Next(s: World, w: Workflows, step: Step): World {
    match step
    case Collect(e, now) => World(Apply(s.table, w, e, now), s.log + [e])
    case Deliver(id, d, now) =>
      var row := RowById(s.table.rows, id);
      if row.None? || s.table.rows[row.value].status != Pending then s
      else
        var a := s.table.rows[row.value];
        s.(table := s.table.(rows := s.table.rows[row.value := a.(delivery := Some(d), updatedAt := now)]))
    case Act(c, eventId, now) =>
      if !Judge(s.table, w, c).Accepted? then s
      else
        var row := RowById(s.table.rows, c.approvalId.value);
        if row.None? then s
        else
          var e := ResultEvent(s.table.rows[row.value], c, Judge(s.table, w, c).approved, eventId, now);
          World(Apply(s.table, w, e, now), s.log + [e])
    case Archive(ids, at) => s.(table := s.table.(rows := Archived(s.table.rows, ids, at)))
    case DeleteTasks(ids) => World(s.table.(rows := Without(s.table.rows, ids)), Forget(s.log, ids))
    case Backfill(ids, ordered, now) =>
      if QueryResult(ordered, s.log, ids) then s.(table := Rebuild(s.table, w, ids, ordered, now)) else s
  }

  // Archiving a task marks its approvals, and bringing it back clears the mark.
  function Archived(rows: seq<Approval>, ids: set<TaskId>, at: Option<Time>): seq<Approval> {
    seq(|rows|, i requires 0 <= i < |rows| => if rows[i].task in ids then rows[i].(archivedAt := at) else rows[i])
  }

  // The log without the events of deleted tasks.
  function Forget(log: seq<Event>, ids: set<TaskId>): seq<Event> {
    if log == [] then []
    else
      var init, last := Forget(log[..|log| - 1], ids), log[|log| - 1];
      if last.task in ids then init else init + [last]
  }

  // The tasks whose approvals a step removes, to be replaced by new ones or not.
  function Removed(step: Step): set<TaskId> {
    match step
    case DeleteTasks(ids) => ids
    case Backfill(ids, _, _) => ids
    case _ => {}
  }

  function RemovedBy(steps: seq<Step>): set<TaskId> {
    if steps == [] then {} else RemovedBy(steps[..|steps| - 1]) + Removed(steps[|steps| - 1])
  }

  ghost function Run(w: Workflows, steps: seq<Step>): World {
    if steps == [] then EMPTY else Next(Run(w, steps[..|steps| - 1]), w, steps[|steps| - 1])
  }

  lemma PendingIsUnresolved(t: Table, i: nat)
    requires WellFormed(t) && i < |t.rows|
    ensures t.rows[i].status == Pending <==> t.rows[i].resolvedAt.None?
  {
    assert t.rows[i] in t.rows;
  }

  lemma NextKeepsWellFormed(s: World, w: Workflows, step: Step)
    requires WellFormed(s.table)
    ensures WellFormed(Next(s, w, step).table) && Carries(s.table, Next(s, w, step).table, Removed(step))
  {
    if step.Deliver? {
      DeliverCarries(s, w, step);
      hide Next, WellFormed, Carries;
    } else if step.Act? {
      ActCarries(s, w, step);
      hide Next, WellFormed, Carries;
    } else {
      hide WellFormed, Carries, QueryResult, Rebuild, Apply, Archived, Without, Forget;
      match step
      case Collect(e, now) => ApplyCarries(s.table, w, e, now);
      case Archive(ids, at) => ArchiveCarries(s.table, ids, at);
      case DeleteTasks(ids) => WithoutCarries(s.table, ids);
      case Backfill(ids, ordered, now) =>
        RebuildCarries(s.table, w, ids, ordered, now);
        CarriesMore(s.table, ids);
    }
  }

  lemma DeliverCarries(s: World, w: Workflows, step: Step)
    requires WellFormed(s.table) && step.Deliver?
    ensures WellFormed(Next(s, w, step).table) && Carries(s.table, Next(s, w, step).table, {})
  {
    hide WellFormed, Evolves, Carries;
    CarriesReflexive(s.table);
    var row := RowById(s.table.rows, step.approvalId);
    if row.Some? && s.table.rows[row.value].status == Pending {
      assert s.table.rows[row.value].resolvedAt.None? by { PendingIsUnresolved(s.table, row.value); }
      var a := s.table.rows[row.value].(delivery := Some(step.delivery), updatedAt := step.now);
      UpdateKeepsWellFormed(s.table, row.value, a);
      EvolvesCarries(s.table, s.table.(rows := s.table.rows[row.value := a]));
    }
  }

  lemma ActCarries(s: World, w: Workflows, step: Step)
    requires WellFormed(s.table) && step.Act?
    ensures WellFormed(Next(s, w, step).table) && Carries(s.table, Next(s, w, step).table, {})
  {
    hide WellFormed, Carries, Apply, Judge, ResultEvent;
    CarriesReflexive(s.table);
    if Judge(s.table, w, step.click).Accepted? {
      ActRecords(s, w, step.click, step.eventId, step.now);
      hide Next;
      var row := RowById(s.table.rows, step.click.approvalId.value).value;
      ApplyCarries(s.table, w, ResultEvent(s.table.rows[row], step.click, Judge(s.table, w, step.click).approved, step.eventId, step.now), step.now);
    }
  }

  lemma EvolvesCarries(t: Table, t': Table)
    requires Evolves(t.rows, t'.rows) && t.nextId <= t'.nextId
    requires forall i | |t.rows| <= i < |t'.rows| :: t'.rows[i].id >= t.nextId
    ensures Carries(t, t', {})
  {
    forall a <- t.rows ensures exists b :: b in t'.rows && b.id == a.id && Kept(a, b) {
      var i :| 0 <= i < |t.rows| && t.rows[i] == a;
      assert t'.rows[i] in t'.rows;
    }
    forall b <- t'.rows | b.id < t.nextId ensures exists a :: a in t.rows && a.id == b.id && Kept(a, b) {
      var i :| 0 <= i < |t'.rows| && t'.rows[i] == b;
      assert t.rows[i] in t.rows;
    }
  }

  lemma ApplyCarries(t: Table, w: Workflows, e: Event, now: Time)
    requires WellFormed(t)
    ensures WellFormed(Apply(t, w, e, now)) && Carries(t, Apply(t, w, e, now), {})
  {
    ApplyKeepsWellFormed(t, w, e, now);
    hide WellFormed, Evolves, Carries, FindOpen, Merge;
    EvolvesCarries(t, Apply(t, w, e, now));
  }

  lemma ArchiveCarries(t: Table, ids: set<TaskId>, at: Option<Time>)
    requires WellFormed(t)
    ensures var t' := t.(rows := Archived(t.rows, ids, at)); WellFormed(t') && Carries(t, t', {})
  {
    var rows := Archived(t.rows, ids, at);
    assert Marked(t.rows, rows);
    hide Archived, Marked;
    SameButArchived(t.rows, rows);
    assert WellFormed(t.(rows := rows)) by { MarkedIsWellFormed(t, rows); }
    hide WellFormed, Evolves;
    EvolvesCarries(t, t.(rows := rows));
  }

  ghost predicate Marked(rows: seq<Approval>, rows': seq<Approval>) {
    |rows'| == |rows| && forall i | 0 <= i < |rows| :: rows'[i] == rows[i].(archivedAt := rows'[i].archivedAt)
  }

  lemma SameButArchived(rows: seq<Approval>, rows': seq<Approval>)
    requires Marked(rows, rows')
    ensures Evolves(rows, rows')
  {
  }

  lemma MarkedIsWellFormed(t: Table, rows': seq<Approval>)
    requires WellFormed(t) && Marked(t.rows, rows')
    ensures WellFormed(t.(rows := rows'))
  {
    assert OnePending(rows') by {
      forall i, j | 0 <= i < j < |rows'| ensures !SameSlot(rows'[i], rows'[j]) { assert !SameSlot(t.rows[i], t.rows[j]); }
    }
    hide OnePending;
    forall a <- rows' ensures a.tool != "" && Strip(a.tool) == a.tool && (a.status == Pending <==> a.resolvedAt.None?) {
      var i :| 0 <= i < |rows'| && rows'[i] == a;
      assert t.rows[i] in t.rows;
    }
  }

  lemma WithoutCarries(t: Table, ids: set<TaskId>)
    requires WellFormed(t)
    ensures WellFormed(t.(rows := Without(t.rows, ids))) && Carries(t, t.(rows := Without(t.rows, ids)), ids)
  {
    WithoutKeepsWellFormed(t, ids);
    forall a ensures a in Without(t.rows, ids) <==> a in t.rows && a.task !in ids { WithoutMembers(t.rows, ids, a); }
    hide WellFormed, Without;
  }

  lemma RebuildCarries(t: Table, w: Workflows, ids: set<TaskId>, ordered: seq<Event>, now: Time)
    requires WellFormed(t)
    ensures WellFormed(Rebuild(t, w, ids, ordered, now)) && Carries(t, Rebuild(t, w, ids, ordered, now), ids)
  {
    var start := t.(rows := Without(t.rows, ids));
    hide WellFormed, Carries, Without, Replay;
    WithoutCarries(t, ids);
    ReplayCarries(start, w, ordered, now);
    CarriesTransitive(t, start, Rebuild(t, w, ids, ordered, now), ids, {});
    assert ids + {} == ids;
  }

  lemma {:induction false} ReplayCarries(t: Table, w: Workflows, events: seq<Event>, now: Time)
    requires WellFormed(t)
    ensures WellFormed(Replay(t, w, events, now)) && Carries(t, Replay(t, w, events, now), {})
  {
    hide WellFormed, Carries, Apply;
    CarriesReflexive(t);
    if events != [] {
      var init, e := events[..|events| - 1], events[|events| - 1];
      ReplayCarries(t, w, init, now);
      ApplyCarries(Replay(t, w, init, now), w, e, now);
      CarriesTransitive(t, Replay(t, w, init, now), Replay(t, w, events, now), {}, {});
      var none: set<TaskId> := {};
      assert none + none == none;
    }
  }

  lemma CarriesReflexive(t: Table)
    ensures Carries(t, t, {})
  {
    forall a <- t.rows ensures Kept(a, a) {}
  }

  lemma CarriesMore(t: Table, gone: set<TaskId>)
    ensures Carries(t, t, gone)
  {
    forall a <- t.rows ensures Kept(a, a) {}
  }

  lemma CarriesTransitive(t: Table, u: Table, v: Table, gone: set<TaskId>, gone': set<TaskId>)
    requires Carries(t, u, gone) && Carries(u, v, gone')
    ensures Carries(t, v, gone + gone')
  {
    forall c <- v.rows | c.id < t.nextId ensures exists a :: a in t.rows && a.id == c.id && Kept(a, c) {
      var b :| b in u.rows && b.id == c.id && Kept(b, c);
      var a :| a in t.rows && a.id == b.id && Kept(a, b);
      assert Kept(a, c);
    }
    forall a <- t.rows | a.task !in gone + gone' ensures exists c :: c in v.rows && c.id == a.id && Kept(a, c) {
      var b :| b in u.rows && b.id == a.id && Kept(a, b);
      var c :| c in v.rows && c.id == b.id && Kept(b, c);
      assert Kept(a, c);
    }
  }

  lemma EvolvesReflexive(rows: seq<Approval>)
    ensures Evolves(rows, rows)
  {
  }

  // Every reachable table has at most one pending approval per task and tool.  Whatever happens later, a
  // resolved approval keeps its status, reason and resolution time; only the approvals of tasks that are
  // deleted or replayed go, and their ids are not used again.
  lemma {:induction false} ReachableTables(w: Workflows, steps: seq<Step>, k: nat)
    requires k <= |steps|
    ensures WellFormed(Run(w, steps).table)
    ensures Carries(Run(w, steps[..k]).table, Run(w, steps).table, RemovedBy(steps[k..]))
    decreases |steps|
  {
    hide WellFormed, Carries, Next, Removed, Apply;
    CarriesReflexive(Run(w, steps).table);
    if steps == [] {
      assert WellFormed(EMPTY.table) by { EmptyIsWellFormed(); }
      assert steps[..k] == steps && steps[k..] == [];
    } else {
      var init, last := steps[..|steps| - 1], steps[|steps| - 1];
      ReachableTables(w, init, if k < |steps| then k else |init|);
      NextKeepsWellFormed(Run(w, init), w, last);
      if k < |steps| {
        assert init[..k] == steps[..k] && steps[k..] == init[k..] + [last];
        assert steps[k..][..|steps[k..]| - 1] == init[k..];
        CarriesTransitive(Run(w, steps[..k]).table, Run(w, init).table, Run(w, steps).table, RemovedBy(init[k..]), Removed(last));
      } else {
        assert steps[..k] == steps && steps[k..] == [];
      }
    }
  }

  lemma EmptyIsWellFormed()
    ensures WellFormed(EMPTY.table)
  {
  }

  // A delivered prompt is noted on the pending approval that it is for, and on nothing else.
  lemma DeliverOutcome(s: World, w: Workflows, i: nat, delivery: Delivery, now: Time)
    requires WellFormed(s.table) && i < |s.table.rows|
    ensures var a, s' := s.table.rows[i], Next(s, w, Deliver(s.table.rows[i].id, delivery, now));
            if a.status == Pending
            then s' == s.(table := s.table.(rows := s.table.rows[i := a.(delivery := Some(delivery), updatedAt := now)]))
            else s' == s
  {
    RowIsOnly(s.table, i);
    hide WellFormed, RowById;
  }

  // Archiving marks the approvals of these tasks, and deletion removes theirs and their events, in both
  // cases without touching the others.
  lemma ArchiveOutcome(s: World, w: Workflows, ids: set<TaskId>, at: Option<Time>)
    ensures var s' := Next(s, w, Archive(ids, at));
            && s' == s.(table := s'.table) && s'.table.nextId == s.table.nextId && |s'.table.rows| == |s.table.rows|
            && forall i | 0 <= i < |s.table.rows| ::
                 s'.table.rows[i] == if s.table.rows[i].task in ids then s.table.rows[i].(archivedAt := at) else s.table.rows[i]
  {
  }

  lemma DeleteOutcome(s: World, w: Workflows, ids: set<TaskId>, task: TaskId)
    ensures var s' := Next(s, w, DeleteTasks(ids));
            && s'.table.nextId == s.table.nextId
            && RowsOf(s'.table.rows, task) == (if task in ids then [] else RowsOf(s.table.rows, task))
            && Select(s'.log, {task}) == (if task in ids then [] else Select(s.log, {task}))
  {
    WithoutRows(s.table.rows, ids, task);
    SelectForget(s.log, ids, task);
    hide RowsOf, Select, Without, Forget;
  }

  // An accepted click is one recorded result event.
  lemma ActRecords(s: World, w: Workflows, c: Click, eventId: nat, now: Time)
    requires WellFormed(s.table) && Judge(s.table, w, c).Accepted?
    ensures c.approvalId.Some? && RowById(s.table.rows, c.approvalId.value).Some?
    ensures var e := ResultEvent(s.table.rows[RowById(s.table.rows, c.approvalId.value).value], c, Judge(s.table, w, c).approved, eventId, now);
            Next(s, w, Act(c, eventId, now)) == World(Apply(s.table, w, e, now), s.log + [e])
  {
    AcceptedClickResolvesItsApproval(s.table, w, c, eventId, now);
    hide Judge, Apply, WellFormed, RowById, ResultEvent;
  }

  /******* The same, in place *******/

  class ApprovalTable {
    var rows: seq<Approval>
    var nextId: nat
    var log: seq<Event>

    constructor ()
      ensures State() == EMPTY
    {
      rows, nextId, log := [], 0, [];
    }

    function State(): World
      reads this
    {
      World(Value(), log)
    }

    function Value(): Table
      reads this
    {
      Table(rows, nextId)
    }

    method ApplyEvent(w: Workflows, taskId: Option<TaskId>, eventId: nat, kind: EventType, timestamp: Time,
                      data: Payload, now: Time)
      returns (applied: Option<nat>)
      modifies this`rows, this`nextId
      ensures taskId.None? ==> Value() == old(Value()) && applied == None
      ensures taskId.Some? ==>
                var e := Event(eventId, taskId.value, kind, timestamp, data);
                Value() == Apply(old(Value()), w, e, now) && applied == Applied(old(Value()), e)
    {
      if taskId.None? { return None; }
      var e := Event(eventId, taskId.value, kind, timestamp, data);
      var tool := Strip(data.toolName);
      if tool == "" { return None; }
      if kind == OtherEvent { return None; }
      if kind == PermissionCallback && data.kind != OPERATOR_APPROVAL { return None; }
      applied := FindOpen(rows, e.task, tool);
      if applied.None? {
        applied := Some(|rows|);
        rows, nextId := rows + [Create(e, nextId, WorkflowOf(w, e.task), now)], nextId + 1;
        return;
      }
      var a := rows[applied.value];
      match kind {
        case PermissionCallback =>
          a := a.(kind := data.kind);
        case ApprovalRequested =>
          if data.preview != "" { a := a.(preview := Some(data.preview)); }
        case ApprovalResult =>
          a := a.(status := StatusOf(data), reason := NonEmpty(data.reason), resolvedAt := Some(timestamp));
        case OtherEvent =>
      }
      a := a.(metadata := a.metadata[kind := data], updatedAt := timestamp);
      rows := rows[applied.value := a];
    }

    // The event collector records the event and applies it in one transaction.
    method CollectEvent(w: Workflows, e: Event, now: Time)
      modifies this
      ensures State() == Next(old(State()), w, Collect(e, now))
    {
      log := log + [e];
      var _ := ApplyEvent(w, Some(e.task), e.id, e.kind, e.timestamp, e.data, now);
    }

    // An operator's click: the guards, then the recorded result event and the fold.
    method ResolveAction(w: Workflows, c: Click, eventId: nat, now: Time) returns (outcome: ClickOutcome)
      requires WellFormed(Value())
      modifies this
      ensures outcome == Judge(old(Value()), w, c)
      ensures State() == Next(old(State()), w, Act(c, eventId, now))
      ensures !outcome.Accepted? ==> State() == old(State())
    {
      outcome := CheckClick(w, c);
      if !outcome.Accepted? { return; }
      AcceptedClickResolvesItsApproval(Value(), w, c, eventId, now);
      var a := rows[RowById(rows, c.approvalId.value).value];
      var e := ResultEvent(a, c, outcome.approved, eventId, now);
      ActRecords(State(), w, c, eventId, now);
      hide Judge, Apply, ResultEvent, WellFormed, Applied, Next;
      log := log + [e];
      var resolved := ApplyEvent(w, Some(e.task), e.id, e.kind, e.timestamp, e.data, now);
      assert resolved != None;
    }

    method CheckClick(w: Workflows, c: Click) returns (outcome: ClickOutcome)
      ensures outcome == Judge(Value(), w, c)
    {
      var decision := Lower(Strip(c.decision));
      hide Lower, Strip, HasRequest;
      if decision != "approve" && decision != "reject" { return Refused(UnsupportedAction); }
      if c.approvalId.None? { return Refused(InvalidIdentifier); }
      var row := RowById(rows, c.approvalId.value);
      if row.None? { return Refused(ApprovalNotFound); }
      var a := rows[row.value];
      if a.task !in w { return Refused(TaskNotFound); }
      if c.requestId != "" {
        var matched := FindByRequest(rows, a.task, a.tool, c.requestId);
        if matched.None? || rows[matched.value].id != a.id { return Refused(RequestMismatch); }
      }
      var delivery := if a.delivery.Some? then a.delivery.value else Delivery("", "");
      if delivery.postId != "" && c.post != "" && delivery.postId != c.post { return Refused(PostMismatch); }
      if delivery.channelId != "" && c.channel != "" && delivery.channelId != c.channel {
        return Refused(ChannelMismatch);
      }
      if a.status != Pending { return AlreadyResolved(a.status); }
      outcome := Accepted(decision == "approve");
    }

    // Rebuilds the approvals of some tasks from what the ordered event query returns.
    method Backfill(w: Workflows, ids: set<TaskId>, ordered: seq<Event>, now: Time) returns (created: nat)
      modifies this`rows, this`nextId
      ensures Value() == Rebuild(old(Value()), w, ids, ordered, now)
      ensures QueryResult(ordered, log, ids) ==> State() == Next(old(State()), w, Step.Backfill(ids, ordered, now))
      ensures created == RelevantCount(ordered)
    {
      created := 0;
      rows := Without(rows, ids);
      ghost var start := Value();
      for i := 0 to |ordered|
        invariant created == RelevantCount(ordered[..i])
        invariant Value() == Replay(start, w, ordered[..i], now)
      {
        assert ordered[..i + 1][..i] == ordered[..i];
        var e := ordered[i];
        var applied := ApplyEvent(w, Some(e.task), e.id, e.kind, e.timestamp, e.data, now);
        if applied.Some? { created := created + 1; }
      }
      assert ordered[..|ordered|] == ordered;
    }
  }

  /******* Replaying the log *******/

  function Without(rows: seq<Approval>, ids: set<TaskId>): seq<Approval> {
    if rows == [] then []
    else
      var init, last := Without(rows[..|rows| - 1], ids), rows[|rows| - 1];
      if last.task in ids then init else init + [last]
  }

  function Replay(t: Table, w: Workflows, events: seq<Event>, now: Time): Table {
    if events == [] then t else Apply(Replay(t, w, events[..|events| - 1], now), w, events[|events| - 1], now)
  }

  function RelevantCount(events: seq<Event>): nat {
    if events == [] then 0
    else RelevantCount(events[..|events| - 1]) + if Relevant(events[|events| - 1]) then 1 else 0
  }

  function Rebuild(t: Table, w: Workflows, ids: set<TaskId>, ordered: seq<Event>, now: Time): Table {
    Replay(t.(rows := Without(t.rows, ids)), w, ordered, now)
  }

  // The approvals of one task, oldest first.
  function RowsOf(rows: seq<Approval>, task: TaskId): seq<Approval> {
    if rows == [] then []
    else
      var init, last := RowsOf(rows[..|rows| - 1], task), rows[|rows| - 1];
      if last.task == task then init + [last] else init
  }

  // What a replayed approval must agree on: all but its id, row times, prompt delivery and archive mark.
  function Core(a: Approval): Approval {
    a.(id := 0, delivery := None, createdAt := 0, updatedAt := 0, archivedAt := None)
  }

  function Cores(rows: seq<Approval>): seq<Approval> {
    seq(|rows|, i requires 0 <= i < |rows| => Core(rows[i]))
  }

  function View(rows: seq<Approval>, task: TaskId): seq<Approval> {
    Cores(RowsOf(rows, task))
  }

  // The event fold as seen from one task.
  function MergeAll(v: seq<Approval>, e: Event): seq<Approval> {
    seq(|v|, i requires 0 <= i < |v| =>
      if IsOpen(e.task, Strip(e.data.toolName))(v[i]) then Core(Merge(v[i], e)) else v[i])
  }

  function ApplyView(v: seq<Approval>, w: Workflows, e: Event): seq<Approval> {
    if !Relevant(e) then v
    else if exists a :: a in v && IsOpen(e.task, Strip(e.data.toolName))(a) then MergeAll(v, e)
    else v + [Core(Create(e, 0, WorkflowOf(w, e.task), 0))]
  }

  function FoldView(v: seq<Approval>, w: Workflows, events: seq<Event>): seq<Approval> {
    if events == [] then v else ApplyView(FoldView(v, w, events[..|events| - 1]), w, events[|events| - 1])
  }

  predicate Concerns(e: Event, ids: set<TaskId>) {
    e.task in ids && e.kind != OtherEvent
  }

  function Select(events: seq<Event>, ids: set<TaskId>): seq<Event> {
    if events == [] then []
    else
      var init, last := Select(events[..|events| - 1], ids), events[|events| - 1];
      if Concerns(last, ids) then init + [last] else init
  }

  lemma {:induction false} RowsOfUpdate(rows: seq<Approval>, i: nat, a: Approval, task: TaskId)
    requires i < |rows| && a.task == rows[i].task
    ensures rows[i].task != task ==> RowsOf(rows[i := a], task) == RowsOf(rows, task)
    ensures rows[i].task == task ==>
              |RowsOf(rows[..i], task)| < |RowsOf(rows, task)|
              && RowsOf(rows, task)[|RowsOf(rows[..i], task)|] == rows[i]
              && RowsOf(rows[i := a], task) == RowsOf(rows, task)[|RowsOf(rows[..i], task)| := a]
  {
    var n := |rows| - 1;
    var rows' := rows[i := a];
    if i < n {
      RowsOfUpdate(rows[..n], i, a, task);
      assert rows'[..n] == rows[..n][i := a] && rows[..n][..i] == rows[..i];
    } else {
      assert rows'[..n] == rows[..n];
    }
  }

  lemma {:induction false} RowsOfMembers(rows: seq<Approval>, task: TaskId, a: Approval)
    ensures a in RowsOf(rows, task) <==> a in rows && a.task == task
  {
    if rows != [] {
      RowsOfMembers(rows[..|rows| - 1], task, a);
      assert rows == rows[..|rows| - 1] + [rows[|rows| - 1]];
    }
  }

  lemma {:induction false} RowsOfKeepsOnePending(rows: seq<Approval>, task: TaskId)
    requires OnePending(rows)
    ensures OnePending(RowsOf(rows, task))
  {
    if rows != [] {
      var init, last := rows[..|rows| - 1], rows[|rows| - 1];
      forall i, j | 0 <= i < j < |init| ensures !SameSlot(init[i], init[j]) {
        assert !SameSlot(rows[i], rows[j]);
      }
      RowsOfKeepsOnePending(init, task);
      var v := RowsOf(init, task);
      forall i | 0 <= i < |v| ensures !SameSlot(v[i], last) {
        RowsOfMembers(init, task, v[i]);
        var k :| 0 <= k < |init| && init[k] == v[i];
        assert !SameSlot(rows[k], rows[|init|]);
      }
    }
  }

  lemma RowsOfAppend(rows: seq<Approval>, a: Approval, task: TaskId)
    ensures RowsOf(rows + [a], task) == RowsOf(rows, task) + if a.task == task then [a] else []
  {
    assert (rows + [a])[..|rows|] == rows;
  }

  // An event only touches the approvals of its own task.
  lemma OtherTasksUntouched(t: Table, w: Workflows, e: Event, now: Time, task: TaskId)
    requires e.task != task
    ensures RowsOf(Apply(t, w, e, now).rows, task) == RowsOf(t.rows, task)
  {
    if Relevant(e) {
      match FindOpen(t.rows, e.task, Strip(e.data.toolName))
      case Some(i) => RowsOfUpdate(t.rows, i, Merge(t.rows[i], e), task);
      case None => RowsOfAppend(t.rows, Create(e, t.nextId, WorkflowOf(w, e.task), now), task);
    }
  }

  // Seen from its own task, an event acts on the view alone.
  lemma ViewApply(t: Table, w: Workflows, e: Event, now: Time)
    requires OnePending(t.rows)
    ensures View(Apply(t, w, e, now).rows, e.task) == ApplyView(View(t.rows, e.task), w, e)
  {
    if Relevant(e) {
      var tool := Strip(e.data.toolName);
      match FindOpen(t.rows, e.task, tool)
      case Some(i) => ViewMerge(t.rows, w, e, i);
      case None =>
        RowsOfAppend(t.rows, Create(e, t.nextId, WorkflowOf(w, e.task), now), e.task);
        var own := RowsOf(t.rows, e.task);
        forall j | 0 <= j < |own| ensures !IsOpen(e.task, tool)(Cores(own)[j]) {
          RowsOfMembers(t.rows, e.task, own[j]);
          var k :| 0 <= k < |t.rows| && t.rows[k] == own[j];
          assert !IsOpen(e.task, tool)(t.rows[k]);
        }
        assert Cores(own + [Create(e, t.nextId, WorkflowOf(w, e.task), now)])
            == Cores(own) + [Core(Create(e, 0, WorkflowOf(w, e.task), 0))];
    }
  }

  lemma ViewMerge(rows: seq<Approval>, w: Workflows, e: Event, i: nat)
    requires OnePending(rows) && Relevant(e)
    requires i < |rows| && IsOpen(e.task, Strip(e.data.toolName))(rows[i])
    ensures View(rows[i := Merge(rows[i], e)], e.task) == ApplyView(View(rows, e.task), w, e)
  {
    var own := RowsOf(rows, e.task);
    var k := |RowsOf(rows[..i], e.task)|;
    RowsOfUpdate(rows, i, Merge(rows[i], e), e.task);
    RowsOfKeepsOnePending(rows, e.task);
    forall j | 0 <= j < |own| && j != k ensures !IsOpen(e.task, Strip(e.data.toolName))(Cores(own)[j]) {
      if j < k { assert !SameSlot(own[j], own[k]); } else { assert !SameSlot(own[k], own[j]); }
    }
    assert IsOpen(e.task, Strip(e.data.toolName))(Cores(own)[k]) && Cores(own)[k] in Cores(own);
    assert Core(Merge(Core(own[k]), e)) == Core(Merge(own[k], e));
    assert Cores(own[k := Merge(own[k], e)]) == MergeAll(Cores(own), e);
  }

  lemma SelectOne(events: seq<Event>, e: Event, ids: set<TaskId>)
    ensures Select(events + [e], ids) == Select(events, ids) + if Concerns(e, ids) then [e] else []
  {
    assert (events + [e])[..|events|] == events;
  }

  lemma {:induction false} ReplayView(t: Table, w: Workflows, events: seq<Event>, now: Time, task: TaskId)
    requires WellFormed(t)
    ensures WellFormed(Replay(t, w, events, now))
    ensures View(Replay(t, w, events, now).rows, task) == FoldView(View(t.rows, task), w, Select(events, {task}))
  {
    hide WellFormed, View, ApplyView;
    if events != [] {
      var init, e := events[..|events| - 1], events[|events| - 1];
      ReplayView(t, w, init, now, task);
      var mid := Replay(t, w, init, now);
      ApplyKeepsWellFormed(mid, w, e, now);
      assert events == init + [e];
      SelectOne(init, e, {task});
      var before := Select(init, {task});
      ReplayEvent(mid, w, e, now, task, before, View(t.rows, task));
    }
  }

  lemma ReplayEvent(t: Table, w: Workflows, e: Event, now: Time, task: TaskId, before: seq<Event>, v: seq<Approval>)
    requires WellFormed(t) && View(t.rows, task) == FoldView(v, w, before)
    ensures View(Apply(t, w, e, now).rows, task) ==
            FoldView(v, w, before + if Concerns(e, {task}) then [e] else [])
  {
    assert before + [] == before;
    if e.task == task { ViewApply(t, w, e, now); } else { OtherTasksUntouched(t, w, e, now, task); }
    FoldOneMore(v, w, before, e);
    hide Apply, FoldView, ApplyView, WellFormed, RowsOf;
  }

  lemma FoldOneMore(v: seq<Approval>, w: Workflows, before: seq<Event>, e: Event)
    ensures FoldView(v, w, before + [e]) == ApplyView(FoldView(v, w, before), w, e)
  {
    assert (before + [e])[..|before|] == before;
    hide ApplyView;
  }

  // The event that a step records.
  ghost function Recorded(s: World, w: Workflows, step: Step): Option<Event> {
    match step
    case Collect(e, _) => Some(e)
    case Act(c, eventId, now) =>
      if !Judge(s.table, w, c).Accepted? || RowById(s.table.rows, c.approvalId.value).None? then None
      else
        var row := RowById(s.table.rows, c.approvalId.value).value;
        Some(ResultEvent(s.table.rows[row], c, Judge(s.table, w, c).approved, eventId, now))
    case _ => None
  }

  // What a step makes of the view of a task.
  ghost function ViewAfter(s: World, w: Workflows, step: Step, task: TaskId): seq<Approval> {
    var view := View(s.table.rows, task);
    match step
    case DeleteTasks(ids) => if task in ids then [] else view
    case Backfill(ids, ordered, _) =>
      if task in ids && QueryResult(ordered, s.log, ids) then FoldView([], w, Select(ordered, {task})) else view
    case _ =>
      match Recorded(s, w, step)
      case Some(e) => if Concerns(e, {task}) then ApplyView(view, w, e) else view
      case None => view
  }

  lemma EventView(t: Table, w: Workflows, e: Event, now: Time, task: TaskId)
    requires WellFormed(t)
    ensures View(Apply(t, w, e, now).rows, task) == if Concerns(e, {task}) then ApplyView(View(t.rows, task), w, e) else View(t.rows, task)
  {
    if e.task == task { ViewApply(t, w, e, now); } else { OtherTasksUntouched(t, w, e, now, task); }
    hide Apply, RowsOf;
  }

  lemma NextView(s: World, w: Workflows, step: Step, task: TaskId)
    requires WellFormed(s.table)
    ensures View(Next(s, w, step).table.rows, task) == ViewAfter(s, w, step, task)
  {
    hide WellFormed, View, Apply, ApplyView, FoldView, Select, Judge, ResultEvent, Concerns, QueryResult, Rebuild, Without, Archived;
    match step
    case Collect(e, now) => EventView(s.table, w, e, now, task);
    case Deliver(_, _, _) => DeliverKeepsView(s, w, step, task);
    case Act(c, eventId, now) =>
      if Recorded(s, w, step).Some? { EventView(s.table, w, Recorded(s, w, step).value, now, task); }
    case Archive(ids, at) => ArchiveKeepsView(s.table.rows, ids, at, task);
    case DeleteTasks(ids) => WithoutView(s.table.rows, ids, task);
    case Backfill(ids, ordered, now) =>
      if QueryResult(ordered, s.log, ids) { RebuildView(s.table, w, ids, ordered, s.log, now, task); }
  }

  // A delivered prompt is not part of the view.
  lemma DeliverKeepsView(s: World, w: Workflows, step: Step, task: TaskId)
    requires step.Deliver?
    ensures View(Next(s, w, step).table.rows, task) == View(s.table.rows, task)
  {
    var rows := s.table.rows;
    var row := RowById(rows, step.approvalId);
    if row.Some? && rows[row.value].status == Pending {
      var a := rows[row.value].(delivery := Some(step.delivery), updatedAt := step.now);
      RowsOfUpdate(rows, row.value, a, task);
      assert Core(a) == Core(rows[row.value]);
    }
  }

  lemma {:induction false} ArchiveKeepsView(rows: seq<Approval>, ids: set<TaskId>, at: Option<Time>, task: TaskId)
    ensures View(Archived(rows, ids, at), task) == View(rows, task)
  {
    if rows == [] {
      assert Archived(rows, ids, at) == [];
    } else {
      var init, last := rows[..|rows| - 1], rows[|rows| - 1];
      ArchiveKeepsView(init, ids, at, task);
      var last' := if last.task in ids then last.(archivedAt := at) else last;
      assert rows == init + [last] && Archived(rows, ids, at) == Archived(init, ids, at) + [last'];
      RowsOfAppend(init, last, task);
      RowsOfAppend(Archived(init, ids, at), last', task);
      CoresAppend(RowsOf(init, task), last);
      CoresAppend(RowsOf(Archived(init, ids, at), task), last');
      hide RowsOf, Archived, Cores;
      assert Core(last) == Core(last');
      assert RowsOf(init, task) + [] == RowsOf(init, task);
      assert RowsOf(Archived(init, ids, at), task) + [] == RowsOf(Archived(init, ids, at), task);
    }
  }

  lemma CoresAppend(v: seq<Approval>, a: Approval)
    ensures Cores(v + [a]) == Cores(v) + [Core(a)]
  {
  }

  lemma WithoutView(rows: seq<Approval>, ids: set<TaskId>, task: TaskId)
    ensures View(Without(rows, ids), task) == if task in ids then [] else View(rows, task)
  {
    WithoutRows(rows, ids, task);
    hide RowsOf, Without;
  }

  lemma RebuildView(t: Table, w: Workflows, ids: set<TaskId>, ordered: seq<Event>, log: seq<Event>, now: Time, task: TaskId)
    requires WellFormed(t) && QueryResult(ordered, log, ids)
    ensures View(Rebuild(t, w, ids, ordered, now).rows, task) ==
            if task in ids then FoldView([], w, Select(ordered, {task})) else View(t.rows, task)
  {
    var start := t.(rows := Without(t.rows, ids));
    WithoutKeepsWellFormed(t, ids);
    WithoutView(t.rows, ids, task);
    hide WellFormed, QueryResult, View, Without, Replay, Select;
    if task in ids {
      ReplayView(start, w, ordered, now, task);
    } else {
      RebuildLeavesOthers(t, w, ids, ordered, log, now, task);
    }
  }

  lemma RebuildLeavesOthers(t: Table, w: Workflows, ids: set<TaskId>, ordered: seq<Event>, log: seq<Event>, now: Time, task: TaskId)
    requires QueryResult(ordered, log, ids) && task !in ids
    ensures RowsOf(Rebuild(t, w, ids, ordered, now).rows, task) == RowsOf(t.rows, task)
    ensures View(Rebuild(t, w, ids, ordered, now).rows, task) == View(t.rows, task)
  {
    WithoutRows(t.rows, ids, task);
    forall e <- ordered ensures e.task != task {
      SelectCount(log, ids, e);
      assert e in multiset(ordered);
    }
    ReplayLeavesOthers(t.(rows := Without(t.rows, ids)), w, ordered, now, task);
    hide RowsOf, Without, Replay;
  }

  lemma {:induction false} SelectForget(log: seq<Event>, ids: set<TaskId>, task: TaskId)
    ensures Select(Forget(log, ids), {task}) == if task in ids then [] else Select(log, {task})
  {
    if log != [] {
      var init, last := log[..|log| - 1], log[|log| - 1];
      SelectForget(init, ids, task);
      SelectOne(Forget(init, ids), last, {task});
    }
  }

  // A step adds what it records to the log, and only a deletion takes events away.
  lemma NextLog(s: World, w: Workflows, step: Step, task: TaskId)
    ensures Select(Next(s, w, step).log, {task}) ==
            if step.DeleteTasks? then if task in step.ids then [] else Select(s.log, {task})
            else if Recorded(s, w, step).Some? && Concerns(Recorded(s, w, step).value, {task})
            then Select(s.log, {task}) + [Recorded(s, w, step).value]
            else Select(s.log, {task})
  {
    if step.DeleteTasks? { SelectForget(s.log, step.ids, task); }
    if Recorded(s, w, step).Some? { SelectOne(s.log, Recorded(s, w, step).value, {task}); }
    hide Select, Forget, Judge, Apply, ResultEvent, QueryResult, Concerns;
    assert Select(s.log, {task}) + [] == Select(s.log, {task});
  }

  // Whenever the approvals of this task were replayed, its events had been logged in strictly increasing time.
  ghost predicate Orderly(w: Workflows, steps: seq<Step>, task: TaskId) {
    forall k | 0 <= k < |steps| :: steps[k].Backfill? && task in steps[k].ids ==> Chronological(Run(w, steps[..k]).log, task)
  }

  // In every reachable world the approvals of a task are the fold of that task's own events.
  lemma {:induction false} LiveView(w: Workflows, steps: seq<Step>, task: TaskId)
    requires Orderly(w, steps, task)
    ensures View(Run(w, steps).table.rows, task) == FoldView([], w, Select(Run(w, steps).log, {task}))
  {
    hide WellFormed, View, FoldView, Select, Next, Chronological;
    if steps == [] {
      assert View([], task) == [] && Select([], {task}) == [] by { NothingSelected(task, w); }
      NothingSelected(task, w);
    } else {
      var init, step := steps[..|steps| - 1], steps[|steps| - 1];
      assert Orderly(w, init, task) by { OrderlyInit(w, steps, task); }
      LiveView(w, init, task);
      ReachableTables(w, init, 0);
      NextView(Run(w, init), w, step, task);
      NextLog(Run(w, init), w, step, task);
      assert step.Backfill? && task in step.ids ==> Chronological(Run(w, init).log, task);
      ViewStaysFold(Run(w, init), w, step, task);
    }
  }

  lemma NothingSelected(task: TaskId, w: Workflows)
    ensures View([], task) == [] && Select([], {task}) == [] && FoldView([], w, []) == []
  {
  }

  lemma OrderlyInit(w: Workflows, steps: seq<Step>, task: TaskId)
    requires steps != [] && Orderly(w, steps, task)
    ensures Orderly(w, steps[..|steps| - 1], task)
  {
    var init := steps[..|steps| - 1];
    hide Chronological, Run;
    forall k | 0 <= k < |init| && init[k].Backfill? && task in init[k].ids ensures Chronological(Run(w, init[..k]).log, task) {
      assert init[..k] == steps[..k];
    }
  }

  lemma ViewStaysFold(s: World, w: Workflows, step: Step, task: TaskId)
    requires View(s.table.rows, task) == FoldView([], w, Select(s.log, {task}))
    requires step.Backfill? && task in step.ids ==> Chronological(s.log, task)
    ensures ViewAfter(s, w, step, task) == FoldView([], w, Select(Next(s, w, step).log, {task}))
  {
    NextLog(s, w, step, task);
    NothingSelected(task, w);
    hide View, FoldView, Select, Next, Chronological, QueryResult, ApplyView, Concerns;
    var before := Select(s.log, {task});
    assert before + [] == before;
    if step.Backfill? {
      if task in step.ids && QueryResult(step.ordered, s.log, step.ids) { QueryRestoresOrder(step.ordered, s.log, step.ids, task); }
    } else if Recorded(s, w, step).Some? {
      FoldOneMore([], w, before, Recorded(s, w, step).value);
    }
  }

  /******* The ordered event query *******/

  predicate NotLater(a: Event, b: Event) {
    a.task < b.task || (a.task == b.task && (a.timestamp < b.timestamp || (a.timestamp == b.timestamp && a.id <= b.id)))
  }

  // Any list the query may return: the selected events, ordered by task, time and id.
  ghost predicate QueryResult(ordered: seq<Event>, log: seq<Event>, ids: set<TaskId>) {
    && multiset(ordered) == multiset(Select(log, ids))
    && forall i, j | 0 <= i < j < |ordered| :: NotLater(ordered[i], ordered[j])
  }

  // The events of this task were logged in strictly increasing time.
  ghost predicate Chronological(log: seq<Event>, task: TaskId) {
    forall i, j | 0 <= i < j < |log| :: log[i].task == task && log[j].task == task ==> log[i].timestamp < log[j].timestamp
  }

  lemma {:induction false} SelectCount(events: seq<Event>, ids: set<TaskId>, e: Event)
    ensures multiset(Select(events, ids))[e] == if Concerns(e, ids) then multiset(events)[e] else 0
  {
    if events != [] {
      var init, last := events[..|events| - 1], events[|events| - 1];
      SelectCount(init, ids, e);
      assert events == init + [last];
    }
  }

  lemma {:induction false} SelectOrder(events: seq<Event>, ids: set<TaskId>, rel: (Event, Event) -> bool)
    requires forall i, j | 0 <= i < j < |events| :: rel(events[i], events[j])
    ensures forall i, j | 0 <= i < j < |Select(events, ids)| :: rel(Select(events, ids)[i], Select(events, ids)[j])
  {
    if events != [] {
      var init, last := events[..|events| - 1], events[|events| - 1];
      SelectOrder(init, ids, rel);
      forall x <- Select(init, ids) ensures rel(x, last) {
        SelectCount(init, ids, x);
        assert x in multiset(Select(init, ids));
        assert x in init;
      }
    }
  }

  ghost predicate Increasing(a: seq<Event>) {
    forall i, j | 0 <= i < j < |a| :: a[i].timestamp < a[j].timestamp
  }

  ghost predicate NonDecreasing(a: seq<Event>) {
    forall i, j | 0 <= i < j < |a| :: a[i].timestamp <= a[j].timestamp
  }

  lemma SameLast(a: seq<Event>, b: seq<Event>)
    requires a != [] && b != [] && multiset(a) == multiset(b) && Increasing(a) && NonDecreasing(b)
    ensures a[|a| - 1] == b[|b| - 1]
  {
    var x, y := a[|a| - 1], b[|b| - 1];
    assert x in multiset(b) && y in multiset(a);
    var i :| 0 <= i < |a| && a[i] == y;
    var j :| 0 <= j < |b| && b[j] == x;
  }

  lemma InitMultiset(a: seq<Event>)
    requires a != []
    ensures multiset(a[..|a| - 1]) == multiset(a) - multiset{a[|a| - 1]}
  {
    assert a == a[..|a| - 1] + [a[|a| - 1]];
  }

  ghost predicate Arranges(a: seq<Event>, b: seq<Event>) {
    multiset(a) == multiset(b) && Increasing(a) && NonDecreasing(b)
  }

  lemma ArrangedLength(a: seq<Event>, b: seq<Event>)
    requires Arranges(a, b)
    ensures |a| == |b|
  {
    assert |multiset(a)| == |a| && |multiset(b)| == |b|;
  }

  lemma ArrangedLast(a: seq<Event>, b: seq<Event>)
    requires Arranges(a, b) && a != [] && b != []
    ensures a[|a| - 1] == b[|b| - 1] && Arranges(a[..|a| - 1], b[..|b| - 1])
  {
    SameLast(a, b);
    InitMultiset(a);
    InitMultiset(b);
  }

  lemma {:induction false} ArrangedOnce(a: seq<Event>, b: seq<Event>)
    requires Arranges(a, b)
    ensures a == b
  {
    ArrangedLength(a, b);
    hide Arranges;
    if a != [] {
      var n := |a| - 1;
      ArrangedLast(a, b);
      ArrangedOnce(a[..n], b[..n]);
      assert a == a[..n] + [a[n]] && b == b[..n] + [b[n]];
    }
  }

  // A strictly increasing sequence is the only sorted arrangement of its elements.
  lemma SortedIsUnique(a: seq<Event>, b: seq<Event>)
    requires multiset(a) == multiset(b) && Increasing(a) && NonDecreasing(b)
    ensures a == b
  {
    ArrangedOnce(a, b);
  }

  // For a replayed task the query restores the order in which its events were logged.
  lemma QueryRestoresOrder(ordered: seq<Event>, log: seq<Event>, ids: set<TaskId>, task: TaskId)
    requires QueryResult(ordered, log, ids) && Chronological(log, task) && task in ids
    ensures Select(ordered, {task}) == Select(log, {task})
  {
    var a, b := Select(log, {task}), Select(ordered, {task});
    forall e ensures multiset(a)[e] == multiset(b)[e] {
      SelectCount(log, {task}, e);
      SelectCount(log, ids, e);
      SelectCount(ordered, {task}, e);
    }
    var earlier := (x: Event, y: Event) => x.task == task && y.task == task ==> x.timestamp < y.timestamp;
    SelectOrder(log, {task}, earlier);
    SelectOrder(ordered, {task}, NotLater);
    SelectedTask(log, task);
    SelectedTask(ordered, task);
    SortedIsUnique(a, b);
  }

  lemma SelectedTask(events: seq<Event>, task: TaskId)
    ensures forall e <- Select(events, {task}) :: e.task == task
  {
    forall e <- Select(events, {task}) ensures e.task == task {
      SelectCount(events, {task}, e);
      assert e in multiset(Select(events, {task}));
    }
  }

  lemma {:induction false} WithoutRows(rows: seq<Approval>, ids: set<TaskId>, task: TaskId)
    ensures RowsOf(Without(rows, ids), task) == if task in ids then [] else RowsOf(rows, task)
  {
    if rows != [] {
      var init, last := rows[..|rows| - 1], rows[|rows| - 1];
      WithoutRows(init, ids, task);
      RowsOfAppend(Without(init, ids), last, task);
    }
  }

  lemma {:induction false} WithoutMembers(rows: seq<Approval>, ids: set<TaskId>, a: Approval)
    ensures a in Without(rows, ids) <==> a in rows && a.task !in ids
  {
    if rows != [] {
      var init, last := rows[..|rows| - 1], rows[|rows| - 1];
      WithoutMembers(init, ids, a);
      assert rows == init + [last];
    }
  }

  lemma {:induction false} WithoutKeepsPairs(rows: seq<Approval>, ids: set<TaskId>, rel: (Approval, Approval) -> bool)
    requires forall i, j | 0 <= i < j < |rows| :: rel(rows[i], rows[j])
    ensures forall i, j | 0 <= i < j < |Without(rows, ids)| :: rel(Without(rows, ids)[i], Without(rows, ids)[j])
  {
    if rows != [] {
      var init, last := rows[..|rows| - 1], rows[|rows| - 1];
      WithoutKeepsPairs(init, ids, rel);
      forall a <- Without(init, ids) ensures rel(a, last) {
        WithoutMembers(init, ids, a);
        assert a in init;
      }
    }
  }

  lemma WithoutKeepsWellFormed(t: Table, ids: set<TaskId>)
    requires WellFormed(t)
    ensures WellFormed(t.(rows := Without(t.rows, ids)))
  {
    var rest := Without(t.rows, ids);
    var apart := (a: Approval, b: Approval) =>
      a.id != b.id && !(a.task == b.task && a.tool == b.tool && a.status == Pending && b.status == Pending);
    forall i, j | 0 <= i < j < |t.rows| ensures apart(t.rows[i], t.rows[j]) {
      assert !SameSlot(t.rows[i], t.rows[j]);
    }
    WithoutKeepsPairs(t.rows, ids, apart);
    forall a <- rest ensures a in t.rows { WithoutMembers(t.rows, ids, a); }
    hide Without;
    forall i, j | 0 <= i < j < |rest| ensures !SameSlot(rest[i], rest[j]) { assert apart(rest[i], rest[j]); }
    forall i | 0 <= i < |rest| ensures rest[i].id < t.nextId { assert rest[i] in rest; }
    forall i, j | 0 <= i < j < |rest| ensures rest[i].id != rest[j].id { assert apart(rest[i], rest[j]); }
  }

  lemma {:induction false} ReplayLeavesOthers(t: Table, w: Workflows, events: seq<Event>, now: Time, task: TaskId)
    requires forall e <- events :: e.task != task
    ensures RowsOf(Replay(t, w, events, now).rows, task) == RowsOf(t.rows, task)
  {
    if events != [] {
      var init := events[..|events| - 1];
      ReplayLeavesOthers(t, w, init, now, task);
      assert events[|events| - 1] in events;
      OtherTasksUntouched(Replay(t, w, init, now), w, events[|events| - 1], now, task);
    }
  }

  ghost predicate Unarchived(rows: seq<Approval>, task: TaskId) {
    forall a <- rows :: a.task == task ==> a.archivedAt == None
  }

  lemma ApplyKeepsUnarchived(t: Table, w: Workflows, e: Event, now: Time, task: TaskId)
    requires Unarchived(t.rows, task)
    ensures Unarchived(Apply(t, w, e, now).rows, task)
  {
    hide Relevant;
    if Relevant(e) && FindOpen(t.rows, e.task, Strip(e.data.toolName)).Some? {
      var i := FindOpen(t.rows, e.task, Strip(e.data.toolName)).value;
      assert t.rows[i] in t.rows;
      forall a <- t.rows[i := Merge(t.rows[i], e)] ensures a == Merge(t.rows[i], e) || a in t.rows {}
    }
  }

  lemma {:induction false} ReplayKeepsUnarchived(t: Table, w: Workflows, events: seq<Event>, now: Time, task: TaskId)
    requires Unarchived(t.rows, task)
    ensures Unarchived(Replay(t, w, events, now).rows, task)
  {
    if events != [] {
      var init := events[..|events| - 1];
      ReplayKeepsUnarchived(t, w, init, now, task);
      hide Unarchived, Apply;
      ApplyKeepsUnarchived(Replay(t, w, init, now), w, events[|events| - 1], now, task);
    }
  }

  lemma RebuildUnarchives(t: Table, w: Workflows, ids: set<TaskId>, ordered: seq<Event>, now: Time, task: TaskId)
    requires task in ids
    ensures Unarchived(Rebuild(t, w, ids, ordered, now).rows, task)
  {
    var start := Without(t.rows, ids);
    forall a <- start ensures a.task != task { WithoutMembers(t.rows, ids, a); }
    ReplayKeepsUnarchived(t.(rows := start), w, ordered, now, task);
  }

  // Replaying the log of any run gives a replayed task whose events were logged in strictly increasing
  // time the approvals that live processing gave it, all of them out of the archive, and leaves the rows of
  // other tasks exactly as they were.
  lemma ReplayRebuildsLiveState(
    w: Workflows, steps: seq<Step>, ids: set<TaskId>, ordered: seq<Event>, now: Time, task: TaskId)
    requires Orderly(w, steps, task) && Chronological(Run(w, steps).log, task)
    requires QueryResult(ordered, Run(w, steps).log, ids)
    ensures var live := Run(w, steps).table;
            var rebuilt := Rebuild(live, w, ids, ordered, now);
            && (task in ids ==> View(rebuilt.rows, task) == View(live.rows, task) && Unarchived(rebuilt.rows, task))
            && (task !in ids ==> RowsOf(rebuilt.rows, task) == RowsOf(live.rows, task))
            && WellFormed(rebuilt)
  {
    var s := Run(w, steps);
    hide *;
    ReachableTables(w, steps, 0);
    RebuildCarries(s.table, w, ids, ordered, now);
    RebuildView(s.table, w, ids, ordered, s.log, now, task);
    if task in ids {
      QueryRestoresOrder(ordered, s.log, ids, task);
      LiveView(w, steps, task);
      RebuildUnarchives(s.table, w, ids, ordered, now, task);
    } else {
      RebuildLeavesOthers(s.table, w, ids, ordered, s.log, now, task);
    }
  }

  /******* One tool of a task *******/

  predicate NamesTool(e: Event, tool: string) {
    Strip(e.data.toolName) == tool
  }

  function OfTool(v: seq<Approval>, tool: string): seq<Approval> {
    if v == [] then []
    else
      var init, last := OfTool(v[..|v| - 1], tool), v[|v| - 1];
      if last.tool == tool then init + [last] else init
  }

  function ToolEvents(events: seq<Event>, tool: string): seq<Event> {
    if events == [] then []
    else
      var init, last := ToolEvents(events[..|events| - 1], tool), events[|events| - 1];
      if NamesTool(last, tool) then init + [last] else init
  }

  lemma OfToolAppend(v: seq<Approval>, a: Approval, tool: string)
    ensures OfTool(v + [a], tool) == OfTool(v, tool) + if a.tool == tool then [a] else []
  {
    assert (v + [a])[..|v|] == v;
  }

  lemma {:induction false} OfToolMembers(v: seq<Approval>, tool: string, a: Approval)
    ensures a in OfTool(v, tool) <==> a in v && a.tool == tool
  {
    if v != [] {
      OfToolMembers(v[..|v| - 1], tool, a);
      assert v == v[..|v| - 1] + [v[|v| - 1]];
    }
  }

  // What an event does to a single approval of a view.
  function MergeOne(a: Approval, e: Event): Approval {
    if IsOpen(e.task, Strip(e.data.toolName))(a) then Core(Merge(a, e)) else a
  }

  lemma MergeLast(v: seq<Approval>, a: Approval, e: Event)
    ensures MergeAll(v + [a], e) == MergeAll(v, e) + [MergeOne(a, e)]
  {
  }

  lemma {:induction false} OfToolMerge(v: seq<Approval>, e: Event, tool: string)
    ensures OfTool(MergeAll(v, e), tool) == if NamesTool(e, tool) then MergeAll(OfTool(v, tool), e) else OfTool(v, tool)
  {
    hide Merge, Core;
    if v == [] {
      assert MergeAll(v, e) == [];
    } else {
      var init, last := v[..|v| - 1], v[|v| - 1];
      assert v == init + [last];
      OfToolMerge(init, e, tool);
      MergeLast(init, last, e);
      OfToolAppend(MergeAll(init, e), MergeOne(last, e), tool);
      OfToolAppend(init, last, tool);
      MergeLast(OfTool(init, tool), last, e);
      MergeKeepsTool(last, e);
      hide OfTool, MergeAll;
    }
  }

  lemma MergeKeepsTool(a: Approval, e: Event)
    ensures MergeOne(a, e).tool == a.tool
    ensures !NamesTool(e, a.tool) ==> MergeOne(a, e) == a
  {
  }

  // An event acts on the approvals of its own tool alone.
  lemma OfToolApply(v: seq<Approval>, w: Workflows, e: Event, tool: string)
    ensures OfTool(ApplyView(v, w, e), tool) ==
            if NamesTool(e, tool) then ApplyView(OfTool(v, tool), w, e) else OfTool(v, tool)
  {
    if Relevant(e) {
      forall a ensures a in OfTool(v, tool) <==> a in v && a.tool == tool { OfToolMembers(v, tool, a); }
      OfToolMerge(v, e, tool);
      OfToolAppend(v, Core(Create(e, 0, WorkflowOf(w, e.task), 0)), tool);
      hide OfTool, MergeAll, Relevant;
    }
  }

  lemma {:induction false} OfToolFold(w: Workflows, events: seq<Event>, tool: string)
    ensures OfTool(FoldView([], w, events), tool) == FoldView([], w, ToolEvents(events, tool))
  {
    if events != [] {
      var init, e := events[..|events| - 1], events[|events| - 1];
      OfToolFold(w, init, tool);
      OfToolApply(FoldView([], w, init), w, e, tool);
      if NamesTool(e, tool) { FoldOneMore([], w, ToolEvents(init, tool), e); }
      hide ApplyView, OfTool;
    }
  }

  lemma {:induction false} ToolCount(events: seq<Event>, tool: string, e: Event)
    ensures multiset(ToolEvents(events, tool))[e] == if NamesTool(e, tool) then multiset(events)[e] else 0
  {
    if events != [] {
      var init, last := events[..|events| - 1], events[|events| - 1];
      ToolCount(init, tool, e);
      assert events == init + [last];
    }
  }

  lemma {:induction false} ToolOrder(events: seq<Event>, tool: string, rel: (Event, Event) -> bool)
    requires forall i, j | 0 <= i < j < |events| :: NamesTool(events[i], tool) && NamesTool(events[j], tool) ==> rel(events[i], events[j])
    ensures forall i, j | 0 <= i < j < |ToolEvents(events, tool)| :: rel(ToolEvents(events, tool)[i], ToolEvents(events, tool)[j])
  {
    if events != [] {
      var init, last := events[..|events| - 1], events[|events| - 1];
      ToolOrder(init, tool, rel);
      if NamesTool(last, tool) {
        forall x <- ToolEvents(init, tool) ensures rel(x, last) {
          ToolCount(init, tool, x);
          assert x in multiset(ToolEvents(init, tool));
          assert x in init;
        }
      }
    }
  }

  // The events of this task that name this tool were logged in strictly increasing time.
  ghost predicate ToolChronological(log: seq<Event>, task: TaskId, tool: string) {
    forall i, j | 0 <= i < j < |log| ::
      log[i].task == task && log[j].task == task && NamesTool(log[i], tool) && NamesTool(log[j], tool) ==>
        log[i].timestamp < log[j].timestamp
  }

  // The query restores the order of the events of one tool, whatever it does to those of others.
  lemma QueryRestoresToolOrder(ordered: seq<Event>, log: seq<Event>, ids: set<TaskId>, task: TaskId, tool: string)
    requires QueryResult(ordered, log, ids) && ToolChronological(log, task, tool) && task in ids
    ensures ToolEvents(Select(ordered, {task}), tool) == ToolEvents(Select(log, {task}), tool)
  {
    var logged, queried := Select(log, {task}), Select(ordered, {task});
    var a, b := ToolEvents(logged, tool), ToolEvents(queried, tool);
    forall e ensures multiset(a)[e] == multiset(b)[e] {
      ToolCount(logged, tool, e);
      ToolCount(queried, tool, e);
      SelectCount(log, {task}, e);
      SelectCount(log, ids, e);
      SelectCount(ordered, {task}, e);
    }
    var earlier := (x: Event, y: Event) =>
      x.task == task && y.task == task && NamesTool(x, tool) && NamesTool(y, tool) ==> x.timestamp < y.timestamp;
    SelectOrder(log, {task}, earlier);
    SelectOrder(ordered, {task}, NotLater);
    SelectedTask(log, task);
    SelectedTask(ordered, task);
    ToolOrder(logged, tool, (x: Event, y: Event) => x.timestamp < y.timestamp);
    ToolOrder(queried, tool, (x: Event, y: Event) => x.timestamp <= y.timestamp);
    SortedIsUnique(a, b);
  }

  // Whenever the approvals of this task were replayed, the events of this tool were in order.
  ghost predicate ToolOrderly(w: Workflows, steps: seq<Step>, task: TaskId, tool: string) {
    forall k | 0 <= k < |steps| ::
      steps[k].Backfill? && task in steps[k].ids ==> ToolChronological(Run(w, steps[..k]).log, task, tool)
  }

  lemma ToolOrderlyInit(w: Workflows, steps: seq<Step>, task: TaskId, tool: string)
    requires steps != [] && ToolOrderly(w, steps, task, tool)
    ensures ToolOrderly(w, steps[..|steps| - 1], task, tool)
  {
    var init := steps[..|steps| - 1];
    hide ToolChronological, Run;
    forall k | 0 <= k < |init| && init[k].Backfill? && task in init[k].ids
      ensures ToolChronological(Run(w, init[..k]).log, task, tool)
    {
      assert init[..k] == steps[..k];
    }
  }

  // In every reachable world the approvals of one tool are the fold of the events of that tool.
  lemma {:induction false} LiveToolView(w: Workflows, steps: seq<Step>, task: TaskId, tool: string)
    requires ToolOrderly(w, steps, task, tool)
    ensures OfTool(View(Run(w, steps).table.rows, task), tool) ==
            FoldView([], w, ToolEvents(Select(Run(w, steps).log, {task}), tool))
  {
    hide WellFormed, View, FoldView, Select, Next, ToolChronological, OfTool, ToolEvents;
    if steps == [] {
      NothingSelected(task, w);
      NothingOfTool(tool);
    } else {
      var init, step := steps[..|steps| - 1], steps[|steps| - 1];
      assert ToolOrderly(w, init, task, tool) by { ToolOrderlyInit(w, steps, task, tool); }
      LiveToolView(w, init, task, tool);
      ReachableTables(w, init, 0);
      NextView(Run(w, init), w, step, task);
      assert step.Backfill? && task in step.ids ==> ToolChronological(Run(w, init).log, task, tool);
      ToolViewStaysFold(Run(w, init), w, step, task, tool);
    }
  }

  lemma NothingOfTool(tool: string)
    ensures OfTool([], tool) == [] && ToolEvents([], tool) == []
  {
  }

  lemma ToolEventsAppend(events: seq<Event>, e: Event, tool: string)
    ensures ToolEvents(events + [e], tool) == ToolEvents(events, tool) + if NamesTool(e, tool) then [e] else []
  {
    assert (events + [e])[..|events|] == events;
  }

  lemma ToolViewStaysFold(s: World, w: Workflows, step: Step, task: TaskId, tool: string)
    requires OfTool(View(s.table.rows, task), tool) == FoldView([], w, ToolEvents(Select(s.log, {task}), tool))
    requires step.Backfill? && task in step.ids ==> ToolChronological(s.log, task, tool)
    ensures OfTool(ViewAfter(s, w, step, task), tool) ==
            FoldView([], w, ToolEvents(Select(Next(s, w, step).log, {task}), tool))
  {
    NextLog(s, w, step, task);
    NothingSelected(task, w);
    NothingOfTool(tool);
    hide View, FoldView, Select, Next, ToolChronological, QueryResult, ApplyView, Concerns, OfTool, ToolEvents, NamesTool;
    var before := Select(s.log, {task});
    assert before + [] == before;
    if step.Backfill? {
      if task in step.ids && QueryResult(step.ordered, s.log, step.ids) {
        QueryRestoresToolOrder(step.ordered, s.log, step.ids, task, tool);
        OfToolFold(w, Select(step.ordered, {task}), tool);
      }
    } else if Recorded(s, w, step).Some? {
      var e := Recorded(s, w, step).value;
      assert ToolEvents(before, tool) + [] == ToolEvents(before, tool);
      ToolEventsAppend(before, e, tool);
      FoldOneMore([], w, ToolEvents(before, tool), e);
      OfToolApply(View(s.table.rows, task), w, e, tool);
    }
  }

  // For one tool of a replayed task its own chronology is enough: however its events are interleaved or
  // tied in time with those of other tools, replay gives the tool the approvals of live processing.
  lemma ReplayRebuildsTool(
    w: Workflows, steps: seq<Step>, ids: set<TaskId>, ordered: seq<Event>, now: Time, task: TaskId, tool: string)
    requires QueryResult(ordered, Run(w, steps).log, ids) && task in ids
    requires ToolOrderly(w, steps, task, tool) && ToolChronological(Run(w, steps).log, task, tool)
    ensures var live := Run(w, steps).table;
            OfTool(View(Rebuild(live, w, ids, ordered, now).rows, task), tool) == OfTool(View(live.rows, task), tool)
  {
    var s := Run(w, steps);
    hide *;
    ReachableTables(w, steps, 0);
    RebuildView(s.table, w, ids, ordered, s.log, now, task);
    LiveToolView(w, steps, task, tool);
    QueryRestoresToolOrder(ordered, s.log, ids, task, tool);
    OfToolFold(w, Select(ordered, {task}), tool);
  }
}
