/**
  The gate that keeps a session open while asynchronous subagents are running.

  `Step` is the effect of one message on the session; `Outcome` is the result of a whole session.
  The class `GatedSession` runs the loop in place.
 */
module SubagentGate {
  import opened Wrappers

  type ToolUseId = string
  type TaskId = string

  datatype Block =
    | Text(text: string)
    | ToolUse(id: ToolUseId, name: string, recipient: string)
    | Thinking

  datatype Message =
    | Assistant(blocks: seq<Block>)
    | ToolResult(toolUseId: ToolUseId, isError: bool)
    | ResultMessage(text: string)
    | TaskStarted(toolUseId: ToolUseId, taskId: TaskId)
    | TaskUpdated
    | TaskNotification(toolUseId: ToolUseId, taskId: TaskId, status: string)
    | Other

  // What the query stream yields: messages, then its end or an error.
  datatype Event = Received(message: Message) | Done | Failed

  datatype State = State(
    pending: set<ToolUseId>,
    owners: map<TaskId, ToolUseId>,
    toolNames: map<ToolUseId, string>,
    hadSubagents: bool,
    finalText: string,
    lastResult: string,
    interim: string,
    promptClosed: bool,
    finished: bool)

  const INITIAL := State({}, map[], map[], false, "", "", "", false, false)

  const TERMINAL: set<string> := {"completed", "failed", "cancelled", "canceled"}

  /******* One message *******/

  // The finished task that a SendMessage call resumes, if any.
  function ResumedRecipient(name: string, recipient: string, owners: map<TaskId, ToolUseId>, pending: set<ToolUseId>)
    : Option<TaskId>
  {
    if name != "SendMessage" then None
    else if recipient != "" && recipient in owners && owners[recipient] !in pending then Some(recipient)
    else None
  }

  function StepBlock(s: State, b: Block): State {
    match b
    case ToolUse(id, name, recipient) =>
      var named := s.(toolNames := s.toolNames[id := name]);
      if name == "Agent" || name == "Task" then named.(hadSubagents := true, pending := s.pending + {id})
      else
        (match ResumedRecipient(name, recipient, s.owners, s.pending)
         case Some(task) => named.(pending := s.pending + {id}, owners := s.owners[task := id])
         case None => named)
    case _ => s
  }

  function StepBlocks(s: State, blocks: seq<Block>): State {
    if blocks == [] then s else StepBlock(StepBlocks(s, blocks[..|blocks| - 1]), blocks[|blocks| - 1])
  }

  function SetOwner(s: State, task: TaskId, id: ToolUseId): State {
    var replaced := task in s.owners && s.owners[task] != "" && s.owners[task] != id;
    s.(pending := (if replaced then s.pending - {s.owners[task]} else s.pending) + {id},
       owners := s.owners[task := id])
  }

  function Notified(s: State, n: Message): ToolUseId
    requires n.TaskNotification?
  {
    if n.toolUseId != "" then n.toolUseId else if n.taskId in s.owners then s.owners[n.taskId] else ""
  }

  function Step(s: State, m: Message): State {
    match m
    case Assistant(blocks) => StepBlocks(s, blocks)
    case ToolResult(id, isError) =>
      if isError && id in s.toolNames && s.toolNames[id] == "Agent" then s.(pending := s.pending - {id}) else s
    case ResultMessage(text) =>
      var accepted :=
        if s.hadSubagents && s.pending != {} then s.(interim := text)
        else s.(finalText := text, lastResult := text);
      if s.hadSubagents then accepted.(finished := s.pending == {})
      else if accepted.lastResult != "" && s.pending == {} then accepted.(promptClosed := true)
      else accepted
    case TaskStarted(id, task) =>
      var had := s.(hadSubagents := true);
      if id != "" && task != "" then SetOwner(had, task, id)
      else if id != "" then had.(pending := s.pending + {id})
      else had
    case TaskNotification(_, task, status) =>
      var id := Notified(s, m);
      var owned := if id != "" && task != "" then s.(owners := s.owners[task := id]) else s;
      if id != "" && status in TERMINAL then owned.(pending := s.pending - {id}) else owned
    case _ => s
  }

  /******* A whole session *******/

  datatype Outcome = Running(state: State) | Returned(text: string) | Raised

  // The session after a sequence of events; nothing is read after it ended.
  function Session(events: seq<Event>): Outcome {
    if events == [] then Running(INITIAL)
    else
      match Session(events[..|events| - 1])
      case Running(s) => React(s, events[|events| - 1])
      case ended => ended
  }

  function React(s: State, e: Event): Outcome {
    match e
    case Received(m) => var s' := Step(s, m); if s'.finished then Returned(s'.finalText) else Running(s')
    case Done => if s.hadSubagents then Raised else Returned(s.finalText)
    case Failed => Raised
  }

  predicate StartsSubagent(m: Message) {
    match m
    case Assistant(blocks) => exists b <- blocks :: b.ToolUse? && (b.name == "Agent" || b.name == "Task")
    case TaskStarted(_, _) => true
    case _ => false
  }

  predicate AnyStart(events: seq<Event>) {
    exists e <- events :: e.Received? && StartsSubagent(e.message)
  }

  lemma {:induction false} BlocksStart(s: State, blocks: seq<Block>)
    ensures StepBlocks(s, blocks).hadSubagents <==>
            s.hadSubagents || exists b <- blocks :: b.ToolUse? && (b.name == "Agent" || b.name == "Task")
    ensures StepBlocks(s, blocks).finished == s.finished && StepBlocks(s, blocks).finalText == s.finalText
    ensures StepBlocks(s, blocks).promptClosed == s.promptClosed
    ensures s.pending <= StepBlocks(s, blocks).pending
  {
    if blocks != [] {
      var init, last := blocks[..|blocks| - 1], blocks[|blocks| - 1];
      BlocksStart(s, init);
      BlockStarts(StepBlocks(s, init), last);
      hide StepBlock;
      assert blocks == init + [last];
    }
  }

  lemma BlockStarts(s: State, b: Block)
    ensures StepBlock(s, b).hadSubagents <==> s.hadSubagents || (b.ToolUse? && (b.name == "Agent" || b.name == "Task"))
    ensures StepBlock(s, b).finished == s.finished && StepBlock(s, b).finalText == s.finalText
    ensures StepBlock(s, b).promptClosed == s.promptClosed && s.pending <= StepBlock(s, b).pending
  {
  }

  lemma StepStarts(s: State, m: Message)
    ensures Step(s, m).hadSubagents <==> s.hadSubagents || StartsSubagent(m)
  {
    if m.Assistant? { BlocksStart(s, m.blocks); }
  }

  // While a session runs, it knows whether any subagent was started.
  lemma {:induction false} RunningKnowsStarts(events: seq<Event>)
    requires Session(events).Running?
    ensures Session(events).state.hadSubagents <==> AnyStart(events)
    ensures !Session(events).state.finished
  {
    if events != [] {
      var init, e := events[..|events| - 1], events[|events| - 1];
      RunningKnowsStarts(init);
      assert events == init + [e];
      StepStarts(Session(init).state, e.message);
    }
  }

  lemma FinishingStep(s: State, m: Message)
    requires !s.finished && Step(s, m).finished
    ensures m.ResultMessage? && s.hadSubagents && s.pending == {} && Step(s, m).finalText == m.text
  {
    if m.Assistant? { BlocksStart(s, m.blocks); }
  }

  // A session that started any subagent returns normally only at a result message that is handled
  // while nothing is pending, and with the text of that message.  In particular no earlier result, and
  // no result seen while a subagent was pending, ever becomes its result.
  lemma GatedReturn(history: seq<Event>, e: Event)
    requires Session(history).Running? && AnyStart(history)
    requires Session(history + [e]).Returned?
    ensures e.Received? && e.message.ResultMessage?
    ensures Session(history).state.pending == {}
    ensures Session(history + [e]) == Returned(e.message.text)
  {
    assert (history + [e])[..|history|] == history;
    RunningKnowsStarts(history);
    if e.Received? { FinishingStep(Session(history).state, e.message); }
  }

  /******* How ids become pending and stop being so *******/

  // At block i of a message a finished task is resumed: its owner is known and not pending at that point.
  ghost predicate ResumesAt(s: State, blocks: seq<Block>, i: nat, task: TaskId) {
    && i < |blocks| && blocks[i].ToolUse? && blocks[i].name == "SendMessage" && blocks[i].recipient == task && task != ""
    && var now := StepBlocks(s, blocks[..i]); task in now.owners && now.owners[task] !in now.pending
  }

  // Message m, handled in state s, starts or resumes the subagent with this id.
  ghost predicate Awaits(s: State, m: Message, id: ToolUseId) {
    match m
    case Assistant(blocks) =>
      exists i :: 0 <= i < |blocks| && blocks[i].ToolUse? && blocks[i].id == id &&
                  (blocks[i].name == "Agent" || blocks[i].name == "Task" || ResumesAt(s, blocks, i, blocks[i].recipient))
    case TaskStarted(i, _) => i == id && id != ""
    case _ => false
  }

  // Message m, handled in state s, ends the wait for this id.
  predicate Releases(s: State, m: Message, id: ToolUseId) {
    match m
    case ToolResult(i, isError) => i == id && isError && id in s.toolNames && s.toolNames[id] == "Agent"
    case TaskNotification(i, task, status) =>
      && id != "" && (i == id || (i == "" && task in s.owners && s.owners[task] == id))
      && (status == "completed" || status == "failed" || status == "cancelled" || status == "canceled")
    case TaskStarted(new_, task) => new_ != "" && new_ != id && task != "" && id != "" && task in s.owners && s.owners[task] == id
    case _ => false
  }

  lemma BlockAwaits(s: State, b: Block, id: ToolUseId)
    ensures id in StepBlock(s, b).pending <==>
            id in s.pending || (b.ToolUse? && b.id == id &&
              (b.name == "Agent" || b.name == "Task" || ResumesAt(s, [b], 0, b.recipient)))
  {
    assert [b][..0] == [];
  }

  lemma ResumesInPrefix(s: State, blocks: seq<Block>, i: nat, task: TaskId)
    requires i < |blocks|
    ensures i < |blocks| - 1 ==> (ResumesAt(s, blocks, i, task) <==> ResumesAt(s, blocks[..|blocks| - 1], i, task))
    ensures i == |blocks| - 1 ==> (ResumesAt(s, blocks, i, task) <==> ResumesAt(StepBlocks(s, blocks[..i]), [blocks[i]], 0, task))
  {
    var init := blocks[..|blocks| - 1];
    if i < |init| { assert init[..i] == blocks[..i]; }
    assert [blocks[i]][..0] == [];
  }

  lemma {:induction false} BlocksAwait(s: State, blocks: seq<Block>, id: ToolUseId)
    ensures id in StepBlocks(s, blocks).pending <==> id in s.pending || Awaits(s, Assistant(blocks), id)
  {
    if blocks != [] {
      var n := |blocks| - 1;
      var init, b := blocks[..n], blocks[n];
      BlocksAwait(s, init, id);
      BlockAwaits(StepBlocks(s, init), b, id);
      forall i | 0 <= i < |blocks| && blocks[i].ToolUse? { ResumesInPrefix(s, blocks, i, blocks[i].recipient); }
      hide StepBlock, StepBlocks, ResumesAt;
    }
  }

  // After a message exactly those ids are pending that it starts or resumes, and those that were pending
  // and that it does not release.
  lemma PendingStep(s: State, m: Message, id: ToolUseId)
    ensures id in Step(s, m).pending <==> Awaits(s, m, id) || (id in s.pending && !Releases(s, m, id))
  {
    if m.Assistant? {
      BlocksAwait(s, m.blocks, id);
      hide StepBlocks, ResumesAt;
    }
  }

  lemma LeavesOnlyIfReleased(s: State, m: Message, id: ToolUseId)
    requires id in s.pending && id !in Step(s, m).pending
    ensures Releases(s, m, id)
  {
    PendingStep(s, m, id);
    hide Step;
  }

  ghost predicate AwaitedAt(events: seq<Event>, k: nat, id: ToolUseId) {
    && k < |events| && events[k].Received? && Session(events[..k]).Running?
    && Awaits(Session(events[..k]).state, events[k].message, id)
  }

  ghost predicate StillAwaited(events: seq<Event>, j: nat, id: ToolUseId) {
    AwaitedAt(events, j, id) && forall k | j < k < |events| :: !ReleasedAt(events, k, id)
  }

  lemma EarlierEvents(events: seq<Event>, id: ToolUseId)
    requires events != []
    ensures var init := events[..|events| - 1];
            forall k: nat | k < |init| ::
              (AwaitedAt(events, k, id) <==> AwaitedAt(init, k, id)) && (ReleasedAt(events, k, id) <==> ReleasedAt(init, k, id))
  {
    var init := events[..|events| - 1];
    hide Session, Awaits, Releases;
    forall k: nat | k < |init| ensures init[..k] == events[..k] && init[k] == events[k] {}
  }

  lemma AwaitedOneMore(events: seq<Event>, id: ToolUseId)
    requires events != []
    ensures var n, init := |events| - 1, events[..|events| - 1];
            (exists j: nat :: StillAwaited(events, j, id)) <==>
              AwaitedAt(events, n, id) || ((exists j: nat :: StillAwaited(init, j, id)) && !ReleasedAt(events, n, id))
  {
    var n, init := |events| - 1, events[..|events| - 1];
    EarlierEvents(events, id);
    NotBeyond(events, id);
    hide AwaitedAt, ReleasedAt;
    if AwaitedAt(events, n, id) { assert StillAwaited(events, n, id); }
    if j: nat :| StillAwaited(init, j, id) {
      NotBeyond(init, id);
      if !ReleasedAt(events, n, id) { assert StillAwaited(events, j, id); }
    }
    if j: nat :| StillAwaited(events, j, id) {
      if j < n { assert StillAwaited(init, j, id); }
    }
  }

  lemma NotBeyond(events: seq<Event>, id: ToolUseId)
    ensures forall k: nat | AwaitedAt(events, k, id) :: k < |events|
  {
  }

  // While a session runs, exactly those ids are pending that were started or resumed by some message and
  // released by no later one.
  lemma {:induction false} PendingIff(events: seq<Event>, id: ToolUseId)
    requires Session(events).Running?
    ensures id in Session(events).state.pending <==> exists j: nat :: StillAwaited(events, j, id)
  {
    if events != [] {
      var n := |events| - 1;
      var init := events[..n];
      PendingIff(init, id);
      PendingStep(Session(init).state, events[n].message, id);
      AwaitedOneMore(events, id);
      hide Step, Awaits, Releases, StillAwaited;
    }
  }

  // When a session returns at a message, every id that was started or resumed before has been released
  // since.
  lemma ReturnsAfterAllReleased(history: seq<Event>, e: Event, j: nat, id: ToolUseId)
    requires Session(history).Running? && AnyStart(history)
    requires Session(history + [e]).Returned? && AwaitedAt(history, j, id)
    ensures exists k: nat :: j < k && ReleasedAt(history, k, id)
  {
    GatedReturn(history, e);
    PendingIff(history, id);
    if forall k: nat :: j < k ==> !ReleasedAt(history, k, id) {
      assert StillAwaited(history, j, id);
    }
  }

  lemma NothingAwaited(history: seq<Event>)
    requires Session(history).Running?
    ensures Session(history).state.pending == {} <==> forall id, j: nat :: !StillAwaited(history, j, id)
  {
    var pending := Session(history).state.pending;
    forall id ensures id in pending <==> exists j: nat :: StillAwaited(history, j, id) { PendingIff(history, id); }
    hide StillAwaited, Session;
    if pending == {} {
      forall id, j: nat ensures !StillAwaited(history, j, id) { assert id !in pending; }
    } else {
      var id :| id in pending;
      var j: nat :| StillAwaited(history, j, id);
    }
  }

  // Once a subagent was started, a session ends normally exactly at a result message for which nothing
  // that was started or resumed is still awaited; the end of the stream or an error raises.
  lemma ReturnsIff(history: seq<Event>, e: Event)
    requires Session(history).Running? && AnyStart(history)
    ensures Session(history + [e]).Returned? <==>
            e.Received? && e.message.ResultMessage? && forall id, j: nat :: !StillAwaited(history, j, id)
    ensures Session(history + [e]).Raised? <==> e.Done? || e.Failed?
  {
    assert (history + [e])[..|history|] == history;
    RunningKnowsStarts(history);
    NothingAwaited(history);
    hide StillAwaited;
    if e.Received? && e.message.Assistant? { BlocksStart(Session(history).state, e.message.blocks); }
    if e.Received? && Step(Session(history).state, e.message).finished { FinishingStep(Session(history).state, e.message); }
  }

  predicate LastResult(events: seq<Event>, k: nat) {
    && k < |events| && events[k].Received? && events[k].message.ResultMessage?
    && forall i | k < i < |events| :: !(events[i].Received? && events[i].message.ResultMessage?)
  }

  // Without any subagent the stream's end returns the text of the last result message, if there was one.
  lemma {:induction false} FinalTextIsLastResult(events: seq<Event>)
    requires Session(events).Running? && !AnyStart(events)
    ensures forall k: nat | LastResult(events, k) :: Session(events).state.finalText == events[k].message.text
    ensures (forall k: nat :: !LastResult(events, k)) ==> Session(events).state.finalText == ""
  {
    if events != [] {
      var n := |events| - 1;
      var init, e := events[..n], events[n];
      assert !AnyStart(init) by { assert forall x <- init :: x in events; }
      RunningKnowsStarts(init);
      FinalTextIsLastResult(init);
      LastResultOfMore(events);
      TextStep(Session(init).state, e.message);
      hide Step, AnyStart, LastResult;
      if e.message.ResultMessage? { assert LastResult(events, n); }
    }
  }

  lemma LastResultOfMore(events: seq<Event>)
    requires events != []
    ensures var n, init := |events| - 1, events[..|events| - 1];
            forall k: nat :: LastResult(events, k) <==>
              if events[n].Received? && events[n].message.ResultMessage? then k == n else LastResult(init, k)
  {
  }

  lemma StreamEnds(events: seq<Event>)
    requires Session(events).Running? && !AnyStart(events)
    ensures Session(events + [Done]) == Returned(Session(events).state.finalText) && Session(events + [Failed]) == Raised
  {
    RunningKnowsStarts(events);
    assert (events + [Done])[..|events|] == events && (events + [Failed])[..|events|] == events;
    hide AnyStart;
  }

  // A result that comes while something is pending after a start is only noted; any other becomes the
  // final text.
  lemma TextStep(s: State, m: Message)
    ensures var s', interim := Step(s, m), s.hadSubagents && s.pending != {};
            && s'.finalText == (if m.ResultMessage? && !interim then m.text else s.finalText)
            && s'.lastResult == (if m.ResultMessage? && !interim then m.text else s.lastResult)
            && s'.interim == (if m.ResultMessage? && interim then m.text else s.interim)
  {
    if m.Assistant? { BlocksKeepTexts(s, m.blocks); }
  }

  lemma {:induction false} BlocksKeepTexts(s: State, blocks: seq<Block>)
    ensures var s' := StepBlocks(s, blocks);
            s'.finalText == s.finalText && s'.lastResult == s.lastResult && s'.interim == s.interim
  {
    if blocks != [] { BlocksKeepTexts(s, blocks[..|blocks| - 1]); }
  }

  /******* Who owns a task *******/

  // Block i is the last one of the message that resumes the task.
  ghost predicate LastResumes(s: State, blocks: seq<Block>, i: nat, task: TaskId) {
    && i < |blocks| && blocks[i].ToolUse? && ResumesAt(s, blocks, i, task)
    && forall k | i < k < |blocks| :: !ResumesAt(s, blocks, k, task)
  }

  // Message m makes this id the owner of the task.
  ghost predicate Names(s: State, m: Message, task: TaskId, id: ToolUseId) {
    match m
    case Assistant(blocks) => exists i: nat :: LastResumes(s, blocks, i, task) && blocks[i].id == id
    case TaskStarted(i, t) => i == id && t == task && id != "" && task != ""
    case TaskNotification(i, t, _) => i == id && t == task && id != "" && task != ""
    case _ => false
  }

  predicate Owns(s: State, task: TaskId, id: ToolUseId) {
    task in s.owners && s.owners[task] == id
  }

  lemma {:induction false} BlocksOwner(s: State, blocks: seq<Block>, task: TaskId, id: ToolUseId)
    requires task != ""
    ensures Owns(StepBlocks(s, blocks), task, id) <==>
            || (exists i: nat :: LastResumes(s, blocks, i, task) && blocks[i].id == id)
            || (Owns(s, task, id) && forall i: nat :: !LastResumes(s, blocks, i, task))
  {
    if blocks != [] {
      var n := |blocks| - 1;
      var init, b := blocks[..n], blocks[n];
      BlocksOwner(s, init, task, id);
      BlockOwner(StepBlocks(s, init), b, task, id);
      LastOfMore(s, blocks, task);
      hide StepBlock, ResumesAt, LastResumes;
      if ResumesAt(StepBlocks(s, init), [b], 0, task) { assert LastResumes(s, blocks, n, task); }
    }
  }

  // The last block that resumes the task is the last block of all, or as before.
  lemma LastOfMore(s: State, blocks: seq<Block>, task: TaskId)
    requires blocks != []
    ensures var n, init := |blocks| - 1, blocks[..|blocks| - 1];
            if ResumesAt(StepBlocks(s, init), [blocks[n]], 0, task)
            then blocks[n].ToolUse? && forall i: nat :: LastResumes(s, blocks, i, task) <==> i == n
            else forall i: nat :: LastResumes(s, blocks, i, task) <==> LastResumes(s, init, i, task)
  {
    var n, init := |blocks| - 1, blocks[..|blocks| - 1];
    forall i | 0 <= i < |blocks|
      ensures if i < n then ResumesAt(s, blocks, i, task) <==> ResumesAt(s, init, i, task)
              else ResumesAt(s, blocks, i, task) <==> ResumesAt(StepBlocks(s, init), [blocks[n]], 0, task)
    {
      ResumesInPrefix(s, blocks, i, task);
    }
    ResumesInPrefix(s, blocks, n, task);
    assert ResumesAt(s, blocks, n, task) ==> blocks[n].ToolUse?;
    hide ResumesAt, StepBlocks;
    assert ResumesAt(s, blocks, n, task) ==> LastResumes(s, blocks, n, task);
    forall i: nat | i < n ensures LastResumes(s, blocks, i, task) <==> LastResumes(s, init, i, task) && !ResumesAt(s, blocks, n, task) {
      forall k | i <= k < n ensures blocks[k] == init[k] && (ResumesAt(s, blocks, k, task) <==> ResumesAt(s, init, k, task)) {}
    }
  }

  lemma BlockOwner(s: State, b: Block, task: TaskId, id: ToolUseId)
    requires task != ""
    ensures Owns(StepBlock(s, b), task, id) <==>
            if ResumesAt(s, [b], 0, task) then b.id == id else Owns(s, task, id)
  {
    assert [b][..0] == [];
  }

  // The owner of a task is whoever the message names, and otherwise stays.
  lemma OwnerStep(s: State, m: Message, task: TaskId, id: ToolUseId)
    requires task != ""
    ensures Owns(Step(s, m), task, id) <==>
            Names(s, m, task, id) || (Owns(s, task, id) && forall other :: !Names(s, m, task, other))
  {
    if m.Assistant? { BlocksNameOwner(s, m, task, id); } else { MessageNamesOwner(s, m, task, id); }
    hide Owns, Names, StepBlocks, SetOwner, Notified;
  }

  lemma MessageNamesOwner(s: State, m: Message, task: TaskId, id: ToolUseId)
    requires task != "" && !m.Assistant?
    ensures Owns(Step(s, m), task, id) <==>
            Names(s, m, task, id) || (Owns(s, task, id) && forall other :: !Names(s, m, task, other))
  {
    MessageOwner(s, m, task, id);
    hide Step, Owns;
    if (m.TaskStarted? || m.TaskNotification?) && m.toolUseId != "" && m.taskId == task {
      assert Names(s, m, task, m.toolUseId);
    }
  }

  lemma MessageOwner(s: State, m: Message, task: TaskId, id: ToolUseId)
    requires task != "" && !m.Assistant?
    ensures Owns(Step(s, m), task, id) <==>
            if (m.TaskStarted? || m.TaskNotification?) && m.toolUseId != "" && m.taskId == task then m.toolUseId == id
            else Owns(s, task, id)
  {
  }

  lemma BlocksNameOwner(s: State, m: Message, task: TaskId, id: ToolUseId)
    requires task != "" && m.Assistant?
    ensures Owns(StepBlocks(s, m.blocks), task, id) <==>
            Names(s, m, task, id) || (Owns(s, task, id) && forall other :: !Names(s, m, task, other))
  {
    BlocksOwner(s, m.blocks, task, id);
    hide StepBlocks, LastResumes, Owns;
    assert Names(s, m, task, id) <==> exists i: nat :: LastResumes(s, m.blocks, i, task) && m.blocks[i].id == id;
    if i: nat :| LastResumes(s, m.blocks, i, task) {
      LastIsToolUse(s, m.blocks, i, task);
      assert Names(s, m, task, m.blocks[i].id);
    } else {
      forall other ensures !Names(s, m, task, other) {}
    }
  }

  lemma LastIsToolUse(s: State, blocks: seq<Block>, i: nat, task: TaskId)
    requires LastResumes(s, blocks, i, task)
    ensures i < |blocks| && blocks[i].ToolUse?
  {
  }

  // Block i is the last one of the message that uses a tool under this id.
  predicate LastUses(blocks: seq<Block>, i: nat, id: ToolUseId) {
    && i < |blocks| && blocks[i].ToolUse? && blocks[i].id == id
    && forall k | i < k < |blocks| :: !(blocks[k].ToolUse? && blocks[k].id == id)
  }

  // The tool name of an id is that of its last use.
  lemma {:induction false} NameIsLastUsed(s: State, blocks: seq<Block>, id: ToolUseId)
    ensures forall i: nat | LastUses(blocks, i, id) ::
              id in StepBlocks(s, blocks).toolNames && StepBlocks(s, blocks).toolNames[id] == blocks[i].name
    ensures (forall i: nat :: !LastUses(blocks, i, id)) ==>
              (id in StepBlocks(s, blocks).toolNames <==> id in s.toolNames)
              && (id in s.toolNames ==> StepBlocks(s, blocks).toolNames[id] == s.toolNames[id])
  {
    if blocks != [] {
      var n := |blocks| - 1;
      var init, b := blocks[..n], blocks[n];
      NameIsLastUsed(s, init, id);
      if b.ToolUse? && b.id == id {
        assert LastUses(blocks, n, id);
      } else {
        forall i: nat ensures LastUses(blocks, i, id) <==> LastUses(init, i, id) {}
      }
      NamesOfBlock(StepBlocks(s, init), b);
      assert StepBlocks(s, blocks) == StepBlock(StepBlocks(s, init), b);
      hide StepBlock, StepBlocks, LastUses;
    }
  }

  lemma NamesOfBlock(s: State, b: Block)
    ensures StepBlock(s, b).toolNames == if b.ToolUse? then s.toolNames[b.id := b.name] else s.toolNames
  {
  }

  // An id that is pending stays pending until a terminal notification for it, an errored Agent result
  // for it, or a new owner of its task.
  lemma {:induction false} PendingUntilReleased(events: seq<Event>, j: nat, id: ToolUseId)
    requires j <= |events| && Session(events).Running? && Session(events[..j]).Running?
    requires id in Session(events[..j]).state.pending && id !in Session(events).state.pending
    ensures exists k: nat :: ReleasedAt(events, k, id) && j <= k
    decreases |events|
  {
    assert events[..|events|] == events;
    if j < |events| {
      var n := |events| - 1;
      var init := events[..n];
      assert init[..j] == events[..j];
      if id in Session(init).state.pending {
        LeavesOnlyIfReleased(Session(init).state, events[n].message, id);
        assert ReleasedAt(events, n, id);
      } else {
        PendingUntilReleased(init, j, id);
        var k: nat :| ReleasedAt(init, k, id) && j <= k;
        assert init[..k] == events[..k];
        assert ReleasedAt(events, k, id);
      }
    }
  }

  ghost predicate ReleasedAt(events: seq<Event>, k: nat, id: ToolUseId) {
    && k < |events| && events[k].Received? && Session(events[..k]).Running?
    && Releases(Session(events[..k]).state, events[k].message, id)
  }

  // The control stream is closed exactly at a result message with a text, while nothing is pending and no
  // subagent was started.
  lemma ClosesOnlyWhenIdle(s: State, m: Message)
    requires !s.promptClosed
    ensures Step(s, m).promptClosed <==> s.pending == {} && !s.hadSubagents && m.ResultMessage? && m.text != ""
  {
    if m.Assistant? { BlocksStart(s, m.blocks); }
  }

  /******* Results while something is pending *******/

  // The result message at position k is handled while something is pending, and yet a session that
  // ends after it returns normally.
  ghost predicate TakenWhilePending(events: seq<Event>, k: nat) {
    && k < |events| && events[k].Received? && events[k].message.ResultMessage?
    && Session(events[..k]).Running? && Session(events[..k]).state.pending != {}
    && Session(events[..k + 1] + [Done]).Returned?
  }

  predicate NamesTask(e: Event) {
    e.Received? && e.message.TaskNotification? && e.message.toolUseId != "" && e.message.taskId != ""
  }

  predicate Naming(events: seq<Event>) {
    exists e <- events :: NamesTask(e)
  }

  // Some continuation, without further naming notifications, gets a result taken while pending.
  ghost predicate CanBeFooled(history: seq<Event>) {
    exists tail: seq<Event>, k: nat :: FooledBy(history, tail, k)
  }

  ghost predicate FooledBy(history: seq<Event>, tail: seq<Event>, k: nat) {
    !Naming(tail) && |history| <= k && TakenWhilePending(history + tail, k)
  }

  lemma TakenMeansNoStart(events: seq<Event>, k: nat)
    requires TakenWhilePending(events, k)
    ensures !Session(events[..k]).state.hadSubagents
  {
    var upTo := events[..k + 1];
    assert upTo[..k] == events[..k];
    assert (upTo + [Done])[..k + 1] == upTo;
    assert Session(upTo) == React(Session(events[..k]).state, events[k]);
    RunningKnowsStarts(events[..k]);
  }

  lemma {:induction false} BlocksWithoutOwners(s: State, blocks: seq<Block>)
    requires s.owners == map[] && s.pending == {} && !s.hadSubagents
    requires !StepBlocks(s, blocks).hadSubagents
    ensures StepBlocks(s, blocks).owners == map[] && StepBlocks(s, blocks).pending == {}
  {
    if blocks != [] {
      BlocksStart(s, blocks);
      BlocksStart(s, blocks[..|blocks| - 1]);
      assert blocks == blocks[..|blocks| - 1] + [blocks[|blocks| - 1]];
      BlocksWithoutOwners(s, blocks[..|blocks| - 1]);
    }
  }

  // Until a subagent is started or a notification names a task, there is nothing to wait for.
  lemma {:induction false} NothingPendingWithoutNames(events: seq<Event>)
    requires !Naming(events) && Session(events).Running? && !Session(events).state.hadSubagents
    ensures Session(events).state.owners == map[] && Session(events).state.pending == {}
  {
    if events != [] {
      var init, e := events[..|events| - 1], events[|events| - 1];
      assert events == init + [e] && e in events;
      assert !Naming(init) by { assert forall x <- init :: x in events; }
      StepStarts(Session(init).state, e.message);
      NothingPendingWithoutNames(init);
      StepWithoutNames(Session(init).state, e.message);
    }
  }

  lemma StepWithoutNames(s: State, m: Message)
    requires s.owners == map[] && s.pending == {} && !Step(s, m).hadSubagents && !NamesTask(Received(m))
    ensures Step(s, m).owners == map[] && Step(s, m).pending == {}
  {
    StepStarts(s, m);
    if m.Assistant? { BlocksWithoutOwners(s, m.blocks); }
  }

  lemma {:induction false} BlocksKeepOwners(s: State, blocks: seq<Block>)
    ensures s.owners.Keys <= StepBlocks(s, blocks).owners.Keys
  {
    if blocks != [] { BlocksKeepOwners(s, blocks[..|blocks| - 1]); }
  }

  // A naming notification leaves an owner behind.
  lemma {:induction false} NamedTaskHasOwner(events: seq<Event>, e: Event)
    requires Session(events).Running? && e in events && NamesTask(e)
    ensures e.message.taskId in Session(events).state.owners
  {
    var init, last := events[..|events| - 1], events[|events| - 1];
    assert events == init + [last];
    hide Step;
    if e in init {
      NamedTaskHasOwner(init, e);
      StepKeepsOwners(Session(init).state, last.message);
    } else {
      NamingStepOwns(Session(init).state, last.message);
    }
  }

  lemma StepKeepsOwners(s: State, m: Message)
    ensures s.owners.Keys <= Step(s, m).owners.Keys
  {
    if m.Assistant? { BlocksKeepOwners(s, m.blocks); }
  }

  lemma NamingStepOwns(s: State, m: Message)
    requires NamesTask(Received(m))
    ensures m.taskId in Step(s, m).owners
  {
  }

  // Before any subagent is started, the gate can be passed with something pending exactly if some
  // notification has already named a task: it registers an owner without marking the session as one
  // that waits, and a SendMessage to that task then adds a pending id.
  lemma FooledIffNamedBeforeStart(history: seq<Event>)
    requires Session(history).Running? && !AnyStart(history)
    ensures CanBeFooled(history) <==> Naming(history)
  {
    RunningKnowsStarts(history);
    if CanBeFooled(history) && !Naming(history) {
      var tail: seq<Event>, k: nat :| FooledBy(history, tail, k);
      var before := (history + tail)[..k];
      TakenMeansNoStart(history + tail, k);
      assert forall e <- before :: e in history || e in tail;
      NothingPendingWithoutNames(before);
    }
    if Naming(history) {
      var e :| e in history && NamesTask(e);
      NamedTaskHasOwner(history, e);
      FoolingTail(history, e.message.taskId);
    }
  }

  // A single notification of a task that nobody started is enough.
  lemma OneNotificationFools(id: ToolUseId, task: TaskId)
    requires id != "" && task != ""
    ensures var history := [Received(TaskNotification(id, task, "running"))];
            Session(history).Running? && !AnyStart(history) && CanBeFooled(history)
  {
    var e := Received(TaskNotification(id, task, "running"));
    assert [e][..0] == [] && Session([]) == Running(INITIAL);
    assert Session([e]) == React(INITIAL, e);
    assert e in [e] && NamesTask(e);
    FooledIffNamedBeforeStart([e]);
  }

  // A resumption leaves something pending without marking the session as one that waits.
  lemma ResumeLeavesPending(s: State, task: TaskId)
    requires !s.hadSubagents && !s.finished && task != "" && task in s.owners
    ensures var after := Step(s, Assistant([ToolUse("resume", "SendMessage", task)]));
            after.pending != {} && !after.hadSubagents && !after.finished
  {
    var blocks := [ToolUse("resume", "SendMessage", task)];
    assert blocks[..0] == [] && StepBlocks(s, blocks[..0]) == s;
    BlocksStart(s, blocks);
  }

  lemma ResultIsTaken(all: seq<Event>, k: nat, s: State, text: string)
    requires |all| == k + 1 && all[k] == Received(ResultMessage(text))
    requires Session(all[..k]) == Running(s) && s.pending != {} && !s.hadSubagents && !s.finished
    ensures TakenWhilePending(all, k)
  {
    assert all[..k + 1] == all && (all + [Done])[..|all|] == all;
    assert Session(all) == React(s, all[k]);
    assert Session(all + [Done]) == React(Session(all).state, Done);
  }

  lemma FoolingTail(history: seq<Event>, task: TaskId)
    requires Session(history).Running? && !Session(history).state.hadSubagents
    requires task != "" && task in Session(history).state.owners
    ensures CanBeFooled(history)
  {
    var s := Session(history).state;
    var resume := Assistant([ToolUse("resume", "SendMessage", task)]);
    RunningKnowsStarts(history);
    ResumeLeavesPending(s, task);
    var tail := [Received(resume), Received(ResultMessage("text"))];
    var all := history + tail;
    var k := |history| + 1;
    assert all[..k] == history + [Received(resume)];
    assert all[..k][..|history|] == history;
    hide Step, TakenWhilePending;
    assert Session(all[..k]) == React(s, Received(resume));
    ResultIsTaken(all, k, Step(s, resume), "text");
    assert FooledBy(history, tail, k);
  }

  // Once a subagent was started, the gate holds for good.
  lemma NeverTakenAfterStart(events: seq<Event>, j: nat, k: nat)
    requires j <= k < |events| && AnyStart(events[..j])
    ensures !TakenWhilePending(events, k)
  {
    assert AnyStart(events[..k]) by {
      var e :| e in events[..j] && e.Received? && StartsSubagent(e.message);
      assert events[..j] == events[..k][..j];
      assert e in events[..k];
    }
    if TakenWhilePending(events, k) {
      TakenMeansNoStart(events, k);
      RunningKnowsStarts(events[..k]);
    }
  }

  /******* The same, in place *******/

  class GatedSession {
    var pending: set<ToolUseId>
    var owners: map<TaskId, ToolUseId>
    var toolNames: map<ToolUseId, string>
    var hadSubagents: bool
    var finalText: string
    var lastResult: string
    var interim: string
    var promptClosed: bool
    var finished: bool

    constructor ()
      ensures Value() == INITIAL
    {
      pending, owners, toolNames, hadSubagents := {}, map[], map[], false;
      finalText, lastResult, interim, promptClosed, finished := "", "", "", false, false;
    }

    function Value(): State
      reads this
    {
      State(pending, owners, toolNames, hadSubagents, finalText, lastResult, interim, promptClosed, finished)
    }

    method HandleBlocks(blocks: seq<Block>)
      modifies this
      ensures Value() == StepBlocks(old(Value()), blocks)
    {
      for i := 0 to |blocks|
        invariant Value() == StepBlocks(old(Value()), blocks[..i])
      {
        assert blocks[..i + 1][..i] == blocks[..i];
        if blocks[i].ToolUse? {
          var id, name := blocks[i].id, blocks[i].name;
          toolNames := toolNames[id := name];
          if name == "Agent" || name == "Task" {
            hadSubagents := true;
            pending := pending + {id};
          } else {
            var resumed := ResumedRecipient(name, blocks[i].recipient, owners, pending);
            if resumed.Some? {
              pending := pending + {id};
              owners := owners[resumed.value := id];
            }
          }
        }
      }
      assert blocks[..|blocks|] == blocks;
    }

    method SetPendingOwner(task: TaskId, id: ToolUseId)
      modifies this`pending, this`owners
      ensures Value() == SetOwner(old(Value()), task, id)
    {
      if task in owners && owners[task] != "" && owners[task] != id {
        pending := pending - {owners[task]};
      }
      owners := owners[task := id];
      pending := pending + {id};
    }

    method Handle(m: Message)
      requires !finished
      modifies this
      ensures Value() == Step(old(Value()), m)
    {
      match m {
        case Assistant(blocks) =>
          HandleBlocks(blocks);
        case ToolResult(id, isError) =>
          if isError && id in toolNames && toolNames[id] == "Agent" { pending := pending - {id}; }
        case ResultMessage(text) =>
          if hadSubagents && pending != {} {
            interim := text;
          } else {
            finalText := text;
            lastResult := text;
          }
          if hadSubagents && pending == {} {
            finished := true;
          } else if !hadSubagents && lastResult != "" && pending == {} {
            promptClosed := true;
          }
        case TaskStarted(id, task) =>
          hadSubagents := true;
          if id != "" && task != "" {
            SetPendingOwner(task, id);
          } else if id != "" {
            pending := pending + {id};
          }
        case TaskNotification(_, task, status) =>
          var id := Notified(Value(), m);
          if id != "" && task != "" { owners := owners[task := id]; }
          if id != "" && status in TERMINAL { pending := pending - {id}; }
        case TaskUpdated =>
        case Other =>
      }
    }

    // The message loop.  `denied` is the text for an approval that was denied, if one was; it stands in
    // for an empty result.
    method RunSession(events: seq<Event>, denied: Option<string>) returns (outcome: Outcome, result: string)
      requires Value() == INITIAL
      modifies this
      ensures outcome == Session(events)
      ensures outcome.Returned? ==>
                result == if outcome.text == "" && denied.Some? then denied.value else outcome.text
    {
      result := "";
      outcome := Running(Value());
      var i := 0;
      while i < |events| && outcome.Running?
        invariant 0 <= i <= |events|
        invariant outcome == Session(events[..i])
        invariant outcome.Running? ==> outcome.state == Value() && !finished
        decreases |events| - i
      {
        assert events[..i + 1][..i] == events[..i];
        match events[i] {
          case Done =>
            outcome := if hadSubagents then Raised else Returned(finalText);
          case Failed =>
            outcome := Raised;
          case Received(m) =>
            Handle(m);
            outcome := if finished then Returned(finalText) else Running(Value());
        }
        i := i + 1;
      }
      assert events[..|events|] == events;
      if outcome.Returned? {
        result := if outcome.text == "" && denied.Some? then denied.value else outcome.text;
      }
      if i < |events| { EndedStaysEnded(events, i); }
    }
  }

  lemma {:induction false} EndedStaysEnded(events: seq<Event>, n: nat)
    requires n <= |events| && !Session(events[..n]).Running?
    ensures Session(events) == Session(events[..n])
    decreases |events|
  {
    if n == |events| {
      assert events[..n] == events;
    } else {
      assert events[..|events| - 1][..n] == events[..n];
      EndedStaysEnded(events[..|events| - 1], n);
    }
  }
}
