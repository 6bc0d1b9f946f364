/**
 The adapter as a function from states to states. A state holds the three tables of open
 sequences and the trace of everything emitted so far; every handler is a short composition of
 the steps that open, extend or close one sequence.
 */
module StreamSpec {
  import opened Wrappers
  import opened AgentEvents
  import opened OrderedDict

  /** An open sequence: its id and the metadata of whoever opened it. */
  datatype Slot = Slot(id: nat, meta: Metadata)

  datatype Delegation = Delegation(name: string, meta: Metadata)

  /** `next` is the supply of fresh ids; `out` is the trace. */
  datatype State = State(
    messages: Dict<string, Slot>, reasonings: Dict<string, Slot>, subagents: Dict<string, Delegation>,
    closedTools: set<string>, active: Option<string>, completed: set<string>,
    paused: bool, pausedTools: seq<ToolExecution>, pausedRequirements: seq<string>,
    next: nat, out: seq<Event>)

  function Init(): State {
    State(Empty(), Empty(), Empty(), {}, None, {}, false, [], [], 0, [])
  }

  function RunKey(a: State, ev: AgnoEvent): string {
    if Truthy(ev.runId) then ev.runId.value else if Truthy(a.active) then a.active.value else ""
  }

  function SubagentOf(a: State, key: string): Option<string> {
    if key in a.subagents.vals then Some(key) else None
  }

  function Emit(a: State, e: Event): State {
    a.(out := a.out + [e])
  }

  // ── Steps on one sequence ──

  function CloseContent(a: State, key: string): State {
    if key !in a.messages.vals then a
    else
      var slot := a.messages.vals[key];
      Emit(a.(messages := Pop(a.messages, key)),
        TextMessageCompletedEvent(slot.id, SubagentOf(a, key), Some(slot.meta)))
  }

  function CloseReasoning(a: State, key: string): State {
    if key !in a.reasonings.vals then a
    else
      var slot := a.reasonings.vals[key];
      Emit(a.(reasonings := Pop(a.reasonings, key)),
        ReasoningCompletedEvent(slot.id, SubagentOf(a, key), Some(slot.meta)))
  }

  function OpenContent(a: State, key: string, meta: Metadata): State {
    var name := if Truthy(meta.parentRunId) then meta.name else None;
    Emit(a.(messages := Put(a.messages, key, Slot(a.next, meta)), next := a.next + 1),
         TextMessageStartedEvent(a.next, name, SubagentOf(a, key), Some(meta)))
  }

  /** `announced` is the metadata on the opening event; a reasoning step announces none. */
  function OpenReasoning(a: State, key: string, meta: Metadata, announced: Option<Metadata>): State {
    Emit(a.(reasonings := Put(a.reasonings, key, Slot(a.next, meta)), next := a.next + 1),
         ReasoningStartedEvent(a.next, SubagentOf(a, key), announced))
  }

  /** Closes the messages of the listed runs, the last listed first. */
  function CloseContents(a: State, keys: seq<string>): State
    decreases |keys|
  {
    if keys == [] then a
    else CloseContents(CloseContent(a, keys[|keys| - 1]), keys[..|keys| - 1])
  }

  function CloseReasonings(a: State, keys: seq<string>): State
    decreases |keys|
  {
    if keys == [] then a
    else CloseReasonings(CloseReasoning(a, keys[|keys| - 1]), keys[..|keys| - 1])
  }

  /** Every open message, innermost first. */
  function CloseAllContent(a: State): State {
    CloseContents(a, a.messages.order)
  }

  function CloseAllReasoning(a: State): State {
    CloseReasonings(a, a.reasonings.order)
  }

  /** One delegation leaves the table and its last event is emitted. */
  function CloseSubagent(a: State, run: string, e: Event): State {
    Emit(a.(subagents := Pop(a.subagents, run)), e)
  }

  /** Force-closes the listed delegations, the last listed first. */
  function FinishSubagents(a: State, runs: seq<string>): State
    decreases |runs|
  {
    if runs == [] then a
    else
      var run := runs[|runs| - 1];
      var b :=
        if run in a.subagents.vals
        then CloseSubagent(a, run, SubagentFinishedEvent(run, None, Some(a.subagents.vals[run].meta)))
        else a;
      FinishSubagents(b, runs[..|runs| - 1])
  }

  function CloseSubagents(a: State): State {
    FinishSubagents(a, a.subagents.order)
  }

  /** Everything still open is closed: messages, then reasonings, then delegations. */
  function CloseEverything(a: State): State {
    CloseSubagents(CloseAllReasoning(CloseAllContent(a)))
  }

  function Flush(a: State): State {
    CloseEverything(a)
  }

  // ── Handlers ──

  function HandleRunStarted(a: State, ev: AgnoEvent, meta: Metadata): State
    requires ev.kind.RunStarted?
  {
    if Truthy(ev.parentRunId) then
      if !Truthy(ev.runId) then a
      else
        var parent, run := ev.parentRunId.value, ev.runId.value;
        StartSubagent(CloseReasoning(CloseContent(a, parent), parent), run, parent, meta)
    else if Truthy(ev.runId) && ev.runId == a.active then a
    else Emit(a.(active := ev.runId), RunStartedEvent(ev.runId, ev.kind.sessionId, Some(meta)))
  }

  function StartSubagent(a: State, run: string, parent: string, meta: Metadata): State {
    var name := if Truthy(meta.name) then meta.name.value else "member";
    var b := a.(subagents := Put(a.subagents, run, Delegation(name, meta)));
    Emit(b, SubagentStartedEvent(run, name, SubagentOf(b, parent), None, Some(meta)))
  }

  function HandleRunCompleted(a: State, ev: AgnoEvent, key: string, meta: Metadata): State
    requires ev.kind.RunCompleted?
  {
    var result := NonEmpty(ev.kind.finalContent);
    if Truthy(ev.parentRunId) then
      var b := CloseReasoning(CloseContent(a, key), key);
      if Truthy(ev.runId) && ev.runId.value in b.subagents.vals then
        var run := ev.runId.value;
        CloseSubagent(b, run, SubagentFinishedEvent(run, result, Some(b.subagents.vals[run].meta)))
      else b
    else if Truthy(ev.runId) && ev.runId.value in a.completed && ev.runId != a.active then a
    else
      var b := CloseEverything(a);
      var c := b.(completed := if Truthy(ev.runId) then b.completed + {ev.runId.value}
        else b.completed, active := None);
      Emit(c, RunCompletedEvent(ev.runId, result, Some(meta)))
  }

  function HandleRunError(a: State, ev: AgnoEvent, meta: Metadata): State
    requires ev.kind.RunError?
  {
    if Truthy(ev.runId) && ev.runId.value in a.subagents.vals then
      var run := ev.runId.value;
      var b := CloseReasoning(CloseContent(a, run), run);
      var text := if Truthy(ev.kind.message) then ev.kind.message.value else "subagent run failed";
      if run in b.subagents.vals then
        CloseSubagent(b, run, SubagentErrorEvent(run, text, ev.kind.errorType, Some(b.subagents.vals[run].meta)))
      else b
    else
      Emit(CloseEverything(a), RunErrorEvent(ev.kind.errorType, NonEmpty(ev.kind.message), Some(meta)))
  }

  function HandleReasoningStarted(a: State, key: string, meta: Metadata): State {
    OpenReasoning(CloseContent(a, key), key, meta, Some(meta))
  }

  function HandleReasoningContentDelta(a: State, key: string, meta: Metadata, delta: Option<string>): State {
    var id := if key in a.reasonings.vals then Some(a.reasonings.vals[key].id) else None;
    var text := if delta.Some? then delta.value else "";
    Emit(a, ReasoningContentDeltaEvent(id, text, SubagentOf(a, key), Some(meta)))
  }

  /** Reasoning text for `key`: closes its message and opens a reasoning if none is open. */
  function EnterReasoning(a: State, key: string, meta: Metadata, announced: Option<Metadata>): (b: State)
    ensures key in b.reasonings.vals
  {
    var b := CloseContent(a, key);
    if key in b.reasonings.vals then b else OpenReasoning(b, key, meta, announced)
  }

  function HandleReasoningStep(a: State, key: string, meta: Metadata, step: Option<string>): State {
    if !Truthy(step) then a
    else
      var b := EnterReasoning(a, key, meta, None);
      Emit(b, ReasoningStepEvent(Some(b.reasonings.vals[key].id), step.value, SubagentOf(b, key), Some(meta)))
  }

  function ProcessReasoningContent(a: State, key: string, meta: Metadata, text: string): State {
    if text == "" then CloseReasoning(a, key)
    else
      var b := EnterReasoning(a, key, meta, Some(meta));
      Emit(b, ReasoningContentDeltaEvent(Some(b.reasonings.vals[key].id), text, SubagentOf(b, key), Some(meta)))
  }

  /** Text for `key`: closes its reasoning and opens a message if none is open. */
  function EnterContent(a: State, key: string, meta: Metadata): (b: State)
    ensures key in b.messages.vals
  {
    var b := CloseReasoning(a, key);
    if key in b.messages.vals then b else OpenContent(b, key, meta)
  }

  function ProcessTextContent(a: State, key: string, meta: Metadata, text: string): State {
    if text == "" then CloseContent(a, key)
    else
      var b := EnterContent(a, key, meta);
      Emit(b, RunContentEvent(b.messages.vals[key].id, text, SubagentOf(b, key), Some(meta)))
  }

  function HandleRunContent(a: State, key: string, meta: Metadata, reasoning: Option<string>,
      content: Option<string>): State {
    var b := if reasoning.Some? then ProcessReasoningContent(a, key, meta, reasoning.value) else a;
    if content.Some? then ProcessTextContent(b, key, meta, content.value) else b
  }

  function HandleToolCallStarted(a: State, key: string, meta: Metadata, tool: Option<ToolExecution>): State {
    var b := CloseContent(CloseReasoning(a, key), key);
    var info := if tool.Some? then Some(ToolInfo(tool.value.callId, tool.value.name, tool.value.args, None)) else None;
    Emit(b, ToolCallStartedEvent(info, SubagentOf(b, key), Some(meta)))
  }

  function ToolCallId(tool: Option<ToolExecution>): Option<string> {
    if tool.Some? then NonEmpty(tool.value.callId) else None
  }

  function MarkClosed(a: State, id: Option<string>): State {
    if id.Some? then a.(closedTools := a.closedTools + {id.value}) else a
  }

  function HandleToolCallCompleted(a: State, key: string, meta: Metadata, tool: Option<ToolExecution>,
      output: Option<string>): State {
    var info :=
      if tool.Some? then Some(ToolInfo(tool.value.callId, tool.value.name, tool.value.args, tool.value.result))
        else None;
    var b := MarkClosed(a, ToolCallId(tool));
    Emit(b, ToolCallCompletedEvent(info, NonEmpty(output), SubagentOf(b, key), Some(meta)))
  }

  predicate AlreadyClosed(a: State, tool: Option<ToolExecution>) {
    ToolCallId(tool).Some? && ToolCallId(tool).value in a.closedTools
  }

  function HandleToolCallError(a: State, key: string, meta: Metadata, tool: Option<ToolExecution>,
      error: Option<string>): State {
    if AlreadyClosed(a, tool) then a
    else
      var info := if tool.Some? then Some(ToolInfo(tool.value.callId, tool.value.name, None, None)) else None;
      var b := MarkClosed(a, ToolCallId(tool));
      Emit(b, ToolCallErrorEvent(info, NonEmpty(error), SubagentOf(b, key), Some(meta)))
  }

  /** One start/completed pair for each external tool with an id not yet seen. */
  function SynthesizeTools(a: State, tools: seq<ToolExecution>, seen: set<string>): State
    decreases |tools|
  {
    if tools == [] then a
    else
      var t := tools[0];
      if !t.external || !Truthy(t.callId) || t.callId.value in seen then SynthesizeTools(a, tools[1..], seen)
      else
        var info := Some(ToolInfo(t.callId, t.name, t.args, None));
        var b := Emit(Emit(a, ToolCallStartedEvent(info, None, None)), ToolCallCompletedEvent(info, None, None, None));
        SynthesizeTools(MarkClosed(b, t.callId), tools[1..], seen + {t.callId.value})
  }

  function HandleRunPaused(a: State, tools: seq<ToolExecution>, requirements: seq<string>): State {
    var b := CloseAllContent(CloseAllReasoning(a));
    SynthesizeTools(b.(paused := true, pausedTools := tools, pausedRequirements := requirements), tools, {})
  }

  function Step(a: State, ev: AgnoEvent): State {
    var key, meta := RunKey(a, ev), BuildMetadata(ev);
    match ev.kind
    case RunStarted(_) => HandleRunStarted(a, ev, meta)
    case RunContent(reasoning, content) => HandleRunContent(a, key, meta, reasoning, content)
    case RunCompleted(_) => HandleRunCompleted(a, ev, key, meta)
    case RunError(_, _) => HandleRunError(a, ev, meta)
    case RunPaused(tools, requirements) => HandleRunPaused(a, tools, requirements)
    case ReasoningStarted => HandleReasoningStarted(a, key, meta)
    case ReasoningContentDelta(delta) => HandleReasoningContentDelta(a, key, meta, delta)
    case ReasoningStep(step) => HandleReasoningStep(a, key, meta, step)
    case ReasoningCompleted => CloseReasoning(a, key)
    case ToolCallStarted(tool) => HandleToolCallStarted(a, key, meta, tool)
    case ToolCallCompleted(tool, output) => HandleToolCallCompleted(a, key, meta, tool, output)
    case ToolCallError(tool, error) => HandleToolCallError(a, key, meta, tool, error)
    case Unhandled => a
  }

  /** The state after a whole input stream. */
  function Run(evs: seq<AgnoEvent>): State {
    if evs == [] then Init() else Step(Run(evs[..|evs| - 1]), evs[|evs| - 1])
  }
}
