/** The events an Agno run produces, and the DigitalKin events the adapter turns them into. */
module AgentEvents {
  import opened Wrappers

  /** Who produced an event: a team leader or an agent, and the run that delegated to it. */
  datatype Metadata = Metadata(isTeam: bool, name: Option<string>, id: Option<string>, parentRunId: Option<string>)

  datatype ToolExecution = ToolExecution(
    callId: Option<string>, name: Option<string>, args: Option<string>, result: Option<string>, external: bool)

  datatype AgnoKind =
    | RunStarted(sessionId: Option<string>)
    | RunContent(reasoning: Option<string>, content: Option<string>)
    | RunCompleted(finalContent: Option<string>)
    | RunError(message: Option<string>, errorType: Option<string>)
    | RunPaused(tools: seq<ToolExecution>, requirements: seq<string>)
    | ReasoningStarted
    | ReasoningContentDelta(delta: Option<string>)
    | ReasoningStep(step: Option<string>)
    | ReasoningCompleted
    | ToolCallStarted(tool: Option<ToolExecution>)
    | ToolCallCompleted(done: Option<ToolExecution>, output: Option<string>)
    | ToolCallError(failed: Option<ToolExecution>, error: Option<string>)
    | Unhandled

  datatype AgnoEvent = AgnoEvent(
    kind: AgnoKind, runId: Option<string>, parentRunId: Option<string>, isTeam: bool,
    agentName: Option<string>, agentId: Option<string>, teamName: Option<string>, teamId: Option<string>)

  function BuildMetadata(ev: AgnoEvent): Metadata {
    if ev.isTeam then Metadata(true, ev.teamName, ev.teamId, ev.parentRunId)
    else Metadata(false, ev.agentName, ev.agentId, ev.parentRunId)
  }

  datatype ToolInfo = ToolInfo(callId: Option<string>, name: Option<string>, args: Option<string>,
    result: Option<string>)

  /** Sequence ids stand for `uuid4` values; `subagent` is the `subagent_run_id` field. */
  datatype Event =
    | RunStartedEvent(runId: Option<string>, threadId: Option<string>, meta: Option<Metadata>)
    | RunCompletedEvent(runId: Option<string>, finalContent: Option<string>, meta: Option<Metadata>)
    | RunErrorEvent(errorType: Option<string>, message: Option<string>, meta: Option<Metadata>)
    | TextMessageStartedEvent(id: nat, name: Option<string>, subagent: Option<string>, meta: Option<Metadata>)
    | RunContentEvent(id: nat, content: string, subagent: Option<string>, meta: Option<Metadata>)
    | TextMessageCompletedEvent(id: nat, subagent: Option<string>, meta: Option<Metadata>)
    | ReasoningStartedEvent(id: nat, subagent: Option<string>, meta: Option<Metadata>)
    | ReasoningContentDeltaEvent(reasoningId: Option<nat>, delta: string, subagent: Option<string>,
      meta: Option<Metadata>)
    | ReasoningStepEvent(reasoningId: Option<nat>, delta: string, subagent: Option<string>, meta: Option<Metadata>)
    | ReasoningCompletedEvent(id: nat, subagent: Option<string>, meta: Option<Metadata>)
    | SubagentStartedEvent(childRunId: string, memberName: string, parentSubagent: Option<string>,
      parentToolCall: Option<string>, meta: Option<Metadata>)
    | SubagentFinishedEvent(childRunId: string, result: Option<string>, meta: Option<Metadata>)
    | SubagentErrorEvent(childRunId: string, error: string, code: Option<string>, meta: Option<Metadata>)
    | ToolCallStartedEvent(tool: Option<ToolInfo>, subagent: Option<string>, meta: Option<Metadata>)
    | ToolCallCompletedEvent(tool: Option<ToolInfo>, output: Option<string>, subagent: Option<string>,
      meta: Option<Metadata>)
    | ToolCallErrorEvent(tool: Option<ToolInfo>, errorMessage: Option<string>, subagent: Option<string>,
      meta: Option<Metadata>)
    | CustomEvent(customName: string, payload: string)  // for applications; the adapter emits none
}
