/** The stateful adapter: its fields, and its handlers in the source's own step-by-step form. */
module AgnoAdapter {
  import opened Wrappers
  import opened AgentEvents
  import opened OrderedDict
  import opened Sequences
  import Spec = StreamSpec

  class AgnoStreamAdapter {
    var messages: Dict<string, Spec.Slot>
    var reasonings: Dict<string, Spec.Slot>
    var subagents: Dict<string, Spec.Delegation>
    var closedToolCallIds: set<string>
    var activeRunId: Option<string>
    var completedRunIds: set<string>
    var isPaused: bool
    var pausedToolExecutions: seq<ToolExecution>
    var pausedRequirements: seq<string>
    var lastMetadata: Option<Metadata>
    var runKey: string
    var nextId: nat
    ghost var trace: seq<Event>  // everything returned so far

    ghost function View(): Spec.State
      reads this
    {
      Spec.State(messages, reasonings, subagents, closedToolCallIds, activeRunId, completedRunIds,
                 isPaused, pausedToolExecutions, pausedRequirements, nextId, trace)
    }

    constructor ()
      ensures View() == Spec.Init()
    {
      messages, reasonings, subagents := Empty(), Empty(), Empty();
      closedToolCallIds, activeRunId, completedRunIds := {}, None, {};
      isPaused, pausedToolExecutions, pausedRequirements := false, [], [];
      lastMetadata, runKey, nextId, trace := None, "", 0, [];
    }

    function SubagentOf(key: string): Option<string>
      reads this
    {
      if key in subagents.vals then Some(key) else None
    }

    /** `events.append(e)`; `before` is the trace when the list was begun. */
    method Append(ghost before: seq<Event>, events: seq<Event>, e: Event) returns (r: seq<Event>)
      requires trace == before + events
      modifies this`trace
      ensures r == events + [e] && trace == old(trace) + [e] && trace == before + r
    {
      r := events + [e];
      trace := trace + [e];
      Associate(before, events, [e]);
    }

    method CloseContent(key: string) returns (events: seq<Event>)
      modifies this`messages, this`trace
      ensures View() == Spec.CloseContent(old(View()), key)
      ensures trace == old(trace) + events
    {
      events := [];
      if key in messages.vals {
        var open := messages.vals[key];
        messages := Pop(messages, key);
        events := Append(old(trace), events, TextMessageCompletedEvent(open.id, SubagentOf(key), Some(open.meta)));
      }
    }

    method CloseReasoning(key: string) returns (events: seq<Event>)
      modifies this`reasonings, this`trace
      ensures View() == Spec.CloseReasoning(old(View()), key)
      ensures trace == old(trace) + events
    {
      events := [];
      if key in reasonings.vals {
        var open := reasonings.vals[key];
        reasonings := Pop(reasonings, key);
        events := Append(old(trace), events, ReasoningCompletedEvent(open.id, SubagentOf(key), Some(open.meta)));
      }
    }

    method CloseAllContent() returns (events: seq<Event>)
      modifies this`messages, this`trace
      ensures View() == Spec.CloseAllContent(old(View()))
      ensures trace == old(trace) + events
    {
      events := [];
      var keys := messages.order;
      var i := |keys|;
      assert keys[..i] == keys;
      while i > 0
        invariant 0 <= i <= |keys|
        invariant Spec.CloseContents(View(), keys[..i]) == Spec.CloseAllContent(old(View()))
        invariant trace == old(trace) + events
      {
        i := i - 1;
        assert keys[..i + 1][..i] == keys[..i];
        var more := CloseContent(keys[i]);
        Associate(old(trace), events, more);
        events := events + more;
      }
    }

    method CloseAllReasoning() returns (events: seq<Event>)
      modifies this`reasonings, this`trace
      ensures View() == Spec.CloseAllReasoning(old(View()))
      ensures trace == old(trace) + events
    {
      events := [];
      var keys := reasonings.order;
      var i := |keys|;
      assert keys[..i] == keys;
      while i > 0
        invariant 0 <= i <= |keys|
        invariant Spec.CloseReasonings(View(), keys[..i]) == Spec.CloseAllReasoning(old(View()))
        invariant trace == old(trace) + events
      {
        i := i - 1;
        assert keys[..i + 1][..i] == keys[..i];
        var more := CloseReasoning(keys[i]);
        Associate(old(trace), events, more);
        events := events + more;
      }
    }

    /** The source builds all the events and then clears the table; here they leave one by one. */
    method CloseSubagents() returns (events: seq<Event>)
      modifies this`subagents, this`trace
      ensures View() == Spec.CloseSubagents(old(View()))
      ensures trace == old(trace) + events
    {
      events := [];
      var runs := subagents.order;
      var i := |runs|;
      assert runs[..i] == runs;
      while i > 0
        invariant 0 <= i <= |runs|
        invariant Spec.FinishSubagents(View(), runs[..i]) == Spec.CloseSubagents(old(View()))
        invariant trace == old(trace) + events
      {
        i := i - 1;
        assert runs[..i + 1][..i] == runs[..i];
        if runs[i] in subagents.vals {
          var e := SubagentFinishedEvent(runs[i], None, Some(subagents.vals[runs[i]].meta));
          subagents := Pop(subagents, runs[i]);
          events := Append(old(trace), events, e);
        }
      }
    }

    method CloseEverything() returns (events: seq<Event>)
      modifies this`messages, this`reasonings, this`subagents, this`trace
      ensures View() == Spec.CloseEverything(old(View()))
      ensures trace == old(trace) + events
    {
      events := CloseAllContent();
      var more := CloseAllReasoning();
      Associate(old(trace), events, more);
      events := events + more;
      more := CloseSubagents();
      Associate(old(trace), events, more);
      events := events + more;
    }

    /** Closes whatever is active at the end of the stream. */
    method Flush() returns (events: seq<Event>)
      modifies this
      ensures View() == Spec.Flush(old(View()))
      ensures trace == old(trace) + events
    {
      events := CloseEverything();
    }

    /** A fresh sequence id. */
    method NewId() returns (id: nat)
      modifies this`nextId
      ensures id == old(nextId) && nextId == old(nextId) + 1
    {
      id := nextId;
      nextId := nextId + 1;
    }

    method HandleRunStarted(ev: AgnoEvent) returns (events: seq<Event>)
      requires ev.kind.RunStarted? && lastMetadata.Some?
      modifies this
      ensures View() == Spec.HandleRunStarted(old(View()), ev, old(lastMetadata).value)
      ensures trace == old(trace) + events
    {
      hide Spec.CloseContent, Spec.CloseReasoning;
      events := [];
      if Truthy(ev.parentRunId) {
        if !Truthy(ev.runId) {
          return;
        }
        var parent, run := ev.parentRunId.value, ev.runId.value;
        events := CloseContent(parent);
        var more := CloseReasoning(parent);
        Associate(old(trace), events, more);
        events := events + more;
        var name := if Truthy(lastMetadata.value.name) then lastMetadata.value.name.value else "member";
        subagents := Put(subagents, run, Spec.Delegation(name, lastMetadata.value));
        events := Append(old(trace), events, SubagentStartedEvent(run, name, SubagentOf(parent), None, lastMetadata));
        return;
      }
      if Truthy(ev.runId) && ev.runId == activeRunId {
        return;
      }
      activeRunId := ev.runId;
      events := Append(old(trace), events, RunStartedEvent(ev.runId, ev.kind.sessionId, lastMetadata));
    }

    method HandleRunCompleted(ev: AgnoEvent) returns (events: seq<Event>)
      requires ev.kind.RunCompleted? && lastMetadata.Some?
      modifies this
      ensures View() == Spec.HandleRunCompleted(old(View()), ev, old(runKey), old(lastMetadata).value)
      ensures trace == old(trace) + events
    {
      hide Spec.CloseContent, Spec.CloseReasoning, Spec.CloseEverything;
      events := [];
      if Truthy(ev.parentRunId) {
        events := CloseContent(runKey);
        var more := CloseReasoning(runKey);
        Associate(old(trace), events, more);
        events := events + more;
        if Truthy(ev.runId) && ev.runId.value in subagents.vals {
          var run := ev.runId.value;
          var subagent := subagents.vals[run];
          subagents := Pop(subagents, run);
          events := Append(old(trace), events,
            SubagentFinishedEvent(run, NonEmpty(ev.kind.finalContent), Some(subagent.meta)));
        }
        return;
      }
      if Truthy(ev.runId) && ev.runId.value in completedRunIds && ev.runId != activeRunId {
        return;
      }
      events := CloseEverything();
      if Truthy(ev.runId) {
        completedRunIds := completedRunIds + {ev.runId.value};
      }
      activeRunId := None;
      events := Append(old(trace), events, RunCompletedEvent(ev.runId, NonEmpty(ev.kind.finalContent), lastMetadata));
    }

    method HandleRunError(ev: AgnoEvent) returns (events: seq<Event>)
      requires ev.kind.RunError? && lastMetadata.Some?
      modifies this
      ensures View() == Spec.HandleRunError(old(View()), ev, old(lastMetadata).value)
      ensures trace == old(trace) + events
    {
      hide Spec.CloseContent, Spec.CloseReasoning, Spec.CloseEverything;
      if Truthy(ev.runId) && ev.runId.value in subagents.vals {
        var run := ev.runId.value;
        events := CloseContent(run);
        var more := CloseReasoning(run);
        Associate(old(trace), events, more);
        events := events + more;
        var subagent := subagents.vals[run];
        subagents := Pop(subagents, run);
        var text := if Truthy(ev.kind.message) then ev.kind.message.value else "subagent run failed";
        events := Append(old(trace), events, SubagentErrorEvent(run, text, ev.kind.errorType, Some(subagent.meta)));
        return;
      }
      events := CloseEverything();
      events := Append(old(trace), events, RunErrorEvent(ev.kind.errorType, NonEmpty(ev.kind.message), lastMetadata));
    }

    method HandleReasoningStarted() returns (events: seq<Event>)
      requires lastMetadata.Some?
      modifies this
      ensures View() == Spec.HandleReasoningStarted(old(View()), old(runKey), old(lastMetadata).value)
      ensures trace == old(trace) + events
    {
      events := CloseContent(runKey);
      var id := NewId();
      reasonings := Put(reasonings, runKey, Spec.Slot(id, lastMetadata.value));
      events := Append(old(trace), events, ReasoningStartedEvent(id, SubagentOf(runKey), lastMetadata));
    }

    method HandleReasoningContentDelta(delta: Option<string>) returns (events: seq<Event>)
      requires lastMetadata.Some?
      modifies this
      ensures View() == Spec.HandleReasoningContentDelta(old(View()), old(runKey), old(lastMetadata).value, delta)
      ensures trace == old(trace) + events
    {
      var id := if runKey in reasonings.vals then Some(reasonings.vals[runKey].id) else None;
      var text := if delta.Some? then delta.value else "";
      events := Append(old(trace), [], ReasoningContentDeltaEvent(id, text, SubagentOf(runKey), lastMetadata));
    }

    method HandleReasoningStep(step: Option<string>) returns (events: seq<Event>)
      requires lastMetadata.Some?
      modifies this
      ensures View() == Spec.HandleReasoningStep(old(View()), old(runKey), old(lastMetadata).value, step)
      ensures trace == old(trace) + events
    {
      hide Spec.CloseContent;
      events := [];
      if !Truthy(step) {
        return;
      }
      events := CloseContent(runKey);
      if runKey !in reasonings.vals {
        var id := NewId();
        reasonings := Put(reasonings, runKey, Spec.Slot(id, lastMetadata.value));
        events := Append(old(trace), events, ReasoningStartedEvent(id, SubagentOf(runKey), None));
      }
      var open := reasonings.vals[runKey];
      events := Append(old(trace), events,
        ReasoningStepEvent(Some(open.id), step.value, SubagentOf(runKey), lastMetadata));
    }

    method ProcessReasoningContent(text: string) returns (events: seq<Event>)
      requires lastMetadata.Some?
      modifies this
      ensures View() == Spec.ProcessReasoningContent(old(View()), old(runKey), old(lastMetadata).value, text)
      ensures trace == old(trace) + events
      ensures runKey == old(runKey) && lastMetadata == old(lastMetadata)
    {
      hide Spec.CloseContent, Spec.CloseReasoning;
      if text == "" {
        events := CloseReasoning(runKey);
        return;
      }
      events := CloseContent(runKey);
      if runKey !in reasonings.vals {
        var id := NewId();
        events := Append(old(trace), events, ReasoningStartedEvent(id, SubagentOf(runKey), lastMetadata));
        reasonings := Put(reasonings, runKey, Spec.Slot(id, lastMetadata.value));
      }
      var open := reasonings.vals[runKey];
      events := Append(old(trace), events,
        ReasoningContentDeltaEvent(Some(open.id), text, SubagentOf(runKey), lastMetadata));
    }

    method ProcessTextContent(text: string) returns (events: seq<Event>)
      requires lastMetadata.Some?
      modifies this
      ensures View() == Spec.ProcessTextContent(old(View()), old(runKey), old(lastMetadata).value, text)
      ensures trace == old(trace) + events
    {
      hide Spec.CloseContent, Spec.CloseReasoning;
      if text == "" {
        events := CloseContent(runKey);
        return;
      }
      events := CloseReasoning(runKey);
      if runKey !in messages.vals {
        var meta := lastMetadata.value;
        var id := NewId();
        var name := if Truthy(meta.parentRunId) then meta.name else None;
        events := Append(old(trace), events, TextMessageStartedEvent(id, name, SubagentOf(runKey), lastMetadata));
        messages := Put(messages, runKey, Spec.Slot(id, meta));
      }
      var open := messages.vals[runKey];
      events := Append(old(trace), events, RunContentEvent(open.id, text, SubagentOf(runKey), lastMetadata));
    }

    method HandleRunContent(reasoning: Option<string>, content: Option<string>) returns (events: seq<Event>)
      requires lastMetadata.Some?
      modifies this
      ensures View() == Spec.HandleRunContent(old(View()), old(runKey), old(lastMetadata).value, reasoning, content)
      ensures trace == old(trace) + events
    {
      events := [];
      if reasoning.Some? {
        events := ProcessReasoningContent(reasoning.value);
      }
      if content.Some? {
        var more := ProcessTextContent(content.value);
        Associate(old(trace), events, more);
        events := events + more;
      }
    }

    method HandleToolCallStarted(tool: Option<ToolExecution>) returns (events: seq<Event>)
      requires lastMetadata.Some?
      modifies this
      ensures View() == Spec.HandleToolCallStarted(old(View()), old(runKey), old(lastMetadata).value, tool)
      ensures trace == old(trace) + events
    {
      events := CloseReasoning(runKey);
      var more := CloseContent(runKey);
      Associate(old(trace), events, more);
      events := events + more;
      var info := None;
      if tool.Some? {
        info := Some(ToolInfo(tool.value.callId, tool.value.name, tool.value.args, None));
      }
      events := Append(old(trace), events, ToolCallStartedEvent(info, SubagentOf(runKey), lastMetadata));
    }

    method HandleToolCallCompleted(tool: Option<ToolExecution>, output: Option<string>) returns (events: seq<Event>)
      requires lastMetadata.Some?
      modifies this
      ensures View() == Spec.HandleToolCallCompleted(old(View()), old(runKey), old(lastMetadata).value, tool, output)
      ensures trace == old(trace) + events
    {
      var info := None;
      var callId := None;
      if tool.Some? {
        callId := tool.value.callId;
        info := Some(ToolInfo(callId, tool.value.name, tool.value.args, tool.value.result));
      }
      if Truthy(callId) {
        closedToolCallIds := closedToolCallIds + {callId.value};
      }
      events := Append(old(trace), [], ToolCallCompletedEvent(info, NonEmpty(output), SubagentOf(runKey),
        lastMetadata));
    }

    method HandleToolCallError(tool: Option<ToolExecution>, error: Option<string>) returns (events: seq<Event>)
      requires lastMetadata.Some?
      modifies this
      ensures View() == Spec.HandleToolCallError(old(View()), old(runKey), old(lastMetadata).value, tool, error)
      ensures trace == old(trace) + events
    {
      var callId := if tool.Some? then tool.value.callId else None;
      if Truthy(callId) && callId.value in closedToolCallIds {
        return [];
      }
      var info := None;
      if tool.Some? {
        info := Some(ToolInfo(callId, tool.value.name, None, None));
      }
      if Truthy(callId) {
        closedToolCallIds := closedToolCallIds + {callId.value};
      }
      events := Append(old(trace), [], ToolCallErrorEvent(info, NonEmpty(error), SubagentOf(runKey), lastMetadata));
    }

    /** One start/completed pair for each external tool whose id was not seen before. */
    method SynthesizeTools(tools: seq<ToolExecution>) returns (events: seq<Event>)
      modifies this`closedToolCallIds, this`trace
      ensures View() == Spec.SynthesizeTools(old(View()), tools, {})
      ensures trace == old(trace) + events
    {
      events := [];
      var seen: set<string> := {};
      for i := 0 to |tools|
        invariant Spec.SynthesizeTools(View(), tools[i..], seen) == Spec.SynthesizeTools(old(View()), tools, {})
        invariant trace == old(trace) + events
      {
        var tool := tools[i];
        assert tools[i..][0] == tool && tools[i..][1..] == tools[i + 1..];
        if !tool.external || !Truthy(tool.callId) || tool.callId.value in seen {
          continue;
        }
        seen := seen + {tool.callId.value};
        var info := Some(ToolInfo(tool.callId, tool.name, tool.args, None));
        events := Append(old(trace), events, ToolCallStartedEvent(info, None, None));
        events := Append(old(trace), events, ToolCallCompletedEvent(info, None, None, None));
        closedToolCallIds := closedToolCallIds + {tool.callId.value};
      }
    }

    method HandleRunPaused(tools: seq<ToolExecution>, requirements: seq<string>) returns (events: seq<Event>)
      modifies this
      ensures View() == Spec.HandleRunPaused(old(View()), tools, requirements)
      ensures trace == old(trace) + events
    {
      events := CloseAllReasoning();
      var more := CloseAllContent();
      Associate(old(trace), events, more);
      events := events + more;
      isPaused, pausedToolExecutions, pausedRequirements := true, tools, requirements;
      more := SynthesizeTools(tools);
      Associate(old(trace), events, more);
      events := events + more;
    }

    /** Converts one Agno event into DigitalKin events. */
    method ToDigitalkinEvents(ev: AgnoEvent) returns (events: seq<Event>)
      modifies this
      ensures View() == Spec.Step(old(View()), ev)
      ensures trace == old(trace) + events
    {
      hide Spec.HandleRunStarted, Spec.HandleRunContent, Spec.HandleRunCompleted, Spec.HandleRunError,
        Spec.HandleRunPaused,
        Spec.HandleReasoningStarted, Spec.HandleReasoningContentDelta, Spec.HandleReasoningStep, Spec.CloseReasoning,
        Spec.HandleToolCallStarted, Spec.HandleToolCallCompleted, Spec.HandleToolCallError;
      if ev.kind.Unhandled? {
        return [];
      }
      lastMetadata := Some(BuildMetadata(ev));
      runKey := if Truthy(ev.runId) then ev.runId.value else if Truthy(activeRunId) then activeRunId.value else "";
      match ev.kind
      case RunStarted(_) => events := HandleRunStarted(ev);
      case RunContent(reasoning, content) => events := HandleRunContent(reasoning, content);
      case RunCompleted(_) => events := HandleRunCompleted(ev);
      case RunError(_, _) => events := HandleRunError(ev);
      case RunPaused(tools, requirements) => events := HandleRunPaused(tools, requirements);
      case ReasoningStarted => events := HandleReasoningStarted();
      case ReasoningContentDelta(delta) => events := HandleReasoningContentDelta(delta);
      case ReasoningStep(step) => events := HandleReasoningStep(step);
      case ReasoningCompleted => events := CloseReasoning(runKey);
      case ToolCallStarted(tool) => events := HandleToolCallStarted(tool);
      case ToolCallCompleted(tool, output) => events := HandleToolCallCompleted(tool, output);
      case ToolCallError(tool, error) => events := HandleToolCallError(tool, error);
    }
  }
}
