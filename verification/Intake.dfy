/**
 What a client will see of a run, read off the agent's own events: which tool calls are open, and
 whether the stream is one run. The adapter's trace says the same after every input.
 */
module Intake {
  import opened Wrappers
  import opened AgentEvents
  import opened OrderedDict
  import opened StreamSpec
  import opened Brackets
  import opened Lifecycle
  import opened Closings
  import opened AgUi
  import opened Protocol

  /** The calls and the stage, and what decides between them: calls closed, runs active, completed and delegated. */
  datatype Intake = Intake(
    tools: Tools, stage: Stage, closed: set<string>, active: Option<string>, completed: set<string>,
    delegated: set<string>)

  function Close(i: Intake, tool: ToolExecution): Intake {
    i.(tools := EndCall(i.tools, tool.callId), stage := Said(i.stage),
       closed := if Truthy(tool.callId) then i.closed + {tool.callId.value} else i.closed)
  }

  /** Each external tool with an id of its own is called and closed at once. */
  function Paused(i: Intake, tools: seq<ToolExecution>, seen: set<string>): Intake
    decreases |tools|
  {
    if tools == [] then i
    else
      var t := tools[0];
      if !t.external || !Truthy(t.callId) || t.callId.value in seen then Paused(i, tools[1..], seen)
      else Paused(Close(i.(tools := StartCall(i.tools, t.name, t.callId)), t), tools[1..], seen + {t.callId.value})
  }

  function Finish(i: Intake): Intake {
    i.(tools := EndRun(i.tools), stage := Ended(i.stage), delegated := {})
  }

  function Speak(i: Intake, speaks: bool): Intake {
    if speaks then i.(stage := Said(i.stage)) else i
  }

  /** One agent event. Closing what is open needs no mention: nothing is open outside a run. */
  function Take(i: Intake, ev: AgnoEvent): Intake {
    match ev.kind
    case RunStarted(_) =>
      if Truthy(ev.parentRunId) then
        if Truthy(ev.runId) then Speak(i, true).(delegated := i.delegated + {ev.runId.value}) else i
      else if Truthy(ev.runId) && ev.runId == i.active then i
      else i.(active := ev.runId, stage := Started(i.stage))
    case RunContent(reasoning, content) => Speak(i, Truthy(reasoning) || Truthy(content))
    case RunCompleted(_) =>
      if Truthy(ev.parentRunId) then if Truthy(ev.runId) then i.(delegated := i.delegated - {ev.runId.value}) else i
      else if Truthy(ev.runId) && ev.runId.value in i.completed && ev.runId != i.active then i
      else
        Finish(i).(active := None, completed := if Truthy(ev.runId) then i.completed + {ev.runId.value}
          else i.completed)
    case RunError(_, _) =>
      if Truthy(ev.runId) && ev.runId.value in i.delegated then i.(delegated := i.delegated - {ev.runId.value})
        else Finish(i)
    case RunPaused(tools, _) => Paused(i, tools, {})
    case ReasoningStarted => Speak(i, true)
    case ReasoningContentDelta(delta) => Speak(i, Truthy(delta))
    case ReasoningStep(step) => Speak(i, Truthy(step))
    case ReasoningCompleted => i
    case ToolCallStarted(tool) =>
      if tool.None? then i
      else Speak(i, Truthy(tool.value.name)).(tools := StartCall(i.tools, tool.value.name, tool.value.callId))
    case ToolCallCompleted(tool, _) => if tool.None? then i else Close(i, tool.value)
    case ToolCallError(tool, _) =>
      if tool.None? || (Truthy(tool.value.callId) && tool.value.callId.value in i.closed) then i
        else Close(i, tool.value)
    case Unhandled => i
  }

  function IntakeOf(evs: seq<AgnoEvent>): Intake {
    if evs == [] then Intake(Tools(true, {}, {}, false), Waiting, {}, None, {}, {})
    else Take(IntakeOf(evs[..|evs| - 1]), evs[|evs| - 1])
  }

  // ── The adapter's state says the same ──

  ghost function Summary(a: State): Intake {
    Intake(ToolsOf(a.out), StageOf(a.out), a.closedTools, a.active, a.completed, a.subagents.vals.Keys)
  }

  /** Outside its run the adapter has nothing open. */
  ghost predicate Calm(a: State) {
    StageOf(a.out).Waiting? || StageOf(a.out).Over? ==> Closed(a)
  }

  ghost predicate Still(a: State, b: State) {
    Summary(b) == Summary(a) && Calm(b)
  }

  lemma SummaryEmit(a: State, e: Event)
    ensures Summary(Emit(a, e)) == Summary(a).(tools := ToolStep(ToolsOf(a.out), e),
      stage := StageAt(StageOf(a.out), e))
  {
    assert (a.out + [e])[..|a.out|] == a.out;
  }

  lemma CloseContentStill(a: State, key: string)
    requires Calm(a)
    ensures Still(a, CloseContent(a, key)) && CloseContent(a, key).reasonings == a.reasonings
  {
    hide ToolsOf, StageOf;
    if key in a.messages.vals {
      var slot := a.messages.vals[key];
      SummaryEmit(a.(messages := Pop(a.messages, key)),
        TextMessageCompletedEvent(slot.id, SubagentOf(a, key), Some(slot.meta)));
    }
  }

  lemma CloseReasoningStill(a: State, key: string)
    requires Calm(a)
    ensures Still(a, CloseReasoning(a, key)) && CloseReasoning(a, key).messages == a.messages
  {
    hide ToolsOf, StageOf;
    if key in a.reasonings.vals {
      var slot := a.reasonings.vals[key];
      SummaryEmit(a.(reasonings := Pop(a.reasonings, key)),
        ReasoningCompletedEvent(slot.id, SubagentOf(a, key), Some(slot.meta)));
    }
  }

  lemma {:induction false} CloseContentsStill(a: State, keys: seq<string>)
    requires Calm(a)
    ensures Still(a, CloseContents(a, keys))
    decreases |keys|
  {
    hide Summary, Calm, CloseContent;
    if keys != [] {
      CloseContentStill(a, keys[|keys| - 1]);
      CloseContentsStill(CloseContent(a, keys[|keys| - 1]), keys[..|keys| - 1]);
    }
  }

  lemma {:induction false} CloseReasoningsStill(a: State, keys: seq<string>)
    requires Calm(a)
    ensures Still(a, CloseReasonings(a, keys))
    decreases |keys|
  {
    hide Summary, Calm, CloseReasoning;
    if keys != [] {
      CloseReasoningStill(a, keys[|keys| - 1]);
      CloseReasoningsStill(CloseReasoning(a, keys[|keys| - 1]), keys[..|keys| - 1]);
    }
  }

  /** A delegation's end is seen inside the run only. */
  lemma CloseSubagentTakes(a: State, run: string, e: Event)
    requires Calm(a) && run in a.subagents.vals && (e.SubagentFinishedEvent? || e.SubagentErrorEvent?)
    ensures var b := CloseSubagent(a, run, e);
      Summary(b) == Summary(a).(delegated := Summary(a).delegated - {run}) && Calm(b)
  {
    hide ToolsOf, StageOf;
    SummaryEmit(a.(subagents := Pop(a.subagents, run)), e);
  }

  lemma {:induction false} FinishSubagentsTakes(a: State, runs: seq<string>)
    requires Calm(a)
    ensures var b := FinishSubagents(a, runs);
      Summary(b) == Summary(a).(delegated := Summary(a).delegated - set r | r in runs) && Calm(b)
    decreases |runs|
  {
    var all := set r | r in runs;
    if runs == [] {
      assert Summary(a).delegated - all == Summary(a).delegated;
    } else {
      var run, rest := runs[|runs| - 1], runs[..|runs| - 1];
      var left := set r | r in rest;
      assert runs == rest + [run] && all == left + {run};
      if run in a.subagents.vals {
        var e := SubagentFinishedEvent(run, None, Some(a.subagents.vals[run].meta));
        CloseSubagentTakes(a, run, e);
        hide Calm, CloseSubagent;
        FinishSubagentsTakes(CloseSubagent(a, run, e), rest);
        assert Summary(a).delegated - {run} - left == Summary(a).delegated - all;
      } else {
        hide Calm;
        FinishSubagentsTakes(a, rest);
        assert Summary(a).delegated - left == Summary(a).delegated - all;
      }
    }
  }

  lemma CloseEverythingTakes(a: State)
    requires Base(a) && Calm(a)
    ensures Summary(CloseEverything(a)) == Summary(a).(delegated := {}) && Closed(CloseEverything(a))
  {
    CloseEverythingKeeps(a);
    hide Base, Keeps, Summary, Calm, Closed, CloseContents, CloseReasonings, FinishSubagents;
    var b := CloseAllContent(a);
    CloseContentsStill(a, a.messages.order);
    var c := CloseAllReasoning(b);
    CloseReasoningsStill(b, b.reasonings.order);
    FinishSubagentsTakes(c, c.subagents.order);
    DelegatedIsEmpty(CloseEverything(a));
  }

  lemma DelegatedIsEmpty(a: State)
    ensures Closed(a) ==> Summary(a).delegated == {}
  {
  }

  // ── Each input ──

  /** One event said in the run, with the tables as they are. */
  lemma SayTakes(a: State, e: Event)
    requires Calm(a) && !e.RunStartedEvent? && !IsTerminal(e)
    ensures var b, i := Emit(a, e), Summary(a);
      Summary(b) == Speak(i, Visible(e)).(tools := ToolStep(i.tools, e)) && Calm(b)
  {
    hide ToolsOf, StageOf, ToolStep;
    SummaryEmit(a, e);
  }

  /** One event that is seen; whatever has been opened for it, it is said inside the run or out of place. */
  lemma OpenTakes(a: State, b: State, e: Event)
    requires b == Emit(b.(out := a.out), e) && !e.RunStartedEvent? && !IsTerminal(e) && Visible(e)
    requires b.closedTools == a.closedTools && b.active == a.active && b.completed == a.completed
    ensures var i := Summary(a);
      Summary(b) == Speak(i, true).(tools := ToolStep(i.tools, e), delegated := b.subagents.vals.Keys) && Calm(b)
  {
    hide ToolsOf, StageOf, ToolStep;
    SummaryEmit(b.(out := a.out), e);
  }

  lemma EnterReasoningTakes(a: State, key: string, meta: Metadata, announced: Option<Metadata>)
    requires Calm(a)
    ensures var b := EnterReasoning(a, key, meta, announced);
      Calm(b) && Speak(Summary(b), true) == Speak(Summary(a), true)
  {
    CloseContentStill(a, key);
    var b := CloseContent(a, key);
    if key !in b.reasonings.vals {
      OpenTakes(b, OpenReasoning(b, key, meta, announced),
        ReasoningStartedEvent(b.next, SubagentOf(b, key), announced));
    }
    hide Summary, Calm, CloseContent;
  }

  lemma EnterContentTakes(a: State, key: string, meta: Metadata)
    requires Calm(a)
    ensures var b := EnterContent(a, key, meta); Calm(b) && Speak(Summary(b), true) == Speak(Summary(a), true)
  {
    CloseReasoningStill(a, key);
    var b := CloseReasoning(a, key);
    if key !in b.messages.vals {
      var name := if Truthy(meta.parentRunId) then meta.name else None;
      OpenTakes(b, OpenContent(b, key, meta), TextMessageStartedEvent(b.next, name, SubagentOf(b, key), Some(meta)));
    }
    hide Summary, Calm, CloseReasoning;
  }

  lemma ReasoningTextTakes(a: State, key: string, meta: Metadata, text: string)
    requires Calm(a)
    ensures var b := ProcessReasoningContent(a, key, meta, text); Calm(b) && Summary(b) == Speak(Summary(a), text != "")
  {
    if text == "" {
      CloseReasoningStill(a, key);
    } else {
      EnterReasoningTakes(a, key, meta, Some(meta));
      var b := EnterReasoning(a, key, meta, Some(meta));
      SayTakes(b, ReasoningContentDeltaEvent(Some(b.reasonings.vals[key].id), text, SubagentOf(b, key), Some(meta)));
      hide Summary, Calm, EnterReasoning;
    }
  }

  lemma TextTakes(a: State, key: string, meta: Metadata, text: string)
    requires Calm(a)
    ensures var b := ProcessTextContent(a, key, meta, text); Calm(b) && Summary(b) == Speak(Summary(a), text != "")
  {
    if text == "" {
      CloseContentStill(a, key);
    } else {
      EnterContentTakes(a, key, meta);
      var b := EnterContent(a, key, meta);
      SayTakes(b, RunContentEvent(b.messages.vals[key].id, text, SubagentOf(b, key), Some(meta)));
      hide Summary, Calm, EnterContent;
    }
  }

  lemma RunContentTakes(a: State, key: string, meta: Metadata, reasoning: Option<string>, content: Option<string>)
    requires Calm(a)
    ensures var b := HandleRunContent(a, key, meta, reasoning, content);
      Calm(b) && Summary(b) == Speak(Summary(a), Truthy(reasoning) || Truthy(content))
  {
    hide Summary, Calm, ProcessReasoningContent, ProcessTextContent;
    var b := a;
    if reasoning.Some? {
      b := ProcessReasoningContent(a, key, meta, reasoning.value);
      ReasoningTextTakes(a, key, meta, reasoning.value);
    }
    if content.Some? { TextTakes(b, key, meta, content.value); }
  }

  lemma ReasoningStepTakes(a: State, key: string, meta: Metadata, step: Option<string>)
    requires Calm(a)
    ensures var b := HandleReasoningStep(a, key, meta, step); Calm(b) && Summary(b) == Speak(Summary(a), Truthy(step))
  {
    if Truthy(step) {
      EnterReasoningTakes(a, key, meta, None);
      var b := EnterReasoning(a, key, meta, None);
      SayTakes(b, ReasoningStepEvent(Some(b.reasonings.vals[key].id), step.value, SubagentOf(b, key), Some(meta)));
      hide Summary, Calm, EnterReasoning;
    }
  }

  lemma ReasoningStartedTakes(a: State, key: string, meta: Metadata)
    requires Calm(a)
    ensures var b := HandleReasoningStarted(a, key, meta); Calm(b) && Summary(b) == Speak(Summary(a), true)
  {
    CloseContentStill(a, key);
    var b := CloseContent(a, key);
    OpenTakes(b, OpenReasoning(b, key, meta, Some(meta)),
      ReasoningStartedEvent(b.next, SubagentOf(b, key), Some(meta)));
    hide ToolsOf, StageOf, Calm, CloseContent;
  }

  lemma DeltaTakes(a: State, key: string, meta: Metadata, delta: Option<string>)
    requires Calm(a)
    ensures var b := HandleReasoningContentDelta(a, key, meta, delta);
      Calm(b) && Summary(b) == Speak(Summary(a), Truthy(delta))
  {
    var id := if key in a.reasonings.vals then Some(a.reasonings.vals[key].id) else None;
    SayTakes(a, ReasoningContentDeltaEvent(id, if delta.Some? then delta.value
      else "", SubagentOf(a, key), Some(meta)));
    hide ToolsOf, StageOf, Calm;
  }

  lemma RunStartedTakes(a: State, ev: AgnoEvent)
    requires Calm(a) && ev.kind.RunStarted?
    ensures var b := Step(a, ev); Calm(b) && Summary(b) == Take(Summary(a), ev)
  {
    var meta := BuildMetadata(ev);
    if Truthy(ev.parentRunId) {
      if Truthy(ev.runId) {
        var parent, run := ev.parentRunId.value, ev.runId.value;
        CloseContentStill(a, parent);
        var b := CloseContent(a, parent);
        CloseReasoningStill(b, parent);
        StartSubagentTakes(CloseReasoning(b, parent), run, parent, meta);
        hide ToolsOf, StageOf, Calm, CloseContent, CloseReasoning, StartSubagent;
      }
    } else if !(Truthy(ev.runId) && ev.runId == a.active) {
      SummaryEmit(a.(active := ev.runId), RunStartedEvent(ev.runId, ev.kind.sessionId, Some(meta)));
      hide ToolsOf, StageOf;
    }
  }

  lemma StartSubagentTakes(a: State, run: string, parent: string, meta: Metadata)
    ensures var b := StartSubagent(a, run, parent, meta);
      Calm(b) && Summary(b) == Speak(Summary(a), true).(delegated := Summary(a).delegated + {run})
  {
    var b := StartSubagent(a, run, parent, meta);
    OpenTakes(a, b, b.out[|b.out| - 1]);
    hide ToolsOf, StageOf;
  }

  lemma EndTakes(a: State, b: State, e: Event)
    requires Closed(b) && b == Emit(b.(out := a.out), e) && IsTerminal(e) && b.closedTools == a.closedTools
    ensures Summary(b) == Finish(Summary(a)).(active := b.active, completed := b.completed) && Calm(b)
  {
    SummaryEmit(b.(out := a.out), e);
    DelegatedIsEmpty(b);
    hide ToolsOf, StageOf;
  }

  lemma CloseBothStill(a: State, key: string)
    requires Calm(a)
    ensures Still(a, CloseReasoning(CloseContent(a, key), key))
  {
    hide Summary, Calm;
    CloseContentStill(a, key);
    CloseReasoningStill(CloseContent(a, key), key);
  }

  /** A delegation in the table ends. */
  lemma EndSubagentTakes(a: State, key: string, run: string, e: Event)
    requires Calm(a) && run in a.subagents.vals && (e.SubagentFinishedEvent? || e.SubagentErrorEvent?)
    ensures var b := CloseReasoning(CloseContent(a, key), key);
      && run in b.subagents.vals
      && var c := CloseSubagent(b, run, e);
      Summary(c) == Summary(a).(delegated := Summary(a).delegated - {run}) && Calm(c)
  {
    CloseBothStill(a, key);
    var b := CloseReasoning(CloseContent(a, key), key);
    assert run in Summary(a).delegated && run in Summary(b).delegated;
    CloseSubagentTakes(b, run, e);
    hide Summary, Calm, CloseContent, CloseReasoning, CloseSubagent;
  }

  lemma NestedCompletedTakes(a: State, ev: AgnoEvent)
    requires Calm(a) && ev.kind.RunCompleted? && Truthy(ev.parentRunId)
    ensures var b := Step(a, ev); Calm(b) && Summary(b) == Take(Summary(a), ev)
  {
    var key, i := RunKey(a, ev), Summary(a);
    CloseBothStill(a, key);
    var b := CloseReasoning(CloseContent(a, key), key);
    assert Summary(b).delegated == i.delegated;
    if Truthy(ev.runId) && ev.runId.value in a.subagents.vals {
      var run := ev.runId.value;
      assert run in i.delegated;
      EndSubagentTakes(a, key, run, SubagentFinishedEvent(run, NonEmpty(ev.kind.finalContent),
        Some(b.subagents.vals[run].meta)));
    } else if Truthy(ev.runId) {
      assert ev.runId.value !in i.delegated && i.delegated - {ev.runId.value} == i.delegated;
    }
    hide ToolsOf, StageOf, Calm, CloseContent, CloseReasoning, CloseSubagent;
  }

  lemma TopCompletedTakes(a: State, ev: AgnoEvent)
    requires Base(a) && Calm(a) && ev.kind.RunCompleted? && !Truthy(ev.parentRunId)
    ensures var b := Step(a, ev); Calm(b) && Summary(b) == Take(Summary(a), ev)
  {
    if !(Truthy(ev.runId) && ev.runId.value in a.completed && ev.runId != a.active) {
      CloseEverythingTakes(a);
      var b := CloseEverything(a);
      var done := if Truthy(ev.runId) then b.completed + {ev.runId.value} else b.completed;
      var e := RunCompletedEvent(ev.runId, NonEmpty(ev.kind.finalContent), Some(BuildMetadata(ev)));
      hide ToolsOf, StageOf, Calm, CloseEverything, Base;
      EndTakes(b, Emit(b.(completed := done, active := None), e), e);
    }
  }

  lemma RunCompletedTakes(a: State, ev: AgnoEvent)
    requires Base(a) && Calm(a) && ev.kind.RunCompleted?
    ensures var b := Step(a, ev); Calm(b) && Summary(b) == Take(Summary(a), ev)
  {
    hide Step, Take, Summary, Calm, Base;
    if Truthy(ev.parentRunId) { NestedCompletedTakes(a, ev); } else { TopCompletedTakes(a, ev); }
  }

  lemma NestedErrorTakes(a: State, ev: AgnoEvent)
    requires Calm(a) && ev.kind.RunError? && Truthy(ev.runId) && ev.runId.value in a.subagents.vals
    ensures var b := Step(a, ev); Calm(b) && Summary(b) == Take(Summary(a), ev)
  {
    var run := ev.runId.value;
    CloseBothStill(a, run);
    var b := CloseReasoning(CloseContent(a, run), run);
    var text := if Truthy(ev.kind.message) then ev.kind.message.value else "subagent run failed";
    assert run in Summary(b).delegated && run in Summary(a).delegated;
    EndSubagentTakes(a, run, run, SubagentErrorEvent(run, text, ev.kind.errorType, Some(b.subagents.vals[run].meta)));
    hide Summary, Calm, CloseContent, CloseReasoning, CloseSubagent;
  }

  lemma TopErrorTakes(a: State, ev: AgnoEvent)
    requires Base(a) && Calm(a) && ev.kind.RunError? && !(Truthy(ev.runId) && ev.runId.value in a.subagents.vals)
    ensures var b := Step(a, ev); Calm(b) && Summary(b) == Take(Summary(a), ev)
  {
    CloseEverythingTakes(a);
    var b := CloseEverything(a);
    var e := RunErrorEvent(ev.kind.errorType, NonEmpty(ev.kind.message), Some(BuildMetadata(ev)));
    hide ToolsOf, StageOf, Calm, CloseEverything, Base;
    EndTakes(b, Emit(b, e), e);
  }

  lemma RunErrorTakes(a: State, ev: AgnoEvent)
    requires Base(a) && Calm(a) && ev.kind.RunError?
    ensures var b := Step(a, ev); Calm(b) && Summary(b) == Take(Summary(a), ev)
  {
    hide Step, Take, Summary, Calm, Base;
    if Truthy(ev.runId) && ev.runId.value in a.subagents.vals {
      NestedErrorTakes(a, ev);
    } else {
      TopErrorTakes(a, ev);
    }
  }

  lemma MarkTakes(a: State, id: Option<string>)
    requires Calm(a)
    ensures var b := MarkClosed(a, NonEmpty(id));
      Summary(b) == Summary(a).(closed := if Truthy(id) then Summary(a).closed + {id.value} else Summary(a).closed)
        && Calm(b)
  {
    hide ToolsOf, StageOf;
  }

  lemma {:induction false} SynthesizeTakes(a: State, tools: seq<ToolExecution>, seen: set<string>)
    requires Calm(a)
    ensures var b := SynthesizeTools(a, tools, seen); Summary(b) == Paused(Summary(a), tools, seen) && Calm(b)
    decreases |tools|
  {
    if tools != [] {
      var t := tools[0];
      if !t.external || !Truthy(t.callId) || t.callId.value in seen {
        hide Calm, Summary;
        SynthesizeTakes(a, tools[1..], seen);
      } else {
        CallAndClose(a, t);
        var info := Some(ToolInfo(t.callId, t.name, t.args, None));
        var b := Emit(Emit(a, ToolCallStartedEvent(info, None, None)), ToolCallCompletedEvent(info, None, None, None));
        hide Calm, Summary, MarkClosed, Emit;
        SynthesizeTakes(MarkClosed(b, t.callId), tools[1..], seen + {t.callId.value});
      }
    }
  }

  lemma CallAndClose(a: State, t: ToolExecution)
    requires Calm(a) && Truthy(t.callId)
    ensures var info := Some(ToolInfo(t.callId, t.name, t.args, None));
      var b := Emit(Emit(a, ToolCallStartedEvent(info, None, None)), ToolCallCompletedEvent(info, None, None, None));
      var c, i := MarkClosed(b, t.callId), Summary(a);
      Summary(c) == Close(i.(tools := StartCall(i.tools, t.name, t.callId)), t) && Calm(c)
  {
    hide Summary, Calm, StartCall, EndCall, Emit, MarkClosed;
    var info := Some(ToolInfo(t.callId, t.name, t.args, None));
    var b := Emit(a, ToolCallStartedEvent(info, None, None));
    SayTakes(a, ToolCallStartedEvent(info, None, None));
    SayTakes(b, ToolCallCompletedEvent(info, None, None, None));
    MarkTakes(Emit(b, ToolCallCompletedEvent(info, None, None, None)), t.callId);
  }

  lemma RunPausedTakes(a: State, tools: seq<ToolExecution>, requirements: seq<string>)
    requires Calm(a)
    ensures var b := HandleRunPaused(a, tools, requirements); Summary(b) == Paused(Summary(a), tools, {}) && Calm(b)
  {
    CloseReasoningsStill(a, a.reasonings.order);
    var b := CloseAllReasoning(a);
    CloseContentsStill(b, b.messages.order);
    var c := CloseAllContent(b).(paused := true, pausedTools := tools, pausedRequirements := requirements);
    assert Summary(c) == Summary(a) && Calm(c);
    hide ToolsOf, StageOf, Calm, Summary, CloseAllReasoning, CloseAllContent, SynthesizeTools;
    SynthesizeTakes(c, tools, {});
  }

  lemma ToolStartedTakes(a: State, key: string, meta: Metadata, tool: Option<ToolExecution>)
    requires Calm(a)
    ensures var b, i := HandleToolCallStarted(a, key, meta, tool), Summary(a);
      && Calm(b)
      && Summary(b) == if tool.None? then i
                       else
                         Speak(i, Truthy(tool.value.name)).(tools :=
                           StartCall(i.tools, tool.value.name, tool.value.callId))
  {
    CloseReasoningStill(a, key);
    CloseContentStill(CloseReasoning(a, key), key);
    var b := CloseContent(CloseReasoning(a, key), key);
    var info := if tool.Some? then Some(ToolInfo(tool.value.callId, tool.value.name, tool.value.args, None)) else None;
    SayTakes(b, ToolCallStartedEvent(info, SubagentOf(b, key), Some(meta)));
    hide ToolsOf, StageOf, Calm, StartCall, CloseContent, CloseReasoning;
  }

  /** A call ends: its id is closed, and its end is seen. */
  lemma CloseTakes(a: State, tool: Option<ToolExecution>, info: Option<ToolInfo>, e: Event)
    requires Calm(a) && (info.Some? <==> tool.Some?) && (info.Some? ==> info.value.callId == tool.value.callId)
    requires (e.ToolCallCompletedEvent? || e.ToolCallErrorEvent?) && e.tool == info
    ensures var b := Emit(MarkClosed(a, ToolCallId(tool)), e);
      Calm(b) && Summary(b) == if tool.None? then Summary(a) else Close(Summary(a), tool.value)
  {
    hide Summary, Calm, EndCall, MarkClosed;
    MarkTakes(a, if tool.Some? then tool.value.callId else None);
    SayTakes(MarkClosed(a, ToolCallId(tool)), e);
  }

  lemma ToolCompletedTakes(a: State, key: string, meta: Metadata, tool: Option<ToolExecution>, output: Option<string>)
    requires Calm(a)
    ensures var b := HandleToolCallCompleted(a, key, meta, tool, output);
      Calm(b) && Summary(b) == if tool.None? then Summary(a) else Close(Summary(a), tool.value)
  {
    var b := MarkClosed(a, ToolCallId(tool));
    var info :=
      if tool.Some? then Some(ToolInfo(tool.value.callId, tool.value.name, tool.value.args, tool.value.result))
        else None;
    hide Summary, Calm;
    CloseTakes(a, tool, info, ToolCallCompletedEvent(info, NonEmpty(output), SubagentOf(b, key), Some(meta)));
  }

  lemma ToolErrorTakes(a: State, key: string, meta: Metadata, tool: Option<ToolExecution>, error: Option<string>)
    requires Calm(a)
    ensures var b, i := HandleToolCallError(a, key, meta, tool, error), Summary(a);
      Calm(b) && Summary(b) == if tool.None?
        || (Truthy(tool.value.callId) && tool.value.callId.value in i.closed) then i else Close(i, tool.value)
  {
    if !AlreadyClosed(a, tool) {
      var b := MarkClosed(a, ToolCallId(tool));
      var info := if tool.Some? then Some(ToolInfo(tool.value.callId, tool.value.name, None, None)) else None;
      CloseTakes(a, tool, info, ToolCallErrorEvent(info, NonEmpty(error), SubagentOf(b, key), Some(meta)));
      hide ToolsOf, StageOf, Calm, EndCall, MarkClosed;
    }
  }

  lemma StepTakes(a: State, ev: AgnoEvent)
    requires Base(a) && Calm(a)
    ensures var b := Step(a, ev); Calm(b) && Summary(b) == Take(Summary(a), ev)
  {
    hide Base, Calm, Summary;
    var key, meta := RunKey(a, ev), BuildMetadata(ev);
    match ev.kind
    case RunStarted(_) => RunStartedTakes(a, ev);
    case RunContent(reasoning, content) => RunContentTakes(a, key, meta, reasoning, content);
    case RunCompleted(_) => RunCompletedTakes(a, ev);
    case RunError(_, _) => RunErrorTakes(a, ev);
    case RunPaused(tools, requirements) => RunPausedTakes(a, tools, requirements);
    case ReasoningStarted => ReasoningStartedTakes(a, key, meta);
    case ReasoningContentDelta(delta) => DeltaTakes(a, key, meta, delta);
    case ReasoningStep(step) => ReasoningStepTakes(a, key, meta, step);
    case ReasoningCompleted => CloseReasoningStill(a, key);
    case ToolCallStarted(tool) => ToolStartedTakes(a, key, meta, tool);
    case ToolCallCompleted(tool, output) => ToolCompletedTakes(a, key, meta, tool, output);
    case ToolCallError(tool, error) => ToolErrorTakes(a, key, meta, tool, error);
    case Unhandled =>
  }

  /**
   For every input sequence, orderly or not: what the input says of tool calls and of the run is what
   the adapter's trace says.
   */
  lemma {:induction false} IntakeIsTrace(evs: seq<AgnoEvent>)
    ensures Summary(Run(evs)) == IntakeOf(evs) && Calm(Run(evs))
    decreases |evs|
  {
    hide Summary, Calm, Step, Take, Base;
    if evs == [] {
      NothingYet();
    } else {
      IntakeIsTrace(evs[..|evs| - 1]);
      BaseAlways(evs[..|evs| - 1]);
      StepTakes(Run(evs[..|evs| - 1]), evs[|evs| - 1]);
    }
  }

  lemma NothingYet()
    ensures Summary(Init()) == IntakeOf([]) && Calm(Init())
  {
  }

  lemma BaseAlways(evs: seq<AgnoEvent>)
    ensures Base(Run(evs))
  {
    RunVerdict(evs);
    hide Base, Good, Doomed;
  }

  // ── End to end ──

  lemma FlushTakes(evs: seq<AgnoEvent>)
    ensures Summary(Flush(Run(evs))) == IntakeOf(evs).(delegated := {})
  {
    hide Summary, Calm, Base, Run, IntakeOf, CloseEverything;
    IntakeIsTrace(evs);
    BaseAlways(evs);
    CloseEverythingTakes(Run(evs));
  }

  /** What the client of a flushed run knows at the end. */
  function Seen(evs: seq<AgnoEvent>): Client {
    ReceiveAll(Fresh(), ImageOf(Flush(Run(evs)).out).1)
  }

  /**
   End to end: orderly input, flushed, reaches the client by the rules exactly when the input's tool
   calls are in order and it is one run. Then nothing is left open but the tool calls that were never
   ended, and not even those if the run is over.
   */
  lemma EndToEnd(evs: seq<AgnoEvent>)
    requires AllOrderly(evs)
    ensures var c, i := Seen(evs), IntakeOf(evs);
      && (Follows(c) <==> i.tools.ok && !i.stage.Broken?)
      && (Follows(c) ==>
            && c.stage == i.stage && c.messages == map[] && c.reasonings == map[] && c.subagents == {}
            && (forall x :: Given(x) in c.calls <==> x in i.tools.open))
      && (Follows(c) && Protocol.Idle(c) <==> i.tools.ok && !i.stage.Broken? && NoCalls(i.tools))
      && (Follows(c) && c.stage.Over? ==> Protocol.Idle(c))
  {
    BalancedIffOrderly(evs);
    FlushTakes(evs);
    var out := Flush(Run(evs)).out;
    ImageFollowsRules(out);
    StageIsSeen(out);
    hide Advance, ReceiveAll, ToolsOf, StageOf, ImageOf, Run, Flush, AllOrderly, IntakeOf, ScanOf;
    if Follows(Seen(evs)) {
      CallsAreOpen(ToolsOf(out), ImageOf(out).0, Seen(evs));
      if StageOf(out).Over? { OverHasNoCalls(out); }
    }
  }

  lemma TakenOf(evs: seq<AgnoEvent>, ev: AgnoEvent)
    ensures IntakeOf(evs + [ev]) == Take(IntakeOf(evs), ev) && Run(evs + [ev]) == Step(Run(evs), ev)
  {
    assert (evs + [ev])[..|evs|] == evs;
  }

  lemma EndIsTaken(a: State, end: AgnoEvent)
    requires EndsRun(a, end)
    ensures Take(Summary(a), end).tools == EndRun(ToolsOf(a.out))
  {
    hide ToolsOf, StageOf;
  }

  /** The adapter ends no tool call of its own: ending a run, or failing it, over an open call breaks the rules. */
  lemma RunEndsOverOpenCall(evs: seq<AgnoEvent>, end: AgnoEvent)
    requires EndsRun(Run(evs), end) && !NoCalls(IntakeOf(evs).tools) && ScanOf(Run(evs + [end]).out).ok
    ensures !ReceiveAll(Fresh(), ImageOf(Run(evs + [end]).out).1).ok
  {
    hide Run, Calm, Take, IntakeOf, ToolsOf, StageOf, NoCalls, Matches, ReceiveAll, ImageOf, ScanOf, EndsRun;
    IntakeIsTrace(evs);
    IntakeIsTrace(evs + [end]);
    TakenOf(evs, end);
    EndIsTaken(Run(evs), end);
    ImageTracks(Run(evs + [end]).out);
  }

  /** Whatever an orderly input says outside its run, before the start or after the end, breaks the rules. */
  lemma SpeaksOutOfRun(evs: seq<AgnoEvent>, text: AgnoEvent)
    requires AllOrderly(evs) && text.kind.RunContent? && Truthy(text.kind.content) && !IntakeOf(evs).stage.Running?
    ensures AllOrderly(evs + [text]) && !Follows(Seen(evs + [text]))
  {
    TakenOf(evs, text);
    assert (evs + [text])[..|evs|] == evs;
    hide Run, IntakeOf, Seen, Follows;
    EndToEnd(evs + [text]);
  }

  // ── Inputs that break the rules ──

  function Start(run: string): AgnoEvent {
    Plain(AgnoKind.RunStarted(None), run)
  }

  function End(run: string, fails: bool): AgnoEvent {
    Plain(if fails then RunError(None, None) else RunCompleted(None), run)
  }

  /** An input that is orderly in any state. */
  predicate Mild(ev: AgnoEvent) {
    !ev.kind.ReasoningStarted? && !ev.kind.ReasoningContentDelta? && !Truthy(ev.parentRunId)
  }

  lemma MildIsOrderly(evs: seq<AgnoEvent>, ev: AgnoEvent)
    requires AllOrderly(evs) && Mild(ev)
    ensures AllOrderly(evs + [ev]) && IntakeOf(evs + [ev]) == Take(IntakeOf(evs), ev)
  {
    hide Run, Take;
    assert (evs + [ev])[..|evs|] == evs;
  }

  lemma ThreeMild(x: AgnoEvent, y: AgnoEvent, z: AgnoEvent)
    requires Mild(x) && Mild(y) && Mild(z)
    ensures AllOrderly([x, y, z]) && IntakeOf([x, y, z]) == Take(Take(Take(IntakeOf([]), x), y), z)
  {
    MildIsOrderly([], x);
    MildIsOrderly([x], y);
    MildIsOrderly([x, y], z);
    assert [] + [x] == [x] && [x] + [y] == [x, y] && [x, y] + [z] == [x, y, z];
    hide AllOrderly, IntakeOf, Take;
  }

  lemma CalledIsOpen(i: Intake, t: ToolExecution, run: string)
    requires Truthy(t.name)
    ensures !NoCalls(Take(i, Plain(ToolCallStarted(Some(t)), run)).tools)
  {
    if Truthy(t.callId) { assert t.callId.value in Take(i, Plain(ToolCallStarted(Some(t)), run)).tools.open; }
  }

  lemma EndedIsTaken(i: Intake, run: string, fails: bool)
    requires i.completed == {} && i.delegated == {}
    ensures var k := Take(i, End(run, fails)); k.tools == EndRun(i.tools) && k.stage == Ended(i.stage)
    ensures Take(i, End(run, fails)).active in {None, i.active}
  {
  }

  /** A start, any named call and the end of the run, or its failure. */
  lemma RunLeavesCallOpen(t: ToolExecution, fails: bool)
    requires Truthy(t.name)
    ensures var evs := [Start("r"), Plain(ToolCallStarted(Some(t)), "r"), End("r", fails)];
      AllOrderly(evs) && !Follows(Seen(evs))
  {
    var evs := [Start("r"), Plain(ToolCallStarted(Some(t)), "r"), End("r", fails)];
    ThreeMild(evs[0], evs[1], evs[2]);
    var i := Take(IntakeOf([]), evs[0]);
    var j := Take(i, evs[1]);
    assert j.completed == {} && j.delegated == {};
    CalledIsOpen(i, t, "r");
    EndedIsTaken(j, "r", fails);
    hide AllOrderly, Seen, Follows, Take, Start, End, NoCalls;
    EndToEnd(evs);
  }

  /** A second top-level run on the same stream. */
  lemma SecondRunBreaksRules(fails: bool)
    ensures var evs := [Start("r"), End("r", fails), Start("s")];
      AllOrderly(evs) && !Follows(Seen(evs))
  {
    var evs := [Start("r"), End("r", fails), Start("s")];
    ThreeMild(evs[0], evs[1], evs[2]);
    var i := Take(IntakeOf([]), evs[0]);
    EndedIsTaken(i, "r", fails);
    assert "s"[0] != "r"[0];
    assert Take(Take(i, evs[1]), evs[2]).stage.Broken?;
    hide AllOrderly, Seen, Follows, Take, Start, End;
    EndToEnd(evs);
  }

  /** Text before any run has started. */
  lemma TextBeforeStartBreaksRules(text: string)
    requires text != ""
    ensures !Follows(Seen([Plain(RunContent(None, Some(text)), "r")]))
  {
    assert [] + [Plain(RunContent(None, Some(text)), "r")] == [Plain(RunContent(None, Some(text)), "r")];
    hide Seen, Follows;
    SpeaksOutOfRun([], Plain(RunContent(None, Some(text)), "r"));
  }
}
