/**
 The main result on the adapter: the whole trace, once flushed, is well bracketed if and only if
 every input was orderly when it arrived.
 */
module Lifecycle {
  import opened Wrappers
  import opened AgentEvents
  import opened OrderedDict
  import opened StreamSpec
  import opened Brackets

  // ── Handlers ──

  lemma CloseContentKeeps(a: State, key: string)
    requires Base(a)
    ensures Keeps(a, CloseContent(a, key)) && key !in CloseContent(a, key).messages.vals
  {
    CloseContentBase(a, key);
    if Good(a) { CloseContentGood(a, key); }
    if Doomed(a) { CloseContentDoomed(a, key); }
  }

  lemma CloseReasoningKeeps(a: State, key: string)
    requires Base(a)
    ensures Keeps(a, CloseReasoning(a, key)) && key !in CloseReasoning(a, key).reasonings.vals
  {
    CloseReasoningBase(a, key);
    if Good(a) { CloseReasoningGood(a, key); }
    if Doomed(a) { CloseReasoningDoomed(a, key); }
  }

  lemma CloseSubagentKeeps(a: State, run: string, e: Event)
    requires Base(a) && Idle(a, run) && run in a.subagents.vals && Ends(e, run)
    ensures Keeps(a, CloseSubagent(a, run, e))
  {
    CloseSubagentBase(a, run, e);
    if Good(a) { CloseSubagentGood(a, run, e); }
    if Doomed(a) { CloseSubagentDoomed(a, run, e); }
  }

  /** Both sequences of one run closed, in either order. */
  lemma CloseBothKeeps(a: State, key: string)
    requires Base(a)
    ensures Keeps(a, CloseReasoning(CloseContent(a, key), key)) && Idle(CloseReasoning(CloseContent(a, key), key), key)
    ensures Keeps(a, CloseContent(CloseReasoning(a, key), key))
  {
    hide Base, Good, Doomed;
    CloseContentKeeps(a, key);
    CloseReasoningKeeps(CloseContent(a, key), key);
    CloseReasoningKeeps(a, key);
    CloseContentKeeps(CloseReasoning(a, key), key);
  }

  lemma {:induction false} CloseContentsKeeps(a: State, keys: seq<string>)
    requires Base(a) && keys == a.messages.order
    ensures var b := CloseContents(a, keys);
      Keeps(a, b) && b.messages.order == [] && b.reasonings == a.reasonings && b.subagents == a.subagents
    decreases |keys|
  {
    hide Good, Doomed, Ids;
    if keys != [] {
      var last := keys[|keys| - 1];
      PopLast(a.messages);
      CloseContentKeeps(a, last);
      CloseContentsKeeps(CloseContent(a, last), keys[..|keys| - 1]);
    }
  }

  lemma {:induction false} CloseReasoningsKeeps(a: State, keys: seq<string>)
    requires Base(a) && keys == a.reasonings.order
    ensures var b := CloseReasonings(a, keys);
      Keeps(a, b) && b.reasonings.order == [] && b.messages == a.messages && b.subagents == a.subagents
    decreases |keys|
  {
    hide Good, Doomed, Ids;
    if keys != [] {
      var last := keys[|keys| - 1];
      PopLast(a.reasonings);
      CloseReasoningKeeps(a, last);
      CloseReasoningsKeeps(CloseReasoning(a, last), keys[..|keys| - 1]);
    }
  }

  lemma {:induction false} FinishSubagentsKeeps(a: State, runs: seq<string>)
    requires Base(a) && runs == a.subagents.order && a.messages.order == [] && a.reasonings.order == []
    ensures var b := FinishSubagents(a, runs);
      Keeps(a, b) && b.subagents.order == [] && b.messages == a.messages && b.reasonings == a.reasonings
    decreases |runs|
  {
    if runs != [] {
      var last := runs[|runs| - 1];
      PopLast(a.subagents);
      var e := SubagentFinishedEvent(last, None, Some(a.subagents.vals[last].meta));
      CloseSubagentKeeps(a, last, e);
      hide Good, Doomed, Ids;
      FinishSubagentsKeeps(CloseSubagent(a, last, e), runs[..|runs| - 1]);
    }
  }

  ghost predicate Closed(a: State) {
    a.messages == Empty() && a.reasonings == Empty() && a.subagents == Empty()
  }

  lemma CloseEverythingKeeps(a: State)
    requires Base(a)
    ensures Keeps(a, CloseEverything(a)) && Closed(CloseEverything(a))
  {
    var b := CloseAllContent(a);
    CloseContentsKeeps(a, a.messages.order);
    var c := CloseAllReasoning(b);
    CloseReasoningsKeeps(b, b.reasonings.order);
    FinishSubagentsKeeps(c, c.subagents.order);
  }

  /** Nothing is open in the trace exactly when the tables are empty and nothing has leaked. */
  lemma ClosedVerdict(a: State)
    requires Closed(a)
    ensures Good(a) ==> Balanced(a.out)
    ensures Doomed(a) ==> !Balanced(a.out)
  {
  }

  lemma EnterReasoningKeeps(a: State, key: string, meta: Metadata, announced: Option<Metadata>)
    requires Base(a) && (announced.Some? ==> announced == Some(meta))
    ensures Keeps(a, EnterReasoning(a, key, meta, announced))
  {
    hide Good, Doomed;
    CloseContentKeeps(a, key);
    var b := CloseContent(a, key);
    if key !in b.reasonings.vals {
      OpenReasoningBase(b, key, meta, announced);
      if Good(b) { OpenReasoningGood(b, key, meta, announced); }
      if Doomed(b) { OpenReasoningDoomed(b, key, meta, announced); }
    }
  }

  lemma EnterContentKeeps(a: State, key: string, meta: Metadata)
    requires Base(a)
    ensures Keeps(a, EnterContent(a, key, meta))
  {
    CloseReasoningKeeps(a, key);
    var b := CloseReasoning(a, key);
    if key !in b.messages.vals {
      OpenContentBase(b, key, meta);
      if Good(b) { OpenContentGood(b, key, meta); }
      if Doomed(b) { OpenContentDoomed(b, key, meta); }
    }
  }

  /** Content for a sequence that is open. */
  lemma ExtendKeeps(a: State, key: string, e: Event)
    requires Base(a)
    requires
      || (e.RunContentEvent? && key in a.messages.vals && e.id == a.messages.vals[key].id)
      || ((e.ReasoningContentDeltaEvent? || e.ReasoningStepEvent?)
          && key in a.reasonings.vals && e.reasoningId == Some(a.reasonings.vals[key].id))
    requires e.subagent == SubagentOf(a, key)
    ensures Keeps(a, Emit(a, e))
  {
    ExtendAllowed(a, key, e);
    hide Base, Good, Doomed, Advance, ScanOf;
    InnerKeeps(a, e);
  }

  lemma ExtendAllowed(a: State, key: string, e: Event)
    requires
      || (e.RunContentEvent? && key in a.messages.vals && e.id == a.messages.vals[key].id)
      || ((e.ReasoningContentDeltaEvent? || e.ReasoningStepEvent?)
          && key in a.reasonings.vals && e.reasoningId == Some(a.reasonings.vals[key].id))
    requires e.subagent == SubagentOf(a, key)
    ensures Good(a) ==> Advance(ScanOf(a.out), e).ok
  {
    hide OwnersFirst, ScanOf;
  }

  /** A tool event attributed to its run or to nobody. */
  lemma ToolKeeps(a: State, key: string, e: Event)
    requires Base(a) && (e.ToolCallStartedEvent? || e.ToolCallCompletedEvent? || e.ToolCallErrorEvent?)
    requires e.subagent == SubagentOf(a, key) || e.subagent == None
    ensures Keeps(a, Emit(a, e))
  {
    hide Base, Good, Doomed;
    OwnAttribution(a, key);
    InnerKeeps(a, e);
  }

  lemma OwnAttribution(a: State, key: string)
    ensures Good(a) ==> ScanOf(a.out).ok && Attributed(ScanOf(a.out), SubagentOf(a, key))
  {
  }

  /** Fields other than the tables and the trace do not matter. */
  lemma SameKeeps(a: State, b: State)
    requires Base(a)
    requires b == a.(closedTools := b.closedTools, active := b.active, completed := b.completed,
                     paused := b.paused, pausedTools := b.pausedTools, pausedRequirements := b.pausedRequirements)
    ensures Keeps(a, b)
  {
  }

  lemma RunContentKeeps(a: State, key: string, meta: Metadata, reasoning: Option<string>, content: Option<string>)
    requires Base(a)
    ensures Keeps(a, HandleRunContent(a, key, meta, reasoning, content))
  {
    hide Base, Good, Doomed;
    var b := if reasoning.Some? then ProcessReasoningContent(a, key, meta, reasoning.value) else a;
    if reasoning.Some? {
      ReasoningTextKeeps(a, key, meta, reasoning.value);
    }
    if content.Some? {
      TextKeeps(b, key, meta, content.value);
    }
  }

  lemma ReasoningTextKeeps(a: State, key: string, meta: Metadata, text: string)
    requires Base(a)
    ensures Keeps(a, ProcessReasoningContent(a, key, meta, text))
  {
    hide Base, Good, Doomed;
    if text == "" {
      CloseReasoningKeeps(a, key);
    } else {
      EnterReasoningKeeps(a, key, meta, Some(meta));
      var b := EnterReasoning(a, key, meta, Some(meta));
      ExtendKeeps(b, key, ReasoningContentDeltaEvent(Some(b.reasonings.vals[key].id), text, SubagentOf(b, key),
        Some(meta)));
    }
  }

  lemma TextKeeps(a: State, key: string, meta: Metadata, text: string)
    requires Base(a)
    ensures Keeps(a, ProcessTextContent(a, key, meta, text))
  {
    hide Base, Good, Doomed;
    if text == "" {
      CloseContentKeeps(a, key);
    } else {
      EnterContentKeeps(a, key, meta);
      var b := EnterContent(a, key, meta);
      ExtendKeeps(b, key, RunContentEvent(b.messages.vals[key].id, text, SubagentOf(b, key), Some(meta)));
    }
  }

  lemma ReasoningStepKeeps(a: State, key: string, meta: Metadata, step: Option<string>)
    requires Base(a)
    ensures Keeps(a, HandleReasoningStep(a, key, meta, step))
  {
    hide Base, Good, Doomed;
    if Truthy(step) {
      EnterReasoningKeeps(a, key, meta, None);
      var b := EnterReasoning(a, key, meta, None);
      ExtendKeeps(b, key, ReasoningStepEvent(Some(b.reasonings.vals[key].id), step.value, SubagentOf(b, key),
        Some(meta)));
    }
  }

  lemma RunCompletedKeeps(a: State, ev: AgnoEvent)
    requires Base(a) && ev.kind.RunCompleted?
    ensures Keeps(a, HandleRunCompleted(a, ev, RunKey(a, ev), BuildMetadata(ev)))
  {
    hide Base, Good, Doomed;
    var key, meta, result := RunKey(a, ev), BuildMetadata(ev), NonEmpty(ev.kind.finalContent);
    if Truthy(ev.parentRunId) {
      var b := CloseReasoning(CloseContent(a, key), key);
      if Truthy(ev.runId) && ev.runId.value in b.subagents.vals {
        EndSubagentKeeps(a, key, SubagentFinishedEvent(key, result, Some(b.subagents.vals[key].meta)));
      } else {
        CloseBothKeeps(a, key);
      }
    } else if Truthy(ev.runId) && ev.runId.value in a.completed && ev.runId != a.active {
    } else {
      CloseEverythingKeeps(a);
      var b := CloseEverything(a);
      var c := b.(completed := if Truthy(ev.runId) then b.completed + {ev.runId.value}
        else b.completed, active := None);
      SameKeeps(b, c);
      TerminalKeeps(c, RunCompletedEvent(ev.runId, result, Some(meta)));
    }
  }

  /** A delegation's own sequences close, then it ends. */
  lemma EndSubagentKeeps(a: State, run: string, e: Event)
    requires Base(a) && run in a.subagents.vals && Ends(e, run)
    ensures Keeps(a, CloseSubagent(CloseReasoning(CloseContent(a, run), run), run, e))
  {
    CloseBothKeeps(a, run);
    CloseSubagentKeeps(CloseReasoning(CloseContent(a, run), run), run, e);
  }

  lemma TerminalKeeps(a: State, e: Event)
    requires Base(a) && Closed(a) && (e.RunCompletedEvent? || e.RunErrorEvent?)
    ensures Keeps(a, Emit(a, e))
  {
    ClosedVerdict(a);
    InnerKeeps(a, e);
  }

  lemma RunErrorKeeps(a: State, ev: AgnoEvent)
    requires Base(a) && ev.kind.RunError?
    ensures Keeps(a, HandleRunError(a, ev, BuildMetadata(ev)))
  {
    hide Base, Good, Doomed;
    if Truthy(ev.runId) && ev.runId.value in a.subagents.vals {
      var run := ev.runId.value;
      var text := if Truthy(ev.kind.message) then ev.kind.message.value else "subagent run failed";
      var b := CloseReasoning(CloseContent(a, run), run);
      assert b.subagents == a.subagents;
      EndSubagentKeeps(a, run, SubagentErrorEvent(run, text, ev.kind.errorType, Some(b.subagents.vals[run].meta)));
    } else {
      CloseEverythingKeeps(a);
      TerminalKeeps(CloseEverything(a),
        RunErrorEvent(ev.kind.errorType, NonEmpty(ev.kind.message), Some(BuildMetadata(ev))));
    }
  }

  lemma {:induction false} SynthesizeKeeps(a: State, tools: seq<ToolExecution>, seen: set<string>)
    requires Base(a)
    ensures Keeps(a, SynthesizeTools(a, tools, seen))
    decreases |tools|
  {
    hide Base, Good, Doomed;
    if tools != [] {
      var t := tools[0];
      if !t.external || !Truthy(t.callId) || t.callId.value in seen {
        SynthesizeKeeps(a, tools[1..], seen);
      } else {
        var info := Some(ToolInfo(t.callId, t.name, t.args, None));
        var e1, e2 := ToolCallStartedEvent(info, None, None), ToolCallCompletedEvent(info, None, None, None);
        ToolKeeps(a, "", e1);
        ToolKeeps(Emit(a, e1), "", e2);
        var b := Emit(Emit(a, e1), e2);
        SameKeeps(b, MarkClosed(b, t.callId));
        SynthesizeKeeps(MarkClosed(b, t.callId), tools[1..], seen + {t.callId.value});
      }
    }
  }

  lemma RunPausedKeeps(a: State, tools: seq<ToolExecution>, requirements: seq<string>)
    requires Base(a)
    ensures Keeps(a, HandleRunPaused(a, tools, requirements))
  {
    CloseReasoningsKeeps(a, a.reasonings.order);
    var b := CloseAllReasoning(a);
    CloseContentsKeeps(b, b.messages.order);
    var c := CloseAllContent(b);
    var d := c.(paused := true, pausedTools := tools, pausedRequirements := requirements);
    SameKeeps(c, d);
    SynthesizeKeeps(d, tools, {});
  }

  lemma ToolStartedKeeps(a: State, key: string, meta: Metadata, tool: Option<ToolExecution>)
    requires Base(a)
    ensures Keeps(a, HandleToolCallStarted(a, key, meta, tool))
  {
    CloseBothKeeps(a, key);
    var b := CloseContent(CloseReasoning(a, key), key);
    var info := if tool.Some? then Some(ToolInfo(tool.value.callId, tool.value.name, tool.value.args, None)) else None;
    ToolKeeps(b, key, ToolCallStartedEvent(info, SubagentOf(b, key), Some(meta)));
  }

  lemma ToolCompletedKeeps(a: State, key: string, meta: Metadata, tool: Option<ToolExecution>, output: Option<string>)
    requires Base(a)
    ensures Keeps(a, HandleToolCallCompleted(a, key, meta, tool, output))
  {
    var info := if tool.Some? then Some(ToolInfo(tool.value.callId, tool.value.name, tool.value.args,
      tool.value.result)) else None;
    var b := MarkClosed(a, ToolCallId(tool));
    SameKeeps(a, b);
    ToolKeeps(b, key, ToolCallCompletedEvent(info, NonEmpty(output), SubagentOf(b, key), Some(meta)));
  }

  lemma ToolErrorKeeps(a: State, key: string, meta: Metadata, tool: Option<ToolExecution>, error: Option<string>)
    requires Base(a)
    ensures Keeps(a, HandleToolCallError(a, key, meta, tool, error))
  {
    var info := if tool.Some? then Some(ToolInfo(tool.value.callId, tool.value.name, None, None)) else None;
    var b := MarkClosed(a, ToolCallId(tool));
    SameKeeps(a, b);
    ToolKeeps(b, key, ToolCallErrorEvent(info, NonEmpty(error), SubagentOf(b, key), Some(meta)));
  }

  /** The inputs that are always orderly. */
  lemma QuietKeeps(a: State, ev: AgnoEvent)
    requires Base(a) && !ev.kind.RunStarted? && !ev.kind.ReasoningStarted? && !ev.kind.ReasoningContentDelta?
    ensures Keeps(a, Step(a, ev))
  {
    hide Base, Good, Doomed;
    var key, meta := RunKey(a, ev), BuildMetadata(ev);
    match ev.kind
    case RunContent(reasoning, content) => RunContentKeeps(a, key, meta, reasoning, content);
    case RunCompleted(_) => RunCompletedKeeps(a, ev);
    case RunError(_, _) => RunErrorKeeps(a, ev);
    case RunPaused(tools, requirements) => RunPausedKeeps(a, tools, requirements);
    case ReasoningStep(step) => ReasoningStepKeeps(a, key, meta, step);
    case ReasoningCompleted => CloseReasoningKeeps(a, key);
    case ToolCallStarted(tool) => ToolStartedKeeps(a, key, meta, tool);
    case ToolCallCompleted(tool, output) => ToolCompletedKeeps(a, key, meta, tool, output);
    case ToolCallError(tool, error) => ToolErrorKeeps(a, key, meta, tool, error);
    case Unhandled =>
  }

  /** One input: orderly keeps a good state good, disorderly makes it doomed, and doomed stays doomed. */
  ghost predicate Verdict(a: State, ev: AgnoEvent, b: State) {
    && Base(b)
    && (Good(a) && Orderly(a, ev) ==> Good(b))
    && (Doomed(a) || (Good(a) && !Orderly(a, ev)) ==> Doomed(b))
  }

  lemma QuietVerdict(a: State, ev: AgnoEvent)
    requires Base(a) && !ev.kind.RunStarted? && !ev.kind.ReasoningStarted? && !ev.kind.ReasoningContentDelta?
    ensures Verdict(a, ev, Step(a, ev))
  {
    hide Base, Good, Doomed;
    QuietKeeps(a, ev);
    assert Orderly(a, ev);
  }

  lemma StepVerdict(a: State, ev: AgnoEvent)
    requires Base(a)
    ensures Verdict(a, ev, Step(a, ev))
  {
    hide Base, Good, Doomed;
    match ev.kind
    case RunStarted(_) => RunStartedVerdict(a, ev);
    case ReasoningStarted => ReasoningStartedVerdict(a, ev);
    case ReasoningContentDelta(_) => DeltaVerdict(a, ev);
    case _ => QuietVerdict(a, ev);
  }

  lemma ReasoningStartedKeeps(a: State, key: string, meta: Metadata)
    requires Base(a)
    ensures var b := HandleReasoningStarted(a, key, meta);
      && Base(b)
      && (Good(a) && key !in a.reasonings.vals ==> Good(b))
      && (Doomed(a) || key in a.reasonings.vals ==> Doomed(b))
  {
    hide Good, Doomed;
    CloseContentKeeps(a, key);
    var b := CloseContent(a, key);
    OpenReasoningBase(b, key, meta, Some(meta));
    if Good(b) && key !in b.reasonings.vals { OpenReasoningGood(b, key, meta, Some(meta)); }
    if Doomed(b) || key in b.reasonings.vals { OpenReasoningDoomed(b, key, meta, Some(meta)); }
  }

  lemma ReasoningStartedVerdict(a: State, ev: AgnoEvent)
    requires Base(a) && ev.kind.ReasoningStarted?
    ensures Verdict(a, ev, HandleReasoningStarted(a, RunKey(a, ev), BuildMetadata(ev)))
  {
    hide Base, Good, Doomed, HandleReasoningStarted;
    ReasoningStartedKeeps(a, RunKey(a, ev), BuildMetadata(ev));
  }

  lemma DeltaKeeps(a: State, key: string, meta: Metadata, delta: Option<string>)
    requires Base(a)
    ensures var b := HandleReasoningContentDelta(a, key, meta, delta);
      && Base(b)
      && (Good(a) && key in a.reasonings.vals ==> Good(b))
      && (Doomed(a) || key !in a.reasonings.vals ==> Doomed(b))
  {
    var id := if key in a.reasonings.vals then Some(a.reasonings.vals[key].id) else None;
    var e := ReasoningContentDeltaEvent(id, if delta.Some? then delta.value else "", SubagentOf(a, key), Some(meta));
    if key in a.reasonings.vals {
      ExtendKeeps(a, key, e);
    } else {
      OrphanDelta(a, e);
    }
  }

  lemma DeltaVerdict(a: State, ev: AgnoEvent)
    requires Base(a) && ev.kind.ReasoningContentDelta?
    ensures Verdict(a, ev, HandleReasoningContentDelta(a, RunKey(a, ev), BuildMetadata(ev), ev.kind.delta))
  {
    hide Base, Good, Doomed;
    DeltaKeeps(a, RunKey(a, ev), BuildMetadata(ev), ev.kind.delta);
    assert Orderly(a, ev) <==> RunKey(a, ev) in a.reasonings.vals;
  }

  /** A reasoning delta that names no sequence breaks the trace for good. */
  lemma OrphanDelta(a: State, e: Event)
    requires Base(a) && e.ReasoningContentDeltaEvent? && e.reasoningId == None
    ensures Base(Emit(a, e)) && Doomed(Emit(a, e))
  {
    ScanEmit(a, e);
    InnerScan(ScanOf(a.out), e);
    assert !Advance(ScanOf(a.out), e).ok;
    hide Advance, ScanOf, Ids, InStep;
  }

  lemma RunStartedVerdict(a: State, ev: AgnoEvent)
    requires Base(a) && ev.kind.RunStarted?
    ensures Verdict(a, ev, HandleRunStarted(a, ev, BuildMetadata(ev)))
  {
    var meta := BuildMetadata(ev);
    if Truthy(ev.parentRunId) {
      if Truthy(ev.runId) {
        NestedVerdict(a, ev.runId.value, ev.parentRunId.value, meta);
      }
    } else if Truthy(ev.runId) && ev.runId == a.active {
    } else {
      var b := a.(active := ev.runId);
      SameKeeps(a, b);
      InnerKeeps(b, RunStartedEvent(ev.runId, ev.kind.sessionId, Some(meta)));
    }
  }

  lemma NestedVerdict(a: State, run: string, parent: string, meta: Metadata)
    requires Base(a)
    ensures var b := StartSubagent(CloseReasoning(CloseContent(a, parent), parent), run, parent, meta);
      var fine := run !in ScanOf(a.out).started && (run == parent || Idle(a, run));
      && Base(b)
      && (Good(a) && fine ==> Good(b))
      && (Doomed(a) || (Good(a) && !fine) ==> Doomed(b))
  {
    CloseBothKeeps(a, parent);
    var b := CloseReasoning(CloseContent(a, parent), parent);
    ClosingStartsNone(a, parent);
    StartSubagentBase(b, run, parent, meta);
    if Good(b) && run !in ScanOf(b.out).started && Idle(b, run) { StartSubagentGood(b, run, parent, meta); }
    if Doomed(b) || (Good(b) && (run in ScanOf(b.out).started || !Idle(b, run))) {
      StartSubagentDoomed(b, run, parent, meta);
    }
  }

  lemma ClosingStartsNone(a: State, key: string)
    ensures ScanOf(CloseReasoning(CloseContent(a, key), key).out).started == ScanOf(a.out).started
    ensures forall run :: Idle(CloseReasoning(CloseContent(a, key), key), run) == (run == key || Idle(a, run))
  {
    if key in a.messages.vals {
      var b, s, s' := CloseContentScan(a, key);
    }
    if key in a.reasonings.vals {
      var b, s, s' := CloseReasoningScan(CloseContent(a, key), key);
    }
  }

  lemma {:induction false} RunVerdict(evs: seq<AgnoEvent>)
    ensures Base(Run(evs))
    ensures AllOrderly(evs) ==> Good(Run(evs))
    ensures !AllOrderly(evs) ==> Doomed(Run(evs))
  {
    if evs != [] {
      RunVerdict(evs[..|evs| - 1]);
      StepVerdict(Run(evs[..|evs| - 1]), evs[|evs| - 1]);
    }
  }

  /** For every input stream, the flushed trace is balanced if and only if every input was orderly. */
  lemma BalancedIffOrderly(evs: seq<AgnoEvent>)
    ensures Balanced(Flush(Run(evs)).out) <==> AllOrderly(evs)
  {
    RunVerdict(evs);
    CloseEverythingKeeps(Run(evs));
    ClosedVerdict(Flush(Run(evs)));
  }
}
