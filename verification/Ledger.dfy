/**
 What a run's trace says, read off the agent's events alone: the starts, ends and failures of runs and
 delegations, the tool calls and every piece of text and reasoning, each with its content and its author.
 The adapter's trace says exactly that, in that order.
 */
module Ledger {
  import opened Wrappers
  import opened AgentEvents
  import opened OrderedDict
  import opened Sequences
  import opened StreamSpec
  import opened Brackets
  import opened Lifecycle

  /** The lines written so far, and what decides about the next ones. */
  datatype Book = Book(
    lines: seq<Event>, closed: set<string>, active: Option<string>, completed: set<string>,
    delegated: Dict<string, Delegation>, paused: bool, pausedTools: seq<ToolExecution>,
    pausedRequirements: seq<string>)

  predicate Known(s: Option<string>) {
    s != None && s != Some("")
  }

  function Text(s: Option<string>): Option<string> {
    if s == Some("") then None else s
  }

  /** Who speaks: a team under its own name and id, or an agent under its own. */
  function Source(ev: AgnoEvent): Metadata {
    Metadata(ev.isTeam, if ev.isTeam then ev.teamName else ev.agentName, if ev.isTeam then ev.teamId else ev.agentId,
             ev.parentRunId)
  }

  /** The run an event belongs to, without an id of its own the one in progress. */
  function RunOf(b: Book, ev: AgnoEvent): string {
    if Known(ev.runId) then ev.runId.value else if Known(b.active) then b.active.value else ""
  }

  /** The delegation a run's events are attributed to. */
  function Owner(b: Book, run: string): Option<string> {
    if run in b.delegated.vals then Some(run) else None
  }

  function Write(b: Book, e: Event): Book {
    b.(lines := b.lines + [e])
  }

  /** What ending a run says of the delegations still open: each finished, without a result, newest first. */
  function Finishes(d: Dict<string, Delegation>, order: seq<string>): seq<Event> {
    if order == [] then []
    else
      var run := order[|order| - 1];
      (if run in d.vals then [SubagentFinishedEvent(run, None, Some(d.vals[run].meta))] else [])
        + Finishes(d, order[..|order| - 1])
  }

  function EndAll(b: Book): Book {
    b.(lines := b.lines + Finishes(b.delegated, b.delegated.order), delegated := Empty())
  }

  function Info(t: ToolExecution, args: Option<string>, result: Option<string>): Option<ToolInfo> {
    Some(ToolInfo(t.callId, t.name, args, result))
  }

  function Shut(closed: set<string>, tool: Option<ToolExecution>): set<string> {
    if tool.Some? && Known(tool.value.callId) then closed + {tool.value.callId.value} else closed
  }

  /** A pause calls and closes each external tool once; the others were seen already. */
  function Asked(b: Book, tools: seq<ToolExecution>, seen: set<string>): Book
    decreases |tools|
  {
    if tools == [] then b
    else
      var t := tools[0];
      if !t.external || !Known(t.callId) || t.callId.value in seen then Asked(b, tools[1..], seen)
      else
        var info := Info(t, t.args, None);
        Asked(
          b.(lines := b.lines + [ToolCallStartedEvent(info, None, None),
            ToolCallCompletedEvent(info, None, None, None)],
             closed := b.closed + {t.callId.value}),
          tools[1..], seen + {t.callId.value})
  }

  /** A nested run becomes a delegation; a top-level one is announced, unless it is the one in progress. */
  function Started(b: Book, ev: AgnoEvent): Book
    requires ev.kind.RunStarted?
  {
    var meta := Source(ev);
    if Known(ev.parentRunId) then
      if !Known(ev.runId) then b
      else
        var run := ev.runId.value;
        var name := if Known(meta.name) then meta.name.value else "member";
        var c := b.(delegated := Put(b.delegated, run, Delegation(name, meta)));
        Write(c, SubagentStartedEvent(run, name, Owner(c, ev.parentRunId.value), None, Some(meta)))
    else if Known(ev.runId) && ev.runId == b.active then b
    else Write(b.(active := ev.runId), RunStartedEvent(ev.runId, ev.kind.sessionId, Some(meta)))
  }

  /** A delegation ends with its result; the top-level run ends everything, once. */
  function Completed(b: Book, ev: AgnoEvent): Book
    requires ev.kind.RunCompleted?
  {
    if Known(ev.parentRunId) then
      if Known(ev.runId) && ev.runId.value in b.delegated.vals then
        var run := ev.runId.value;
        Write(b.(delegated := Pop(b.delegated, run)),
              SubagentFinishedEvent(run, Text(ev.kind.finalContent), Some(b.delegated.vals[run].meta)))
      else b
    else if Known(ev.runId) && ev.runId.value in b.completed && ev.runId != b.active then b
    else
      var done := if Known(ev.runId) then b.completed + {ev.runId.value} else b.completed;
      Write(EndAll(b).(active := None, completed := done),
            RunCompletedEvent(ev.runId, Text(ev.kind.finalContent), Some(Source(ev))))
  }

  /** A delegation fails with its error; any other failure ends everything. */
  function Failed(b: Book, ev: AgnoEvent): Book
    requires ev.kind.RunError?
  {
    if Known(ev.runId) && ev.runId.value in b.delegated.vals then
      var run := ev.runId.value;
      var text := if Known(ev.kind.message) then ev.kind.message.value else "subagent run failed";
      Write(b.(delegated := Pop(b.delegated, run)),
            SubagentErrorEvent(run, text, ev.kind.errorType, Some(b.delegated.vals[run].meta)))
    else Write(EndAll(b), RunErrorEvent(ev.kind.errorType, Text(ev.kind.message), Some(Source(ev))))
  }

  function Called(b: Book, ev: AgnoEvent): Book
    requires ev.kind.ToolCallStarted?
  {
    var tool := ev.kind.tool;
    Write(b, ToolCallStartedEvent(if tool.None? then None else Info(tool.value, tool.value.args, None),
                                  Owner(b, RunOf(b, ev)), Some(Source(ev))))
  }

  function Answered(b: Book, ev: AgnoEvent): Book
    requires ev.kind.ToolCallCompleted?
  {
    var tool := ev.kind.done;
    Write(b.(closed := Shut(b.closed, tool)),
          ToolCallCompletedEvent(if tool.None? then None else Info(tool.value, tool.value.args, tool.value.result),
                                 Text(ev.kind.output), Owner(b, RunOf(b, ev)), Some(Source(ev))))
  }

  /** The failure of a call that is closed already says nothing. */
  function CallFailed(b: Book, ev: AgnoEvent): Book
    requires ev.kind.ToolCallError?
  {
    var tool := ev.kind.failed;
    if tool.Some? && Known(tool.value.callId) && tool.value.callId.value in b.closed then b
    else
      Write(b.(closed := Shut(b.closed, tool)),
            ToolCallErrorEvent(if tool.None? then None else Info(tool.value, None, None), Text(ev.kind.error),
                               Owner(b, RunOf(b, ev)), Some(Source(ev))))
  }

  /** Text of the answer; an empty one says nothing. Lines carry no ids of messages or reasonings. */
  function Answers(b: Book, ev: AgnoEvent, text: Option<string>): Book {
    if Known(text) then Write(b, RunContentEvent(0, text.value, Owner(b, RunOf(b, ev)), Some(Source(ev)))) else b
  }

  function Reasons(b: Book, ev: AgnoEvent, text: Option<string>): Book {
    if Known(text) then Write(b, ReasoningContentDeltaEvent(None, text.value, Owner(b, RunOf(b, ev)), Some(Source(ev))))
    else b
  }

  /** A delta is passed on even when it is empty, a step is not. */
  function Thinks(b: Book, ev: AgnoEvent): Book
    requires ev.kind.ReasoningContentDelta? || ev.kind.ReasoningStep?
  {
    var who, meta := Owner(b, RunOf(b, ev)), Some(Source(ev));
    match ev.kind
    case ReasoningContentDelta(delta) =>
      Write(b, ReasoningContentDeltaEvent(None, if delta.None? then "" else delta.value, who, meta))
    case ReasoningStep(step) => if Known(step) then Write(b, ReasoningStepEvent(None, step.value, who, meta)) else b
  }

  function Enter(b: Book, ev: AgnoEvent): Book {
    match ev.kind
    case RunStarted(_) => Started(b, ev)
    case RunCompleted(_) => Completed(b, ev)
    case RunError(_, _) => Failed(b, ev)
    case RunPaused(tools, requirements) =>
      Asked(b.(paused := true, pausedTools := tools, pausedRequirements := requirements), tools, {})
    case ToolCallStarted(_) => Called(b, ev)
    case ToolCallCompleted(_, _) => Answered(b, ev)
    case ToolCallError(_, _) => CallFailed(b, ev)
    case RunContent(reasoning, content) => Answers(Reasons(b, ev, reasoning), ev, content)
    case ReasoningContentDelta(_) => Thinks(b, ev)
    case ReasoningStep(_) => Thinks(b, ev)
    case _ => b
  }

  function BookOf(evs: seq<AgnoEvent>): Book {
    if evs == [] then Book([], {}, None, {}, Empty(), false, [], [])
    else Enter(BookOf(evs[..|evs| - 1]), evs[|evs| - 1])
  }

  // ── The adapter's trace says the same ──

  /** The start or the end of a message or a reasoning. */
  predicate Bracket(e: Event) {
    e.TextMessageStartedEvent? || e.TextMessageCompletedEvent? || e.ReasoningStartedEvent? || e.ReasoningCompletedEvent?
  }

  predicate Spoken(e: Event) {
    e.RunContentEvent? || e.ReasoningContentDeltaEvent? || e.ReasoningStepEvent?
  }

  /** A piece of text or reasoning without the id it came under. */
  function Unnumbered(e: Event): Event
    requires Spoken(e)
  {
    match e
    case RunContentEvent(_, text, who, meta) => RunContentEvent(0, text, who, meta)
    case ReasoningContentDeltaEvent(_, text, who, meta) => ReasoningContentDeltaEvent(None, text, who, meta)
    case ReasoningStepEvent(_, text, who, meta) => ReasoningStepEvent(None, text, who, meta)
  }

  function LinesOf(out: seq<Event>): seq<Event> {
    if out == [] then []
    else
      var e := out[|out| - 1];
      LinesOf(out[..|out| - 1]) + (if Bracket(e) then [] else if Spoken(e) then [Unnumbered(e)] else [e])
  }

  function Kept(a: State): Book {
    Book(LinesOf(a.out), a.closedTools, a.active, a.completed, a.subagents, a.paused, a.pausedTools,
      a.pausedRequirements)
  }

  lemma KeptEmit(a: State, e: Event)
    ensures Kept(Emit(a, e)) ==
      if Bracket(e) then Kept(a) else Write(Kept(a), if Spoken(e) then Unnumbered(e) else e)
  {
    assert (a.out + [e])[..|a.out|] == a.out;
  }

  lemma {:induction false} LinesBoth(x: seq<Event>, y: seq<Event>)
    ensures LinesOf(x + y) == LinesOf(x) + LinesOf(y)
    decreases |y|
  {
    if y == [] {
      assert x + y == x;
    } else {
      var front := y[..|y| - 1];
      assert (x + y)[..|x + y| - 1] == x + front;
      LinesBoth(x, front);
    }
  }

  lemma CloseContentWrites(a: State, key: string)
    ensures Kept(CloseContent(a, key)) == Kept(a)
  {
    hide LinesOf;
    if key in a.messages.vals {
      var slot := a.messages.vals[key];
      KeptEmit(a.(messages := Pop(a.messages, key)),
        TextMessageCompletedEvent(slot.id, SubagentOf(a, key), Some(slot.meta)));
    }
  }

  lemma CloseReasoningWrites(a: State, key: string)
    ensures Kept(CloseReasoning(a, key)) == Kept(a)
  {
    hide LinesOf;
    if key in a.reasonings.vals {
      var slot := a.reasonings.vals[key];
      KeptEmit(a.(reasonings := Pop(a.reasonings, key)),
        ReasoningCompletedEvent(slot.id, SubagentOf(a, key), Some(slot.meta)));
    }
  }

  lemma {:induction false} CloseContentsWrite(a: State, keys: seq<string>)
    ensures Kept(CloseContents(a, keys)) == Kept(a)
    decreases |keys|
  {
    hide Kept, CloseContent;
    if keys != [] {
      CloseContentWrites(a, keys[|keys| - 1]);
      CloseContentsWrite(CloseContent(a, keys[|keys| - 1]), keys[..|keys| - 1]);
    }
  }

  lemma {:induction false} CloseReasoningsWrite(a: State, keys: seq<string>)
    ensures Kept(CloseReasonings(a, keys)) == Kept(a)
    decreases |keys|
  {
    hide Kept, CloseReasoning;
    if keys != [] {
      CloseReasoningWrites(a, keys[|keys| - 1]);
      CloseReasoningsWrite(CloseReasoning(a, keys[|keys| - 1]), keys[..|keys| - 1]);
    }
  }

  lemma {:induction false} FinishesSame(d: Dict<string, Delegation>, e: Dict<string, Delegation>, order: seq<string>)
    requires forall r | r in order :: r in d.vals && r in e.vals && d.vals[r] == e.vals[r]
    ensures Finishes(d, order) == Finishes(e, order)
    decreases |order|
  {
    if order != [] { FinishesSame(d, e, order[..|order| - 1]); }
  }

  /** Closing the delegations newest first writes their ends, and nothing else changes. */
  lemma {:induction false} FinishSubagentsWrite(a: State, runs: seq<string>)
    requires Valid(a.subagents) && runs == a.subagents.order
    ensures var b := FinishSubagents(a, runs);
      Kept(b) == Kept(a).(lines := Kept(a).lines + Finishes(a.subagents, runs), delegated := b.subagents)
    decreases |runs|
  {
    hide LinesOf;
    if runs != [] {
      var run, rest := runs[|runs| - 1], runs[..|runs| - 1];
      PopLast(a.subagents);
      var e := SubagentFinishedEvent(run, None, Some(a.subagents.vals[run].meta));
      var b := CloseSubagent(a, run, e);
      KeptEmit(a.(subagents := Pop(a.subagents, run)), e);
      PopValid(a.subagents, run);
      FinishSubagentsWrite(b, rest);
      forall r | r in rest ensures r in b.subagents.vals && b.subagents.vals[r] == a.subagents.vals[r] {
        assert r in b.subagents.order;
      }
      FinishesSame(a.subagents, b.subagents, rest);
      Associate(Kept(a).lines, [e], Finishes(b.subagents, rest));
    }
  }

  lemma CloseEverythingWrites(a: State)
    requires Base(a)
    ensures Kept(CloseEverything(a)) == EndAll(Kept(a))
  {
    CloseEverythingKeeps(a);
    var b := CloseAllContent(a);
    var c := CloseAllReasoning(b);
    CloseContentsWrite(a, a.messages.order);
    CloseReasoningsWrite(b, b.reasonings.order);
    assert c.subagents == a.subagents;
    hide LinesOf, Good, Doomed, Ids, CloseContents, CloseReasonings, FinishSubagents;
    FinishSubagentsWrite(c, c.subagents.order);
  }

  // ── Each input ──

  lemma KeptIs(a: State)
    ensures var b := Kept(a);
      && b.closed == a.closedTools && b.active == a.active && b.completed == a.completed && b.delegated == a.subagents
  {
    hide LinesOf;
  }

  lemma TextIs(s: Option<string>)
    ensures NonEmpty(s) == Text(s) && (Truthy(s) <==> Known(s))
  {
  }

  lemma AttributedTo(a: State, b: State, ev: AgnoEvent)
    requires b.subagents == a.subagents
    ensures SubagentOf(b, RunKey(a, ev)) == Owner(Kept(a), RunOf(Kept(a), ev))
  {
    hide LinesOf;
  }

  lemma SourceIs(ev: AgnoEvent)
    ensures BuildMetadata(ev) == Source(ev)
  {
  }

  lemma StartWrites(a: State, run: Option<string>)
    ensures Kept(a.(active := run)) == Kept(a).(active := run)
  {
    hide LinesOf;
  }

  lemma RunStartedWrites(a: State, ev: AgnoEvent)
    requires ev.kind.RunStarted?
    ensures Kept(HandleRunStarted(a, ev, BuildMetadata(ev)))
      == Started(Kept(a), ev)
  {
    TextIs(ev.parentRunId);
    TextIs(ev.runId);
    KeptIs(a);
    hide Kept, BuildMetadata, Source, Truthy, Known;
    if Truthy(ev.parentRunId) {
      if Truthy(ev.runId) { NestedStartedWrites(a, ev); }
    } else if !(Truthy(ev.runId) && ev.runId == a.active) {
      TopStartedWrites(a, ev);
    }
  }

  lemma NestedStartedWrites(a: State, ev: AgnoEvent)
    requires ev.kind.RunStarted? && Truthy(ev.parentRunId) && Truthy(ev.runId)
    ensures Kept(HandleRunStarted(a, ev, BuildMetadata(ev)))
      == Started(Kept(a), ev)
  {
    var parent, run := ev.parentRunId.value, ev.runId.value;
    var b := CloseReasoning(CloseContent(a, parent), parent);
    assert b.subagents == a.subagents;
    KeptIs(a);
    hide Kept, CloseContent, CloseReasoning, StartSubagent, BuildMetadata, Source, Write, Owner;
    SourceIs(ev);
    CloseContentWrites(a, parent);
    CloseReasoningWrites(CloseContent(a, parent), parent);
    StartSubagentWrites(b, run, parent, BuildMetadata(ev));
  }

  lemma TopStartedWrites(a: State, ev: AgnoEvent)
    requires ev.kind.RunStarted? && !Truthy(ev.parentRunId) && !(Truthy(ev.runId) && ev.runId == a.active)
    ensures Kept(HandleRunStarted(a, ev, BuildMetadata(ev)))
      == Started(Kept(a), ev)
  {
    KeptIs(a);
    var e := RunStartedEvent(ev.runId, ev.kind.sessionId, Some(BuildMetadata(ev)));
    KeptEmit(a.(active := ev.runId), e);
    StartWrites(a, ev.runId);
    hide Kept, BuildMetadata, Source, Write;
    SourceIs(ev);
  }

  lemma StartSubagentWrites(a: State, run: string, parent: string, meta: Metadata)
    ensures var name := if Known(meta.name) then meta.name.value else "member";
      var c := Kept(a).(delegated := Put(a.subagents, run, Delegation(name, meta)));
      Kept(StartSubagent(a, run, parent, meta)) ==
        Write(c, SubagentStartedEvent(run, name, Owner(c, parent), None, Some(meta)))
  {
    var name := if Truthy(meta.name) then meta.name.value else "member";
    var b := a.(subagents := Put(a.subagents, run, Delegation(name, meta)));
    KeptEmit(b, SubagentStartedEvent(run, name, SubagentOf(b, parent), None, Some(meta)));
    hide LinesOf;
  }

  /** A delegation in the table ends. */
  lemma EndSubagentWrites(a: State, key: string, run: string, e: Event)
    requires run in a.subagents.vals && !Bracket(e) && !Spoken(e)
    ensures var b := CloseReasoning(CloseContent(a, key), key);
      run in b.subagents.vals && b.subagents == a.subagents
      && Kept(CloseSubagent(b, run, e)) == Write(Kept(a).(delegated := Pop(a.subagents, run)), e)
  {
    CloseContentWrites(a, key);
    CloseReasoningWrites(CloseContent(a, key), key);
    var b := CloseReasoning(CloseContent(a, key), key);
    KeptEmit(b.(subagents := Pop(b.subagents, run)), e);
    hide LinesOf;
  }

  lemma RunCompletedWrites(a: State, ev: AgnoEvent)
    requires Base(a) && ev.kind.RunCompleted?
    ensures Kept(HandleRunCompleted(a, ev, RunKey(a, ev), BuildMetadata(ev)))
      == Completed(Kept(a), ev)
  {
    SourceIs(ev);
    hide Base, Ids, LinesOf, BuildMetadata;
    if Truthy(ev.parentRunId) {
      NestedCompletedWrites(a, ev);
    } else if !(Truthy(ev.runId) && ev.runId.value in a.completed && ev.runId != a.active) {
      TopCompletedWrites(a, ev);
    }
  }

  function NestedDone(ev: AgnoEvent, d: Delegation): Event
    requires ev.kind.RunCompleted? && ev.runId.Some?
  {
    SubagentFinishedEvent(ev.runId.value, NonEmpty(ev.kind.finalContent), Some(d.meta))
  }

  lemma HandlesNested(a: State, ev: AgnoEvent)
    requires ev.kind.RunCompleted? && Truthy(ev.parentRunId)
    ensures var key := RunKey(a, ev);
      var b := CloseReasoning(CloseContent(a, key), key);
      HandleRunCompleted(a, ev, key, BuildMetadata(ev)) ==
        if Truthy(ev.runId) && ev.runId.value in b.subagents.vals
        then CloseSubagent(b, ev.runId.value, NestedDone(ev, b.subagents.vals[ev.runId.value]))
        else b
  {
    hide CloseContent, CloseReasoning, CloseSubagent, RunKey, BuildMetadata, NonEmpty;
  }

  lemma CompletesNested(b: Book, ev: AgnoEvent)
    requires ev.kind.RunCompleted? && Truthy(ev.parentRunId)
    ensures Completed(b, ev) ==
      if Truthy(ev.runId) && ev.runId.value in b.delegated.vals
      then Write(b.(delegated := Pop(b.delegated, ev.runId.value)), NestedDone(ev, b.delegated.vals[ev.runId.value]))
      else b
  {
    TextIs(ev.parentRunId);
    TextIs(ev.runId);
    TextIs(ev.kind.finalContent);
    hide Truthy, Known, NonEmpty, Text, Write, Pop, Source;
  }

  lemma NestedCompletedWrites(a: State, ev: AgnoEvent)
    requires ev.kind.RunCompleted? && Truthy(ev.parentRunId)
    ensures Kept(HandleRunCompleted(a, ev, RunKey(a, ev), BuildMetadata(ev)))
      == Completed(Kept(a), ev)
  {
    var key := RunKey(a, ev);
    assert CloseReasoning(CloseContent(a, key), key).subagents == a.subagents;
    if Truthy(ev.runId) && ev.runId.value in a.subagents.vals {
      var e := NestedDone(ev, a.subagents.vals[ev.runId.value]);
      assert !Bracket(e) && !Spoken(e);
      EndSubagentWrites(a, key, ev.runId.value, e);
    }
    hide *;
    KeptIs(a);
    HandlesNested(a, ev);
    CompletesNested(Kept(a), ev);
    CloseContentWrites(a, key);
    CloseReasoningWrites(CloseContent(a, key), key);
  }

  lemma EndAllIs(b: Book)
    ensures EndAll(b).completed == b.completed && EndAll(b).active == b.active
  {
  }

  /** The end of the top-level run, as the handler leaves it. */
  function RunDone(b: State, ev: AgnoEvent): State {
    b.(completed := if Truthy(ev.runId) then b.completed + {ev.runId.value} else b.completed, active := None)
  }

  function DoneEvent(ev: AgnoEvent): Event
    requires ev.kind.RunCompleted?
  {
    RunCompletedEvent(ev.runId, NonEmpty(ev.kind.finalContent), Some(BuildMetadata(ev)))
  }

  lemma HandlesTop(a: State, ev: AgnoEvent)
    requires ev.kind.RunCompleted? && !Truthy(ev.parentRunId)
    requires !(Truthy(ev.runId) && ev.runId.value in a.completed && ev.runId != a.active)
    ensures HandleRunCompleted(a, ev, RunKey(a, ev), BuildMetadata(ev))
      == Emit(RunDone(CloseEverything(a), ev), DoneEvent(ev))
  {
    hide CloseEverything, BuildMetadata, RunKey;
  }

  lemma RunDoneWrites(b: State, ev: AgnoEvent)
    ensures Kept(RunDone(b, ev)) ==
      Kept(b).(completed := if Known(ev.runId) then b.completed + {ev.runId.value} else b.completed, active := None)
  {
    hide LinesOf;
  }

  lemma CompletesTop(b: Book, ev: AgnoEvent)
    requires ev.kind.RunCompleted? && !Truthy(ev.parentRunId)
    requires !(Truthy(ev.runId) && ev.runId.value in b.completed && ev.runId != b.active)
    ensures Completed(b, ev) ==
      Write(EndAll(b).(completed := if Known(ev.runId) then b.completed + {ev.runId.value}
        else b.completed, active := None),
            DoneEvent(ev))
  {
    SourceIs(ev);
    TextIs(ev.kind.finalContent);
    hide EndAll, BuildMetadata, Source, NonEmpty, Text, Write;
  }

  lemma TopCompletedWrites(a: State, ev: AgnoEvent)
    requires Base(a) && ev.kind.RunCompleted? && !Truthy(ev.parentRunId)
    requires !(Truthy(ev.runId) && ev.runId.value in a.completed && ev.runId != a.active)
    ensures Kept(HandleRunCompleted(a, ev, RunKey(a, ev), BuildMetadata(ev)))
      == Completed(Kept(a), ev)
  {
    KeptIs(a);
    KeptIs(CloseEverything(a));
    EndAllIs(Kept(a));
    assert !Bracket(DoneEvent(ev)) && !Spoken(DoneEvent(ev));
    hide *;
    HandlesTop(a, ev);
    KeptEmit(RunDone(CloseEverything(a), ev), DoneEvent(ev));
    RunDoneWrites(CloseEverything(a), ev);
    CloseEverythingWrites(a);
    CompletesTop(Kept(a), ev);
  }

  lemma RunErrorWrites(a: State, ev: AgnoEvent)
    requires Base(a) && ev.kind.RunError?
    ensures Kept(HandleRunError(a, ev, BuildMetadata(ev)))
      == Failed(Kept(a), ev)
  {
    hide Base, LinesOf;
    if Truthy(ev.runId) && ev.runId.value in a.subagents.vals {
      NestedErrorWrites(a, ev);
    } else {
      TopErrorWrites(a, ev);
    }
  }

  lemma NestedErrorWrites(a: State, ev: AgnoEvent)
    requires ev.kind.RunError? && Truthy(ev.runId) && ev.runId.value in a.subagents.vals
    ensures Kept(HandleRunError(a, ev, BuildMetadata(ev)))
      == Failed(Kept(a), ev)
  {
    KeptIs(a);
    hide Kept, CloseContent, CloseReasoning, CloseSubagent, RunKey, RunOf, Owner, BuildMetadata, Source;
    var run := ev.runId.value;
    var text := if Truthy(ev.kind.message) then ev.kind.message.value else "subagent run failed";
    EndSubagentWrites(a, run, run, SubagentErrorEvent(run, text, ev.kind.errorType, Some(a.subagents.vals[run].meta)));
  }

  lemma TopErrorWrites(a: State, ev: AgnoEvent)
    requires Base(a) && ev.kind.RunError? && !(Truthy(ev.runId) && ev.runId.value in a.subagents.vals)
    ensures Kept(HandleRunError(a, ev, BuildMetadata(ev)))
      == Failed(Kept(a), ev)
  {
    var e := RunErrorEvent(ev.kind.errorType, NonEmpty(ev.kind.message), Some(BuildMetadata(ev)));
    assert HandleRunError(a, ev, BuildMetadata(ev)) == Emit(CloseEverything(a), e);
    KeptEmit(CloseEverything(a), e);
    KeptIs(a);
    hide Base, CloseEverything, Kept, EndAll, BuildMetadata, Source, RunKey, RunOf, Owner, Write, Emit, NonEmpty, Text;
    SourceIs(ev);
    TextIs(ev.kind.message);
    TextIs(ev.runId);
    CloseEverythingWrites(a);
  }

  lemma {:induction false} SynthesizeWrites(a: State, tools: seq<ToolExecution>, seen: set<string>)
    ensures Kept(SynthesizeTools(a, tools, seen)) == Asked(Kept(a), tools, seen)
    decreases |tools|
  {
    if tools != [] {
      var t := tools[0];
      if !t.external || !Truthy(t.callId) || t.callId.value in seen {
        hide Kept;
        SynthesizeWrites(a, tools[1..], seen);
      } else {
        CallWrites(a, t);
        var info := Some(ToolInfo(t.callId, t.name, t.args, None));
        var b := Emit(Emit(a, ToolCallStartedEvent(info, None, None)), ToolCallCompletedEvent(info, None, None, None));
        hide Kept, MarkClosed, Emit;
        SynthesizeWrites(MarkClosed(b, t.callId), tools[1..], seen + {t.callId.value});
      }
    }
  }

  lemma CallWrites(a: State, t: ToolExecution)
    requires Truthy(t.callId)
    ensures var info := Some(ToolInfo(t.callId, t.name, t.args, None));
      var start, done := ToolCallStartedEvent(info, None, None), ToolCallCompletedEvent(info, None, None, None);
      Kept(MarkClosed(Emit(Emit(a, start), done), t.callId)) ==
        Kept(a).(lines := Kept(a).lines + [start, done], closed := a.closedTools + {t.callId.value})
  {
    var info := Some(ToolInfo(t.callId, t.name, t.args, None));
    var start, done := ToolCallStartedEvent(info, None, None), ToolCallCompletedEvent(info, None, None, None);
    KeptEmit(a, start);
    KeptEmit(Emit(a, start), done);
    hide LinesOf;
    assert Kept(a).lines + [start] + [done] == Kept(a).lines + [start, done];
  }

  lemma RunPausedWrites(a: State, tools: seq<ToolExecution>, requirements: seq<string>)
    ensures Kept(HandleRunPaused(a, tools, requirements)) ==
      Asked(Kept(a).(paused := true, pausedTools := tools, pausedRequirements := requirements), tools, {})
  {
    var b := CloseAllReasoning(a);
    var c := CloseAllContent(b);
    CloseReasoningsWrite(a, a.reasonings.order);
    CloseContentsWrite(b, b.messages.order);
    hide LinesOf, CloseReasonings, CloseContents, SynthesizeTools;
    SynthesizeWrites(c.(paused := true, pausedTools := tools, pausedRequirements := requirements), tools, {});
  }

  lemma ToolStartedWrites(a: State, ev: AgnoEvent)
    requires ev.kind.ToolCallStarted?
    ensures Kept(HandleToolCallStarted(a, RunKey(a, ev), BuildMetadata(ev), ev.kind.tool))
      == Called(Kept(a), ev)
  {
    var key, tool := RunKey(a, ev), ev.kind.tool;
    var b := CloseContent(CloseReasoning(a, key), key);
    var info := if tool.Some? then Some(ToolInfo(tool.value.callId, tool.value.name, tool.value.args, None)) else None;
    var e := ToolCallStartedEvent(info, SubagentOf(b, key), Some(BuildMetadata(ev)));
    assert HandleToolCallStarted(a, key, BuildMetadata(ev), tool) == Emit(b, e);
    assert info == if tool.None? then None else Info(tool.value, tool.value.args, None);
    assert b.subagents == a.subagents;
    KeptEmit(b, e);
    hide Kept, CloseContent, CloseReasoning, RunKey, RunOf, Owner, SubagentOf, BuildMetadata, Source, Write, Info, Emit;
    SourceIs(ev);
    CloseReasoningWrites(a, key);
    CloseContentWrites(CloseReasoning(a, key), key);
    AttributedTo(a, b, ev);
  }

  lemma MarkWrites(a: State, tool: Option<ToolExecution>)
    ensures var b := MarkClosed(a, ToolCallId(tool));
      Kept(b) == Kept(a).(closed := Shut(a.closedTools, tool)) && b.subagents == a.subagents
  {
    hide LinesOf;
  }

  lemma ToolCompletedWrites(a: State, ev: AgnoEvent)
    requires ev.kind.ToolCallCompleted?
    ensures Kept(HandleToolCallCompleted(a, RunKey(a, ev), BuildMetadata(ev), ev.kind.done, ev.kind.output))
      == Answered(Kept(a), ev)
  {
    var key, tool, output := RunKey(a, ev), ev.kind.done, ev.kind.output;
    var b := MarkClosed(a, ToolCallId(tool));
    var info :=
      if tool.Some? then Some(ToolInfo(tool.value.callId, tool.value.name, tool.value.args, tool.value.result))
        else None;
    var e := ToolCallCompletedEvent(info, NonEmpty(output), SubagentOf(b, key), Some(BuildMetadata(ev)));
    assert HandleToolCallCompleted(a, key, BuildMetadata(ev), tool, output) == Emit(b, e);
    assert info == if tool.None? then None else Info(tool.value, tool.value.args, tool.value.result);
    KeptIs(a);
    KeptEmit(b, e);
    hide Kept, MarkClosed, Shut, RunKey, RunOf, Owner, SubagentOf, BuildMetadata, Source, Write, Info, Emit, Text,
      NonEmpty;
    SourceIs(ev);
    TextIs(output);
    MarkWrites(a, tool);
    AttributedTo(a, b, ev);
  }

  lemma ToolErrorWrites(a: State, ev: AgnoEvent)
    requires ev.kind.ToolCallError?
    ensures Kept(HandleToolCallError(a, RunKey(a, ev), BuildMetadata(ev), ev.kind.failed, ev.kind.error))
      == CallFailed(Kept(a), ev)
  {
    var key, tool, error := RunKey(a, ev), ev.kind.failed, ev.kind.error;
    KeptIs(a);
    if !AlreadyClosed(a, tool) {
      var b := MarkClosed(a, ToolCallId(tool));
      var info := if tool.Some? then Some(ToolInfo(tool.value.callId, tool.value.name, None, None)) else None;
      var e := ToolCallErrorEvent(info, NonEmpty(error), SubagentOf(b, key), Some(BuildMetadata(ev)));
      assert HandleToolCallError(a, key, BuildMetadata(ev), tool, error) == Emit(b, e);
      assert info == if tool.None? then None else Info(tool.value, None, None);
      KeptEmit(b, e);
      TextIs(error);
      hide Kept, MarkClosed, Shut, RunKey, RunOf, Owner, SubagentOf, BuildMetadata, Source, Write, Info, Emit, Text;
      SourceIs(ev);
      MarkWrites(a, tool);
      AttributedTo(a, b, ev);
    }
  }

  lemma EnterReasoningWrites(a: State, key: string, meta: Metadata, announced: Option<Metadata>)
    ensures Kept(EnterReasoning(a, key, meta, announced)) == Kept(a)
  {
    CloseContentWrites(a, key);
    var b := CloseContent(a, key);
    if key !in b.reasonings.vals { OpenReasoningWrites(b, key, meta, announced); }
    hide Kept, CloseContent, OpenReasoning;
  }

  lemma OpenReasoningWrites(a: State, key: string, meta: Metadata, announced: Option<Metadata>)
    ensures Kept(OpenReasoning(a, key, meta, announced)) == Kept(a)
  {
    KeptEmit(a.(reasonings := Put(a.reasonings, key, Slot(a.next, meta)), next := a.next + 1),
      ReasoningStartedEvent(a.next, SubagentOf(a, key), announced));
    hide LinesOf;
  }

  lemma EnterContentWrites(a: State, key: string, meta: Metadata)
    ensures Kept(EnterContent(a, key, meta)) == Kept(a)
  {
    CloseReasoningWrites(a, key);
    var b := CloseReasoning(a, key);
    if key !in b.messages.vals {
      var name := if Truthy(meta.parentRunId) then meta.name else None;
      KeptEmit(b.(messages := Put(b.messages, key, Slot(b.next, meta)), next := b.next + 1),
        TextMessageStartedEvent(b.next, name, SubagentOf(b, key), Some(meta)));
    }
    hide LinesOf, CloseReasoning;
  }

  /** A piece of text or reasoning of the acting run. */
  lemma SpokenWrites(a: State, b: State, ev: AgnoEvent, e: Event)
    requires Kept(b) == Kept(a) && b.subagents == a.subagents && Spoken(e)
    requires Unnumbered(e).subagent == SubagentOf(b, RunKey(a, ev)) && Unnumbered(e).meta == Some(BuildMetadata(ev))
    ensures Kept(Emit(b, e)) == Write(Kept(a), Unnumbered(e))
      && Unnumbered(e).subagent == Owner(Kept(a), RunOf(Kept(a), ev)) && Unnumbered(e).meta == Some(Source(ev))
  {
    KeptEmit(b, e);
    AttributedTo(a, b, ev);
    SourceIs(ev);
    hide Kept, RunOf, Owner, SubagentOf, RunKey, BuildMetadata, Source;
  }

  lemma ReasoningTextWrites(a: State, ev: AgnoEvent, text: string)
    ensures Kept(ProcessReasoningContent(a, RunKey(a, ev), BuildMetadata(ev), text)) == Reasons(Kept(a), ev, Some(text))
  {
    var key, meta := RunKey(a, ev), BuildMetadata(ev);
    if text == "" {
      CloseReasoningWrites(a, key);
    } else {
      EnterReasoningWrites(a, key, meta, Some(meta));
      var b := EnterReasoning(a, key, meta, Some(meta));
      assert b.subagents == a.subagents;
      hide Kept, EnterReasoning, SubagentOf, RunKey, RunOf, Owner, BuildMetadata, Source, Write;
      SpokenWrites(a, b, ev, ReasoningContentDeltaEvent(Some(b.reasonings.vals[key].id), text, SubagentOf(b, key),
        Some(meta)));
    }
  }

  lemma TextWrites(a: State, ev: AgnoEvent, text: string)
    ensures Kept(ProcessTextContent(a, RunKey(a, ev), BuildMetadata(ev), text)) == Answers(Kept(a), ev, Some(text))
  {
    var key, meta := RunKey(a, ev), BuildMetadata(ev);
    if text == "" {
      CloseContentWrites(a, key);
    } else {
      EnterContentWrites(a, key, meta);
      var b := EnterContent(a, key, meta);
      assert b.subagents == a.subagents;
      hide Kept, EnterContent, SubagentOf, RunKey, RunOf, Owner, BuildMetadata, Source, Write;
      SpokenWrites(a, b, ev, RunContentEvent(b.messages.vals[key].id, text, SubagentOf(b, key), Some(meta)));
    }
  }

  lemma ContentWrites(a: State, ev: AgnoEvent)
    requires ev.kind.RunContent?
    ensures Kept(Step(a, ev)) == Answers(Reasons(Kept(a), ev, ev.kind.reasoning), ev, ev.kind.content)
  {
    var key, meta := RunKey(a, ev), BuildMetadata(ev);
    var b := if ev.kind.reasoning.Some? then ProcessReasoningContent(a, key, meta, ev.kind.reasoning.value) else a;
    if ev.kind.reasoning.Some? { ReasoningTextWrites(a, ev, ev.kind.reasoning.value); }
    assert RunKey(b, ev) == key;
    if ev.kind.content.Some? { TextWrites(b, ev, ev.kind.content.value); }
    hide Kept, ProcessReasoningContent, ProcessTextContent, RunKey, RunOf, Owner, BuildMetadata, Source, Write;
  }

  lemma DeltaWrites(a: State, ev: AgnoEvent)
    requires ev.kind.ReasoningContentDelta?
    ensures Kept(Step(a, ev)) == Thinks(Kept(a), ev)
  {
    var key, meta, delta := RunKey(a, ev), BuildMetadata(ev), ev.kind.delta;
    var id := if key in a.reasonings.vals then Some(a.reasonings.vals[key].id) else None;
    hide Kept, SubagentOf, RunKey, RunOf, Owner, BuildMetadata, Source, Write;
    SpokenWrites(a, a, ev, ReasoningContentDeltaEvent(id, if delta.Some? then delta.value
      else "", SubagentOf(a, key), Some(meta)));
  }

  lemma ThoughtStepWrites(a: State, ev: AgnoEvent)
    requires ev.kind.ReasoningStep?
    ensures Kept(Step(a, ev)) == Thinks(Kept(a), ev)
  {
    var key, meta, step := RunKey(a, ev), BuildMetadata(ev), ev.kind.step;
    if Truthy(step) {
      EnterReasoningWrites(a, key, meta, None);
      var b := EnterReasoning(a, key, meta, None);
      assert b.subagents == a.subagents;
      hide Kept, EnterReasoning, SubagentOf, RunKey, RunOf, Owner, BuildMetadata, Source, Write;
      SpokenWrites(a, b, ev, ReasoningStepEvent(Some(b.reasonings.vals[key].id), step.value, SubagentOf(b, key),
        Some(meta)));
    }
  }

  /** Opening and closing a reasoning writes no line. */
  lemma ReasoningWrites(a: State, ev: AgnoEvent)
    requires ev.kind.ReasoningStarted? || ev.kind.ReasoningCompleted?
    ensures Kept(Step(a, ev)) == Kept(a)
  {
    hide Kept, CloseContent, CloseReasoning, OpenReasoning;
    var key, meta := RunKey(a, ev), BuildMetadata(ev);
    if ev.kind.ReasoningStarted? {
      CloseContentWrites(a, key);
      OpenReasoningWrites(CloseContent(a, key), key, meta, Some(meta));
    } else {
      CloseReasoningWrites(a, key);
    }
  }

  lemma StepWrites(a: State, ev: AgnoEvent)
    requires Base(a)
    ensures Kept(Step(a, ev)) == Enter(Kept(a), ev)
  {
    hide Kept, Asked, Started, Completed, Failed, Called, Answered, CallFailed, Answers, Reasons, Thinks,
      BuildMetadata, RunKey;
    match ev.kind
    case RunStarted(_) => RunStartedWrites(a, ev);
    case RunCompleted(_) => RunCompletedWrites(a, ev);
    case RunError(_, _) => RunErrorWrites(a, ev);
    case RunPaused(tools, requirements) => RunPausedWrites(a, tools, requirements);
    case ToolCallStarted(_) => ToolStartedWrites(a, ev);
    case ToolCallCompleted(_, _) => ToolCompletedWrites(a, ev);
    case ToolCallError(_, _) => ToolErrorWrites(a, ev);
    case RunContent(_, _) => ContentWrites(a, ev);
    case ReasoningContentDelta(_) => DeltaWrites(a, ev);
    case ReasoningStep(_) => ThoughtStepWrites(a, ev);
    case ReasoningStarted => ReasoningWrites(a, ev);
    case ReasoningCompleted => ReasoningWrites(a, ev);
    case Unhandled =>
  }

  /**
   For every input sequence: the runs, delegations and tool calls of the trace are, event by event and in
   order, what the inputs alone say of them.
   */
  lemma {:induction false} TraceIsBook(evs: seq<AgnoEvent>)
    ensures Kept(Run(evs)) == BookOf(evs)
    decreases |evs|
  {
    hide Kept, Step, Enter, Base, Good, Doomed;
    if evs == [] {
      NothingWritten();
    } else {
      TraceIsBook(evs[..|evs| - 1]);
      RunVerdict(evs[..|evs| - 1]);
      StepWrites(Run(evs[..|evs| - 1]), evs[|evs| - 1]);
    }
  }

  lemma NothingWritten()
    ensures Kept(Init()) == BookOf([])
  {
  }
}
