/**
 Runs do not interfere: whatever else streams at the same time, what one run contributes to the
 trace is what a three-state machine makes of that run's events alone.
 */
module Voices {
  import opened Wrappers
  import opened AgentEvents
  import opened Sequences
  import opened StreamSpec

  // ── One run on its own ──

  datatype Phase = Quiet | Talking(meta: Metadata) | Thinking(meta: Metadata)

  /** One run: its phase, the delegation its events are attributed to, the tool calls it has closed. */
  datatype Voice = Voice(phase: Phase, self: Option<string>, closed: set<string>)

  /** Closes whatever the run has open. Ids are erased to 0 throughout. */
  function Hush(v: Voice): seq<Event> {
    match v.phase
    case Quiet => []
    case Talking(m) => [TextMessageCompletedEvent(0, v.self, Some(m))]
    case Thinking(m) => [ReasoningCompletedEvent(0, v.self, Some(m))]
  }

  function Think(v: Voice, meta: Metadata, announced: Option<Metadata>): (Voice, seq<Event>) {
    if v.phase.Thinking? then (v, [])
    else (v.(phase := Thinking(meta)), Hush(v) + [ReasoningStartedEvent(0, v.self, announced)])
  }

  function Talk(v: Voice, meta: Metadata): (Voice, seq<Event>) {
    if v.phase.Talking? then (v, [])
    else
      var name := if Truthy(meta.parentRunId) then meta.name else None;
      (v.(phase := Talking(meta)), Hush(v) + [TextMessageStartedEvent(0, name, v.self, Some(meta))])
  }

  function StopThinking(v: Voice): (Voice, seq<Event>) {
    if v.phase.Thinking? then (v.(phase := Quiet), Hush(v)) else (v, [])
  }

  function StopTalking(v: Voice): (Voice, seq<Event>) {
    if v.phase.Talking? then (v.(phase := Quiet), Hush(v)) else (v, [])
  }

  function ThinkAloud(v: Voice, meta: Metadata, text: string): (Voice, seq<Event>) {
    if text == "" then StopThinking(v)
    else
      var (w, es) := Think(v, meta, Some(meta));
      (w, es + [ReasoningContentDeltaEvent(Some(0), text, v.self, Some(meta))])
  }

  function Say(v: Voice, meta: Metadata, text: string): (Voice, seq<Event>) {
    if text == "" then StopTalking(v)
    else
      var (w, es) := Talk(v, meta);
      (w, es + [RunContentEvent(0, text, v.self, Some(meta))])
  }

  predicate Local(ev: AgnoEvent) {
    || ev.kind.RunContent? || ev.kind.ReasoningStarted? || ev.kind.ReasoningContentDelta? || ev.kind.ReasoningStep?
    || ev.kind.ReasoningCompleted? || ev.kind.ToolCallStarted? || ev.kind.ToolCallCompleted? || ev.kind.ToolCallError?
  }

  function Mark(v: Voice, id: Option<string>): Voice {
    if id.Some? then v.(closed := v.closed + {id.value}) else v
  }

  function React(v: Voice, ev: AgnoEvent): (Voice, seq<Event>)
    requires Local(ev)
  {
    var meta := BuildMetadata(ev);
    match ev.kind
    case RunContent(reasoning, content) =>
      var (w, es) := if reasoning.Some? then ThinkAloud(v, meta, reasoning.value) else (v, []);
      var (x, fs) := if content.Some? then Say(w, meta, content.value) else (w, []);
      (x, es + fs)
    case ReasoningStarted =>
      var (w, es) := StopTalking(v);
      (w.(phase := Thinking(meta)), es + [ReasoningStartedEvent(0, v.self, Some(meta))])
    case ReasoningContentDelta(delta) =>
      var id := if v.phase.Thinking? then Some(0) else None;
      (v, [ReasoningContentDeltaEvent(id, if delta.Some? then delta.value else "", v.self, Some(meta))])
    case ReasoningStep(step) =>
      if !Truthy(step) then (v, [])
      else
        var (w, es) := Think(v, meta, None);
        (w, es + [ReasoningStepEvent(Some(0), step.value, v.self, Some(meta))])
    case ReasoningCompleted => StopThinking(v)
    case ToolCallStarted(tool) =>
      var info := if tool.Some? then Some(ToolInfo(tool.value.callId, tool.value.name, tool.value.args, None))
        else None;
      (v.(phase := Quiet), Hush(v) + [ToolCallStartedEvent(info, v.self, Some(meta))])
    case ToolCallCompleted(tool, output) =>
      var info :=
        if tool.Some? then Some(ToolInfo(tool.value.callId, tool.value.name, tool.value.args, tool.value.result))
          else None;
      (Mark(v, ToolCallId(tool)), [ToolCallCompletedEvent(info, NonEmpty(output), v.self, Some(meta))])
    case ToolCallError(tool, error) =>
      var id := ToolCallId(tool);
      if id.Some? && id.value in v.closed then (v, [])
      else
        var info := if tool.Some? then Some(ToolInfo(tool.value.callId, tool.value.name, None, None)) else None;
        (Mark(v, id), [ToolCallErrorEvent(info, NonEmpty(error), v.self, Some(meta))])
  }

  /** Everything a run emits on its own. */
  function Solo(v: Voice, evs: seq<AgnoEvent>): seq<Event>
    requires forall ev | ev in evs :: Local(ev)
    decreases |evs|
  {
    if evs == [] then []
    else
      var (w, es) := React(v, evs[0]);
      es + Solo(w, evs[1..])
  }

  // ── The same run inside the adapter ──

  function Erase(e: Event): Event {
    match e
    case TextMessageStartedEvent(_, name, sub, meta) => TextMessageStartedEvent(0, name, sub, meta)
    case RunContentEvent(_, text, sub, meta) => RunContentEvent(0, text, sub, meta)
    case TextMessageCompletedEvent(_, sub, meta) => TextMessageCompletedEvent(0, sub, meta)
    case ReasoningStartedEvent(_, sub, meta) => ReasoningStartedEvent(0, sub, meta)
    case ReasoningContentDeltaEvent(id, text, sub, meta) =>
      ReasoningContentDeltaEvent(if id.Some? then Some(0) else None, text, sub, meta)
    case ReasoningStepEvent(id, text, sub, meta) => ReasoningStepEvent(if id.Some? then Some(0)
      else None, text, sub, meta)
    case ReasoningCompletedEvent(_, sub, meta) => ReasoningCompletedEvent(0, sub, meta)
    case _ => e
  }

  function EraseAll(es: seq<Event>): (r: seq<Event>)
    ensures |r| == |es| && forall i | 0 <= i < |es| :: r[i] == Erase(es[i])
  {
    seq(|es|, i requires 0 <= i < |es| => Erase(es[i]))
  }

  function PhaseOf(a: State, key: string): Phase {
    if key in a.messages.vals then Talking(a.messages.vals[key].meta)
    else if key in a.reasonings.vals then Thinking(a.reasonings.vals[key].meta)
    else Quiet
  }

  /** The run `key` as the adapter holds it; its own closed calls are not recorded there. */
  function VoiceOf(a: State, key: string, closed: set<string>): Voice {
    Voice(PhaseOf(a, key), SubagentOf(a, key), closed)
  }

  ghost predicate Exclusive(a: State) {
    a.messages.vals.Keys !! a.reasonings.vals.Keys
  }

  /** From `a` to `b` exactly the events `es` were emitted, up to ids. */
  predicate Adds(a: State, b: State, es: seq<Event>) {
    |a.out| <= |b.out| && b.out[..|a.out|] == a.out && EraseAll(b.out[|a.out|..]) == es
  }

  /** Nothing but the run `key` changed. */
  ghost predicate OnlyRun(a: State, b: State, key: string) {
    && b.subagents == a.subagents && b.active == a.active && a.closedTools <= b.closedTools
    && Exclusive(b)
    && forall k | k != key :: PhaseOf(b, k) == PhaseOf(a, k)
  }

  /** One move of the run `key`. */
  ghost predicate Moves(a: State, b: State, key: string, v: Voice, step: (Voice, seq<Event>)) {
    && OnlyRun(a, b, key) && Adds(a, b, step.1)
    && PhaseOf(b, key) == step.0.phase && step.0.self == v.self
  }

  lemma AddsOne(a: State, b: State, e: Event)
    requires b.out == a.out + [e]
    ensures Adds(a, b, [Erase(e)])
  {
    assert b.out[|a.out|..] == [e];
  }

  lemma AddsNone(a: State, b: State)
    requires b.out == a.out
    ensures Adds(a, b, [])
  {
  }

  lemma AddsBoth(a: State, b: State, c: State, es: seq<Event>, fs: seq<Event>)
    requires Adds(a, b, es) && Adds(b, c, fs)
    ensures Adds(a, c, es + fs)
  {
    assert c.out[..|a.out|] == b.out[..|a.out|];
    assert c.out[|a.out|..] == b.out[|a.out|..] + c.out[|b.out|..];
    assert EraseAll(c.out[|a.out|..]) == EraseAll(b.out[|a.out|..]) + EraseAll(c.out[|b.out|..]);
  }

  lemma CloseContentMoves(a: State, key: string, v: Voice)
    requires Exclusive(a) && v == VoiceOf(a, key, v.closed)
    ensures Moves(a, CloseContent(a, key), key, v, StopTalking(v))
  {
    var b := CloseContent(a, key);
    if key in a.messages.vals {
      AddsOne(a, b, TextMessageCompletedEvent(a.messages.vals[key].id, v.self, Some(a.messages.vals[key].meta)));
    } else {
      AddsNone(a, b);
    }
  }

  lemma CloseReasoningMoves(a: State, key: string, v: Voice)
    requires Exclusive(a) && v == VoiceOf(a, key, v.closed)
    ensures Moves(a, CloseReasoning(a, key), key, v, StopThinking(v))
  {
    var b := CloseReasoning(a, key);
    if key in a.reasonings.vals {
      AddsOne(a, b, ReasoningCompletedEvent(a.reasonings.vals[key].id, v.self, Some(a.reasonings.vals[key].meta)));
    } else {
      AddsNone(a, b);
    }
  }

  /** Two moves in a row. */
  lemma MovesBoth(a: State, b: State, c: State, key: string, v: Voice, s: (Voice, seq<Event>), t: (Voice, seq<Event>))
    requires Moves(a, b, key, v, s) && Moves(b, c, key, s.0, t)
    ensures Moves(a, c, key, v, (t.0, s.1 + t.1))
  {
    AddsBoth(a, b, c, s.1, t.1);
  }

  /** Emitting one event moves no phase. */
  lemma EmitMoves(a: State, key: string, v: Voice, e: Event)
    requires Exclusive(a) && v == VoiceOf(a, key, v.closed)
    ensures Moves(a, Emit(a, e), key, v, (v, [Erase(e)]))
  {
    AddsOne(a, Emit(a, e), e);
  }

  lemma OpenReasoningMoves(a: State, key: string, v: Voice, meta: Metadata, announced: Option<Metadata>)
    requires Exclusive(a) && v == VoiceOf(a, key, v.closed) && !v.phase.Talking?
    ensures Moves(a, OpenReasoning(a, key, meta, announced), key, v,
              (v.(phase := Thinking(meta)), [ReasoningStartedEvent(0, v.self, announced)]))
  {
    AddsOne(a, OpenReasoning(a, key, meta, announced), ReasoningStartedEvent(a.next, v.self, announced));
  }

  lemma OpenContentMoves(a: State, key: string, v: Voice, meta: Metadata)
    requires Exclusive(a) && v == VoiceOf(a, key, v.closed) && v.phase.Quiet?
    ensures Moves(a, OpenContent(a, key, meta), key, v, Talk(v, meta))
  {
    var name := if Truthy(meta.parentRunId) then meta.name else None;
    AddsOne(a, OpenContent(a, key, meta), TextMessageStartedEvent(a.next, name, v.self, Some(meta)));
    assert [] + [TextMessageStartedEvent(0, name, v.self, Some(meta))]
      == [TextMessageStartedEvent(0, name, v.self, Some(meta))];
  }

  lemma EnterReasoningMoves(a: State, key: string, v: Voice, meta: Metadata, announced: Option<Metadata>)
    requires Exclusive(a) && v == VoiceOf(a, key, v.closed)
    ensures Moves(a, EnterReasoning(a, key, meta, announced), key, v, Think(v, meta, announced))
  {
    CloseContentMoves(a, key, v);
    var b, s := CloseContent(a, key), StopTalking(v);
    if key !in b.reasonings.vals {
      OpenReasoningMoves(b, key, s.0, meta, announced);
      var c := OpenReasoning(b, key, meta, announced);
      MovesBoth(a, b, c, key, v, s, (s.0.(phase := Thinking(meta)), [ReasoningStartedEvent(0, v.self, announced)]));
    }
  }

  lemma EnterContentMoves(a: State, key: string, v: Voice, meta: Metadata)
    requires Exclusive(a) && v == VoiceOf(a, key, v.closed)
    ensures Moves(a, EnterContent(a, key, meta), key, v, Talk(v, meta))
  {
    CloseReasoningMoves(a, key, v);
    var b, s := CloseReasoning(a, key), StopThinking(v);
    if key !in b.messages.vals {
      OpenContentMoves(b, key, s.0, meta);
      MovesBoth(a, b, OpenContent(b, key, meta), key, v, s, Talk(s.0, meta));
    }
  }

  /** A move followed by one more event. */
  lemma MovesThenEmit(a: State, b: State, key: string, v: Voice, s: (Voice, seq<Event>), e: Event)
    requires Moves(a, b, key, v, s)
    ensures Moves(a, Emit(b, e), key, v, (s.0, s.1 + [Erase(e)]))
  {
    AddsOne(b, Emit(b, e), e);
    AddsBoth(a, b, Emit(b, e), s.1, [Erase(e)]);
  }

  lemma ThinkAloudMoves(a: State, key: string, v: Voice, meta: Metadata, text: string)
    requires Exclusive(a) && v == VoiceOf(a, key, v.closed)
    ensures Moves(a, ProcessReasoningContent(a, key, meta, text), key, v, ThinkAloud(v, meta, text))
  {
    if text == "" {
      CloseReasoningMoves(a, key, v);
    } else {
      EnterReasoningMoves(a, key, v, meta, Some(meta));
      var b := EnterReasoning(a, key, meta, Some(meta));
      var e := ReasoningContentDeltaEvent(Some(b.reasonings.vals[key].id), text, SubagentOf(b, key), Some(meta));
      MovesThenEmit(a, b, key, v, Think(v, meta, Some(meta)), e);
    }
  }

  lemma SayMoves(a: State, key: string, v: Voice, meta: Metadata, text: string)
    requires Exclusive(a) && v == VoiceOf(a, key, v.closed)
    ensures Moves(a, ProcessTextContent(a, key, meta, text), key, v, Say(v, meta, text))
  {
    if text == "" {
      CloseContentMoves(a, key, v);
    } else {
      EnterContentMoves(a, key, v, meta);
      var b := EnterContent(a, key, meta);
      var e := RunContentEvent(b.messages.vals[key].id, text, SubagentOf(b, key), Some(meta));
      MovesThenEmit(a, b, key, v, Talk(v, meta), e);
    }
  }

  lemma RunContentMoves(a: State, key: string, v: Voice, ev: AgnoEvent)
    requires Exclusive(a) && v == VoiceOf(a, key, v.closed) && key == RunKey(a, ev) && ev.kind.RunContent?
    ensures Moves(a, Step(a, ev), key, v, React(v, ev))
  {
    var meta := BuildMetadata(ev);
    var s := if ev.kind.reasoning.Some? then ThinkAloud(v, meta, ev.kind.reasoning.value) else (v, []);
    var b := if ev.kind.reasoning.Some? then ProcessReasoningContent(a, key, meta, ev.kind.reasoning.value) else a;
    if ev.kind.reasoning.Some? {
      ThinkAloudMoves(a, key, v, meta, ev.kind.reasoning.value);
    } else {
      AddsNone(a, b);
    }
    assert s.0 == VoiceOf(b, key, s.0.closed);
    var t := if ev.kind.content.Some? then Say(s.0, meta, ev.kind.content.value) else (s.0, []);
    var c := if ev.kind.content.Some? then ProcessTextContent(b, key, meta, ev.kind.content.value) else b;
    if ev.kind.content.Some? {
      SayMoves(b, key, s.0, meta, ev.kind.content.value);
    } else {
      AddsNone(b, c);
    }
    MovesBoth(a, b, c, key, v, s, t);
  }

  lemma ToolStartedMoves(a: State, key: string, v: Voice, ev: AgnoEvent)
    requires Exclusive(a) && v == VoiceOf(a, key, v.closed) && key == RunKey(a, ev) && ev.kind.ToolCallStarted?
    ensures Moves(a, Step(a, ev), key, v, React(v, ev))
  {
    CloseReasoningMoves(a, key, v);
    var b, s := CloseReasoning(a, key), StopThinking(v);
    CloseContentMoves(b, key, s.0);
    var c, t := CloseContent(b, key), StopTalking(s.0);
    MovesBoth(a, b, c, key, v, s, t);
    assert s.1 + t.1 == Hush(v);
    var tool := ev.kind.tool;
    var info := if tool.Some? then Some(ToolInfo(tool.value.callId, tool.value.name, tool.value.args, None)) else None;
    MovesThenEmit(a, c, key, v, (t.0, s.1 + t.1),
      ToolCallStartedEvent(info, SubagentOf(c, key), Some(BuildMetadata(ev))));
  }

  /** A tool error that the adapter drops although its own run never closed the call. */
  predicate DroppedForOthers(a: State, v: Voice, ev: AgnoEvent) {
    ev.kind.ToolCallError? && AlreadyClosed(a, ev.kind.failed) && ToolCallId(ev.kind.failed).value !in v.closed
  }

  lemma ReactClosed(v: Voice, ev: AgnoEvent)
    requires Local(ev)
    ensures React(v, ev).0.self == v.self
    ensures React(v, ev).0.closed
         == if ev.kind.ToolCallCompleted? then Mark(v, ToolCallId(ev.kind.done)).closed
            else if ev.kind.ToolCallError? then Mark(v, ToolCallId(ev.kind.failed)).closed
            else v.closed
  {
  }

  lemma ReasoningStartedMoves(a: State, key: string, v: Voice, ev: AgnoEvent)
    requires Exclusive(a) && v == VoiceOf(a, key, v.closed) && key == RunKey(a, ev) && ev.kind.ReasoningStarted?
    ensures Moves(a, Step(a, ev), key, v, React(v, ev))
  {
    var meta := BuildMetadata(ev);
    CloseContentMoves(a, key, v);
    var b, s := CloseContent(a, key), StopTalking(v);
    OpenReasoningMoves(b, key, s.0, meta, Some(meta));
    MovesBoth(a, b, Step(a, ev), key, v, s,
      (s.0.(phase := Thinking(meta)), [ReasoningStartedEvent(0, v.self, Some(meta))]));
  }

  lemma ReasoningStepMoves(a: State, key: string, v: Voice, ev: AgnoEvent)
    requires Exclusive(a) && v == VoiceOf(a, key, v.closed) && key == RunKey(a, ev) && ev.kind.ReasoningStep?
    ensures Moves(a, Step(a, ev), key, v, React(v, ev))
  {
    var meta, step := BuildMetadata(ev), ev.kind.step;
    if Truthy(step) {
      EnterReasoningMoves(a, key, v, meta, None);
      var b := EnterReasoning(a, key, meta, None);
      var e := ReasoningStepEvent(Some(b.reasonings.vals[key].id), step.value, SubagentOf(b, key), Some(meta));
      MovesThenEmit(a, b, key, v, Think(v, meta, None), e);
    } else {
      AddsNone(a, a);
    }
  }

  lemma DeltaMoves(a: State, key: string, v: Voice, ev: AgnoEvent)
    requires Exclusive(a) && v == VoiceOf(a, key, v.closed) && key == RunKey(a, ev) && ev.kind.ReasoningContentDelta?
    ensures Moves(a, Step(a, ev), key, v, React(v, ev))
  {
    var meta, delta := BuildMetadata(ev), ev.kind.delta;
    var id := if key in a.reasonings.vals then Some(a.reasonings.vals[key].id) else None;
    EmitMoves(a, key, v, ReasoningContentDeltaEvent(id, if delta.Some? then delta.value else "", v.self, Some(meta)));
  }

  /** One event emitted after at most one call is marked closed. */
  lemma MarkedEmitMoves(a: State, key: string, v: Voice, id: Option<string>, e: Event)
    requires Exclusive(a) && v == VoiceOf(a, key, v.closed)
    ensures Moves(a, Emit(MarkClosed(a, id), e), key, v, (Mark(v, id), [Erase(e)]))
  {
    AddsOne(a, Emit(MarkClosed(a, id), e), e);
  }

  lemma ToolCompletedMoves(a: State, key: string, v: Voice, ev: AgnoEvent)
    requires Exclusive(a) && v == VoiceOf(a, key, v.closed) && key == RunKey(a, ev) && ev.kind.ToolCallCompleted?
    ensures Moves(a, Step(a, ev), key, v, React(v, ev))
  {
    hide Moves;
    var tool := ev.kind.done;
    var info := if tool.Some? then Some(ToolInfo(tool.value.callId, tool.value.name, tool.value.args,
      tool.value.result)) else None;
    MarkedEmitMoves(a, key, v, ToolCallId(tool),
      ToolCallCompletedEvent(info, NonEmpty(ev.kind.output), v.self, Some(BuildMetadata(ev))));
  }

  lemma ToolErrorMoves(a: State, key: string, v: Voice, ev: AgnoEvent)
    requires Exclusive(a) && v == VoiceOf(a, key, v.closed) && key == RunKey(a, ev) && v.closed <= a.closedTools
    requires ev.kind.ToolCallError? && !DroppedForOthers(a, v, ev)
    ensures Moves(a, Step(a, ev), key, v, React(v, ev))
  {
    var tool := ev.kind.failed;
    if AlreadyClosed(a, tool) {
      AddsNone(a, a);
    } else {
      var info := if tool.Some? then Some(ToolInfo(tool.value.callId, tool.value.name, None, None)) else None;
      MarkedEmitMoves(a, key, v, ToolCallId(tool),
        ToolCallErrorEvent(info, NonEmpty(ev.kind.error), v.self, Some(BuildMetadata(ev))));
    }
  }

  /** One local event: the adapter does to the run exactly what the run alone would do, and touches no other. */
  lemma StepMoves(a: State, v: Voice, ev: AgnoEvent)
    requires Exclusive(a) && Local(ev)
    requires v == VoiceOf(a, RunKey(a, ev), v.closed) && v.closed <= a.closedTools
    ensures !DroppedForOthers(a, v, ev) ==> Moves(a, Step(a, ev), RunKey(a, ev), v, React(v, ev))
    ensures DroppedForOthers(a, v, ev) ==> Step(a, ev) == a && |React(v, ev).1| == 1 && React(v, ev).0.phase == v.phase
  {
    hide Moves, Exclusive, VoiceOf;
    var key := RunKey(a, ev);
    match ev.kind
    case RunContent(_, _) => RunContentMoves(a, key, v, ev);
    case ReasoningStarted => ReasoningStartedMoves(a, key, v, ev);
    case ReasoningContentDelta(_) => DeltaMoves(a, key, v, ev);
    case ReasoningStep(_) => ReasoningStepMoves(a, key, v, ev);
    case ReasoningCompleted => CloseReasoningMoves(a, key, v);
    case ToolCallStarted(_) => ToolStartedMoves(a, key, v, ev);
    case ToolCallCompleted(_, _) => ToolCompletedMoves(a, key, v, ev);
    case ToolCallError(_, _) => if !DroppedForOthers(a, v, ev) { ToolErrorMoves(a, key, v, ev); }
  }

  /** The adapter has every call closed that the run has. */
  lemma StepCloses(a: State, v: Voice, ev: AgnoEvent)
    requires Exclusive(a) && Local(ev) && v == VoiceOf(a, RunKey(a, ev), v.closed) && v.closed <= a.closedTools
    ensures React(v, ev).0.closed <= Step(a, ev).closedTools && React(v, ev).0.self == v.self
  {
    ReactClosed(v, ev);
    StepMoves(a, v, ev);
  }

  // ── Many runs at once ──

  /** The events of `evs` that the adapter attributes to the run `key`, in order. */
  function Own(active: Option<string>, evs: seq<AgnoEvent>, key: string): (r: seq<AgnoEvent>)
    ensures forall ev | ev in r :: ev in evs
    decreases |evs|
  {
    if evs == [] then []
    else (if RunKey(Init().(active := active), evs[0]) == key then [evs[0]] else []) + Own(active, evs[1..], key)
  }

  /** What the run `key` contributes to the trace while all of `evs` are handled, ids erased. */
  function SubTrace(a: State, evs: seq<AgnoEvent>, key: string): seq<Event>
    decreases |evs|
  {
    if evs == [] then []
    else
      var b := Step(a, evs[0]);
      (if RunKey(a, evs[0]) == key && |a.out| <= |b.out| then EraseAll(b.out[|a.out|..]) else [])
        + SubTrace(b, evs[1..], key)
  }

  /** How many of the run's tool errors are dropped only because another run closed the call. */
  function Dropped(a: State, v: Voice, evs: seq<AgnoEvent>, key: string): nat
    requires forall ev | ev in evs :: Local(ev)
    decreases |evs|
  {
    if evs == [] then 0
    else if RunKey(a, evs[0]) == key then
      (if DroppedForOthers(a, v, evs[0]) then 1 else 0) + Dropped(Step(a, evs[0]), React(v, evs[0]).0, evs[1..], key)
    else Dropped(Step(a, evs[0]), v, evs[1..], key)
  }

  lemma OtherRunMoves(a: State, ev: AgnoEvent, key: string)
    requires Exclusive(a) && Local(ev) && RunKey(a, ev) != key
    ensures var b := Step(a, ev);
      Exclusive(b) && b.active == a.active && a.closedTools <= b.closedTools
      && PhaseOf(b, key) == PhaseOf(a, key) && SubagentOf(b, key) == SubagentOf(a, key)
  {
    StepMoves(a, VoiceOf(a, RunKey(a, ev), {}), ev);
  }

  /**
   For any interleaving of any runs' content, reasoning and tool events: a run's part of the trace
   is what the run would emit alone, if and only if no tool error of its own was dropped on account
   of another run.
   */
  lemma {:induction false} NonInterference(a: State, v: Voice, evs: seq<AgnoEvent>, key: string)
    requires Exclusive(a) && (forall ev | ev in evs :: Local(ev))
    requires v == VoiceOf(a, key, v.closed) && v.closed <= a.closedTools
    ensures SubTrace(a, evs, key) == Solo(v, Own(a.active, evs, key)) <==> Dropped(a, v, evs, key) == 0
    ensures |SubTrace(a, evs, key)| + Dropped(a, v, evs, key) == |Solo(v, Own(a.active, evs, key))|
    decreases |evs|
  {
    if evs != [] {
      var ev, rest := evs[0], evs[1..];
      var b := Step(a, ev);
      if RunKey(a, ev) != key {
        OtherRunMoves(a, ev, key);
        NonInterference(b, v, rest, key);
        assert Own(a.active, evs, key) == Own(a.active, rest, key);
      } else {
        StepMoves(a, v, ev);
        StepCloses(a, v, ev);
        var w := React(v, ev).0;
        NonInterference(b, w, rest, key);
        assert Own(a.active, evs, key) == [ev] + Own(a.active, rest, key);
        assert Own(a.active, evs, key)[1..] == Own(a.active, rest, key);
      }
    }
  }

  // ── Nothing a run says is lost ──

  function TextOf(es: seq<Event>): string {
    if es == [] then ""
    else (if es[0].RunContentEvent? then es[0].content else "") + TextOf(es[1..])
  }

  /** What the inputs say, in order. */
  function Said(evs: seq<AgnoEvent>): string {
    if evs == [] then ""
    else
      (if evs[0].kind.RunContent? && evs[0].kind.content.Some? then evs[0].kind.content.value else "") + Said(evs[1..])
  }

  lemma {:induction false} TextOfBoth(es: seq<Event>, fs: seq<Event>)
    ensures TextOf(es + fs) == TextOf(es) + TextOf(fs)
  {
    if es == [] {
      assert es + fs == fs;
    } else {
      TextOfBoth(es[1..], fs);
      assert (es + fs)[0] == es[0] && (es + fs)[1..] == es[1..] + fs;
      Associate(if es[0].RunContentEvent? then es[0].content else "", TextOf(es[1..]), TextOf(fs));
    }
  }

  lemma {:induction false} NoText(es: seq<Event>)
    requires forall e | e in es :: !e.RunContentEvent?
    ensures TextOf(es) == ""
  {
    if es != [] {
      NoText(es[1..]);
    }
  }

  lemma ReactText(v: Voice, ev: AgnoEvent)
    requires Local(ev)
    ensures TextOf(React(v, ev).1) == Said([ev])
  {
    var meta := BuildMetadata(ev);
    if ev.kind.RunContent? {
      var s := if ev.kind.reasoning.Some? then ThinkAloud(v, meta, ev.kind.reasoning.value) else (v, []);
      var t := if ev.kind.content.Some? then Say(s.0, meta, ev.kind.content.value) else (s.0, []);
      NoText(s.1);
      TextOfBoth(s.1, t.1);
      if ev.kind.content.Some? && ev.kind.content.value != "" {
        NoText(Talk(s.0, meta).1);
        TextOfBoth(Talk(s.0, meta).1, [RunContentEvent(0, ev.kind.content.value, s.0.self, Some(meta))]);
      } else {
        NoText(t.1);
      }
    } else {
      NoText(React(v, ev).1);
    }
  }

  /** The text a run emits is, character for character, the text it was given. */
  lemma {:induction false} NothingLost(v: Voice, evs: seq<AgnoEvent>)
    requires forall ev | ev in evs :: Local(ev)
    ensures TextOf(Solo(v, evs)) == Said(evs)
    decreases |evs|
  {
    if evs != [] {
      var (w, es) := React(v, evs[0]);
      ReactText(v, evs[0]);
      NothingLost(w, evs[1..]);
      TextOfBoth(es, Solo(w, evs[1..]));
    }
  }

  /** What one step of the adapter adds for the acting run says what the input says. */
  lemma StepText(a: State, v: Voice, ev: AgnoEvent)
    requires Exclusive(a) && Local(ev) && v == VoiceOf(a, RunKey(a, ev), v.closed) && v.closed <= a.closedTools
    ensures |a.out| <= |Step(a, ev).out| && TextOf(EraseAll(Step(a, ev).out[|a.out|..])) == Said([ev])
  {
    StepMoves(a, v, ev);
    ReactText(v, ev);
    hide Step, React, TextOf, Exclusive;
    if DroppedForOthers(a, v, ev) {
      assert Step(a, ev).out[|a.out|..] == [];
      assert ev.kind.ToolCallError?;
      NoText([]);
      SaidNothing(ev);
    }
  }

  lemma SaidNothing(ev: AgnoEvent)
    requires !ev.kind.RunContent?
    ensures Said([ev]) == ""
  {
  }

  lemma SaidFirst(ev: AgnoEvent, evs: seq<AgnoEvent>)
    ensures Said([ev] + evs) == Said([ev]) + Said(evs)
  {
    assert ([ev] + evs)[1..] == evs && [ev][1..] == [];
    assert Said([]) == "";
  }

  /** The text of one run among others, from where it would stand alone. */
  lemma {:induction false} TextAmongRuns(a: State, v: Voice, evs: seq<AgnoEvent>, key: string)
    requires Exclusive(a) && (forall ev | ev in evs :: Local(ev))
    requires v == VoiceOf(a, key, v.closed) && v.closed <= a.closedTools
    ensures TextOf(SubTrace(a, evs, key)) == Said(Own(a.active, evs, key))
    decreases |evs|
  {
    hide Step, TextOf, Said, EraseAll, Local;
    if evs == [] {
      NoText([]);
      assert Own(a.active, evs, key) == [];
      SaidOfNone();
    } else {
      var ev, rest := evs[0], evs[1..];
      assert ev in evs;
      var b := Step(a, ev);
      if RunKey(a, ev) != key {
        OtherRunMoves(a, ev, key);
        TextAmongRuns(b, v, rest, key);
        assert Own(a.active, evs, key) == Own(a.active, rest, key);
        assert SubTrace(a, evs, key) == SubTrace(b, rest, key);
      } else {
        StepText(a, v, ev);
        StepCloses(a, v, ev);
        StepMovesOn(a, v, ev);
        TextAmongRuns(b, React(v, ev).0, rest, key);
        assert Own(a.active, evs, key) == [ev] + Own(a.active, rest, key);
        SaidFirst(ev, Own(a.active, rest, key));
        TextOfBoth(EraseAll(b.out[|a.out|..]), SubTrace(b, rest, key));
      }
    }
  }

  /**
   For every interleaving, the text deltas a run contributes to the adapter's trace concatenate to the
   text that run was given, in order, whatever becomes of its tool errors.
   */
  lemma NothingLostAmongRuns(a: State, evs: seq<AgnoEvent>, key: string)
    requires Exclusive(a) && (forall ev | ev in evs :: Local(ev))
    ensures TextOf(SubTrace(a, evs, key)) == Said(Own(a.active, evs, key))
  {
    TextAmongRuns(a, VoiceOf(a, key, a.closedTools), evs, key);
  }

  lemma SaidOfNone()
    ensures Said([]) == ""
  {
  }

  /** After one step the run stands where it would stand alone. */
  lemma StepMovesOn(a: State, v: Voice, ev: AgnoEvent)
    requires Exclusive(a) && Local(ev) && v == VoiceOf(a, RunKey(a, ev), v.closed) && v.closed <= a.closedTools
    ensures var b, w := Step(a, ev), React(v, ev).0;
      Exclusive(b) && b.active == a.active && w == VoiceOf(b, RunKey(a, ev), w.closed) && w.closed <= b.closedTools
  {
    StepMoves(a, v, ev);
    StepCloses(a, v, ev);
    hide Step, React;
  }

  /** Two runs closing one call id: the second run's error is silent. */
  lemma SharedCallIdInterferes()
    ensures var tool := Some(ToolExecution(Some("t"), Some("n"), None, None, false));
      var done := AgnoEvent(ToolCallCompleted(tool, None), Some("x"), None, false, None, None, None, None);
      var failed := AgnoEvent(ToolCallError(tool, None), Some("y"), None, false, None, None, None, None);
      SubTrace(Init(), [done, failed], "y") != Solo(VoiceOf(Init(), "y", {}), Own(None, [done, failed], "y"))
  {
    var tool := Some(ToolExecution(Some("t"), Some("n"), None, None, false));
    var done := AgnoEvent(ToolCallCompleted(tool, None), Some("x"), None, false, None, None, None, None);
    var failed := AgnoEvent(ToolCallError(tool, None), Some("y"), None, false, None, None, None, None);
    var evs, v := [done, failed], VoiceOf(Init(), "y", {});
    assert evs[1..] == [failed];
    assert DroppedForOthers(Step(Init(), done), v, failed);
    assert Dropped(Init(), v, evs, "y") >= 1;
    NonInterference(Init(), v, evs, "y");
  }
}
