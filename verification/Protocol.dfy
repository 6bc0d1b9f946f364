/**
 The AG-UI stream a client receives. Its rules are stated on the stream alone; the result is that a
 well-bracketed adapter trace becomes a stream that follows them exactly when its tool events are
 named, identified and paired, no tool call is open when a run ends, and it is one run.
 */
module Protocol {
  import opened Wrappers
  import opened AgentEvents
  import opened Brackets
  import opened Closings
  import opened AgUi

  /** Where a stream stands: before its run, inside it, after it, or with an event out of place. */
  datatype Stage = Waiting | Running | Over | Broken

  function Started(g: Stage): Stage {
    if g.Waiting? then Running else Broken
  }

  function Ended(g: Stage): Stage {
    if g.Running? then Over else Broken
  }

  function Said(g: Stage): Stage {
    if g.Running? then Running else Broken
  }

  /** One run to a stream: its start comes first, its end or its error last, everything else in between. */
  function StageStep(g: Stage, e: AgUiEvent): Stage {
    match e
    case RunStarted(_, _, _) => Started(g)
    case RunFinished(_, _, _) => Ended(g)
    case RunFailed(_, _, _) => Ended(g)
    case _ => Said(g)
  }

  /** An open reasoning: on whose behalf, and whether the message inside it is open. */
  datatype Thought = Thought(subagent: Option<string>, inner: bool)

  /** What a client knows; `ok` says that everything opened and closed so far did so by the rules. */
  datatype Client = Client(
    ok: bool, stage: Stage, run: Option<Id>, messages: map<nat, Option<string>>, reasonings: map<nat, Thought>,
    used: set<nat>,
    subagents: set<string>, started: set<string>, calls: set<Id>, usedCalls: set<Id>)

  /** No rule is broken. */
  predicate Follows(c: Client) {
    c.ok && !c.stage.Broken?
  }

  predicate SameRun(c: Client, run: Id) {
    c.run.Some? ==> c.run.value == run
  }

  /** Nothing is open: no sequence, no delegation, no tool call. */
  predicate Idle(c: Client) {
    c.messages == map[] && c.reasonings == map[] && c.subagents == {} && c.calls == {}
  }

  predicate Knows(c: Client, a: Author) {
    a.subagent.Some? ==> a.subagent.value in c.subagents
  }

  /** The reasoning is open for this author, its inner message open or not. */
  predicate Thinks(c: Client, id: nat, a: Author, inner: bool) {
    id in c.reasonings && c.reasonings[id] == Thought(a.subagent, inner)
  }

  function End(c: Client, run: string): Client {
    c.(ok := c.ok && run in c.subagents
         && (forall id | id in c.messages :: c.messages[id] != Some(run))
         && (forall id | id in c.reasonings :: c.reasonings[id].subagent != Some(run)),
       subagents := c.subagents - {run})
  }

  /** One AG-UI event received. */
  function Receive(c: Client, e: AgUiEvent): Client {
    Track(c, e).(stage := StageStep(c.stage, e))
  }

  /** What it opens and closes. */
  function Track(c: Client, e: AgUiEvent): Client {
    match e
    case RunStarted(_, run, _) => c.(ok := c.ok && SameRun(c, run), run := if c.run.Some? then c.run else Some(run))
    case RunFinished(_, run, _) => c.(ok := c.ok && SameRun(c, run) && Idle(c))
    case RunFailed(_, _, _) => c.(ok := c.ok && Idle(c))
    case TextMessageStart(id, _, a) =>
      c.(ok := c.ok && id !in c.used && Knows(c, a), messages := c.messages[id := a.subagent], used := c.used + {id})
    case TextMessageContent(id, delta, a) =>
      c.(ok := c.ok && delta != "" && id in c.messages && c.messages[id] == a.subagent)
    case TextMessageEnd(id, a) =>
      c.(ok := c.ok && id in c.messages && c.messages[id] == a.subagent, messages := c.messages - {id})
    case ReasoningStart(id, a) =>
      c.(ok := c.ok && id !in c.used && Knows(c, a), reasonings := c.reasonings[id := Thought(a.subagent, false)],
        used := c.used + {id})
    case ReasoningMessageStart(id, a) =>
      c.(ok := c.ok && Thinks(c, id, a, false), reasonings := c.reasonings[id := Thought(a.subagent, true)])
    case ReasoningMessageContent(id, delta, a) =>
      c.(ok := c.ok && delta != "" && id.Some? && Thinks(c, id.value, a, true))
    case ReasoningMessageEnd(id, a) =>
      c.(ok := c.ok && Thinks(c, id, a, true), reasonings := c.reasonings[id := Thought(a.subagent, false)])
    case ReasoningEnd(id, a) =>
      c.(ok := c.ok && Thinks(c, id, a, false), reasonings := c.reasonings - {id})
    case SubagentStarted(run, _, parent, _, _) =>
      var open := c.subagents + {run};
      c.(ok := c.ok && run !in c.started
        && (parent.Some? ==> parent.value in open), subagents := open, started := c.started + {run})
    case SubagentFinished(run, _, _) => End(c, run)
    case SubagentFailed(run, _, _, _) => End(c, run)
    case ToolCallStart(call, _, a) =>
      c.(ok := c.ok && call !in c.usedCalls
        && Knows(c, a), calls := c.calls + {call}, usedCalls := c.usedCalls + {call})
    case ToolCallArgs(call, _, _) => c.(ok := c.ok && call in c.calls)
    case ToolCallEnd(call, a) => c.(ok := c.ok && call in c.calls && Knows(c, a), calls := c.calls - {call})
    case ToolCallResult(_, call, _, _) => c.(ok := c.ok && call in c.usedCalls && call !in c.calls)
    case Custom(_, _) => c
  }

  function ReceiveAll(c: Client, es: seq<AgUiEvent>): Client
    decreases |es|
  {
    if es == [] then c else ReceiveAll(Receive(c, es[0]), es[1..])
  }

  function Fresh(): Client {
    Client(true, Waiting, None, map[], map[], {}, {}, {}, {}, {})
  }

  // ── Tool events of the adapter's trace ──

  /** `orphaned`: some call was announced without an id, under one that is minted and cannot be ended. */
  datatype Tools = Tools(ok: bool, open: set<string>, used: set<string>, orphaned: bool)

  predicate NoCalls(t: Tools) {
    t.open == {} && !t.orphaned
  }

  /** Only a named call is announced, and only under an id of its own can it be ended. */
  function StartCall(t: Tools, name: Option<string>, id: Option<string>): Tools {
    if !Truthy(name) then t
    else if !Truthy(id) then t.(orphaned := true)
    else t.(ok := t.ok && id.value !in t.used, open := t.open + {id.value}, used := t.used + {id.value})
  }

  function EndCall(t: Tools, id: Option<string>): Tools {
    if !Truthy(id) then t.(ok := false) else t.(ok := t.ok && id.value in t.open, open := t.open - {id.value})
  }

  function EndRun(t: Tools): Tools {
    t.(ok := t.ok && NoCalls(t))
  }

  /** Calls open under ids not used before, ends need a call that is open, and a run ends with none. */
  function ToolStep(t: Tools, e: Event): Tools {
    match e
    case ToolCallStartedEvent(tool, _, _) => if tool.None? then t else StartCall(t, tool.value.name, tool.value.callId)
    case ToolCallCompletedEvent(tool, _, _, _) => if tool.None? then t else EndCall(t, tool.value.callId)
    case ToolCallErrorEvent(tool, _, _, _) => if tool.None? then t else EndCall(t, tool.value.callId)
    case RunCompletedEvent(_, _, _) => EndRun(t)
    case RunErrorEvent(_, _, _) => EndRun(t)
    case _ => t
  }

  function ToolsOf(out: seq<Event>): Tools {
    if out == [] then Tools(true, {}, {}, false) else ToolStep(ToolsOf(out[..|out| - 1]), out[|out| - 1])
  }

  // ── The run in the adapter's trace ──

  /** Something is sent for it. */
  predicate Visible(e: Event) {
    match e
    case RunContentEvent(_, text, _, _) => text != ""
    case ReasoningContentDeltaEvent(_, text, _, _) => text != ""
    case ReasoningStepEvent(_, text, _, _) => text != ""
    case ToolCallStartedEvent(tool, _, _) => tool.Some? && Truthy(tool.value.name)
    case ToolCallCompletedEvent(tool, _, _, _) => tool.Some?
    case ToolCallErrorEvent(tool, _, _, _) => tool.Some?
    case _ => true
  }

  function StageAt(g: Stage, e: Event): Stage {
    if e.RunStartedEvent? then Started(g)
    else if IsTerminal(e) then Ended(g)
    else if Visible(e) then Said(g)
    else g
  }

  function StageOf(out: seq<Event>): Stage {
    if out == [] then Waiting else StageAt(StageOf(out[..|out| - 1]), out[|out| - 1])
  }

  // ── The two traces in step ──

  ghost predicate CallsMatch(t: Tools, p: Pins, c: Client) {
    && (forall x :: Given(x) in c.calls <==> x in t.open)
    && (forall x :: Given(x) in c.usedCalls <==> x in t.used)
    && ((exists n: nat :: Minted(n) in c.calls) <==> t.orphaned)
    && (forall n: nat :: Minted(n) in c.usedCalls ==> n < p.next)
    && c.calls <= c.usedCalls
  }

  /** The client sees open what the adapter's trace shows open, for the same delegations. */
  ghost predicate SequencesMatch(s: Scan, p: Pins, c: Client) {
    && c.run == p.runId
    && c.messages.Keys == s.messages.Keys
    && (forall id | id in s.messages :: c.messages[id] == NonEmpty(s.messages[id].subagent))
    && c.reasonings.Keys == s.reasonings.Keys
    && (forall id | id in s.reasonings :: c.reasonings[id] == Thought(NonEmpty(s.reasonings[id].subagent), true))
    && c.used == s.used && c.subagents == s.subagents.Keys && c.started == s.started
  }

  ghost predicate Matches(s: Scan, t: Tools, p: Pins, c: Client) {
    SequencesMatch(s, p, c) && CallsMatch(t, p, c)
  }

  predicate IsTool(e: Event) {
    e.ToolCallStartedEvent? || e.ToolCallCompletedEvent? || e.ToolCallErrorEvent?
  }

  lemma ReceiveOne(c: Client, e: AgUiEvent)
    ensures ReceiveAll(c, [e]) == Receive(c, e)
  {
    assert [e][1..] == [] && [e] != [];
    assert ReceiveAll(Receive(c, e), []) == Receive(c, e);
  }

  lemma ReceiveTwo(c: Client, e: AgUiEvent, f: AgUiEvent)
    ensures ReceiveAll(c, [e, f]) == Receive(Receive(c, e), f)
  {
    assert [e, f][1..] == [f];
    ReceiveOne(Receive(c, e), f);
  }

  /** A batch holds at most two events. */
  lemma SplitReceive(c: Client, sent: seq<AgUiEvent>)
    ensures |sent| == 1 ==> ReceiveAll(c, sent) == Receive(c, sent[0])
    ensures |sent| == 2 ==> ReceiveAll(c, sent) == Receive(Receive(c, sent[0]), sent[1])
  {
    if |sent| == 1 {
      assert sent == [sent[0]];
      ReceiveOne(c, sent[0]);
    } else if |sent| == 2 {
      assert sent == [sent[0], sent[1]];
      ReceiveTwo(c, sent[0], sent[1]);
    }
  }

  lemma StageSent(c: Client, p: Pins, e: Event)
    ensures ReceiveAll(c, Image(p, e).1).stage == StageAt(c.stage, e)
  {
    hide Track;
    SplitReceive(c, Image(p, e).1);
  }

  lemma TextStep(s: Scan, p: Pins, c: Client, e: Event)
    requires c.ok && SequencesMatch(s, p, c) && Advance(s, e).ok
      && (e.TextMessageStartedEvent? || e.RunContentEvent? || e.TextMessageCompletedEvent?)
    ensures var (q, sent) := Image(p, e);
      var d := ReceiveAll(c, sent);
      d.ok && SequencesMatch(Advance(s, e), q, d) && d.calls == c.calls && d.usedCalls == c.usedCalls
  {
    SplitReceive(c, Image(p, e).1);
  }

  lemma ReasoningStartStep(s: Scan, p: Pins, c: Client, e: Event)
    requires c.ok && SequencesMatch(s, p, c) && Advance(s, e).ok && e.ReasoningStartedEvent?
    ensures var (q, sent) := Image(p, e);
      var d := ReceiveAll(c, sent);
      d.ok && SequencesMatch(Advance(s, e), q, d) && d.calls == c.calls && d.usedCalls == c.usedCalls
  {
    SplitReceive(c, Image(p, e).1);
  }

  lemma ReasoningEndStep(s: Scan, p: Pins, c: Client, e: Event)
    requires c.ok && SequencesMatch(s, p, c) && Advance(s, e).ok && e.ReasoningCompletedEvent?
    ensures var (q, sent) := Image(p, e);
      var d := ReceiveAll(c, sent);
      d.ok && SequencesMatch(Advance(s, e), q, d) && d.calls == c.calls && d.usedCalls == c.usedCalls
  {
    SplitReceive(c, Image(p, e).1);
  }

  lemma ReasoningTextStep(s: Scan, p: Pins, c: Client, e: Event)
    requires c.ok && SequencesMatch(s, p, c) && Advance(s, e).ok
      && (e.ReasoningContentDeltaEvent? || e.ReasoningStepEvent?)
    ensures var (q, sent) := Image(p, e);
      var d := ReceiveAll(c, sent);
      d.ok && SequencesMatch(Advance(s, e), q, d) && d.calls == c.calls && d.usedCalls == c.usedCalls
  {
    SplitReceive(c, Image(p, e).1);
  }

  lemma DelegationStep(s: Scan, p: Pins, c: Client, e: Event)
    requires c.ok && SequencesMatch(s, p, c) && Advance(s, e).ok
      && (e.SubagentStartedEvent? || e.SubagentFinishedEvent? || e.SubagentErrorEvent?)
    ensures var (q, sent) := Image(p, e);
      var d := ReceiveAll(c, sent);
      d.ok && SequencesMatch(Advance(s, e), q, d) && d.calls == c.calls && d.usedCalls == c.usedCalls
  {
    SplitReceive(c, Image(p, e).1);
  }

  lemma RunStep(s: Scan, p: Pins, c: Client, e: Event)
    requires c.ok && SequencesMatch(s, p, c) && Advance(s, e).ok && (e.RunStartedEvent? || e.CustomEvent?)
    ensures var (q, sent) := Image(p, e);
      var d := ReceiveAll(c, sent);
      d.ok && SequencesMatch(Advance(s, e), q, d) && d.calls == c.calls && d.usedCalls == c.usedCalls
        && p.next <= q.next
  {
    SplitReceive(c, Image(p, e).1);
  }

  /** The client has a call open exactly when the trace has. */
  lemma CallsAreOpen(t: Tools, p: Pins, c: Client)
    requires CallsMatch(t, p, c)
    ensures c.calls == {} <==> NoCalls(t)
  {
    if c.calls != {} {
      var id :| id in c.calls;
      match id
      case Given(x) => assert x in t.open;
      case Minted(n) => assert t.orphaned;
    } else {
      forall x ensures x !in t.open { assert Given(x) !in c.calls; }
    }
  }

  /** A run ends by the rules exactly when no tool call is open. */
  lemma EndStep(s: Scan, t: Tools, p: Pins, c: Client, e: Event)
    requires c.ok && t.ok && Matches(s, t, p, c) && Advance(s, e).ok && (e.RunCompletedEvent? || e.RunErrorEvent?)
    ensures var (q, sent) := Image(p, e);
      var d := ReceiveAll(c, sent);
      d.ok == ToolStep(t, e).ok && (d.ok ==> Matches(Advance(s, e), ToolStep(t, e), q, d))
  {
    SplitReceive(c, Image(p, e).1);
    CallsAreOpen(t, p, c);
  }

  lemma SequenceStep(s: Scan, t: Tools, p: Pins, c: Client, e: Event)
    requires c.ok && Matches(s, t, p, c) && Advance(s, e).ok && !IsTool(e) && !IsTerminal(e)
    ensures var (q, sent) := Image(p, e);
      var d := ReceiveAll(c, sent);
      d.ok && Matches(Advance(s, e), t, q, d)
  {
    hide SequencesMatch, Advance, Receive;
    match e
    case TextMessageStartedEvent(_, _, _, _) => TextStep(s, p, c, e);
    case RunContentEvent(_, _, _, _) => TextStep(s, p, c, e);
    case TextMessageCompletedEvent(_, _, _) => TextStep(s, p, c, e);
    case ReasoningStartedEvent(_, _, _) => ReasoningStartStep(s, p, c, e);
    case ReasoningContentDeltaEvent(_, _, _, _) => ReasoningTextStep(s, p, c, e);
    case ReasoningStepEvent(_, _, _, _) => ReasoningTextStep(s, p, c, e);
    case ReasoningCompletedEvent(_, _, _) => ReasoningEndStep(s, p, c, e);
    case SubagentStartedEvent(_, _, _, _, _) => DelegationStep(s, p, c, e);
    case SubagentFinishedEvent(_, _, _) => DelegationStep(s, p, c, e);
    case SubagentErrorEvent(_, _, _, _) => DelegationStep(s, p, c, e);
    case _ => RunStep(s, p, c, e);
  }

  /** Receiving what a tool event sends touches nothing but the calls. */
  ghost predicate SameSequences(c: Client, d: Client) {
    && d.run == c.run && d.messages == c.messages && d.reasonings == c.reasonings && d.used == c.used
    && d.subagents == c.subagents && d.started == c.started
  }

  lemma ToolSends(p: Pins, c: Client, e: Event)
    requires IsTool(e)
    ensures var (q, sent) := Image(p, e);
      SameSequences(c, ReceiveAll(c, sent)) && q.runId == p.runId && p.next <= q.next
  {
    SplitReceive(c, Image(p, e).1);
  }

  /** Tool events touch nothing but the calls. */
  lemma ToolsOnly(s: Scan, p: Pins, c: Client, e: Event)
    requires c.ok && SequencesMatch(s, p, c) && Advance(s, e).ok && IsTool(e)
    ensures var (q, sent) := Image(p, e);
      var d := ReceiveAll(c, sent);
      SequencesMatch(Advance(s, e), q, d) && p.next <= q.next
  {
    ToolSends(p, c, e);
    assert Advance(s, e) == s;
    hide Image, ReceiveAll, Advance;
  }

  /** A client knows whoever a tool event is attributed to. */
  lemma AuthorKnown(s: Scan, p: Pins, c: Client, e: Event)
    requires SequencesMatch(s, p, c) && Advance(s, e).ok && IsTool(e)
    ensures Knows(c, Authored(e.subagent, e.meta))
  {
  }

  lemma ToolStartCalls(t: Tools, p: Pins, c: Client, e: Event)
    requires c.ok && t.ok && CallsMatch(t, p, c) && e.ToolCallStartedEvent? && Knows(c, Authored(e.subagent, e.meta))
    ensures var (q, sent) := Image(p, e);
      var d := ReceiveAll(c, sent);
      d.ok == ToolStep(t, e).ok && (d.ok ==> CallsMatch(ToolStep(t, e), q, d))
  {
    SplitReceive(c, Image(p, e).1);
  }

  lemma ToolEndCalls(t: Tools, p: Pins, c: Client, e: Event)
    requires c.ok && t.ok && CallsMatch(t, p, c) && (e.ToolCallCompletedEvent? || e.ToolCallErrorEvent?)
      && Knows(c, Authored(e.subagent, e.meta))
    ensures var (q, sent) := Image(p, e);
      var d := ReceiveAll(c, sent);
      d.ok == ToolStep(t, e).ok && (d.ok ==> CallsMatch(ToolStep(t, e), q, d))
  {
    SplitReceive(c, Image(p, e).1);
  }

  lemma ToolEventStep(s: Scan, t: Tools, p: Pins, c: Client, e: Event)
    requires c.ok && t.ok && Matches(s, t, p, c) && Advance(s, e).ok && IsTool(e)
    ensures var (q, sent) := Image(p, e);
      var d := ReceiveAll(c, sent);
      d.ok == ToolStep(t, e).ok && (d.ok ==> Matches(Advance(s, e), ToolStep(t, e), q, d))
  {
    hide SequencesMatch, CallsMatch, Advance, ToolStep, Image, ReceiveAll;
    ToolsOnly(s, p, c, e);
    AuthorKnown(s, p, c, e);
    if e.ToolCallStartedEvent? { ToolStartCalls(t, p, c, e); } else { ToolEndCalls(t, p, c, e); }
  }

  lemma {:induction false} StaysBroken(c: Client, es: seq<AgUiEvent>)
    requires !c.ok
    ensures !ReceiveAll(c, es).ok
    decreases |es|
  {
    if es != [] {
      StaysBroken(Receive(c, es[0]), es[1..]);
    }
  }

  lemma {:induction false} ReceiveBoth(c: Client, es: seq<AgUiEvent>, fs: seq<AgUiEvent>)
    ensures ReceiveAll(c, es + fs) == ReceiveAll(ReceiveAll(c, es), fs)
    decreases |es|
  {
    if es == [] {
      assert es + fs == fs;
    } else {
      ReceiveBoth(Receive(c, es[0]), es[1..], fs);
      assert (es + fs)[1..] == es[1..] + fs;
    }
  }

  /** Whatever the trace, the client sees the run start and end where the trace has it. */
  lemma {:induction false} StageIsSeen(out: seq<Event>)
    ensures ReceiveAll(Fresh(), ImageOf(out).1).stage == StageOf(out)
    decreases |out|
  {
    hide Image, Receive, StageAt;
    if out != [] {
      var (p, sent) := ImageOf(out[..|out| - 1]);
      StageIsSeen(out[..|out| - 1]);
      ReceiveBoth(Fresh(), sent, Image(p, out[|out| - 1]).1);
      StageSent(ReceiveAll(Fresh(), sent), p, out[|out| - 1]);
    }
  }

  /**
   A bracketed trace becomes a stream that breaks no rule if and only if its tool events are in order
   and it is one run, from its start to its end.
   */
  lemma ImageFollowsRules(out: seq<Event>)
    requires ScanOf(out).ok
    ensures var c := ReceiveAll(Fresh(), ImageOf(out).1);
      && (Follows(c) <==> ToolsOf(out).ok && !StageOf(out).Broken?)
      && (Follows(c) ==> Matches(ScanOf(out), ToolsOf(out), ImageOf(out).0, c))
  {
    hide Matches, ReceiveAll, ImageOf, ScanOf, ToolsOf, StageOf;
    ImageTracks(out);
    StageIsSeen(out);
  }

  lemma {:induction false} ImageTracks(out: seq<Event>)
    requires ScanOf(out).ok
    ensures var (p, sent) := ImageOf(out);
      var c := ReceiveAll(Fresh(), sent);
      (c.ok <==> ToolsOf(out).ok) && (c.ok ==> Matches(ScanOf(out), ToolsOf(out), p, c))
    decreases |out|
  {
    hide Matches, Advance, ToolStep, Image, Receive;
    if out == [] {
      EmptyMatches();
    } else {
      var prefix, e := out[..|out| - 1], out[|out| - 1];
      OkBefore(ScanOf(prefix), e);
      ImageTracks(prefix);
      var (p, sent) := ImageOf(prefix);
      var (q, more) := Image(p, e);
      ReceiveBoth(Fresh(), sent, more);
      var c, s, t := ReceiveAll(Fresh(), sent), ScanOf(prefix), ToolsOf(prefix);
      if !c.ok {
        StaysBroken(c, more);
        ToolsStayBroken(t, e);
      } else if IsTool(e) {
        ToolEventStep(s, t, p, c, e);
      } else if IsTerminal(e) {
        EndStep(s, t, p, c, e);
      } else {
        SequenceStep(s, t, p, c, e);
        ToolsUntouched(t, e);
      }
    }
  }

  lemma EmptyMatches()
    ensures Matches(ScanOf([]), ToolsOf([]), ImageOf([]).0, ReceiveAll(Fresh(), ImageOf([]).1))
  {
  }

  lemma OkBefore(s: Scan, e: Event)
    requires Advance(s, e).ok
    ensures s.ok
  {
  }

  lemma ToolsStayBroken(t: Tools, e: Event)
    ensures !t.ok ==> !ToolStep(t, e).ok
  {
  }

  lemma ToolsUntouched(t: Tools, e: Event)
    requires !IsTool(e) && !IsTerminal(e)
    ensures ToolStep(t, e) == t
  {
  }

  /** Once its run is over a stream that follows the rules has no call open. */
  lemma {:induction false} OverHasNoCalls(out: seq<Event>)
    requires ToolsOf(out).ok && StageOf(out).Over?
    ensures NoCalls(ToolsOf(out))
    decreases |out|
  {
    var before, e := out[..|out| - 1], out[|out| - 1];
    ToolsStayBroken(ToolsOf(before), e);
    if !IsTerminal(e) {
      OverHasNoCalls(before);
    }
  }

  /** The id a run-level event carries, if it is one. */
  function RunIdOf(e: AgUiEvent): Option<Id> {
    match e
    case RunStarted(_, run, _) => Some(run)
    case RunFinished(_, run, _) => Some(run)
    case _ => None
  }

  /** Once pinned, the run id stays, and every run-level event carries it. */
  lemma PinnedStays(p: Pins, e: Event)
    requires p.runId.Some?
    ensures Image(p, e).0.runId == p.runId
    ensures forall i | 0 <= i < |Image(p, e).1| :: RunIdOf(Image(p, e).1[i]).Some? ==>
      RunIdOf(Image(p, e).1[i]) == p.runId
  {
  }

  /** Whatever the trace, once a run id is pinned every run-level event carries it. */
  lemma {:induction false} OneRunId(out: seq<Event>, k: nat)
    requires k <= |out| && ImageOf(out[..k]).0.runId.Some?
    ensures ImageOf(out).0.runId == ImageOf(out[..k]).0.runId
    ensures ImageOf(out[..k]).1 <= ImageOf(out).1
    ensures forall i | |ImageOf(out[..k]).1| <= i < |ImageOf(out).1| ::
      RunIdOf(ImageOf(out).1[i]).Some? ==> RunIdOf(ImageOf(out).1[i]) == ImageOf(out[..k]).0.runId
    decreases |out|
  {
    hide Image, RunIdOf;
    if k == |out| {
      assert out[..k] == out;
    } else {
      var prefix, e := out[..|out| - 1], out[|out| - 1];
      assert prefix[..k] == out[..k];
      OneRunId(prefix, k);
      var (p, sent) := ImageOf(prefix);
      PinnedStays(p, e);
      var more := Image(p, e).1;
      assert ImageOf(out).1 == sent + more;
      forall i | |ImageOf(out[..k]).1| <= i < |sent + more|
        ensures RunIdOf((sent + more)[i]).Some? ==> RunIdOf((sent + more)[i]) == ImageOf(out[..k]).0.runId
      {
        if i < |sent| { assert (sent + more)[i] == sent[i]; } else { assert (sent + more)[i] == more[i - |sent|]; }
      }
    }
  }

  /** A call started without a name is never announced, so its end is an end without a start. */
  lemma UnnamedToolBreaksRules()
    ensures var tool := Some(ToolInfo(Some("t"), None, None, None));
      var out := [ToolCallStartedEvent(tool, None, None), ToolCallCompletedEvent(tool, None, None, None)];
      ScanOf(out).ok && !ReceiveAll(Fresh(), ImageOf(out).1).ok
  {
    var tool := Some(ToolInfo(Some("t"), None, None, None));
    var out := [ToolCallStartedEvent(tool, None, None), ToolCallCompletedEvent(tool, None, None, None)];
    assert out[..1] == [out[0]] && out[..1][..0] == [];
    assert ToolsOf([]) == Tools(true, {}, {}, false) && ToolsOf(out[..1]) == ToolStep(ToolsOf([]), out[0]);
    assert ScanOf(out[..1]).ok && ToolsOf(out[..1]).open == {};
    ImageTracks(out);
  }
}
