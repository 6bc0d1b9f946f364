/** What the end of a run emits: which events, in which order, and that it leaves nothing to close. */
module Closings {
  import opened Wrappers
  import opened AgentEvents
  import opened OrderedDict
  import opened Sequences
  import opened StreamSpec
  import opened Brackets
  import opened Lifecycle

  function MessageClosing(a: State, key: string): Event {
    if key in a.messages.vals
    then TextMessageCompletedEvent(a.messages.vals[key].id, SubagentOf(a, key), Some(a.messages.vals[key].meta))
    else RunStartedEvent(None, None, None)
  }

  function ReasoningClosing(a: State, key: string): Event {
    if key in a.reasonings.vals
    then ReasoningCompletedEvent(a.reasonings.vals[key].id, SubagentOf(a, key), Some(a.reasonings.vals[key].meta))
    else RunStartedEvent(None, None, None)
  }

  function SubagentClosing(a: State, run: string): Event {
    SubagentFinishedEvent(run, None, if run in a.subagents.vals then Some(a.subagents.vals[run].meta) else None)
  }

  /** The closings of the listed messages, the last listed first. */
  function MessageClosings(a: State, keys: seq<string>): seq<Event> {
    if keys == [] then [] else [MessageClosing(a, keys[|keys| - 1])] + MessageClosings(a, keys[..|keys| - 1])
  }

  lemma MessageClosingsSame(a: State, b: State, keys: seq<string>)
    requires forall k | k in keys :: MessageClosing(a, k) == MessageClosing(b, k)
    ensures MessageClosings(a, keys) == MessageClosings(b, keys)
  {
    if keys != [] {
      MessageClosingsSame(a, b, keys[..|keys| - 1]);
    }
  }

  lemma {:induction false} CloseContentsEmits(a: State, keys: seq<string>)
    requires Distinct(keys) && forall k | k in keys :: k in a.messages.vals
    ensures var b := CloseContents(a, keys);
      b.out == a.out + MessageClosings(a, keys) && b.reasonings == a.reasonings && b.subagents == a.subagents
    decreases |keys|
  {
    if keys != [] {
      var last, rest := keys[|keys| - 1], keys[..|keys| - 1];
      var b := CloseContent(a, last);
      assert b.messages.vals == a.messages.vals - {last} && b.out == a.out + [MessageClosing(a, last)];
      forall k | k in rest ensures k in b.messages.vals && MessageClosing(a, k) == MessageClosing(b, k) {
        assert k != last;
      }
      CloseContentsEmits(b, rest);
      MessageClosingsSame(a, b, rest);
      Associate(a.out, [MessageClosing(a, last)], MessageClosings(a, rest));
    }
  }

  /** The closings of the listed reasonings, the last listed first. */
  function ReasoningClosings(a: State, keys: seq<string>): seq<Event> {
    if keys == [] then [] else [ReasoningClosing(a, keys[|keys| - 1])] + ReasoningClosings(a, keys[..|keys| - 1])
  }

  lemma ReasoningClosingsSame(a: State, b: State, keys: seq<string>)
    requires forall k | k in keys :: ReasoningClosing(a, k) == ReasoningClosing(b, k)
    ensures ReasoningClosings(a, keys) == ReasoningClosings(b, keys)
  {
    if keys != [] {
      ReasoningClosingsSame(a, b, keys[..|keys| - 1]);
    }
  }

  lemma {:induction false} CloseReasoningsEmits(a: State, keys: seq<string>)
    requires Distinct(keys) && forall k | k in keys :: k in a.reasonings.vals
    ensures var b := CloseReasonings(a, keys);
      b.out == a.out + ReasoningClosings(a, keys) && b.subagents == a.subagents
    decreases |keys|
  {
    if keys != [] {
      var last, rest := keys[|keys| - 1], keys[..|keys| - 1];
      var b := CloseReasoning(a, last);
      assert b.reasonings.vals == a.reasonings.vals - {last} && b.out == a.out + [ReasoningClosing(a, last)];
      forall k | k in rest ensures k in b.reasonings.vals && ReasoningClosing(a, k) == ReasoningClosing(b, k) {
        assert k != last;
      }
      CloseReasoningsEmits(b, rest);
      ReasoningClosingsSame(a, b, rest);
      Associate(a.out, [ReasoningClosing(a, last)], ReasoningClosings(a, rest));
    }
  }

  /** The closings of the listed delegations, the last listed first. */
  function SubagentClosings(a: State, keys: seq<string>): seq<Event> {
    if keys == [] then [] else [SubagentClosing(a, keys[|keys| - 1])] + SubagentClosings(a, keys[..|keys| - 1])
  }

  lemma SubagentClosingsSame(a: State, b: State, keys: seq<string>)
    requires forall k | k in keys :: SubagentClosing(a, k) == SubagentClosing(b, k)
    ensures SubagentClosings(a, keys) == SubagentClosings(b, keys)
  {
    if keys != [] {
      SubagentClosingsSame(a, b, keys[..|keys| - 1]);
    }
  }

  lemma {:induction false} FinishSubagentsEmits(a: State, keys: seq<string>)
    requires Distinct(keys) && forall k | k in keys :: k in a.subagents.vals
    ensures var b := FinishSubagents(a, keys);
      b.out == a.out + SubagentClosings(a, keys)
    decreases |keys|
  {
    if keys != [] {
      var last, rest := keys[|keys| - 1], keys[..|keys| - 1];
      var b := CloseSubagent(a, last, SubagentClosing(a, last));
      assert b.subagents.vals == a.subagents.vals - {last} && b.out == a.out + [SubagentClosing(a, last)];
      forall k | k in rest ensures k in b.subagents.vals && SubagentClosing(a, k) == SubagentClosing(b, k) {
        assert k != last;
      }
      FinishSubagentsEmits(b, rest);
      SubagentClosingsSame(a, b, rest);
      Associate(a.out, [SubagentClosing(a, last)], SubagentClosings(a, rest));
    }
  }

  /** One closing per open message, then per open reasoning, then per delegation; newest first in each group. */
  function EndOfRun(a: State): seq<Event> {
    MessageClosings(a, a.messages.order) + ReasoningClosings(a, a.reasonings.order)
      + SubagentClosings(a, a.subagents.order)
  }

  lemma CloseEverythingEmits(a: State)
    requires Base(a)
    ensures Closed(CloseEverything(a)) && CloseEverything(a).out == a.out + EndOfRun(a)
  {
    hide Ids, Good, Doomed;
    CloseEverythingKeeps(a);
    var b := CloseAllContent(a);
    var c := CloseAllReasoning(b);
    CloseContentsEmits(a, a.messages.order);
    CloseReasoningsEmits(b, a.reasonings.order);
    FinishSubagentsEmits(c, a.subagents.order);
    ReasoningClosingsSame(a, b, a.reasonings.order);
    SubagentClosingsSame(a, c, a.subagents.order);
    var m, r, d := MessageClosings(a, a.messages.order), ReasoningClosings(a, a.reasonings.order),
      SubagentClosings(a, a.subagents.order);
    Associate(a.out, m, r);
    Associate(a.out, m + r, d);
  }

  /** Once everything is closed, closing again emits nothing and changes nothing. */
  lemma FlushTwice(a: State)
    requires Base(a)
    ensures Flush(Flush(a)) == Flush(a)
  {
    CloseEverythingKeeps(a);
  }

  /** The inputs that end the top-level run. */
  predicate EndsRun(a: State, ev: AgnoEvent) {
    || (ev.kind.RunCompleted? && !Truthy(ev.parentRunId)
        && !(Truthy(ev.runId) && ev.runId.value in a.completed && ev.runId != a.active))
    || (ev.kind.RunError? && !(Truthy(ev.runId) && ev.runId.value in a.subagents.vals))
  }

  predicate IsTerminal(e: Event) {
    e.RunCompletedEvent? || e.RunErrorEvent?
  }

  /** Whatever came before, the end of the run closes everything and then says so. */
  lemma RunEndsClosed(a: State, ev: AgnoEvent)
    requires Base(a) && EndsRun(a, ev)
    ensures var b := Step(a, ev);
      && Closed(b) && b.out != []
      && IsTerminal(b.out[|b.out| - 1])
      && b.out[..|b.out| - 1] == a.out + EndOfRun(a)
  {
    hide Base, Good, Doomed;
    CloseEverythingEmits(a);
  }

  lemma {:induction false} SubagentClosingAt(a: State, runs: seq<string>, i: nat)
    requires i < |runs|
    ensures |SubagentClosings(a, runs)| == |runs|
    ensures SubagentClosings(a, runs)[i] == SubagentClosing(a, runs[|runs| - 1 - i])
  {
    if |runs| > 1 {
      SubagentClosingAt(a, runs[..|runs| - 1], if i > 0 then i - 1 else 0);
    }
  }

  /** Delegations are force-closed newest first, and none before one that it owns. */
  lemma ForceCloseInnermostFirst(a: State, i: nat, j: nat)
    requires Base(a) && Good(a) && i < j < |a.subagents.order|
    ensures var closings, owner := SubagentClosings(a, a.subagents.order), ScanOf(a.out).subagents;
      && |closings| == |a.subagents.order|
      && closings[i].SubagentFinishedEvent? && closings[j].SubagentFinishedEvent?
      && closings[j].childRunId in owner
      && owner[closings[j].childRunId] != Some(closings[i].childRunId)
  {
    hide Ids, Doomed, InStep;
    var order := a.subagents.order;
    SubagentClosingAt(a, order, i);
    SubagentClosingAt(a, order, j);
    assert order[|order| - 1 - j] in a.subagents.vals;
  }

  // ── The three inputs that break the rules ──

  function Plain(kind: AgnoKind, run: string): AgnoEvent {
    AgnoEvent(kind, Some(run), None, false, None, None, None, None)
  }

  function Nested(kind: AgnoKind, run: string, parent: string): AgnoEvent {
    Plain(kind, run).(parentRunId := Some(parent))
  }

  /** Two reasoning starts in a row: the first sequence is never closed. */
  lemma ReasoningStartedTwice()
    ensures !Balanced(Flush(Run([Plain(ReasoningStarted, "r"), Plain(ReasoningStarted, "r")])).out)
  {
    var evs := [Plain(ReasoningStarted, "r"), Plain(ReasoningStarted, "r")];
    assert evs[..1] == [Plain(ReasoningStarted, "r")] && evs[..1][..0] == [];
    assert Run(evs[..1]) == Step(Init(), evs[0]);
    assert !Orderly(Run(evs[..1]), evs[1]);
    BalancedIffOrderly(evs);
  }

  /** A reasoning delta with nothing open: its event names no sequence. */
  lemma ReasoningDeltaAlone()
    ensures !Balanced(Flush(Run([Plain(ReasoningContentDelta(Some("x")), "r")])).out)
  {
    var evs := [Plain(ReasoningContentDelta(Some("x")), "r")];
    assert evs[..0] == [];
    assert !Orderly(Init(), evs[0]);
    BalancedIffOrderly(evs);
  }

  /** One nested run started twice while in flight: two delegations open under one id. */
  lemma NestedRunStartedTwice()
    ensures !Balanced(Flush(Run([Nested(RunStarted(None), "c", "p"), Nested(RunStarted(None), "c", "p")])).out)
  {
    var start := Nested(RunStarted(None), "c", "p");
    var evs := [start, start];
    assert evs[..1] == [start] && evs[..1][..0] == [];
    var a := Step(Init(), start);
    assert Run(evs[..1]) == a;
    assert "c" in ScanOf(a.out).started by {
      assert a.out[..0] == [];
    }
    assert !Orderly(a, start);
    BalancedIffOrderly(evs);
  }

  /** A nested run that speaks before it is announced: its message opens for nobody and closes for it. */
  lemma NestedRunSpeaksFirst()
    ensures !Balanced(Flush(Run([Plain(RunContent(None, Some("x")), "c"), Nested(RunStarted(None), "c", "p")])).out)
  {
    var evs := [Plain(RunContent(None, Some("x")), "c"), Nested(RunStarted(None), "c", "p")];
    assert evs[..1] == [evs[0]] && evs[..1][..0] == [];
    var a := Step(Init(), evs[0]);
    assert Run(evs[..1]) == a;
    assert "c" in a.messages.vals;
    assert !Orderly(a, evs[1]);
    BalancedIffOrderly(evs);
  }
}
