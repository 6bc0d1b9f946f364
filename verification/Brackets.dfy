/**
 What it means for a trace to be well bracketed, said of the trace alone, and the exact condition
 on the input under which the adapter produces such a trace.
 */
module Brackets {
  import opened Wrappers
  import opened AgentEvents
  import opened OrderedDict
  import opened StreamSpec

  // ── The bracket rules ──

  /** How a sequence was opened: on whose behalf, and with which metadata if any was announced. */
  datatype Tag = Tag(subagent: Option<string>, meta: Option<Metadata>)

  /** What a reader of the trace knows. `subagents` maps an open delegation to the one that owns it. */
  datatype Scan = Scan(
    ok: bool, messages: map<nat, Tag>, reasonings: map<nat, Tag>, used: set<nat>,
    subagents: map<string, Option<string>>, started: set<string>)

  predicate Attributed(s: Scan, subagent: Option<string>) {
    subagent.Some? ==> subagent.value in s.subagents
  }

  predicate Closes(open: map<nat, Tag>, id: nat, subagent: Option<string>, meta: Option<Metadata>) {
    && id in open
    && open[id].subagent == subagent
    && (open[id].meta.Some? ==> open[id].meta == meta)
  }

  predicate NoneOwnedBy(open: map<nat, Tag>, run: string) {
    forall id | id in open :: open[id].subagent != Some(run)
  }

  function EndSubagent(s: Scan, run: string): Scan {
    s.(ok := s.ok && run in s.subagents && NoneOwnedBy(s.messages, run) && NoneOwnedBy(s.reasonings, run),
       subagents := s.subagents - {run})
  }

  predicate NothingOpen(s: Scan) {
    s.messages == map[] && s.reasonings == map[] && s.subagents == map[]
  }

  /**
   One event read. Sequences open under an id never seen before, carry content only while open and
   only for the delegation they were opened for, and close once, for that delegation and with the
   opener's metadata. A delegation starts once, ends with nothing of its own left open, and a run
   ends only when nothing at all is open.
   */
  function Advance(s: Scan, e: Event): Scan {
    match e
    case TextMessageStartedEvent(id, _, sub, meta) =>
      s.(ok := s.ok && id !in s.used && Attributed(s, sub), messages := s.messages[id := Tag(sub, meta)],
        used := s.used + {id})
    case RunContentEvent(id, _, sub, _) =>
      s.(ok := s.ok && id in s.messages && s.messages[id].subagent == sub)
    case TextMessageCompletedEvent(id, sub, meta) =>
      s.(ok := s.ok && Closes(s.messages, id, sub, meta), messages := s.messages - {id})
    case ReasoningStartedEvent(id, sub, meta) =>
      s.(ok := s.ok && id !in s.used && Attributed(s, sub), reasonings := s.reasonings[id := Tag(sub, meta)],
        used := s.used + {id})
    case ReasoningContentDeltaEvent(id, _, sub, _) =>
      s.(ok := s.ok && id.Some? && id.value in s.reasonings && s.reasonings[id.value].subagent == sub)
    case ReasoningStepEvent(id, _, sub, _) =>
      s.(ok := s.ok && id.Some? && id.value in s.reasonings && s.reasonings[id.value].subagent == sub)
    case ReasoningCompletedEvent(id, sub, meta) =>
      s.(ok := s.ok && Closes(s.reasonings, id, sub, meta), reasonings := s.reasonings - {id})
    case SubagentStartedEvent(run, _, parent, _, _) =>
      var open := s.subagents[run := parent];
      s.(ok := s.ok && run !in s.started
        && (parent.Some? ==> parent.value in open), subagents := open, started := s.started + {run})
    case SubagentFinishedEvent(run, _, _) => EndSubagent(s, run)
    case SubagentErrorEvent(run, _, _, _) => EndSubagent(s, run)
    case ToolCallStartedEvent(_, sub, _) => s.(ok := s.ok && Attributed(s, sub))
    case ToolCallCompletedEvent(_, _, sub, _) => s.(ok := s.ok && Attributed(s, sub))
    case ToolCallErrorEvent(_, _, sub, _) => s.(ok := s.ok && Attributed(s, sub))
    case RunStartedEvent(_, _, _) => s
    case RunCompletedEvent(_, _, _) => s.(ok := s.ok && NothingOpen(s))
    case RunErrorEvent(_, _, _) => s.(ok := s.ok && NothingOpen(s))
    case CustomEvent(_, _) => s
  }

  function ScanOf(out: seq<Event>): Scan {
    if out == [] then Scan(true, map[], map[], {}, map[], {})
    else Advance(ScanOf(out[..|out| - 1]), out[|out| - 1])
  }

  /** Every bracket rule holds and everything opened was closed. */
  predicate Balanced(out: seq<Event>) {
    ScanOf(out).ok && NothingOpen(ScanOf(out))
  }

  // ── The condition on the input ──

  /**
   The three inputs that break the rules, as guards on the branch that lets them through: a
   reasoning started over an open one, a reasoning delta with none open, and a nested run started
   for a run that was delegated before or that already has output of its own open.
   */
  predicate Orderly(a: State, ev: AgnoEvent) {
    var key := RunKey(a, ev);
    match ev.kind
    case ReasoningStarted => key !in a.reasonings.vals
    case ReasoningContentDelta(_) => key in a.reasonings.vals
    case RunStarted(_) =>
      Truthy(ev.parentRunId) && Truthy(ev.runId) ==>
        && ev.runId.value !in ScanOf(a.out).started
        && (ev.runId == ev.parentRunId || (ev.runId.value !in a.messages.vals && ev.runId.value !in a.reasonings.vals))
    case _ => true
  }

  predicate AllOrderly(evs: seq<AgnoEvent>) {
    evs == [] || (AllOrderly(evs[..|evs| - 1]) && Orderly(Run(evs[..|evs| - 1]), evs[|evs| - 1]))
  }

  // ── What every state keeps ──

  ghost predicate DistinctIds(t: map<string, Slot>, next: nat) {
    && (forall k | k in t :: t[k].id < next)
    && (forall j, k | j in t && k in t && j != k :: t[j].id != t[k].id)
  }

  /** Every slot of the table is open in the trace. */
  ghost predicate Shown(t: map<string, Slot>, open: map<nat, Tag>) {
    forall k | k in t :: t[k].id in open
  }

  ghost predicate Ordered(a: State) {
    Valid(a.messages) && Valid(a.reasonings) && Valid(a.subagents)
  }

  /** Ids are fresh and distinct, and no run holds both a message and a reasoning. */
  ghost predicate Ids(a: State) {
    && DistinctIds(a.messages.vals, a.next) && DistinctIds(a.reasonings.vals, a.next)
    && a.messages.vals.Keys !! a.reasonings.vals.Keys
    && (var s := ScanOf(a.out);
        && (forall id | id in s.used :: id < a.next)
        && (forall id | id in s.messages :: id < a.next)
        && (forall id | id in s.reasonings :: id < a.next)
        && Shown(a.messages.vals, s.messages) && Shown(a.reasonings.vals, s.reasonings))
  }

  /** Kept by every input, orderly or not. */
  ghost predicate Base(a: State) {
    Ordered(a) && Ids(a)
  }

  /** The open ids of the trace are exactly those of the table, each opened for its own run. */
  ghost predicate InStep(t: map<string, Slot>, open: map<nat, Tag>, subs: set<string>) {
    && (forall k | k in t ::
          && t[k].id in open
          && open[t[k].id].subagent == (if k in subs then Some(k) else None)
          && (open[t[k].id].meta.Some? ==> open[t[k].id].meta == Some(t[k].meta)))
    && (forall id | id in open :: exists k :: k in t && t[k].id == id)
  }

  /** A delegation stands after the one that owns it, and owners are delegations that were started. */
  ghost predicate OwnersFirst(owner: map<string, Option<string>>, order: seq<string>, started: set<string>) {
    && (forall r | r in owner :: owner[r].Some? ==> owner[r].value in started)
    && (forall i, j | 0 <= i < |order| && 0 <= j < |order| && order[i] in owner ::
      owner[order[i]] == Some(order[j]) ==> j <= i)
  }

  /** The trace so far breaks no rule and shows open exactly what the tables hold. */
  ghost predicate Good(a: State) {
    var s := ScanOf(a.out);
    && s.ok
    && s.subagents.Keys == a.subagents.vals.Keys
    && s.subagents.Keys <= s.started
    && OwnersFirst(s.subagents, a.subagents.order, s.started)
    && InStep(a.messages.vals, s.messages, s.subagents.Keys)
    && InStep(a.reasonings.vals, s.reasonings, s.subagents.Keys)
  }

  /** An id the trace shows open that no slot will ever close. */
  ghost predicate Leaks(t: map<string, Slot>, open: map<nat, Tag>) {
    exists id :: id in open && forall k | k in t :: t[k].id != id
  }

  /** A slot of a delegated run that the trace does not show open for that delegation. */
  ghost predicate Mixes(t: map<string, Slot>, open: map<nat, Tag>, subs: set<string>) {
    exists k :: k in t && k in subs && t[k].id in open && open[t[k].id].subagent != Some(k)
  }

  ghost predicate Flawed(t: map<string, Slot>, open: map<nat, Tag>, subs: set<string>) {
    Leaks(t, open) || Mixes(t, open, subs)
  }

  /** A state from which no continuation is balanced. */
  ghost predicate Doomed(a: State) {
    var s := ScanOf(a.out);
    || !s.ok
    || Flawed(a.messages.vals, s.messages, a.subagents.vals.Keys)
    || Flawed(a.reasonings.vals, s.reasonings, a.subagents.vals.Keys)
  }

  ghost predicate Keeps(a: State, b: State) {
    Base(b) && (Good(a) ==> Good(b)) && (Doomed(a) ==> Doomed(b))
  }

  lemma ScanEmit(a: State, e: Event)
    ensures ScanOf(Emit(a, e).out) == Advance(ScanOf(a.out), e)
  {
    assert (a.out + [e])[..|a.out|] == a.out;
  }

  /** Events that neither open nor close a sequence or a delegation. */
  predicate Inner(e: Event) {
    || e.RunContentEvent? || e.ReasoningContentDeltaEvent? || e.ReasoningStepEvent?
    || e.ToolCallStartedEvent? || e.ToolCallCompletedEvent? || e.ToolCallErrorEvent?
    || e.RunStartedEvent? || e.RunCompletedEvent? || e.RunErrorEvent? || e.CustomEvent?
  }

  lemma InnerKeeps(a: State, e: Event)
    requires Base(a) && Inner(e)
    requires Good(a) ==> Advance(ScanOf(a.out), e).ok
    ensures Keeps(a, Emit(a, e))
  {
    ScanEmit(a, e);
    InnerScan(ScanOf(a.out), e);
    hide Advance, ScanOf;
  }

  lemma InnerScan(s: Scan, e: Event)
    requires Inner(e)
    ensures Advance(s, e) == s.(ok := Advance(s, e).ok) && (Advance(s, e).ok ==> s.ok)
  {
  }

  /** Closing one slot as the rules allow leaves every other flaw in place. */
  lemma FlawSurvivesClose(t: map<string, Slot>, open: map<nat, Tag>, subs: set<string>, key: string, next: nat)
    requires DistinctIds(t, next) && key in t
    requires Closes(open, t[key].id, if key in subs then Some(key) else None, Some(t[key].meta))
    ensures Flawed(t, open, subs) ==> Flawed(t - {key}, open - {t[key].id}, subs)
  {
    if Leaks(t, open) {
      var id :| id in open && forall k | k in t :: t[k].id != id;
      assert id in open - {t[key].id};
    }
    if Mixes(t, open, subs) {
      var k :| k in t && k in subs && t[k].id in open && open[t[k].id].subagent != Some(k);
      assert k in t - {key};
    }
  }

  lemma CloseSlot(t: map<string, Slot>, open: map<nat, Tag>, subs: set<string>, key: string, next: nat)
    requires DistinctIds(t, next) && key in t && InStep(t, open, subs)
    ensures InStep(t - {key}, open - {t[key].id}, subs)
  {
  }

  lemma CloseContentScan(a: State, key: string) returns (b: State, s: Scan, s': Scan)
    requires key in a.messages.vals
    ensures b == CloseContent(a, key) && s == ScanOf(a.out) && s' == ScanOf(b.out)
    ensures b.messages.vals == a.messages.vals - {key} && b.reasonings == a.reasonings && b.subagents == a.subagents
      && b.next == a.next
    ensures s'.messages == s.messages - {a.messages.vals[key].id} && s'.reasonings == s.reasonings
    ensures s'.used == s.used && s'.subagents == s.subagents && s'.started == s.started
    ensures s'.ok == (s.ok && Closes(s.messages, a.messages.vals[key].id, SubagentOf(a, key),
      Some(a.messages.vals[key].meta)))
  {
    b, s := CloseContent(a, key), ScanOf(a.out);
    s' := ScanOf(b.out);
    ScanEmit(a.(messages := Pop(a.messages, key)),
      TextMessageCompletedEvent(a.messages.vals[key].id, SubagentOf(a, key), Some(a.messages.vals[key].meta)));
  }

  lemma CloseContentIds(a: State, key: string)
    requires Ids(a)
    ensures Ids(CloseContent(a, key)) && key !in CloseContent(a, key).messages.vals
  {
    if key in a.messages.vals {
      var b, s, s' := CloseContentScan(a, key);
    }
  }

  lemma CloseContentBase(a: State, key: string)
    requires Base(a)
    ensures Base(CloseContent(a, key)) && key !in CloseContent(a, key).messages.vals
  {
    CloseContentIds(a, key);
    PopValid(a.messages, key);
  }

  lemma CloseContentGood(a: State, key: string)
    requires Ids(a) && Good(a)
    ensures Good(CloseContent(a, key))
  {
    if key in a.messages.vals {
      var b, s, s' := CloseContentScan(a, key);
      CloseSlot(a.messages.vals, s.messages, a.subagents.vals.Keys, key, a.next);
    }
  }

  lemma CloseContentDoomed(a: State, key: string)
    requires Ids(a) && Doomed(a)
    ensures Doomed(CloseContent(a, key))
  {
    if key in a.messages.vals {
      var b, s, s' := CloseContentScan(a, key);
      var t, open, subs := a.messages.vals, s.messages, a.subagents.vals.Keys;
      if Closes(open, t[key].id, SubagentOf(a, key), Some(t[key].meta)) {
        FlawSurvivesClose(t, open, subs, key, a.next);
      }
    }
  }

  lemma CloseReasoningScan(a: State, key: string) returns (b: State, s: Scan, s': Scan)
    requires key in a.reasonings.vals
    ensures b == CloseReasoning(a, key) && s == ScanOf(a.out) && s' == ScanOf(b.out)
    ensures b.reasonings.vals == a.reasonings.vals - {key} && b.messages == a.messages && b.subagents == a.subagents
      && b.next == a.next
    ensures s'.reasonings == s.reasonings - {a.reasonings.vals[key].id} && s'.messages == s.messages
    ensures s'.used == s.used && s'.subagents == s.subagents && s'.started == s.started
    ensures s'.ok == (s.ok && Closes(s.reasonings, a.reasonings.vals[key].id, SubagentOf(a, key),
      Some(a.reasonings.vals[key].meta)))
  {
    b, s := CloseReasoning(a, key), ScanOf(a.out);
    s' := ScanOf(b.out);
    ScanEmit(a.(reasonings := Pop(a.reasonings, key)),
      ReasoningCompletedEvent(a.reasonings.vals[key].id, SubagentOf(a, key), Some(a.reasonings.vals[key].meta)));
  }

  lemma CloseReasoningIds(a: State, key: string)
    requires Ids(a)
    ensures Ids(CloseReasoning(a, key)) && key !in CloseReasoning(a, key).reasonings.vals
  {
    if key in a.reasonings.vals {
      var b, s, s' := CloseReasoningScan(a, key);
    }
  }

  lemma CloseReasoningBase(a: State, key: string)
    requires Base(a)
    ensures Base(CloseReasoning(a, key)) && key !in CloseReasoning(a, key).reasonings.vals
  {
    CloseReasoningIds(a, key);
    PopValid(a.reasonings, key);
  }

  lemma CloseReasoningGood(a: State, key: string)
    requires Ids(a) && Good(a)
    ensures Good(CloseReasoning(a, key))
  {
    if key in a.reasonings.vals {
      var b, s, s' := CloseReasoningScan(a, key);
      CloseSlot(a.reasonings.vals, s.reasonings, a.subagents.vals.Keys, key, a.next);
    }
  }

  lemma CloseReasoningDoomed(a: State, key: string)
    requires Ids(a) && Doomed(a)
    ensures Doomed(CloseReasoning(a, key))
  {
    if key in a.reasonings.vals {
      var b, s, s' := CloseReasoningScan(a, key);
      var t, open, subs := a.reasonings.vals, s.reasonings, a.subagents.vals.Keys;
      if Closes(open, t[key].id, SubagentOf(a, key), Some(t[key].meta)) {
        FlawSurvivesClose(t, open, subs, key, a.next);
      }
    }
  }

  // ── Opening a sequence ──

  function OwnTag(key: string, subs: set<string>, announced: Option<Metadata>): Tag {
    Tag(if key in subs then Some(key) else None, announced)
  }

  lemma OpenSlot(t: map<string, Slot>, open: map<nat, Tag>, subs: set<string>, key: string, slot: Slot,
      announced: Option<Metadata>)
    requires DistinctIds(t, slot.id) && InStep(t, open, subs) && slot.id !in open && key !in t
    requires announced.Some? ==> announced == Some(slot.meta)
    ensures InStep(t[key := slot], open[slot.id := OwnTag(key, subs, announced)], subs)
  {
    var t', open' := t[key := slot], open[slot.id := OwnTag(key, subs, announced)];
    forall id | id in open' ensures exists k :: k in t' && t'[k].id == id {
      if id == slot.id {
        assert t'[key].id == id;
      } else {
        var k :| k in t && t[k].id == id;
        assert t'[k].id == id;
      }
    }
  }

  /** Opening never repairs a flaw: an overwritten slot turns a mix into a leak. */
  lemma FlawSurvivesOpen(t: map<string, Slot>, open: map<nat, Tag>, subs: set<string>, key: string, slot: Slot,
      tag: Tag)
    requires DistinctIds(t, slot.id) && Shown(t, open) && (forall id | id in open :: id < slot.id)
    ensures Flawed(t, open, subs) || key in t ==> Flawed(t[key := slot], open[slot.id := tag], subs)
  {
    var t', open' := t[key := slot], open[slot.id := tag];
    if Leaks(t, open) {
      var id :| id in open && forall k | k in t :: t[k].id != id;
      assert id in open' && forall k | k in t' :: t'[k].id != id;
    }
    if key in t {
      assert t[key].id in open' && forall k | k in t' :: t'[k].id != t[key].id;
    }
    if Mixes(t, open, subs) {
      var k :| k in t && k in subs && t[k].id in open && open[t[k].id].subagent != Some(k);
      if k != key {
        assert k in t' && k in subs && t'[k].id in open' && open'[t'[k].id].subagent != Some(k);
      }
    }
  }

  lemma OpenContentScan(a: State, key: string, meta: Metadata) returns (b: State, s: Scan, s': Scan)
    ensures b == OpenContent(a, key, meta) && s == ScanOf(a.out) && s' == ScanOf(b.out)
    ensures b.messages.vals == a.messages.vals[key := Slot(a.next, meta)] && b.reasonings == a.reasonings
    ensures b.subagents == a.subagents && b.next == a.next + 1
    ensures s'.messages == s.messages[a.next := OwnTag(key, a.subagents.vals.Keys, Some(meta))]
      && s'.reasonings == s.reasonings
    ensures s'.used == s.used + {a.next} && s'.subagents == s.subagents && s'.started == s.started
    ensures s'.ok == (s.ok && a.next !in s.used && Attributed(s, SubagentOf(a, key)))
  {
    var name := if Truthy(meta.parentRunId) then meta.name else None;
    b, s := OpenContent(a, key, meta), ScanOf(a.out);
    s' := ScanOf(b.out);
    ScanEmit(a.(messages := Put(a.messages, key, Slot(a.next, meta)), next := a.next + 1),
      TextMessageStartedEvent(a.next, name, SubagentOf(a, key), Some(meta)));
  }

  lemma OpenContentIds(a: State, key: string, meta: Metadata)
    requires Ids(a) && key !in a.reasonings.vals && key !in a.messages.vals
    ensures Ids(OpenContent(a, key, meta))
  {
    var b, s, s' := OpenContentScan(a, key, meta);
  }

  lemma OpenContentBase(a: State, key: string, meta: Metadata)
    requires Base(a) && key !in a.reasonings.vals && key !in a.messages.vals
    ensures Base(OpenContent(a, key, meta))
  {
    OpenContentIds(a, key, meta);
    PutValid(a.messages, key, Slot(a.next, meta));
  }

  lemma OpenContentGood(a: State, key: string, meta: Metadata)
    requires Ids(a) && Good(a) && key !in a.messages.vals
    ensures Good(OpenContent(a, key, meta))
  {
    var b, s, s' := OpenContentScan(a, key, meta);
    OpenSlot(a.messages.vals, s.messages, a.subagents.vals.Keys, key, Slot(a.next, meta), Some(meta));
  }

  lemma OpenContentDoomed(a: State, key: string, meta: Metadata)
    requires Ids(a) && Doomed(a)
    ensures Doomed(OpenContent(a, key, meta))
  {
    var b, s, s' := OpenContentScan(a, key, meta);
    var subs := a.subagents.vals.Keys;
    FlawSurvivesOpen(a.messages.vals, s.messages, subs, key, Slot(a.next, meta), OwnTag(key, subs, Some(meta)));
  }

  lemma OpenReasoningScan(a: State, key: string, meta: Metadata, announced: Option<Metadata>)
      returns (b: State, s: Scan, s': Scan)
    ensures b == OpenReasoning(a, key, meta, announced) && s == ScanOf(a.out) && s' == ScanOf(b.out)
    ensures b.reasonings.vals == a.reasonings.vals[key := Slot(a.next, meta)] && b.messages == a.messages
    ensures b.subagents == a.subagents && b.next == a.next + 1
    ensures s'.reasonings == s.reasonings[a.next := OwnTag(key, a.subagents.vals.Keys, announced)]
      && s'.messages == s.messages
    ensures s'.used == s.used + {a.next} && s'.subagents == s.subagents && s'.started == s.started
    ensures s'.ok == (s.ok && a.next !in s.used && Attributed(s, SubagentOf(a, key)))
  {
    b, s := OpenReasoning(a, key, meta, announced), ScanOf(a.out);
    s' := ScanOf(b.out);
    ScanEmit(a.(reasonings := Put(a.reasonings, key, Slot(a.next, meta)), next := a.next + 1),
      ReasoningStartedEvent(a.next, SubagentOf(a, key), announced));
  }

  lemma OpenReasoningIds(a: State, key: string, meta: Metadata, announced: Option<Metadata>)
    requires Ids(a) && key !in a.messages.vals
    ensures Ids(OpenReasoning(a, key, meta, announced))
  {
    var b, s, s' := OpenReasoningScan(a, key, meta, announced);
  }

  lemma OpenReasoningBase(a: State, key: string, meta: Metadata, announced: Option<Metadata>)
    requires Base(a) && key !in a.messages.vals
    ensures Base(OpenReasoning(a, key, meta, announced))
  {
    OpenReasoningIds(a, key, meta, announced);
    PutValid(a.reasonings, key, Slot(a.next, meta));
  }

  lemma OpenReasoningGood(a: State, key: string, meta: Metadata, announced: Option<Metadata>)
    requires Ids(a) && Good(a) && key !in a.reasonings.vals
    requires announced.Some? ==> announced == Some(meta)
    ensures Good(OpenReasoning(a, key, meta, announced))
  {
    var b, s, s' := OpenReasoningScan(a, key, meta, announced);
    OpenSlot(a.reasonings.vals, s.reasonings, a.subagents.vals.Keys, key, Slot(a.next, meta), announced);
  }

  lemma OpenReasoningDoomed(a: State, key: string, meta: Metadata, announced: Option<Metadata>)
    requires Ids(a) && (Doomed(a) || key in a.reasonings.vals)
    ensures Doomed(OpenReasoning(a, key, meta, announced))
  {
    var b, s, s' := OpenReasoningScan(a, key, meta, announced);
    var subs := a.subagents.vals.Keys;
    FlawSurvivesOpen(a.reasonings.vals, s.reasonings, subs, key, Slot(a.next, meta), OwnTag(key, subs, announced));
  }

  // ── Delegations ──

  predicate Idle(a: State, run: string) {
    run !in a.messages.vals && run !in a.reasonings.vals
  }

  lemma StartSubagentScan(a: State, run: string, parent: string, meta: Metadata) returns (b: State, s: Scan, s': Scan)
    ensures b == StartSubagent(a, run, parent, meta) && s == ScanOf(a.out) && s' == ScanOf(b.out)
    ensures b.messages == a.messages && b.reasonings == a.reasonings && b.next == a.next
    ensures b.subagents.vals.Keys == a.subagents.vals.Keys + {run}
    ensures s'.messages == s.messages && s'.reasonings == s.reasonings && s'.used == s.used
    ensures s'.subagents == s.subagents[run := SubagentOf(b, parent)] && s'.started == s.started + {run}
    ensures run !in a.subagents.vals ==> b.subagents.order == a.subagents.order + [run]
    ensures s'.ok == (s.ok && run !in s.started && (parent in b.subagents.vals ==> parent in s'.subagents))
  {
    var name := if Truthy(meta.name) then meta.name.value else "member";
    var c := a.(subagents := Put(a.subagents, run, Delegation(name, meta)));
    b, s := StartSubagent(a, run, parent, meta), ScanOf(a.out);
    s' := ScanOf(b.out);
    ScanEmit(c, SubagentStartedEvent(run, name, SubagentOf(c, parent), None, Some(meta)));
  }

  lemma StartSubagentBase(a: State, run: string, parent: string, meta: Metadata)
    requires Base(a)
    ensures Base(StartSubagent(a, run, parent, meta))
  {
    assert Ordered(StartSubagent(a, run, parent, meta)) by {
      PutValid(a.subagents, run, Delegation(if Truthy(meta.name) then meta.name.value else "member", meta));
    }
    StartSubagentIds(a, run, parent, meta);
  }

  lemma StartSubagentIds(a: State, run: string, parent: string, meta: Metadata)
    requires Ids(a)
    ensures Ids(StartSubagent(a, run, parent, meta))
  {
    var b, s, s' := StartSubagentScan(a, run, parent, meta);
  }

  lemma OwnersFirstPush(owner: map<string, Option<string>>, order: seq<string>, started: set<string>, run: string,
      p: Option<string>)
    requires OwnersFirst(owner, order, started) && run !in started && run !in order
      && (p.Some? ==> p.value in started + {run})
    ensures OwnersFirst(owner[run := p], order + [run], started + {run})
  {
  }

  lemma StartSubagentGood(a: State, run: string, parent: string, meta: Metadata)
    requires Base(a) && Good(a) && run !in ScanOf(a.out).started && Idle(a, run)
    ensures Good(StartSubagent(a, run, parent, meta))
  {
    hide InStep, OwnersFirst, ScanOf, StartSubagent;
    var b, s, s' := StartSubagentScan(a, run, parent, meta);
    IdleIsAway(a, run);
    OwnersFirstPush(s.subagents, a.subagents.order, s.started, run, SubagentOf(b, parent));
    InStepMore(a.messages.vals, s.messages, a.subagents.vals.Keys, run);
    InStepMore(a.reasonings.vals, s.reasonings, a.subagents.vals.Keys, run);
    assert s'.subagents.Keys == a.subagents.vals.Keys + {run};
  }

  /** A run that is idle, and was never started, is in no table. */
  lemma IdleIsAway(a: State, run: string)
    requires Base(a) && Good(a) && run !in ScanOf(a.out).started && Idle(a, run)
    ensures run !in a.messages.vals && run !in a.reasonings.vals && run !in a.subagents.vals
      && run !in a.subagents.order
  {
    hide InStep, OwnersFirst, Ids;
  }

  lemma InStepMore(t: map<string, Slot>, open: map<nat, Tag>, subs: set<string>, run: string)
    requires InStep(t, open, subs) && run !in t
    ensures InStep(t, open, subs + {run})
  {
  }

  lemma MoreSubagents(t: map<string, Slot>, open: map<nat, Tag>, subs: set<string>, run: string)
    ensures Flawed(t, open, subs) ==> Flawed(t, open, subs + {run})
    ensures InStep(t, open, subs) && run !in subs && run in t ==> Flawed(t, open, subs + {run})
  {
    if Mixes(t, open, subs) {
      var k :| k in t && k in subs && t[k].id in open && open[t[k].id].subagent != Some(k);
      assert k in subs + {run};
    }
    if InStep(t, open, subs) && run !in subs && run in t {
      assert run in subs + {run} && open[t[run].id].subagent != Some(run);
    }
  }

  lemma StartSubagentDoomed(a: State, run: string, parent: string, meta: Metadata)
    requires Ids(a)
    requires Doomed(a) || (Good(a) && (run in ScanOf(a.out).started || !Idle(a, run)))
    ensures Doomed(StartSubagent(a, run, parent, meta))
  {
    var b, s, s' := StartSubagentScan(a, run, parent, meta);
    var subs := a.subagents.vals.Keys;
    MoreSubagents(a.messages.vals, s.messages, subs, run);
    MoreSubagents(a.reasonings.vals, s.reasonings, subs, run);
  }

  predicate Ends(e: Event, run: string) {
    (e.SubagentFinishedEvent? || e.SubagentErrorEvent?) && e.childRunId == run
  }

  lemma CloseSubagentScan(a: State, run: string, e: Event) returns (b: State, s: Scan, s': Scan)
    requires run in a.subagents.vals && Ends(e, run)
    ensures b == CloseSubagent(a, run, e) && s == ScanOf(a.out) && s' == ScanOf(b.out)
    ensures b.messages == a.messages && b.reasonings == a.reasonings && b.next == a.next
    ensures b.subagents.vals == a.subagents.vals - {run} && s' == EndSubagent(s, run)
  {
    b, s := CloseSubagent(a, run, e), ScanOf(a.out);
    s' := ScanOf(b.out);
    ScanEmit(a.(subagents := Pop(a.subagents, run)), e);
  }

  lemma CloseSubagentIds(a: State, run: string, e: Event)
    requires Ids(a) && run in a.subagents.vals && Ends(e, run)
    ensures Ids(CloseSubagent(a, run, e))
  {
    var b, s, s' := CloseSubagentScan(a, run, e);
  }

  lemma CloseSubagentBase(a: State, run: string, e: Event)
    requires Base(a) && run in a.subagents.vals && Ends(e, run)
    ensures Base(CloseSubagent(a, run, e))
  {
    CloseSubagentIds(a, run, e);
    PopValid(a.subagents, run);
  }

  lemma OwnerAt(owner: map<string, Option<string>>, order: seq<string>, started: set<string>, i: nat, j: nat)
    requires OwnersFirst(owner, order, started) && i < |order| && j < |order|
    requires order[i] in owner && owner[order[i]] == Some(order[j])
    ensures j <= i
  {
  }

  lemma OwnerAtAfterPop(owner: map<string, Option<string>>, x: seq<string>, run: string, y: seq<string>,
      started: set<string>, i: nat, j: nat)
    requires OwnersFirst(owner, x + [run] + y, started) && i < |x + y| && j < |x + y|
    requires (x + y)[i] in owner && owner[(x + y)[i]] == Some((x + y)[j])
    ensures j <= i
  {
    hide OwnersFirst;
    var order := x + [run] + y;
    var i', j' := if i < |x| then i else i + 1, if j < |x| then j else j + 1;
    assert (x + y)[i] == order[i'] && (x + y)[j] == order[j'];
    OwnerAt(owner, order, started, i', j');
  }

  /** Taking a delegation out leaves the others in order. */
  lemma OwnersFirstPop(owner: map<string, Option<string>>, d: Dict<string, Delegation>, started: set<string>,
      run: string)
    requires Valid(d) && run in d.vals && OwnersFirst(owner, d.order, started)
    ensures OwnersFirst(owner - {run}, Pop(d, run).order, started)
  {
    var k :| 0 <= k < |d.order| && d.order[k] == run;
    WithoutAt(d.order, k);
    var x, y := d.order[..k], d.order[k + 1..];
    assert d.order == x + [run] + y && Pop(d, run).order == x + y;
    hide Valid, Pop, Without;
    OwnersFirstCut(owner, x, run, y, started);
  }

  lemma OwnersFirstCut(owner: map<string, Option<string>>, x: seq<string>, run: string, y: seq<string>,
      started: set<string>)
    requires OwnersFirst(owner, x + [run] + y, started)
    ensures OwnersFirst(owner - {run}, x + y, started)
  {
    var less, order := owner - {run}, x + y;
    forall r | r in less && less[r].Some? ensures less[r].value in started { assert owner[r] == less[r]; }
    hide OwnersFirst;
    forall i, j | 0 <= i < |order| && 0 <= j < |order| && order[i] in less && less[order[i]] == Some(order[j])
        ensures j <= i {
      OwnerAtAfterPop(owner, x, run, y, started, i, j);
    }
    OwnersFirstIs(less, order, started);
  }

  lemma OwnersFirstIs(owner: map<string, Option<string>>, order: seq<string>, started: set<string>)
    requires forall r | r in owner :: owner[r].Some? ==> owner[r].value in started
    requires forall i, j | 0 <= i < |order| && 0 <= j < |order| && order[i] in owner ::
      owner[order[i]] == Some(order[j]) ==> j <= i
    ensures OwnersFirst(owner, order, started)
  {
  }

  lemma CloseSubagentGood(a: State, run: string, e: Event)
    requires Base(a) && Good(a) && Idle(a, run) && run in a.subagents.vals && Ends(e, run)
    ensures Good(CloseSubagent(a, run, e))
  {
    var b, s, s' := CloseSubagentScan(a, run, e);
    OwnersFirstPop(s.subagents, a.subagents, s.started, run);
  }

  lemma CloseSubagentDoomed(a: State, run: string, e: Event)
    requires Ids(a) && Doomed(a) && Idle(a, run) && run in a.subagents.vals && Ends(e, run)
    ensures Doomed(CloseSubagent(a, run, e))
  {
    var b, s, s' := CloseSubagentScan(a, run, e);
  }
}
