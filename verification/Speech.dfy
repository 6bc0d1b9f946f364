/** From the agent to the client: what is read at the end is what was said, character for character. */
module Speech {
  import opened Wrappers
  import opened AgentEvents
  import opened OrderedDict
  import opened StreamSpec
  import opened Brackets
  import opened Lifecycle
  import opened AgUi
  import opened Ledger
  import opened Reading

  /** What the client of a flushed run has assembled. */
  function Screened(evs: seq<AgnoEvent>): Screen {
    Seen(ImageOf(Flush(Run(evs)).out).1)
  }

  // ── Runs, delegations and tool calls ──

  /** What was said and by whom, without the message it came in. */
  function Voiced(lines: seq<Line>): (r: seq<(string, Author)>)
    ensures |r| == |lines| && forall i | 0 <= i < |lines| :: r[i] == (lines[i].text, lines[i].author)
  {
    seq(|lines|, i requires 0 <= i < |lines| => (lines[i].text, lines[i].author))
  }

  ghost predicate Alike(t: Told, u: Told) {
    && t.asks == u.asks && t.ended == u.ended && t.answers == u.answers && t.news == u.news
    && Voiced(t.texts) == Voiced(u.texts)
  }

  lemma BracketTellsNothing(t: Told, e: Event)
    requires Bracket(e)
    ensures Alike(Tell(t, e), t)
  {
  }

  lemma TellsAlike(t: Told, u: Told, e: Event)
    requires Alike(t, u) && !Spoken(e) && !Bracket(e)
    ensures Alike(Tell(t, e), Tell(u, e))
  {
    hide By, Voiced;
  }

  lemma SpokenAlike(t: Told, u: Told, e: Event)
    requires Alike(t, u) && Spoken(e)
    ensures Alike(Tell(t, e), Tell(u, Unnumbered(e)))
  {
    hide By;
  }

  lemma {:induction false} ToldByLines(out: seq<Event>)
    ensures Alike(ToldBy(out), ToldBy(LinesOf(out)))
    decreases |out|
  {
    hide Tell, Alike, Bracket, Spoken, Unnumbered;
    if out == [] {
      AlikeItself(ToldBy([]));
    } else {
      var front, e := out[..|out| - 1], out[|out| - 1];
      ToldByLines(front);
      var lines := LinesOf(front);
      if Bracket(e) {
        assert LinesOf(out) == lines;
        BracketTellsNothing(ToldBy(front), e);
        AlikeOn(ToldBy(out), ToldBy(front), ToldBy(lines));
      } else if Spoken(e) {
        var f := Unnumbered(e);
        SpokenAlike(ToldBy(front), ToldBy(lines), e);
        assert LinesOf(out) == lines + [f] && (lines + [f])[..|lines|] == lines;
      } else {
        TellsAlike(ToldBy(front), ToldBy(lines), e);
        assert LinesOf(out) == lines + [e] && (lines + [e])[..|lines|] == lines;
      }
    }
  }

  lemma AlikeItself(t: Told)
    ensures Alike(t, t)
  {
  }

  lemma AlikeOn(t: Told, u: Told, w: Told)
    requires Alike(t, u) && Alike(u, w)
    ensures Alike(t, w)
  {
  }

  /**
   For every input sequence, flushed: the runs, delegations, tool calls and results the client sees, and
   the pieces of text with their speakers, are what the inputs alone say, in order; what is still delegated
   at the end is finished without a result.
   */
  lemma ClientSeesBook(evs: seq<AgnoEvent>)
    ensures var s, t := Screened(evs), ToldBy(EndAll(BookOf(evs)).lines);
      && Asks(s.cards) == t.asks && s.ended == t.ended && s.answers == t.answers && s.news == t.news
      && Voiced(s.texts) == Voiced(t.texts)
  {
    var a := Run(evs);
    var out := Flush(a).out;
    RunVerdict(evs);
    TraceIsBook(evs);
    CloseEverythingWrites(a);
    FlushedLines(a, BookOf(evs));
    ToldByLines(out);
    ClientReadsTrace(out);
    hide Base, Good, Doomed, Run, Flush, CloseEverything, Seen, ImageOf, ToldBy, Asks, Voiced, EndAll, BookOf, LinesOf;
  }

  lemma FlushedLines(a: State, b: Book)
    requires Kept(a) == b && Kept(CloseEverything(a)) == EndAll(b)
    ensures LinesOf(Flush(a).out) == EndAll(b).lines
  {
    hide CloseEverything, LinesOf, EndAll;
  }

  /** A failed run ends the client's stream as a failure, with its message and code. */
  lemma FailureIsSeen(evs: seq<AgnoEvent>, ev: AgnoEvent)
    requires ev.kind.RunError? && !(Ledger.Known(ev.runId) && ev.runId.value in BookOf(evs).delegated.vals)
    ensures var news := Screened(evs + [ev]).news;
      var text := if Ledger.Known(ev.kind.message) then ev.kind.message.value else "Agent run failed";
      news != [] && news[|news| - 1] == News.Failed(text, ev.kind.errorType, Author(None, Some(Source(ev))))
  {
    var b := BookOf(evs);
    EndsWith(evs, ev, RunErrorEvent(ev.kind.errorType, Text(ev.kind.message), Some(Source(ev))), EndAll(b));
    hide Screened, ToldBy, BookOf, EndAll, Source;
  }

  /** A run that completes ends it as finished. */
  lemma CompletionIsSeen(evs: seq<AgnoEvent>, ev: AgnoEvent)
    requires ev.kind.RunCompleted? && !Ledger.Known(ev.parentRunId)
    requires !(Ledger.Known(ev.runId) && ev.runId.value in BookOf(evs).completed && ev.runId != BookOf(evs).active)
    ensures var news := Screened(evs + [ev]).news;
      news != [] && news[|news| - 1] == Finished(Author(None, Some(Source(ev))))
  {
    var b := BookOf(evs);
    var done := if Ledger.Known(ev.runId) then b.completed + {ev.runId.value} else b.completed;
    EndsWith(evs, ev, RunCompletedEvent(ev.runId, Text(ev.kind.finalContent), Some(Source(ev))),
      EndAll(b).(active := None, completed := done));
    hide Screened, ToldBy, BookOf, EndAll, Source;
  }

  lemma EndsWith(evs: seq<AgnoEvent>, ev: AgnoEvent, e: Event, b: Book)
    requires Enter(BookOf(evs), ev) == Write(b, e) && b.delegated == Empty()
    ensures Screened(evs + [ev]).news == Tell(ToldBy(b.lines), e).news
  {
    assert (evs + [ev])[..|evs|] == evs;
    ClientSeesBook(evs + [ev]);
    var c := Write(b, e);
    assert BookOf(evs + [ev]) == c;
    assert EndAll(c).lines == c.lines + [] == c.lines;
    assert c.lines[..|b.lines|] == b.lines;
    hide Screened, Enter, BookOf, Tell;
  }

  // ── Text ──

  /** The text of the lines under some ids, in order. */
  function TextAmong(lines: seq<Line>, ids: set<nat>): string {
    if lines == [] then ""
    else
      var last := lines[|lines| - 1];
      TextAmong(lines[..|lines| - 1], ids) + (if last.id in ids then last.text else "")
  }

  /** The run an input belongs to, after those before it. */
  function RunAt(evs: seq<AgnoEvent>, ev: AgnoEvent): string {
    RunOf(BookOf(evs), ev)
  }

  /** The messages, and the reasonings, opened for a run. */
  function Opened(evs: seq<AgnoEvent>, run: string): set<nat> {
    if evs == [] then {}
    else
      var before := evs[..|evs| - 1];
      Opened(before, run)
        + (if RunAt(before, evs[|evs| - 1]) == run then Ids(Run(before).next, Run(evs).next) else {})
  }

  function Ids(from: nat, to: nat): (r: set<nat>)
    ensures forall id: nat :: id in r <==> from <= id < to
  {
    if to <= from then {} else Ids(from, to - 1) + {to - 1}
  }

  /** All the text given for a run. */
  function SaidBy(evs: seq<AgnoEvent>, run: string): string {
    if evs == [] then ""
    else
      var before, ev := evs[..|evs| - 1], evs[|evs| - 1];
      SaidBy(before, run)
        + (if ev.kind.RunContent? && ev.kind.content.Some?
          && RunAt(before, ev) == run then ev.kind.content.value else "")
  }

  /** No text, no new message. */
  ghost predicate Hushed(a: State, b: State) {
    && ToldBy(b.out).texts == ToldBy(a.out).texts
    && a.next <= b.next
    && forall k | k in b.messages.vals :: k in a.messages.vals && b.messages.vals[k] == a.messages.vals[k]
  }

  lemma TellEmit(a: State, e: Event)
    ensures ToldBy(Emit(a, e).out) == Tell(ToldBy(a.out), e)
  {
    assert (a.out + [e])[..|a.out|] == a.out;
  }

  lemma EmitHushes(a: State, b: State, e: Event)
    requires b.out == a.out + [e] && a.next <= b.next && !e.RunContentEvent?
    requires forall k | k in b.messages.vals :: k in a.messages.vals && b.messages.vals[k] == a.messages.vals[k]
    ensures Hushed(a, b)
  {
    TellEmit(a, e);
    hide ToldBy;
  }

  lemma HushedOn(a: State, b: State, c: State)
    requires Hushed(a, b) && Hushed(b, c)
    ensures Hushed(a, c)
  {
    hide ToldBy;
  }

  lemma CloseContentHushes(a: State, key: string)
    ensures Hushed(a, CloseContent(a, key))
  {
    if key in a.messages.vals {
      var b := CloseContent(a, key);
      EmitHushes(a, b, b.out[|b.out| - 1]);
    }
    hide ToldBy;
  }

  lemma CloseReasoningHushes(a: State, key: string)
    ensures Hushed(a, CloseReasoning(a, key)) && CloseReasoning(a, key).messages == a.messages
  {
    if key in a.reasonings.vals {
      var b := CloseReasoning(a, key);
      EmitHushes(a, b, b.out[|b.out| - 1]);
    }
    hide ToldBy;
  }

  lemma CloseBothHushes(a: State, key: string)
    ensures Hushed(a, CloseReasoning(CloseContent(a, key), key)) && Hushed(a, CloseContent(CloseReasoning(a, key), key))
  {
    hide Hushed, CloseContent, CloseReasoning;
    CloseContentHushes(a, key);
    CloseReasoningHushes(CloseContent(a, key), key);
    HushedOn(a, CloseContent(a, key), CloseReasoning(CloseContent(a, key), key));
    CloseReasoningHushes(a, key);
    CloseContentHushes(CloseReasoning(a, key), key);
    HushedOn(a, CloseReasoning(a, key), CloseContent(CloseReasoning(a, key), key));
  }

  lemma {:induction false} CloseContentsHush(a: State, keys: seq<string>)
    ensures Hushed(a, CloseContents(a, keys))
    decreases |keys|
  {
    hide ToldBy, CloseContent;
    if keys != [] {
      var b := CloseContent(a, keys[|keys| - 1]);
      CloseContentHushes(a, keys[|keys| - 1]);
      CloseContentsHush(b, keys[..|keys| - 1]);
      HushedOn(a, b, CloseContents(b, keys[..|keys| - 1]));
    }
  }

  lemma {:induction false} CloseReasoningsHush(a: State, keys: seq<string>)
    ensures Hushed(a, CloseReasonings(a, keys))
    decreases |keys|
  {
    hide ToldBy, CloseReasoning;
    if keys != [] {
      var b := CloseReasoning(a, keys[|keys| - 1]);
      CloseReasoningHushes(a, keys[|keys| - 1]);
      CloseReasoningsHush(b, keys[..|keys| - 1]);
      HushedOn(a, b, CloseReasonings(b, keys[..|keys| - 1]));
    }
  }

  lemma {:induction false} FinishSubagentsHush(a: State, runs: seq<string>)
    ensures Hushed(a, FinishSubagents(a, runs))
    decreases |runs|
  {
    hide ToldBy;
    if runs != [] {
      var run := runs[|runs| - 1];
      var b := a;
      if run in a.subagents.vals {
        var e := SubagentFinishedEvent(run, None, Some(a.subagents.vals[run].meta));
        b := CloseSubagent(a, run, e);
        EmitHushes(a, b, e);
      }
      FinishSubagentsHush(b, runs[..|runs| - 1]);
      HushedOn(a, b, FinishSubagents(b, runs[..|runs| - 1]));
    }
  }

  lemma CloseEverythingHushes(a: State)
    ensures Hushed(a, CloseEverything(a))
  {
    var b := CloseAllContent(a);
    var c := CloseAllReasoning(b);
    CloseContentsHush(a, a.messages.order);
    CloseReasoningsHush(b, b.reasonings.order);
    FinishSubagentsHush(c, c.subagents.order);
    hide Hushed, CloseContents, CloseReasonings, FinishSubagents;
    HushedOn(a, b, c);
    HushedOn(a, c, CloseEverything(a));
  }

  /** The last event of a step, after others that say nothing. */
  lemma ThenEmits(a: State, b: State, c: State, e: Event)
    requires Hushed(a, b) && c.out == b.out + [e] && c.messages == b.messages && b.next <= c.next && !e.RunContentEvent?
    ensures Hushed(a, c)
  {
    EmitHushes(b, c, e);
    HushedOn(a, b, c);
    hide Hushed;
  }

  lemma RunStartedHushes(a: State, ev: AgnoEvent)
    requires ev.kind.RunStarted?
    ensures Hushed(a, Step(a, ev))
  {
    var c := Step(a, ev);
    if Truthy(ev.parentRunId) {
      if Truthy(ev.runId) {
        CloseBothHushes(a, ev.parentRunId.value);
        ThenEmits(a, CloseReasoning(CloseContent(a, ev.parentRunId.value), ev.parentRunId.value), c,
          c.out[|c.out| - 1]);
      }
    } else if !(Truthy(ev.runId) && ev.runId == a.active) {
      ThenEmits(a, a, c, c.out[|c.out| - 1]);
    }
    hide ToldBy, CloseContent, CloseReasoning, BuildMetadata;
  }

  lemma RunEndHushes(a: State, ev: AgnoEvent)
    requires ev.kind.RunCompleted? || ev.kind.RunError?
    ensures Hushed(a, Step(a, ev))
  {
    var key, c := RunKey(a, ev), Step(a, ev);
    CloseBothHushes(a, key);
    if Truthy(ev.runId) { CloseBothHushes(a, ev.runId.value); }
    CloseEverythingHushes(a);
    var b := CloseReasoning(CloseContent(a, key), key);
    hide ToldBy, Hushed, CloseContent, CloseReasoning, CloseEverything, BuildMetadata, RunKey;
    if ev.kind.RunCompleted? {
      if Truthy(ev.parentRunId) {
        if Truthy(ev.runId) && ev.runId.value in b.subagents.vals { ThenEmits(a, b, c, c.out[|c.out| - 1]); }
      } else if !(Truthy(ev.runId) && ev.runId.value in a.completed && ev.runId != a.active) {
        ThenEmits(a, CloseEverything(a), c, c.out[|c.out| - 1]);
      } else {
        SameHushes(a);
      }
    } else if Truthy(ev.runId) && ev.runId.value in a.subagents.vals {
      var d := CloseReasoning(CloseContent(a, ev.runId.value), ev.runId.value);
      if ev.runId.value in d.subagents.vals { ThenEmits(a, d, c, c.out[|c.out| - 1]); }
    } else {
      ThenEmits(a, CloseEverything(a), c, c.out[|c.out| - 1]);
    }
  }

  lemma SameHushes(a: State)
    ensures Hushed(a, a)
  {
  }

  lemma {:induction false} SynthesizeHushes(a: State, tools: seq<ToolExecution>, seen: set<string>)
    ensures Hushed(a, SynthesizeTools(a, tools, seen))
    decreases |tools|
  {
    if tools == [] {
      SameHushes(a);
    } else {
      var t := tools[0];
      if !t.external || !Truthy(t.callId) || t.callId.value in seen {
        SynthesizeHushes(a, tools[1..], seen);
      } else {
        var info := Some(ToolInfo(t.callId, t.name, t.args, None));
        var b := Emit(a, ToolCallStartedEvent(info, None, None));
        var c := MarkClosed(Emit(b, ToolCallCompletedEvent(info, None, None, None)), t.callId);
        EmitHushes(a, b, ToolCallStartedEvent(info, None, None));
        EmitHushes(b, c, ToolCallCompletedEvent(info, None, None, None));
        hide ToldBy, Hushed;
        SynthesizeHushes(c, tools[1..], seen + {t.callId.value});
        HushedOn(a, b, c);
        HushedOn(a, c, SynthesizeTools(c, tools[1..], seen + {t.callId.value}));
      }
    }
  }

  lemma RunPausedHushes(a: State, tools: seq<ToolExecution>, requirements: seq<string>)
    ensures Hushed(a, HandleRunPaused(a, tools, requirements))
  {
    var b := CloseAllReasoning(a);
    var c := CloseAllContent(b);
    var d := c.(paused := true, pausedTools := tools, pausedRequirements := requirements);
    CloseReasoningsHush(a, a.reasonings.order);
    CloseContentsHush(b, b.messages.order);
    assert Hushed(c, d);
    SynthesizeHushes(d, tools, {});
    hide ToldBy, Hushed, CloseReasonings, CloseContents, SynthesizeTools;
    HushedOn(a, b, c);
    HushedOn(a, c, d);
    HushedOn(a, d, SynthesizeTools(d, tools, {}));
  }

  lemma ToolHushes(a: State, ev: AgnoEvent)
    requires ev.kind.ToolCallStarted? || ev.kind.ToolCallCompleted? || ev.kind.ToolCallError?
    ensures Hushed(a, Step(a, ev))
  {
    var key, c := RunKey(a, ev), Step(a, ev);
    SameHushes(a);
    CloseBothHushes(a, key);
    hide ToldBy, Hushed, CloseContent, CloseReasoning, BuildMetadata, RunKey;
    if ev.kind.ToolCallStarted? {
      ThenEmits(a, CloseContent(CloseReasoning(a, key), key), c, c.out[|c.out| - 1]);
    } else if ev.kind.ToolCallCompleted? || !AlreadyClosed(a, ev.kind.failed) {
      ThenEmits(a, a, c, c.out[|c.out| - 1]);
    }
  }

  lemma OpenReasoningHushes(a: State, key: string, meta: Metadata, announced: Option<Metadata>)
    ensures Hushed(a, OpenReasoning(a, key, meta, announced))
  {
    var b := OpenReasoning(a, key, meta, announced);
    EmitHushes(a, b, b.out[|b.out| - 1]);
  }

  lemma EnterReasoningHushes(a: State, key: string, meta: Metadata, announced: Option<Metadata>)
    ensures Hushed(a, EnterReasoning(a, key, meta, announced))
  {
    hide Hushed, CloseContent, OpenReasoning;
    var b := CloseContent(a, key);
    CloseContentHushes(a, key);
    if key !in b.reasonings.vals {
      OpenReasoningHushes(b, key, meta, announced);
      HushedOn(a, b, OpenReasoning(b, key, meta, announced));
    }
  }

  lemma ReasoningTextHushes(a: State, key: string, meta: Metadata, text: string)
    ensures Hushed(a, ProcessReasoningContent(a, key, meta, text))
  {
    if text == "" {
      CloseReasoningHushes(a, key);
    } else {
      EnterReasoningHushes(a, key, meta, Some(meta));
      var b, c := EnterReasoning(a, key, meta, Some(meta)), ProcessReasoningContent(a, key, meta, text);
      hide Hushed, EnterReasoning;
      ThenEmits(a, b, c, c.out[|c.out| - 1]);
    }
  }

  lemma ReasoningHushes(a: State, ev: AgnoEvent)
    requires ev.kind.ReasoningStarted? || ev.kind.ReasoningContentDelta? || ev.kind.ReasoningStep?
      || ev.kind.ReasoningCompleted? || ev.kind.Unhandled?
    ensures Hushed(a, Step(a, ev))
  {
    var key, meta, c := RunKey(a, ev), BuildMetadata(ev), Step(a, ev);
    SameHushes(a);
    CloseContentHushes(a, key);
    CloseReasoningHushes(a, key);
    EnterReasoningHushes(a, key, meta, None);
    OpenReasoningHushes(CloseContent(a, key), key, meta, Some(meta));
    hide ToldBy, Hushed, CloseContent, CloseReasoning, OpenReasoning, EnterReasoning, BuildMetadata, RunKey;
    match ev.kind
    case ReasoningStarted => HushedOn(a, CloseContent(a, key), c);
    case ReasoningContentDelta(_) => ThenEmits(a, a, c, c.out[|c.out| - 1]);
    case ReasoningStep(step) =>
      if Truthy(step) { ThenEmits(a, EnterReasoning(a, key, meta, None), c, c.out[|c.out| - 1]); }
    case _ =>
  }

  /** One input that is given text for `key`, in the run's open message or in a new one. */
  ghost predicate Speaks(a: State, b: State, key: string, text: string) {
    && key in b.messages.vals && a.next <= b.next
    && (var id := b.messages.vals[key].id;
        && ((key in a.messages.vals && a.messages.vals[key].id == id) || a.next <= id < b.next)
        && exists who :: ToldBy(b.out).texts == ToldBy(a.out).texts + [Line(id, text, who)])
    && forall k | k in b.messages.vals && k != key :: k in a.messages.vals && b.messages.vals[k] == a.messages.vals[k]
  }

  lemma EnterContentOpens(a: State, key: string, meta: Metadata)
    ensures var c := EnterContent(a, key, meta);
      && a.next <= c.next && ToldBy(c.out).texts == ToldBy(a.out).texts
      && (key in a.messages.vals ==> c.messages == a.messages)
      && (key !in a.messages.vals ==>
            && a.next <= c.messages.vals[key].id < c.next
            && c.messages.vals == a.messages.vals[key := c.messages.vals[key]])
  {
    CloseReasoningHushes(a, key);
    var b := CloseReasoning(a, key);
    if key !in b.messages.vals {
      var name := if Truthy(meta.parentRunId) then meta.name else None;
      TellEmit(b.(messages := Put(b.messages, key, Slot(b.next, meta)), next := b.next + 1),
        TextMessageStartedEvent(b.next, name, SubagentOf(b, key), Some(meta)));
    }
    hide ToldBy, CloseReasoning, By;
  }

  lemma TextSpeaks(a: State, key: string, meta: Metadata, text: string)
    requires text != "" && (forall k | k in a.messages.vals :: a.messages.vals[k].id < a.next)
    ensures Speaks(a, ProcessTextContent(a, key, meta, text), key, text)
  {
    EnterContentOpens(a, key, meta);
    var c := EnterContent(a, key, meta);
    var who := SubagentOf(c, key);
    var e := RunContentEvent(c.messages.vals[key].id, text, who, Some(meta));
    TellEmit(c, e);
    hide ToldBy, EnterContent, SubagentOf, By;
    assert ToldBy(Emit(c, e).out).texts == ToldBy(a.out).texts
      + [Line(c.messages.vals[key].id, text, By(who, Some(meta)))];
  }

  lemma TextGiven(a: State, key: string, meta: Metadata, text: string)
    requires forall k | k in a.messages.vals :: a.messages.vals[k].id < a.next
    ensures var b := ProcessTextContent(a, key, meta, text);
      if text == "" then Hushed(a, b) else Speaks(a, b, key, text)
  {
    if text == "" { CloseContentHushes(a, key); } else { TextSpeaks(a, key, meta, text); }
    hide Hushed, Speaks;
  }

  lemma HushedThenSpeaks(a: State, b: State, c: State, key: string, text: string)
    requires Hushed(a, b) && Speaks(b, c, key, text)
    requires forall k | k in a.messages.vals :: a.messages.vals[k].id < a.next
    ensures Speaks(a, c, key, text)
  {
    hide ToldBy;
  }

  /** The text an input gives its run. */
  function Given(ev: AgnoEvent): string {
    if ev.kind.RunContent? && ev.kind.content.Some? then ev.kind.content.value else ""
  }

  /** Every input but text for its run is silent; text is said under the run's own message. */
  lemma StepSpeaks(a: State, ev: AgnoEvent)
    requires forall k | k in a.messages.vals :: a.messages.vals[k].id < a.next
    ensures if Given(ev) == "" then Hushed(a, Step(a, ev)) else Speaks(a, Step(a, ev), RunKey(a, ev), Given(ev))
  {
    var key, meta := RunKey(a, ev), BuildMetadata(ev);
    match ev.kind
    case RunStarted(_) => RunStartedHushes(a, ev);
    case RunCompleted(_) => RunEndHushes(a, ev);
    case RunError(_, _) => RunEndHushes(a, ev);
    case RunPaused(tools, requirements) => RunPausedHushes(a, tools, requirements);
    case ToolCallStarted(_) => ToolHushes(a, ev);
    case ToolCallCompleted(_, _) => ToolHushes(a, ev);
    case ToolCallError(_, _) => ToolHushes(a, ev);
    case RunContent(reasoning, content) => ContentSpeaks(a, ev);
    case _ => ReasoningHushes(a, ev);
  }

  lemma ContentSpeaks(a: State, ev: AgnoEvent)
    requires ev.kind.RunContent? && forall k | k in a.messages.vals :: a.messages.vals[k].id < a.next
    ensures if Given(ev) == "" then Hushed(a, Step(a, ev)) else Speaks(a, Step(a, ev), RunKey(a, ev), Given(ev))
  {
    var key, meta := RunKey(a, ev), BuildMetadata(ev);
    var b := if ev.kind.reasoning.Some? then ProcessReasoningContent(a, key, meta, ev.kind.reasoning.value) else a;
    SameHushes(a);
    if ev.kind.reasoning.Some? { ReasoningTextHushes(a, key, meta, ev.kind.reasoning.value); }
    if ev.kind.content.Some? {
      assert forall k | k in b.messages.vals :: b.messages.vals[k].id < b.next;
      TextGiven(b, key, meta, ev.kind.content.value);
      hide Hushed, Speaks, ProcessReasoningContent, ProcessTextContent, RunKey, BuildMetadata;
      if ev.kind.content.value == "" {
        HushedOn(a, b, Step(a, ev));
      } else {
        HushedThenSpeaks(a, b, Step(a, ev), key, ev.kind.content.value);
      }
    }
  }

  // ── What the client reads of a run ──

  ghost predicate Before(lines: seq<Line>, ids: set<nat>, next: nat) {
    (forall l | l in lines :: l.id < next) && forall id | id in ids :: id < next
  }

  /** Every open message was opened for its own run, and no id was opened for two. */
  ghost predicate Owns(evs: seq<AgnoEvent>) {
    var a := Run(evs);
    && (forall k | k in a.messages.vals :: a.messages.vals[k].id in Opened(evs, k))
    && (forall k :: Before(ToldBy(a.out).texts, Opened(evs, k), a.next))
    && (forall j, k | j != k :: Opened(evs, j) !! Opened(evs, k))
  }

  lemma NextOpened(evs: seq<AgnoEvent>, ev: AgnoEvent, run: string)
    ensures var more := evs + [ev];
      && Run(more) == Step(Run(evs), ev)
      && Opened(more, run)
         == Opened(evs, run) + (if RunAt(evs, ev) == run then Ids(Run(evs).next, Run(more).next) else {})
      && SaidBy(more, run) == SaidBy(evs, run) + (if RunAt(evs, ev) == run then Given(ev) else "")
  {
    assert (evs + [ev])[..|evs|] == evs;
    hide Run, BookOf;
  }

  lemma RunAtIs(evs: seq<AgnoEvent>, ev: AgnoEvent)
    ensures RunAt(evs, ev) == RunKey(Run(evs), ev)
  {
    TraceIsBook(evs);
    hide Run, BookOf, LinesOf;
  }

  lemma {:induction false} AmongMore(lines: seq<Line>, ids: set<nat>, more: set<nat>)
    requires forall l | l in lines :: l.id in more ==> l.id in ids
    ensures TextAmong(lines, ids + more) == TextAmong(lines, ids)
    decreases |lines|
  {
    if lines != [] {
      var front := lines[..|lines| - 1];
      assert lines == front + [lines[|lines| - 1]];
      AmongMore(front, ids, more);
    }
  }

  lemma AmongOne(lines: seq<Line>, l: Line, ids: set<nat>)
    ensures TextAmong(lines + [l], ids) == TextAmong(lines, ids) + (if l.id in ids then l.text else "")
  {
    assert (lines + [l])[..|lines|] == lines;
  }

  /** What one input changes in the open messages and the text. */
  lemma StepIs(evs: seq<AgnoEvent>, ev: AgnoEvent)
    requires Owns(evs)
    ensures var a, b := Run(evs), Run(evs + [ev]);
      if Given(ev) == "" then Hushed(a, b) else Speaks(a, b, RunAt(evs, ev), Given(ev))
  {
    var a := Run(evs);
    forall k | k in a.messages.vals ensures a.messages.vals[k].id < a.next {
      assert Before(ToldBy(a.out).texts, Opened(evs, k), a.next);
    }
    hide Owns, Run, Opened, Hushed, Speaks, ToldBy, RunAt, Given;
    NextOpened(evs, ev, "");
    RunAtIs(evs, ev);
    StepSpeaks(a, ev);
  }

  /** The text of one run grows by what it is given, and no other's does. */
  lemma SaidMore(evs: seq<AgnoEvent>, ev: AgnoEvent, run: string)
    requires Owns(evs) && TextAmong(ToldBy(Run(evs).out).texts, Opened(evs, run)) == SaidBy(evs, run)
    ensures TextAmong(ToldBy(Run(evs + [ev]).out).texts, Opened(evs + [ev], run)) == SaidBy(evs + [ev], run)
  {
    var more, key := evs + [ev], RunAt(evs, ev);
    var a, b := Run(evs), Run(more);
    var texts, ids := ToldBy(a.out).texts, Opened(evs, run);
    var extra := if key == run then Ids(a.next, b.next) else {};
    assert Before(texts, ids, a.next);
    NextOpened(evs, ev, run);
    StepIs(evs, ev);
    AmongMore(texts, ids, extra);
    if Given(ev) != "" {
      assert Before(texts, Opened(evs, key), a.next);
      assert key != run ==> Opened(evs, key) !! Opened(evs, run);
      SpokenUnder(evs, ev, run);
      hide Owns, Run, Opened, ToldBy, RunAt, Given, SaidBy, TextAmong, Ids;
      var id := b.messages.vals[key].id;
      var who :| ToldBy(b.out).texts == texts + [Line(id, Given(ev), who)];
      AmongOne(texts, Line(id, Given(ev), who), ids + extra);
    } else {
      hide Owns, Run, Opened, ToldBy, RunAt, Given, SaidBy, TextAmong, Ids;
    }
  }

  /** The id text is said under was opened for its run and for no other. */
  lemma SpokenUnder(evs: seq<AgnoEvent>, ev: AgnoEvent, run: string)
    requires Owns(evs) && Speaks(Run(evs), Run(evs + [ev]), RunAt(evs, ev), Given(ev))
    ensures Run(evs + [ev]).messages.vals[RunAt(evs, ev)].id in Opened(evs + [ev], run) <==> RunAt(evs, ev) == run
  {
    NextOpened(evs, ev, run);
    var a, key := Run(evs), RunAt(evs, ev);
    assert Before(ToldBy(a.out).texts, Opened(evs, run), a.next);
    hide Run, Opened, ToldBy, RunAt, Given, Before;
    assert forall id | id in Opened(evs, run) ::
      id < a.next by { BeforeIs(ToldBy(a.out).texts, Opened(evs, run), a.next); }
  }

  lemma BeforeIs(lines: seq<Line>, ids: set<nat>, next: nat)
    requires Before(lines, ids, next)
    ensures forall id | id in ids :: id < next
  {
  }

  lemma StillApart(evs: seq<AgnoEvent>, ev: AgnoEvent, j: string, k: string)
    requires Owns(evs) && j != k
    ensures Opened(evs + [ev], j) !! Opened(evs + [ev], k)
  {
    var a := Run(evs);
    NextOpened(evs, ev, j);
    NextOpened(evs, ev, k);
    BeforeIs(ToldBy(a.out).texts, Opened(evs, j), a.next);
    BeforeIs(ToldBy(a.out).texts, Opened(evs, k), a.next);
    assert Opened(evs, j) !! Opened(evs, k);
    hide Owns, Run, Opened, ToldBy, RunAt, Given, Before;
  }

  lemma OwnsMore(evs: seq<AgnoEvent>, ev: AgnoEvent)
    requires Owns(evs)
    ensures Owns(evs + [ev])
  {
    var more, key := evs + [ev], RunAt(evs, ev);
    var b := Run(more);
    StepIs(evs, ev);
    forall k ensures Before(ToldBy(b.out).texts, Opened(more, k), b.next) { BeforeMore(evs, ev, k); }
    forall k | k in b.messages.vals ensures b.messages.vals[k].id in Opened(more, k) {
      NextOpened(evs, ev, k);
      if Given(ev) != "" && k == key { SpokenUnder(evs, ev, k); }
    }
    forall j, k | j != k ensures Opened(more, j) !! Opened(more, k) { StillApart(evs, ev, j, k); }
    hide Run, Opened, ToldBy, RunAt, Given, Before;
  }

  lemma BeforeGrows(lines: seq<Line>, ids: set<nat>, more: set<nat>, next: nat, later: nat)
    requires Before(lines, ids, next) && next <= later && forall id | id in more :: id < later
    ensures Before(lines, ids + more, later)
  {
  }

  lemma BeforeOne(lines: seq<Line>, l: Line, ids: set<nat>, next: nat)
    requires Before(lines, ids, next) && l.id < next
    ensures Before(lines + [l], ids, next)
  {
  }

  /** The id text is said under has been given out. */
  lemma SpokenBefore(evs: seq<AgnoEvent>, ev: AgnoEvent)
    requires Owns(evs) && Speaks(Run(evs), Run(evs + [ev]), RunAt(evs, ev), Given(ev))
    ensures Run(evs + [ev]).messages.vals[RunAt(evs, ev)].id < Run(evs + [ev]).next
  {
    var a, key := Run(evs), RunAt(evs, ev);
    assert Before(ToldBy(a.out).texts, Opened(evs, key), a.next);
    hide Run, Opened, ToldBy, RunAt, Given;
  }

  lemma BeforeMore(evs: seq<AgnoEvent>, ev: AgnoEvent, run: string)
    requires Owns(evs)
    ensures var b := Run(evs + [ev]); Before(ToldBy(b.out).texts, Opened(evs + [ev], run), b.next)
  {
    var a, b, key := Run(evs), Run(evs + [ev]), RunAt(evs, ev);
    var texts, ids := ToldBy(a.out).texts, Opened(evs, run);
    assert Before(texts, ids, a.next);
    NextOpened(evs, ev, run);
    StepIs(evs, ev);
    var extra := if key == run then Ids(a.next, b.next) else {};
    if Given(ev) != "" {
      SpokenBefore(evs, ev);
      var who :| ToldBy(b.out).texts == texts + [Line(b.messages.vals[key].id, Given(ev), who)];
      hide Owns, Run, Opened, ToldBy, RunAt, Given, Before;
      BeforeGrows(texts, ids, extra, a.next, b.next);
      BeforeOne(texts, Line(b.messages.vals[key].id, Given(ev), who), ids + extra, b.next);
    } else {
      hide Owns, Run, Opened, ToldBy, RunAt, Given, Before;
      BeforeGrows(texts, ids, extra, a.next, b.next);
    }
  }

  lemma {:induction false} SaidInTrace(evs: seq<AgnoEvent>, run: string)
    ensures Owns(evs) && TextAmong(ToldBy(Run(evs).out).texts, Opened(evs, run)) == SaidBy(evs, run)
    decreases |evs|
  {
    hide Owns, ToldBy, TextAmong;
    if evs == [] {
      NothingSaid(run);
    } else {
      var before, ev := evs[..|evs| - 1], evs[|evs| - 1];
      assert before + [ev] == evs;
      SaidInTrace(before, run);
      hide Run, Opened, SaidBy;
      OwnsMore(before, ev);
      SaidMore(before, ev, run);
    }
  }

  lemma NothingSaid(run: string)
    ensures Owns([]) && TextAmong(ToldBy(Run([]).out).texts, Opened([], run)) == SaidBy([], run)
  {
  }

  /**
   For every input sequence and every run, whatever else streams at the same time: the text the client of
   the flushed run shows in that run's messages is the text the run was given, character for character.
   */
  lemma ClientReadsRun(evs: seq<AgnoEvent>, run: string)
    ensures TextAmong(Screened(evs).texts, Opened(evs, run)) == SaidBy(evs, run)
  {
    hide Owns, Run, Opened, SaidBy, TextAmong, Seen, ImageOf, ToldBy, CloseEverything;
    SaidInTrace(evs, run);
    CloseEverythingHushes(Run(evs));
    ClientReadsTrace(Flush(Run(evs)).out);
  }
}
