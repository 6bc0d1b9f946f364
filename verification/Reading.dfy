/**
 What a client assembles from the AG-UI stream: the text of each message and each reasoning, the tool calls
 with their arguments and results, and how runs and delegations went. For every trace it is what the trace
 says, and so what the agent said.
 */
module Reading {
  import opened Wrappers
  import opened AgentEvents
  import opened AgUi

  // ── On the stream alone ──

  /** A piece of text under the id of its message or reasoning. */
  datatype Line = Line(id: nat, text: string, author: Author)

  /** An opened message or reasoning. */
  datatype Bubble = Message(id: nat, name: Option<string>, author: Author) | Thinking(id: nat, author: Author)

  /** A tool call as announced; its arguments may arrive in pieces. */
  datatype Card = Card(call: Id, name: string, args: string, author: Author)

  /** A call that ended, and what one of them returned. */
  datatype Ended = Ended(call: Option<string>, author: Author)
  datatype Answer = Answer(call: Option<string>, content: string, author: Author)

  /** How runs and delegations went. */
  datatype News =
    | Began(author: Author)
    | Finished(author: Author)
    | Failed(message: string, code: Option<string>, author: Author)
    | ChildBegan(run: string, name: string, parent: Option<string>, call: Option<string>, meta: Option<Metadata>)
    | ChildFinished(run: string, result: Option<string>, meta: Option<Metadata>)
    | ChildFailed(run: string, message: string, code: Option<string>, meta: Option<Metadata>)
    | Other(name: string, payload: string)

  datatype Screen = Screen(
    bubbles: seq<Bubble>, texts: seq<Line>, thoughts: seq<Line>, cards: seq<Card>, ended: seq<Ended>,
    answers: seq<Answer>, news: seq<News>)

  function Blank(): Screen {
    Screen([], [], [], [], [], [], [])
  }

  /** The id a call was given, if it was given one. */
  function NameOf(id: Id): Option<string> {
    if id.Given? then Some(id.text) else None
  }

  /** Arguments go to the last card of their call. */
  function WithArgs(cards: seq<Card>, call: Id, delta: string): seq<Card> {
    if cards == [] then []
    else
      var last, front := cards[|cards| - 1], cards[..|cards| - 1];
      if last.call == call then front + [last.(args := last.args + delta)] else WithArgs(front, call, delta) + [last]
  }

  function Show(s: Screen, e: AgUiEvent): Screen {
    match e
    case TextMessageStart(id, name, a) => s.(bubbles := s.bubbles + [Message(id, name, a)])
    case TextMessageContent(id, delta, a) => s.(texts := s.texts + [Line(id, delta, a)])
    case TextMessageEnd(_, _) => s
    case ReasoningStart(id, a) => s.(bubbles := s.bubbles + [Thinking(id, a)])
    case ReasoningMessageStart(_, _) => s
    case ReasoningMessageContent(id, delta, a) =>
      if id.None? then s else s.(thoughts := s.thoughts + [Line(id.value, delta, a)])
    case ReasoningMessageEnd(_, _) => s
    case ReasoningEnd(_, _) => s
    case ToolCallStart(call, name, a) => s.(cards := s.cards + [Card(call, name, "", a)])
    case ToolCallArgs(call, delta, _) => s.(cards := WithArgs(s.cards, call, delta))
    case ToolCallEnd(call, a) => s.(ended := s.ended + [Ended(NameOf(call), a)])
    case ToolCallResult(_, call, content, a) => s.(answers := s.answers + [Answer(NameOf(call), content, a)])
    case RunStarted(_, _, a) => s.(news := s.news + [Began(a)])
    case RunFinished(_, _, a) => s.(news := s.news + [Finished(a)])
    case RunFailed(message, code, a) => s.(news := s.news + [Failed(message, code, a)])
    case SubagentStarted(run, name, parent, call, meta) =>
      s.(news := s.news + [ChildBegan(run, name, parent, call, meta)])
    case SubagentFinished(run, result, meta) => s.(news := s.news + [ChildFinished(run, result, meta)])
    case SubagentFailed(run, error, code, meta) => s.(news := s.news + [ChildFailed(run, error, code, meta)])
    case Custom(name, payload) => s.(news := s.news + [Other(name, payload)])
  }

  function Seen(es: seq<AgUiEvent>): Screen {
    if es == [] then Blank() else Show(Seen(es[..|es| - 1]), es[|es| - 1])
  }

  /** The text under one id, as the client shows it. */
  function TextUnder(lines: seq<Line>, id: nat): string {
    if lines == [] then ""
    else
      var last := lines[|lines| - 1];
      TextUnder(lines[..|lines| - 1], id) + (if last.id == id then last.text else "")
  }

  // ── On the trace alone ──

  predicate Known(s: Option<string>) {
    s != None && s != Some("")
  }

  /** A call that was announced. */
  datatype Ask = Ask(call: Option<string>, name: string, args: string, author: Author)

  datatype Told = Told(
    bubbles: seq<Bubble>, texts: seq<Line>, thoughts: seq<Line>, asks: seq<Ask>, ended: seq<Ended>,
    answers: seq<Answer>, news: seq<News>)

  function By(subagent: Option<string>, meta: Option<Metadata>): Author {
    Author(if Known(subagent) then subagent else None, meta)
  }

  function GivenName(s: Option<string>): Option<string> {
    if Known(s) then s else None
  }

  /** A piece of text that is not empty. */
  function Piece(lines: seq<Line>, id: nat, text: string, a: Author): seq<Line> {
    if text == "" then lines else lines + [Line(id, text, a)]
  }

  /** What a call returned: the tool's own result, else the output that came with the event. */
  function Returned(tool: ToolInfo, output: Option<string>): Option<string> {
    if Known(tool.result) then tool.result else if Known(output) then output else None
  }

  function Tell(t: Told, e: Event): Told {
    match e
    case TextMessageStartedEvent(id, name, sub, meta) => t.(bubbles := t.bubbles + [Message(id, name, By(sub, meta))])
    case RunContentEvent(id, text, sub, meta) => t.(texts := Piece(t.texts, id, text, By(sub, meta)))
    case ReasoningStartedEvent(id, sub, meta) => t.(bubbles := t.bubbles + [Thinking(id, By(sub, meta))])
    case ReasoningContentDeltaEvent(id, text, sub, meta) =>
      if id.None? then t else t.(thoughts := Piece(t.thoughts, id.value, text, By(sub, meta)))
    case ReasoningStepEvent(id, text, sub, meta) =>
      if id.None? then t else t.(thoughts := Piece(t.thoughts, id.value, text, By(sub, meta)))
    case ToolCallStartedEvent(tool, sub, meta) =>
      if tool.None? || !Known(tool.value.name) then t
      else
        var args := if Known(tool.value.args) then tool.value.args.value else "";
        t.(asks := t.asks + [Ask(GivenName(tool.value.callId), tool.value.name.value, args, By(sub, meta))])
    case ToolCallCompletedEvent(tool, output, sub, meta) =>
      if tool.None? then t
      else
        var call, content := GivenName(tool.value.callId), Returned(tool.value, output);
        t.(ended := t.ended + [Ended(call, By(sub, meta))],
           answers := if content.Some? then t.answers + [Answer(call, content.value, By(sub, meta))] else t.answers)
    case ToolCallErrorEvent(tool, _, sub, meta) =>
      if tool.None? then t else t.(ended := t.ended + [Ended(GivenName(tool.value.callId), By(sub, meta))])
    case RunStartedEvent(_, _, meta) => t.(news := t.news + [Began(By(None, meta))])
    case RunCompletedEvent(_, _, meta) => t.(news := t.news + [Finished(By(None, meta))])
    case RunErrorEvent(code, message, meta) =>
      t.(news := t.news + [Failed(if Known(message) then message.value else "Agent run failed", code, By(None, meta))])
    case SubagentStartedEvent(run, name, parent, call, meta) =>
      t.(news := t.news + [ChildBegan(run, name, parent, call, meta)])
    case SubagentFinishedEvent(run, result, meta) => t.(news := t.news + [ChildFinished(run, result, meta)])
    case SubagentErrorEvent(run, error, code, meta) => t.(news := t.news + [ChildFailed(run, error, code, meta)])
    case CustomEvent(name, payload) => t.(news := t.news + [Other(name, payload)])
    case TextMessageCompletedEvent(_, _, _) => t
    case ReasoningCompletedEvent(_, _, _) => t
  }

  function ToldBy(out: seq<Event>): Told {
    if out == [] then Told([], [], [], [], [], [], []) else Tell(ToldBy(out[..|out| - 1]), out[|out| - 1])
  }

  /** The text of one message in the trace, piece by piece. */
  function Deltas(out: seq<Event>, id: nat): string {
    if out == [] then ""
    else
      var e := out[|out| - 1];
      Deltas(out[..|out| - 1], id) + (if e.RunContentEvent? && e.id == id then e.content else "")
  }

  function ThoughtDeltas(out: seq<Event>, id: nat): string {
    if out == [] then ""
    else
      var e := out[|out| - 1];
      ThoughtDeltas(out[..|out| - 1], id)
        + (if (e.ReasoningContentDeltaEvent? || e.ReasoningStepEvent?)
          && e.reasoningId == Some(id) then e.delta else "")
  }

  // ── The client reads what the trace tells ──

  function AskOf(c: Card): Ask {
    Ask(NameOf(c.call), c.name, c.args, c.author)
  }

  function Asks(cards: seq<Card>): (r: seq<Ask>)
    ensures |r| == |cards| && forall i | 0 <= i < |cards| :: r[i] == AskOf(cards[i])
  {
    seq(|cards|, i requires 0 <= i < |cards| => AskOf(cards[i]))
  }

  ghost predicate Reads(s: Screen, t: Told) {
    && s.bubbles == t.bubbles && s.texts == t.texts && s.thoughts == t.thoughts && Asks(s.cards) == t.asks
    && s.ended == t.ended && s.answers == t.answers && s.news == t.news
  }

  lemma SeenOne(es: seq<AgUiEvent>, e: AgUiEvent)
    ensures Seen(es + [e]) == Show(Seen(es), e)
  {
    assert (es + [e])[..|es|] == es;
  }

  /** A batch holds at most two events. */
  lemma SeenMore(es: seq<AgUiEvent>, more: seq<AgUiEvent>)
    ensures |more| == 0 ==> Seen(es + more) == Seen(es)
    ensures |more| == 1 ==> Seen(es + more) == Show(Seen(es), more[0])
    ensures |more| == 2 ==> Seen(es + more) == Show(Show(Seen(es), more[0]), more[1])
  {
    hide Seen, Show;
    if |more| == 0 {
      assert es + more == es;
    } else if |more| == 1 {
      assert more == [more[0]];
      SeenOne(es, more[0]);
    } else if |more| == 2 {
      assert es + more == es + [more[0]] + [more[1]];
      SeenOne(es, more[0]);
      SeenOne(es + [more[0]], more[1]);
    }
  }

  lemma AskedMore(cards: seq<Card>, c: Card, args: string)
    ensures Asks(cards + [c]) == Asks(cards) + [AskOf(c)]
    ensures WithArgs(cards + [c], c.call, args) == cards + [c.(args := c.args + args)]
  {
    assert (cards + [c])[..|cards|] == cards;
  }

  lemma SequenceReads(p: Pins, es: seq<AgUiEvent>, t: Told, e: Event)
    requires Reads(Seen(es), t)
    requires !e.ToolCallStartedEvent? && !e.ToolCallCompletedEvent? && !e.ToolCallErrorEvent?
    ensures Reads(Seen(es + Image(p, e).1), Tell(t, e))
  {
    SeenMore(es, Image(p, e).1);
    hide Seen, Asks;
  }

  lemma CardReads(s: Screen, t: Told, c: Card)
    requires Reads(s, t)
    ensures Reads(s.(cards := s.cards + [c]), t.(asks := t.asks + [AskOf(c)]))
  {
    AskedMore(s.cards, c, "");
    hide Asks, WithArgs;
  }

  lemma CallReads(p: Pins, es: seq<AgUiEvent>, t: Told, e: Event)
    requires Reads(Seen(es), t) && e.ToolCallStartedEvent?
    ensures Reads(Seen(es + Image(p, e).1), Tell(t, e))
  {
    var sent := Image(p, e).1;
    SeenMore(es, sent);
    if sent != [] { AnnouncedReads(p, es, t, e); }
    hide Seen, Reads, Show;
  }

  /** A named call, and the card it becomes. */
  function CardOf(p: Pins, e: Event, args: string): Card
    requires e.ToolCallStartedEvent? && e.tool.Some? && Truthy(e.tool.value.name)
  {
    Card(OrMint(e.tool.value.callId, p.next), e.tool.value.name.value, args, Authored(e.subagent, e.meta))
  }

  lemma CallSends(p: Pins, e: Event)
    requires e.ToolCallStartedEvent? && e.tool.Some? && Truthy(e.tool.value.name)
    ensures var c, args := CardOf(p, e, ""), e.tool.value.args;
      Image(p, e).1 == [ToolCallStart(c.call, c.name, c.author)]
        + if Truthy(args) then [ToolCallArgs(c.call, args.value, c.author)] else []
  {
  }

  lemma CallTells(p: Pins, t: Told, e: Event)
    requires e.ToolCallStartedEvent? && e.tool.Some? && Truthy(e.tool.value.name)
    ensures var args := if Truthy(e.tool.value.args) then e.tool.value.args.value else "";
      Tell(t, e) == t.(asks := t.asks + [AskOf(CardOf(p, e, args))])
  {
  }

  lemma ShowsCard(s: Screen, c: Card, args: string)
    requires c.args == ""
    ensures Show(s, ToolCallStart(c.call, c.name, c.author)) == s.(cards := s.cards + [c])
    ensures Show(s.(cards := s.cards + [c]), ToolCallArgs(c.call, args, c.author))
      == s.(cards := s.cards + [c.(args := args)])
  {
    AskedMore(s.cards, c, args);
    assert "" + args == args;
    hide WithArgs, Asks;
  }

  /** A named call with all its arguments is one card. */
  lemma AnnouncedReads(p: Pins, es: seq<AgUiEvent>, t: Told, e: Event)
    requires Reads(Seen(es), t) && e.ToolCallStartedEvent? && e.tool.Some? && Truthy(e.tool.value.name)
    ensures Reads(Seen(es + Image(p, e).1), Tell(t, e))
  {
    var args := if Truthy(e.tool.value.args) then e.tool.value.args.value else "";
    var s, c := Seen(es), CardOf(p, e, "");
    assert c.args == "" && c.(args := args) == CardOf(p, e, args);
    hide *;
    CallSends(p, e);
    CallTells(p, t, e);
    SeenMore(es, Image(p, e).1);
    ShowsCard(s, c, args);
    CardReads(s, t, c.(args := args));
  }

  lemma EndReads(p: Pins, es: seq<AgUiEvent>, t: Told, e: Event)
    requires Reads(Seen(es), t) && (e.ToolCallCompletedEvent? || e.ToolCallErrorEvent?)
    ensures Reads(Seen(es + Image(p, e).1), Tell(t, e))
  {
    SeenMore(es, Image(p, e).1);
    hide Seen, Asks;
  }

  /**
   For every trace: what the client assembles is what the trace tells, text by text, call by call, and run
   by run, with its authors.
   */
  lemma {:induction false} ClientReadsTrace(out: seq<Event>)
    ensures Reads(Seen(ImageOf(out).1), ToldBy(out))
    decreases |out|
  {
    hide Image, Tell, Reads, Show;
    if out == [] {
      NothingRead();
    } else {
      var (p, sent) := ImageOf(out[..|out| - 1]);
      var e := out[|out| - 1];
      ClientReadsTrace(out[..|out| - 1]);
      if e.ToolCallStartedEvent? {
        CallReads(p, sent, ToldBy(out[..|out| - 1]), e);
      } else if e.ToolCallCompletedEvent? || e.ToolCallErrorEvent? {
        EndReads(p, sent, ToldBy(out[..|out| - 1]), e);
      } else {
        SequenceReads(p, sent, ToldBy(out[..|out| - 1]), e);
      }
    }
  }

  lemma NothingRead()
    ensures Reads(Seen([]), ToldBy([]))
  {
  }

  lemma TextUnderOne(lines: seq<Line>, l: Line, id: nat)
    ensures TextUnder(lines + [l], id) == TextUnder(lines, id) + (if l.id == id then l.text else "")
  {
    assert (lines + [l])[..|lines|] == lines;
  }

  lemma {:induction false} ToldText(out: seq<Event>, id: nat)
    ensures TextUnder(ToldBy(out).texts, id) == Deltas(out, id)
    decreases |out|
  {
    if out != [] {
      var before, e := ToldBy(out[..|out| - 1]), out[|out| - 1];
      ToldText(out[..|out| - 1], id);
      assert e.RunContentEvent? || Tell(before, e).texts == before.texts;
      if e.RunContentEvent? { TextUnderOne(before.texts, Line(e.id, e.content, By(e.subagent, e.meta)), id); }
      hide ToldBy, TextUnder, By;
    }
  }

  lemma {:induction false} ToldThoughts(out: seq<Event>, id: nat)
    ensures TextUnder(ToldBy(out).thoughts, id) == ThoughtDeltas(out, id)
    decreases |out|
  {
    if out != [] {
      var before, e := ToldBy(out[..|out| - 1]), out[|out| - 1];
      ToldThoughts(out[..|out| - 1], id);
      if (e.ReasoningContentDeltaEvent? || e.ReasoningStepEvent?) && e.reasoningId.Some? {
        TextUnderOne(before.thoughts, Line(e.reasoningId.value, e.delta, By(e.subagent, e.meta)), id);
      } else {
        assert Tell(before, e).thoughts == before.thoughts;
      }
      hide ToldBy, TextUnder, By;
    }
  }

  /** For every trace and every id: the client's text is the trace's, character for character. */
  lemma TextIsWhole(out: seq<Event>, id: nat)
    ensures TextUnder(Seen(ImageOf(out).1).texts, id) == Deltas(out, id)
    ensures TextUnder(Seen(ImageOf(out).1).thoughts, id) == ThoughtDeltas(out, id)
  {
    hide Seen, ImageOf, ToldBy, TextUnder, Deltas, ThoughtDeltas;
    ClientReadsTrace(out);
    ToldText(out, id);
    ToldThoughts(out, id);
  }
}
