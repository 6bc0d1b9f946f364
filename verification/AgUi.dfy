/** The mixin that turns each DigitalKin event into AG-UI protocol events, and the protocol's rules. */
module AgUi {
  import opened Wrappers
  import opened AgentEvents
  import opened Sequences

  /** An id taken from an event, or one minted by `uuid4`, which never repeats or equals a given one. */
  datatype Id = Given(text: string) | Minted(n: nat)

  /** The author fields: delegation and metadata. */
  datatype Author = Author(subagent: Option<string>, meta: Option<Metadata>)

  datatype AgUiEvent =
    | RunStarted(threadId: Id, runId: Id, author: Author)
    | RunFinished(finishedThread: Option<Id>, runId: Id, author: Author)
    | RunFailed(message: string, code: Option<string>, author: Author)
    | TextMessageStart(id: nat, name: Option<string>, author: Author)
    | TextMessageContent(id: nat, delta: string, author: Author)
    | TextMessageEnd(id: nat, author: Author)
    | ReasoningStart(id: nat, author: Author)
    | ReasoningMessageStart(id: nat, author: Author)
    | ReasoningMessageContent(reasoningId: Option<nat>, delta: string, author: Author)
    | ReasoningMessageEnd(id: nat, author: Author)
    | ReasoningEnd(id: nat, author: Author)
    | SubagentStarted(run: string, memberName: string, parent: Option<string>, parentCall: Option<string>,
      meta: Option<Metadata>)
    | SubagentFinished(run: string, result: Option<string>, meta: Option<Metadata>)
    | SubagentFailed(run: string, error: string, errorCode: Option<string>, meta: Option<Metadata>)
    | ToolCallStart(call: Id, toolName: string, author: Author)
    | ToolCallArgs(call: Id, args: string, author: Author)
    | ToolCallEnd(call: Id, author: Author)
    | ToolCallResult(resultId: Id, call: Id, content: string, author: Author)
    | Custom(customName: string, payload: string)

  /** The mixin's fields (`None` for an empty id) and its supply of minted ids. */
  datatype Pins = Pins(threadId: Option<Id>, runId: Option<Id>, next: nat)

  function Authored(sub: Option<string>, meta: Option<Metadata>): Author {
    Author(NonEmpty(sub), meta)
  }

  /** `given or uuid4()`. */
  function OrMint(given: Option<string>, n: nat): Id {
    if Truthy(given) then Given(given.value) else Minted(n)
  }

  function OrElse(id: Option<Id>, other: Id): Id {
    if id.Some? then id.value else other
  }

  /** What one event becomes, and the fields after it. */
  function Image(p: Pins, e: Event): (Pins, seq<AgUiEvent>) {
    match e
    case RunStartedEvent(run, thread, meta) =>
      var q := Pins(Some(OrElse(p.threadId, OrMint(thread, p.next + 1))), Some(OrElse(p.runId, OrMint(run, p.next))),
        p.next + 2);
      (q, [AgUiEvent.RunStarted(q.threadId.value, q.runId.value, Authored(None, meta))])
    case RunCompletedEvent(run, _, meta) =>
      (p.(next := p.next + 1), [RunFinished(p.threadId, OrElse(p.runId, OrMint(run, p.next)), Authored(None, meta))])
    case RunErrorEvent(code, message, meta) =>
      (p, [RunFailed(if Truthy(message) then message.value else "Agent run failed", code, Authored(None, meta))])
    case TextMessageStartedEvent(id, name, sub, meta) => (p, [TextMessageStart(id, name, Authored(sub, meta))])
    case RunContentEvent(id, text, sub, meta) =>
      (p, if text == "" then [] else [TextMessageContent(id, text, Authored(sub, meta))])
    case TextMessageCompletedEvent(id, sub, meta) => (p, [TextMessageEnd(id, Authored(sub, meta))])
    case ReasoningStartedEvent(id, sub, meta) =>
      (p, [ReasoningStart(id, Authored(sub, meta)), ReasoningMessageStart(id, Authored(sub, meta))])
    case ReasoningContentDeltaEvent(id, text, sub, meta) =>
      (p, if text == "" then [] else [ReasoningMessageContent(id, text, Authored(sub, meta))])
    case ReasoningStepEvent(id, text, sub, meta) =>
      (p, if text == "" then [] else [ReasoningMessageContent(id, text, Authored(sub, meta))])
    case ReasoningCompletedEvent(id, sub, meta) =>
      (p, [ReasoningMessageEnd(id, Authored(sub, meta)), ReasoningEnd(id, Authored(sub, meta))])
    case SubagentStartedEvent(run, name, parent, call, meta) => (p, [SubagentStarted(run, name, parent, call, meta)])
    case SubagentFinishedEvent(run, result, meta) => (p, [SubagentFinished(run, result, meta)])
    case SubagentErrorEvent(run, error, code, meta) => (p, [SubagentFailed(run, error, code, meta)])
    case ToolCallStartedEvent(tool, sub, meta) =>
      if tool.None? || !Truthy(tool.value.name) then (p, [])
      else
        var call, author := OrMint(tool.value.callId, p.next), Authored(sub, meta);
        var args := if Truthy(tool.value.args) then [ToolCallArgs(call, tool.value.args.value, author)] else [];
        (p.(next := p.next + 1), [ToolCallStart(call, tool.value.name.value, author)] + args)
    case ToolCallCompletedEvent(tool, output, sub, meta) =>
      if tool.None? then (p, [])
      else
        var call, author := OrMint(tool.value.callId, p.next), Authored(sub, meta);
        var content := if Truthy(tool.value.result) then tool.value.result else NonEmpty(output);
        var result := if content.Some? then [ToolCallResult(Minted(p.next + 1), call, content.value, author)] else [];
        (p.(next := p.next + 2), [ToolCallEnd(call, author)] + result)
    case ToolCallErrorEvent(tool, _, sub, meta) =>
      if tool.None? then (p, [])
      else (p.(next := p.next + 1), [ToolCallEnd(OrMint(tool.value.callId, p.next), Authored(sub, meta))])
    case CustomEvent(name, value) => (p, [Custom(name, value)])
  }

  /** The fields and the AG-UI stream after a whole trace. */
  function ImageOf(out: seq<Event>): (Pins, seq<AgUiEvent>) {
    if out == [] then (Pins(None, None, 0), [])
    else
      var (p, sent) := ImageOf(out[..|out| - 1]);
      var (q, more) := Image(p, out[|out| - 1]);
      (q, sent + more)
  }

  /** The mixin: it pins the first run and thread id and sends events one after another. */
  class AgUiMixin {
    var threadId: Option<Id>
    var runId: Option<Id>
    var nextId: nat
    var sent: seq<AgUiEvent>  // what the context's callback received

    ghost function View(): Pins
      reads this
    {
      Pins(threadId, runId, nextId)
    }

    constructor ()
      ensures View() == Pins(None, None, 0) && sent == []
    {
      threadId, runId, nextId, sent := None, None, 0, [];
    }

    method Send(e: AgUiEvent)
      modifies this`sent
      ensures sent == old(sent) + [e]
    {
      sent := sent + [e];
    }

    method Mint() returns (id: Id)
      modifies this`nextId
      ensures id == Minted(old(nextId)) && nextId == old(nextId) + 1
    {
      id := Minted(nextId);
      nextId := nextId + 1;
    }

    method HandleRunStarted(e: Event)
      requires e.RunStartedEvent?
      modifies this
      ensures View() == Image(old(View()), e).0 && sent == old(sent) + Image(old(View()), e).1
    {
      var freshRun := Mint();
      var freshThread := Mint();
      if runId.None? {
        runId := Some(if Truthy(e.runId) then Given(e.runId.value) else freshRun);
      }
      if threadId.None? {
        threadId := Some(if Truthy(e.threadId) then Given(e.threadId.value) else freshThread);
      }
      Send(AgUiEvent.RunStarted(threadId.value, runId.value, Authored(None, e.meta)));
    }

    method HandleRunCompleted(e: Event)
      requires e.RunCompletedEvent?
      modifies this
      ensures View() == Image(old(View()), e).0 && sent == old(sent) + Image(old(View()), e).1
    {
      var minted := Mint();
      var run := if runId.Some? then runId.value else if Truthy(e.runId) then Given(e.runId.value) else minted;
      Send(RunFinished(threadId, run, Authored(None, e.meta)));
    }

    method HandleToolCallStarted(e: Event)
      requires e.ToolCallStartedEvent?
      modifies this
      ensures View() == Image(old(View()), e).0 && sent == old(sent) + Image(old(View()), e).1
    {
      if e.tool.None? || !Truthy(e.tool.value.name) {
        return;
      }
      var tool, author := e.tool.value, Authored(e.subagent, e.meta);
      var minted := Mint();
      var call := if Truthy(tool.callId) then Given(tool.callId.value) else minted;
      Send(ToolCallStart(call, tool.name.value, author));
      if Truthy(tool.args) {
        Send(ToolCallArgs(call, tool.args.value, author));
        Associate(old(sent), [ToolCallStart(call, tool.name.value, author)],
          [ToolCallArgs(call, tool.args.value, author)]);
      }
    }

    method HandleToolCallCompleted(e: Event)
      requires e.ToolCallCompletedEvent?
      modifies this
      ensures View() == Image(old(View()), e).0 && sent == old(sent) + Image(old(View()), e).1
    {
      if e.tool.None? {
        return;
      }
      var tool, author := e.tool.value, Authored(e.subagent, e.meta);
      var minted := Mint();
      var call := if Truthy(tool.callId) then Given(tool.callId.value) else minted;
      Send(ToolCallEnd(call, author));
      var content := if Truthy(tool.result) then tool.result else NonEmpty(e.output);
      var resultId := Mint();
      if content.Some? {
        Send(ToolCallResult(resultId, call, content.value, author));
        Associate(old(sent), [ToolCallEnd(call, author)], [ToolCallResult(resultId, call, content.value, author)]);
      }
    }

    method HandleReasoningStarted(e: Event)
      requires e.ReasoningStartedEvent?
      modifies this
      ensures View() == Image(old(View()), e).0 && sent == old(sent) + Image(old(View()), e).1
    {
      var author := Authored(e.subagent, e.meta);
      Send(ReasoningStart(e.id, author));
      Send(ReasoningMessageStart(e.id, author));
      Associate(old(sent), [ReasoningStart(e.id, author)], [ReasoningMessageStart(e.id, author)]);
    }

    method HandleReasoningCompleted(e: Event)
      requires e.ReasoningCompletedEvent?
      modifies this
      ensures View() == Image(old(View()), e).0 && sent == old(sent) + Image(old(View()), e).1
    {
      var author := Authored(e.subagent, e.meta);
      Send(ReasoningMessageEnd(e.id, author));
      Send(ReasoningEnd(e.id, author));
      Associate(old(sent), [ReasoningMessageEnd(e.id, author)], [ReasoningEnd(e.id, author)]);
    }

    method SendMessage(e: Event)
      modifies this
      ensures View() == Image(old(View()), e).0 && sent == old(sent) + Image(old(View()), e).1
    {
      match e
      case RunStartedEvent(_, _, _) => HandleRunStarted(e);
      case RunCompletedEvent(_, _, _) => HandleRunCompleted(e);
      case RunErrorEvent(code, message, meta) =>
        Send(RunFailed(if Truthy(message) then message.value else "Agent run failed", code, Authored(None, meta)));
      case TextMessageStartedEvent(id, name, sub, meta) => Send(TextMessageStart(id, name, Authored(sub, meta)));
      case RunContentEvent(id, text, sub, meta) =>
        if text != "" { Send(TextMessageContent(id, text, Authored(sub, meta))); }
      case TextMessageCompletedEvent(id, sub, meta) => Send(TextMessageEnd(id, Authored(sub, meta)));
      case ReasoningStartedEvent(_, _, _) => HandleReasoningStarted(e);
      case ReasoningContentDeltaEvent(id, text, sub, meta) =>
        if text != "" { Send(ReasoningMessageContent(id, text, Authored(sub, meta))); }
      case ReasoningStepEvent(id, text, sub, meta) =>
        if text != "" { Send(ReasoningMessageContent(id, text, Authored(sub, meta))); }
      case ReasoningCompletedEvent(_, _, _) => HandleReasoningCompleted(e);
      case SubagentStartedEvent(run, name, parent, call, meta) => Send(SubagentStarted(run, name, parent, call, meta));
      case SubagentFinishedEvent(run, result, meta) => Send(SubagentFinished(run, result, meta));
      case SubagentErrorEvent(run, error, code, meta) => Send(SubagentFailed(run, error, code, meta));
      case ToolCallStartedEvent(_, _, _) => HandleToolCallStarted(e);
      case ToolCallCompletedEvent(_, _, _, _) => HandleToolCallCompleted(e);
      case ToolCallErrorEvent(tool, _, sub, meta) =>
        if tool.Some? {
          var minted := Mint();
          var call := if Truthy(tool.value.callId) then Given(tool.value.callId.value) else minted;
          Send(ToolCallEnd(call, Authored(sub, meta)));
        }
      case CustomEvent(name, value) => Send(Custom(name, value));
    }
  }
}
