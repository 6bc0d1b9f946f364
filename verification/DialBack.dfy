/**
 Dialing a consumer back and re-dialing it after every disconnect, as a state machine over all
 schedules of producing, sending, receiving, losing the link and dialing again.
 */
module DialBack {
  import opened Wrappers
  import opened Sequences
  import opened Delivery

  // ── The producer ──

  /** Seqs count up from 0 to the first end marker. */
  predicate SteadyFrom(log: seq<Entry>, base: nat) {
    || log == [] || log[0].Eos?
    || (log[0].stored == Number(base) && log[0].body.Some? && SteadyFrom(log[1..], base + 1))
  }

  function Produced(log: seq<Entry>, lastSeq: nat, output: Option<string>): (seq<Entry>, nat) {
    match output
    case None => (log + [Eos], lastSeq)
    case Some(body) => (log + [Data(Number(lastSeq + 1), Some(body))], lastSeq + 1)
  }

  /** The module's output callback: it numbers outputs and writes the end marker for `stream.end`. */
  class OutputSink {
    var log: seq<Entry>
    var lastSeq: nat

    /** The stream is seeded with `stream.start` under seq 0. */
    constructor (start: string)
      ensures log == [Data(Number(0), Some(start))] && lastSeq == 0
    {
      log, lastSeq := [Data(Number(0), Some(start))], 0;
    }

    /** `None` stands for `stream.end`. */
    method OnOutput(output: Option<string>)
      modifies this
      ensures (log, lastSeq) == Produced(old(log), old(lastSeq), output)
    {
      if output.None? {
        log := log + [Eos];
        return;
      }
      lastSeq := lastSeq + 1;
      log := log + [Data(Number(lastSeq), output)];
    }
  }

  // ── The protocol ──

  /** One dial: the reader's position and label, and the frames sent but not yet received. */
  datatype Link = Link(at: Cursor, lastLabel: int, skipTo: Option<int>, resume: bool, done: bool, wire: seq<Frame>)

  datatype State = State(log: seq<Entry>, lastSeq: nat, received: seq<Frame>, link: Option<Link>, dialed: bool)

  datatype Act = Produce(output: Option<string>) | Send | Receive | Disconnect | Dial

  function Start(first: string): State {
    State([Data(Number(0), Some(first))], 0, [], None, false)
  }

  /** The consumer's cursor: the label it saw last. */
  function LastSeen(received: seq<Frame>): int {
    if received == [] then 0 else received[|received| - 1].wireLabel
  }

  predicate Finished(received: seq<Frame>) {
    received != [] && received[|received| - 1].End?
  }

  function SendNext(log: seq<Entry>, l: Link): Link
    requires l.at.pos <= |log|
  {
    var (next, read) := ReadNext(log, l.at, l.skipTo);
    match read
    case Blocked => l
    case AtEos =>
      var last := if l.resume then next.lastSeq + 2 else l.lastLabel + 1;
      l.(at := next, done := true, wire := l.wire + [End(last)])
    case Struct(body) =>
      var last := NextLabel(l.resume, next.lastSeq, l.lastLabel);
      l.(at := next, lastLabel := last, wire := l.wire + [Output(last, body)])
  }

  /** The link of a new dial: the first drains from the start, later ones from the consumer's cursor. */
  function NewLink(s: State, limit: nat): Link {
    if !s.dialed then Link(Cursor(0, 0), 0, None, false, false, [])
    else
      var seen := LastSeen(s.received);
      var c := if seen < limit then seen else limit;
      Link(Cursor(0, 0), c, Some(c - 1), true, false, [])
  }

  /** One act; an act that is not possible changes nothing. A consumer that has the end may still be dialed again. */
  function Do(s: State, act: Act, limit: nat): State {
    match act
    case Produce(output) =>
      var (log, lastSeq) := Produced(s.log, s.lastSeq, output);
      s.(log := log, lastSeq := lastSeq)
    case Send =>
      if s.link.None? || s.link.value.done || s.link.value.at.pos > |s.log| then s
      else s.(link := Some(SendNext(s.log, s.link.value)))
    case Receive =>
      if s.link.None? || s.link.value.wire == [] then s
      else
        var l := s.link.value;
        s.(received := s.received + [l.wire[0]], link := Some(l.(wire := l.wire[1..])))
    case Disconnect => s.(link := None)
    case Dial =>
      if s.link.Some? then s
      else s.(link := Some(NewLink(s, limit)), dialed := true)
  }

  function After(first: string, acts: seq<Act>, limit: nat): State {
    if acts == [] then Start(first) else Do(After(first, acts[..|acts| - 1], limit), acts[|acts| - 1], limit)
  }

  // ── Steady logs ──

  lemma {:induction false} SteadyItems(log: seq<Entry>, base: nat)
    requires SteadyFrom(log, base)
    ensures |Items(log)| <= |log|
    ensures Ended(log) <==> |Items(log)| < |log|
    ensures forall i | 0 <= i < |Items(log)| ::
      log[i].Data? && log[i].stored == Number(base + i) && log[i].body == Some(Items(log)[i].body)
        && Items(log)[i].seqNo == base + i
    ensures Ended(log) ==> log[|Items(log)|].Eos?
    decreases |log|
  {
    if log != [] && log[0].Data? {
      SteadyItems(log[1..], base + 1);
      forall i | 0 <= i < |Items(log)|
        ensures log[i].Data? && log[i].stored == Number(base + i) && log[i].body == Some(Items(log)[i].body)
          && Items(log)[i].seqNo == base + i
      {
        if i > 0 {
          assert log[i] == log[1..][i - 1] && Items(log)[i] == Items(log[1..])[i - 1];
        }
      }
    }
  }

  lemma {:induction false} SteadyGrows(log: seq<Entry>, base: nat, e: Entry)
    requires SteadyFrom(log, base)
    requires Ended(log) || e.Eos? || (e.stored == Number(base + |log|) && e.body.Some?)
    ensures SteadyFrom(log + [e], base)
    ensures Items(log) <= Items(log + [e]) && (Ended(log) ==> Items(log + [e]) == Items(log) && Ended(log + [e]))
    decreases |log|
  {
    var more := log + [e];
    if log == [] {
      assert more[1..] == [] && more[0] == e;
    } else {
      assert more[0] == log[0] && more[1..] == log[1..] + [e];
      if log[0].Data? {
        SteadyGrows(log[1..], base + 1, e);
      }
    }
  }

  lemma {:induction false} NumberedAt(items: seq<Item>, lastLabel: int, ended: bool, i: nat)
    requires i < |items| + (if ended then 1 else 0)
    ensures |Numbered(items, lastLabel, ended)| == |items| + (if ended then 1 else 0)
    ensures Numbered(items, lastLabel, ended)[i]
         == if i < |items| then Output(lastLabel + i + 1, items[i].body) else End(lastLabel + |items| + 1)
    decreases |items|
  {
    if items != [] {
      NumberedDrop(items, lastLabel, ended, 0);
      if i > 0 {
        NumberedAt(items[1..], lastLabel + 1, ended, i - 1);
      }
    }
  }

  lemma FreshAt(log: seq<Entry>, i: nat)
    requires i < |Items(log)| + (if Ended(log) then 1 else 0)
    ensures |FreshFrames(log)| == |Items(log)| + (if Ended(log) then 1 else 0)
    ensures FreshFrames(log)[i] == if i < |Items(log)| then Output(i + 1, Items(log)[i].body) else End(|Items(log)| + 1)
  {
    FreshAndResumed(log, 0);
    NumberedAt(Items(log), 0, Ended(log), i);
  }

  lemma FreshLength(log: seq<Entry>)
    ensures |FreshFrames(log)| == |Items(log)| + (if Ended(log) then 1 else 0)
  {
    FreshAndResumed(log, 0);
    NumberedDrop(Items(log), 0, Ended(log), 0);
  }

  /** A longer log keeps the frames it had. */
  lemma FreshGrows(log: seq<Entry>, e: Entry)
    requires SteadyFrom(log, 0)
    requires Ended(log) || e.Eos? || (e.stored == Number(|log|) && e.body.Some?)
    ensures FreshFrames(log) <= FreshFrames(log + [e])
    ensures Ended(log) ==> FreshFrames(log + [e]) == FreshFrames(log)
  {
    hide FreshFrames, Items, SteadyFrom, Ended;
    SteadyGrows(log, 0, e);
    FreshLength(log);
    FreshLength(log + [e]);
    if Ended(log) {
      FreshAndResumed(log, 0);
      FreshAndResumed(log + [e], 0);
    } else {
      forall i | 0 <= i < |FreshFrames(log)| ensures FreshFrames(log)[i] == FreshFrames(log + [e])[i] {
        FreshAt(log, i);
        FreshAt(log + [e], i);
      }
    }
  }

  // ── What arrives ──

  /** The log's own frames from the first on; past the last, only the end again. */
  predicate InOrder(received: seq<Frame>, frames: seq<Frame>) {
    forall i | 0 <= i < |received| ::
      if i < |frames| then received[i] == frames[i]
      else frames != [] && frames[|frames| - 1].End? && received[i] == frames[|frames| - 1]
  }

  /** The label of the last output the consumer has. */
  function OutputsSeen(received: seq<Frame>): int {
    if Finished(received) then LastSeen(received) - 1 else LastSeen(received)
  }

  /** A dial now would cut the consumer's cursor down below an output it has. */
  predicate Rewinds(s: State, limit: nat) {
    s.dialed && OutputsSeen(s.received) > limit
  }

  /** The link in use, if any, was dialed like that. */
  predicate Stale(first: string, acts: seq<Act>, limit: nat) {
    acts != [] &&
    var before, act := acts[..|acts| - 1], acts[|acts| - 1];
    match act
    case Dial =>
      if After(first, before, limit).link.Some? then Stale(first, before, limit)
        else Rewinds(After(first, before, limit), limit)
    case Disconnect => false
    case _ => Stale(first, before, limit)
  }

  /** Over such a link a frame was received. */
  predicate Rewound(first: string, acts: seq<Act>, limit: nat) {
    acts != [] &&
    var before := acts[..|acts| - 1];
    Rewound(first, before, limit) || (Stale(first, before, limit) && acts[|acts| - 1].Receive?
      && Receives(After(first, before, limit)))
  }

  predicate Receives(s: State) {
    s.link.Some? && s.link.value.wire != []
  }

  // ── The invariant ──

  /** The index of the frame the link sends next. */
  ghost function Goal(l: Link, log: seq<Entry>): nat {
    if l.done then |FreshFrames(log)|
    else if l.resume && l.at == Cursor(0, 0) && l.skipTo.Some? && l.skipTo.value >= -1 then
      if l.skipTo.value + 1 <= |Items(log)| then l.skipTo.value + 1 else |Items(log)|
    else l.at.pos
  }

  /** A link reads in step with its labels, and has on the wire the frames before its goal. */
  ghost predicate Sound(l: Link, log: seq<Entry>) {
    var items, frames, goal := |Items(log)|, FreshFrames(log), Goal(l, log);
    && (if l.done then Ended(log)
        else if l.resume then
          && l.skipTo.Some? && l.skipTo.value >= -1
          && (if l.at == Cursor(0, 0) then l.skipTo.value + 1 <= items || Ended(log)
              else l.at == Cursor(l.at.pos, l.at.pos - 1) && 1 <= l.at.pos <= items && l.skipTo.value + 1 <= l.at.pos)
        else l.skipTo == None && l.at.pos <= items && l.lastLabel == l.at.pos)
    && |l.wire| <= goal <= |frames| && l.wire == frames[goal - |l.wire|..goal]
  }

  /** The index of the frame received next over the link. */
  ghost function NextIn(l: Link, log: seq<Entry>): int {
    Goal(l, log) - |l.wire|
  }

  ghost predicate Logged(s: State) {
    SteadyFrom(s.log, 0) && Items(s.log) != [] && (!Ended(s.log) ==> |s.log| == s.lastSeq + 1)
  }

  /** A stale link is about to repeat; any other continues where the consumer is, or repeats the end. */
  ghost predicate Continues(s: State, l: Link, stale: bool, limit: nat) {
    Sound(l, s.log) &&
    if stale then NextIn(l, s.log) == limit && limit < OutputsSeen(s.received)
    else NextIn(l, s.log) == |s.received| || (Finished(s.received) && |Items(s.log)| <= NextIn(l, s.log))
  }

  ghost predicate Inv(s: State, stale: bool, limit: nat) {
    && Logged(s)
    && InOrder(s.received, FreshFrames(s.log))
    && (!s.dialed ==> s.received == [] && s.link.None?)
    && (s.link.Some? ==> Continues(s, s.link.value, stale, limit))
  }

  /** What in-order frames say of the log: their labels, and whether it has ended. */
  lemma InOrderFacts(log: seq<Entry>, received: seq<Frame>)
    requires SteadyFrom(log, 0) && InOrder(received, FreshFrames(log))
    ensures |FreshFrames(log)| == |Items(log)| + (if Ended(log) then 1 else 0)
    ensures Finished(received) ==>
      Ended(log) && LastSeen(received) == |Items(log)| + 1 && |received| >= |FreshFrames(log)|
    ensures !Finished(received) ==> LastSeen(received) == |received| <= |Items(log)|
    ensures OutputsSeen(received) <= |Items(log)| && OutputsSeen(received) <= |received|
  {
    FreshLength(log);
    if received != [] {
      var i := if |received| <= |FreshFrames(log)| then |received| - 1 else |FreshFrames(log)| - 1;
      assert received[|received| - 1] == received[|received| - 1];
      if FreshFrames(log) != [] { FreshAt(log, i); }
    }
  }

  /** A resumed reader passes over everything up to the cursor. */
  lemma {:induction false} SkipAhead(log: seq<Entry>, j: nat, m: nat, skipTo: int)
    requires SteadyFrom(log, 0) && j <= m <= |Items(log)| && m <= |log| && m <= skipTo + 1
    ensures ReadNext(log, Cursor(j, if j == 0 then 0 else j - 1), Some(skipTo))
         == ReadNext(log, Cursor(m, if m == 0 then 0 else m - 1), Some(skipTo))
    decreases m - j
  {
    SteadyItems(log, 0);
    if j < m {
      SkipAhead(log, j + 1, m, skipTo);
    }
  }

  /** Reading at the goal: the item there, the end after the last item, or nothing yet. */
  lemma ReadAtGoal(log: seq<Entry>, m: nat, lastSeq: int, skipTo: Option<int>)
    requires SteadyFrom(log, 0) && m <= |Items(log)| && (skipTo.Some? && m < |Items(log)| ==> skipTo.value < m)
    ensures |Items(log)| <= |log|
    ensures var (next, read) := ReadNext(log, Cursor(m, lastSeq), skipTo);
      if m < |Items(log)| then next == Cursor(m + 1, m) && read == Struct(Items(log)[m].body)
      else if Ended(log) then next == Cursor(m + 1, lastSeq) && read == AtEos
      else next == Cursor(m, lastSeq) && read == Blocked
  {
    SteadyItems(log, 0);
  }

  /** Wherever a sound link reads from, it reads what stands at its goal. */
  lemma ReadsGoal(log: seq<Entry>, l: Link)
    requires SteadyFrom(log, 0) && Items(log) != [] && Sound(l, log) && !l.done
    ensures l.at.pos <= |log| && Goal(l, log) <= |Items(log)|
    ensures var (next, read) := ReadNext(log, l.at, l.skipTo);
      var m := Goal(l, log);
      if m < |Items(log)| then next == Cursor(m + 1, m) && read == Struct(Items(log)[m].body)
      else if Ended(log) then next.pos == m + 1 && (l.resume ==> next.lastSeq == m - 1) && read == AtEos
      else read == Blocked
  {
    SteadyItems(log, 0);
    var m := Goal(l, log);
    if l.resume && l.at == Cursor(0, 0) { SkipAhead(log, 0, m, l.skipTo.value); }
    ReadAtGoal(log, m, if l.resume then (if m == 0 then 0 else m - 1) else l.at.lastSeq, l.skipTo);
    hide FreshFrames, ReadNext, SteadyFrom, Items, Ended;
  }

  /** What a sound link sends is the frame at its goal, and it stays sound. */
  lemma SendIsNext(log: seq<Entry>, l: Link)
    requires SteadyFrom(log, 0) && Items(log) != [] && Sound(l, log) && !l.done
    ensures l.at.pos <= |log|
    ensures var k, m := SendNext(log, l), Goal(l, log);
      if m < |FreshFrames(log)|
      then k.wire == l.wire + [FreshFrames(log)[m]] && Sound(k, log) && NextIn(k, log) == NextIn(l, log)
      else k == l
  {
    ReadsGoal(log, l);
    FreshLength(log);
    var m, frames := Goal(l, log), FreshFrames(log);
    hide FreshFrames, ReadNext, SteadyFrom, Items, Ended;
    if m < |frames| {
      FreshAt(log, m);
      assert l.wire == frames[m - |l.wire|..m];
      SliceGrows(frames, m - |l.wire|, m);
      SentFrame(log, l);
      SentIsSound(log, l, m);
    }
  }

  lemma SentFrame(log: seq<Entry>, l: Link)
    requires SteadyFrom(log, 0) && Items(log) != [] && Sound(l, log) && !l.done && l.at.pos <= |log|
    requires Goal(l, log) < |FreshFrames(log)| == |Items(log)| + (if Ended(log) then 1 else 0)
    ensures var k, m := SendNext(log, l), Goal(l, log);
      && k.wire == l.wire + [FreshFrames(log)[m]] && k.resume == l.resume && k.skipTo == l.skipTo
      && (if m < |Items(log)| then !k.done && k.at == Cursor(m + 1, m)
        && (!l.resume ==> k.lastLabel == m + 1) else k.done)
  {
    ReadsGoal(log, l);
    FreshAt(log, Goal(l, log));
    hide FreshFrames, ReadNext, SteadyFrom, Items, Ended;
  }

  lemma SentIsSound(log: seq<Entry>, l: Link, m: nat)
    requires SteadyFrom(log, 0) && Items(log) != [] && Sound(l, log) && !l.done && l.at.pos <= |log|
    requires m == Goal(l, log) && m < |FreshFrames(log)| == |Items(log)| + (if Ended(log) then 1 else 0)
    requires var k := SendNext(log, l);
      && k.resume == l.resume && k.skipTo == l.skipTo && k.wire == FreshFrames(log)[m - |l.wire|..m + 1]
      && (if m < |Items(log)| then !k.done && k.at == Cursor(m + 1, m)
        && (!l.resume ==> k.lastLabel == m + 1) else k.done)
    ensures var k := SendNext(log, l); Sound(k, log) && NextIn(k, log) == NextIn(l, log)
  {
    hide SendNext, FreshFrames, Items, SteadyFrom, Ended;
  }

  // ── Every act keeps it ──

  lemma ProduceKeeps(s: State, output: Option<string>, stale: bool, limit: nat)
    requires Inv(s, stale, limit)
    ensures Inv(Do(s, Produce(output), limit), stale, limit)
  {
    var e := if output.Some? then Data(Number(s.lastSeq + 1), output) else Eos;
    var log := s.log + [e];
    SteadyGrows(s.log, 0, e);
    FreshGrows(s.log, e);
    EndedGrows(s.log, e);
    InOrderFacts(s.log, s.received);
    FreshLength(log);
    var t := Do(s, Produce(output), limit);
    assert t.log == log && t.received == s.received && t.link == s.link && t.dialed == s.dialed;
    hide FreshFrames, Items, SteadyFrom, Do, Produced;
    assert InOrder(t.received, FreshFrames(log));
    if s.link.Some? { SoundGrows(s.log, log, s.link.value); }
  }

  lemma SoundGrows(log: seq<Entry>, more: seq<Entry>, l: Link)
    requires Sound(l, log) && FreshFrames(log) <= FreshFrames(more) && Items(log) <= Items(more)
    requires Ended(log) ==> Ended(more) && FreshFrames(more) == FreshFrames(log) && Items(more) == Items(log)
    ensures Sound(l, more) && NextIn(l, more) == NextIn(l, log)
  {
    hide FreshFrames, Items, Ended;
  }

  lemma {:induction false} EndedGrows(log: seq<Entry>, e: Entry)
    ensures Ended(log + [e]) == (Ended(log) || e.Eos?)
    decreases |log|
  {
    if log != [] {
      assert (log + [e])[1..] == log[1..] + [e];
      EndedGrows(log[1..], e);
    } else {
      assert ([] + [e])[1..] == [];
    }
  }

  lemma SendKeeps(s: State, stale: bool, limit: nat)
    requires Inv(s, stale, limit)
    ensures Inv(Do(s, Send, limit), stale, limit)
  {
    if s.link.Some? && !s.link.value.done {
      SendIsNext(s.log, s.link.value);
      hide FreshFrames, Items, SteadyFrom, Sound, NextIn, SendNext;
    }
  }

  lemma SoundReceived(log: seq<Entry>, l: Link)
    requires Sound(l, log) && l.wire != []
    ensures var k := l.(wire := l.wire[1..]); Sound(k, log) && NextIn(k, log) == NextIn(l, log) + 1
  {
    hide FreshFrames, Items, Ended;
  }

  /** Over a link that is not stale, the frame received is the next one, or the end again. */
  lemma ReceiveKeeps(s: State, limit: nat)
    requires Inv(s, false, limit)
    ensures Inv(Do(s, Receive, limit), false, limit)
  {
    if Receives(s) {
      var l, frames := s.link.value, FreshFrames(s.log);
      var n := NextIn(l, s.log);
      InOrderFacts(s.log, s.received);
      assert l.wire[0] == frames[n];
      assert l.wire[1..] == frames[n + 1..n + |l.wire|];
      FreshAt(s.log, n);
      SoundReceived(s.log, l);
      hide FreshFrames, Items, SteadyFrom, Sound, Ended, LastSeen, OutputsSeen;
    }
  }

  /** Over a stale link it is an output under a label already passed, and no log makes up for that. */
  lemma StaleReceiveBreaks(s: State, limit: nat)
    requires Inv(s, true, limit) && Receives(s)
    ensures Broken(Do(s, Receive, limit).received)
  {
    var l, frames := s.link.value, FreshFrames(s.log);
    InOrderFacts(s.log, s.received);
    FreshAt(s.log, limit);
    hide FreshFrames, Items, SteadyFrom, Ended, InOrder, LastSeen, Finished, OutputsSeen;
    assert l.wire == frames[limit..limit + |l.wire|];
    assert l.wire[0] == frames[limit];
    var received := s.received + [l.wire[0]];
    assert received[|s.received|] == Output(limit + 1, Items(s.log)[limit].body);
    assert received == Do(s, Receive, limit).received;
  }

  ghost predicate Broken(received: seq<Frame>) {
    exists i | 0 <= i < |received| :: received[i].Output? && received[i].wireLabel <= i
  }

  lemma BrokenIsNotInOrder(received: seq<Frame>, log: seq<Entry>)
    requires Broken(received)
    ensures !InOrder(received, FreshFrames(log))
  {
    var i :| 0 <= i < |received| && received[i].Output? && received[i].wireLabel <= i;
    FreshLength(log);
    if i < |FreshFrames(log)| { FreshAt(log, i); }
  }

  lemma BrokenStays(s: State, act: Act, limit: nat)
    requires Broken(s.received)
    ensures Broken(Do(s, act, limit).received)
  {
    var t := Do(s, act, limit);
    assert s.received <= t.received;
    var i :| 0 <= i < |s.received| && s.received[i].Output? && s.received[i].wireLabel <= i;
    assert t.received[i] == s.received[i];
  }

  lemma DialKeeps(s: State, stale: bool, limit: nat)
    requires Inv(s, stale, limit)
    ensures Inv(Do(s, Dial, limit), if s.link.Some? then stale else Rewinds(s, limit), limit)
  {
    if s.link.None? {
      SteadyItems(s.log, 0);
      InOrderFacts(s.log, s.received);
      hide FreshFrames, Items, SteadyFrom, LastSeen;
      var l := NewLink(s, limit);
      assert l.wire == FreshFrames(s.log)[Goal(l, s.log)..Goal(l, s.log)];
    }
  }

  lemma {:induction false} AfterKeeps(first: string, acts: seq<Act>, limit: nat)
    ensures var s := After(first, acts, limit);
      if Rewound(first, acts, limit) then Broken(s.received) else Inv(s, Stale(first, acts, limit), limit)
    decreases |acts|
  {
    hide Inv, Broken;
    if acts == [] {
      StartKeeps(first, limit);
    } else {
      var before, act := acts[..|acts| - 1], acts[|acts| - 1];
      var s, stale := After(first, before, limit), Stale(first, before, limit);
      AfterKeeps(first, before, limit);
      if Rewound(first, before, limit) {
        BrokenStays(s, act, limit);
      } else {
        StepKeeps(s, act, stale, limit);
      }
    }
  }

  lemma StepKeeps(s: State, act: Act, stale: bool, limit: nat)
    requires Inv(s, stale, limit)
    ensures stale && act.Receive? && Receives(s) ==> Broken(Do(s, act, limit).received)
    ensures !(stale && act.Receive? && Receives(s)) ==>
      Inv(Do(s, act, limit),
          match act
          case Dial => if s.link.Some? then stale else Rewinds(s, limit)
          case Disconnect => false
          case _ => stale, limit)
  {
    match act
    case Produce(output) => hide Inv; ProduceKeeps(s, output, stale, limit);
    case Send => hide Inv; SendKeeps(s, stale, limit);
    case Receive =>
      hide Inv;
      if stale && Receives(s) {
        StaleReceiveBreaks(s, limit);
      } else if !stale {
        ReceiveKeeps(s, limit);
      }
    case Disconnect =>
    case Dial => hide Inv; DialKeeps(s, stale, limit);
  }

  lemma StartKeeps(first: string, limit: nat)
    ensures Inv(Start(first), false, limit)
  {
    var log := Start(first).log;
    assert log[1..] == [];
    assert Items(log) == [Item(0, first)] + Items([]);
  }

  // ── The theorems ──

  /** What the module put out: the first output and what it produced since; `None` is the end. */
  function Outputs(first: string, acts: seq<Act>): seq<Option<string>> {
    if acts == [] then [Some(first)]
    else
      var act := acts[|acts| - 1];
      Outputs(first, acts[..|acts| - 1]) + (if act.Produce? then [act.output] else [])
  }

  /** The frames owed for them: outputs labelled one after the other, then the end, and nothing past it. */
  function FramesFor(outs: seq<Option<string>>, number: int): seq<Frame> {
    if outs == [] then []
    else if outs[0].None? then [End(number)]
    else [Output(number, outs[0].value)] + FramesFor(outs[1..], number + 1)
  }

  predicate Holds(log: seq<Entry>, outs: seq<Option<string>>) {
    |log| == |outs| && forall i | 0 <= i < |log| ::
      if outs[i].None? then log[i] == Eos else log[i].Data? && log[i].stored.Number? && log[i].body == outs[i]
  }

  lemma {:induction false} LogHolds(first: string, acts: seq<Act>, limit: nat)
    ensures Holds(After(first, acts, limit).log, Outputs(first, acts))
    decreases |acts|
  {
    hide SendNext, NewLink;
    if acts != [] { LogHolds(first, acts[..|acts| - 1], limit); }
  }

  lemma {:induction false} FramesForLog(log: seq<Entry>, outs: seq<Option<string>>, number: int)
    requires Holds(log, outs)
    ensures Numbered(Items(log), number, Ended(log)) == FramesFor(outs, number + 1)
    decreases |log|
  {
    if log != [] && log[0].Data? {
      assert outs[0] == log[0].body && outs[0].Some?;
      forall i | 0 <= i < |log[1..]|
        ensures var o, e := outs[1..][i], log[1..][i];
          if o.None? then e == Eos else e.Data? && e.stored.Number? && e.body == o
      {
        assert outs[1..][i] == outs[i + 1] && log[1..][i] == log[i + 1];
      }
      FramesForLog(log[1..], outs[1..], number + 1);
      NumberedDrop(Items(log), number, Ended(log), 0);
    }
  }

  /**
   For every schedule of outputs, disconnects and re-dials: what the consumer has received is the
   module's outputs from the first on, none missing, repeated or relabelled, and at most the end
   again after them, if and only if no frame was received over a dial whose cursor the limit cut.
   */
  lemma InOrderIffNotRewound(first: string, acts: seq<Act>, limit: nat)
    ensures var s := After(first, acts, limit);
      && FreshFrames(s.log) == FramesFor(Outputs(first, acts), 1)
      && (InOrder(s.received, FreshFrames(s.log)) <==> !Rewound(first, acts, limit))
  {
    hide After, Rewound, Stale, FreshFrames, InOrder, Logged, Continues, Broken, Numbered, Items, Ended, Holds;
    AfterKeeps(first, acts, limit);
    var s := After(first, acts, limit);
    if Rewound(first, acts, limit) { BrokenIsNotInOrder(s.received, s.log); }
    LogHolds(first, acts, limit);
    FramesForLog(s.log, Outputs(first, acts), 0);
    FreshAndResumed(s.log, 0);
  }

  lemma FirstOutputSent(first: string)
    ensures var log, f := Start(first).log, Output(1, first);
      && SendNext(log, Link(Cursor(0, 0), 0, None, false, false, [])) == Link(Cursor(1, 0), 1, None, false, false, [f])
      && SendNext(log, Link(Cursor(0, 0), 0, Some(-1), true, false, []))
        == Link(Cursor(1, 0), 1, Some(-1), true, false, [f])
      && FreshFrames(log) == [f]
  {
    var log := Start(first).log;
    assert Drain(log, Cursor(1, 0), 1, None, false) == [];
  }

  lemma SeenTwice(f: Frame)
    requires f.Output?
    ensures !InOrder([f, f], [f])
  {
    assert [f, f][1] == f;
  }

  lemma Prefixes(acts: seq<Act>)
    ensures forall k | 0 < k <= |acts| :: acts[..k][..k - 1] == acts[..k - 1] && acts[..k][k - 1] == acts[k - 1]
    ensures acts[..|acts|] == acts && acts[..0] == []
  {
  }

  lemma AfterOne(first: string, acts: seq<Act>, k: nat, limit: nat)
    requires k < |acts|
    ensures After(first, acts[..k + 1], limit) == Do(After(first, acts[..k], limit), acts[k], limit)
  {
    assert acts[..k + 1][..k] == acts[..k];
    hide Do;
  }

  lemma SevenActs(first: string)
    ensures var log, f := Start(first).log, Output(1, first);
      var one := Link(Cursor(0, 0), 0, None, false, false, []);
      var two := Link(Cursor(0, 0), 0, Some(-1), true, false, []);
      && Do(Start(first), Dial, 0) == State(log, 0, [], Some(one), true)
      && Do(State(log, 0, [], Some(one), true), Send, 0)
         == State(log, 0, [], Some(one.(at := Cursor(1, 0), lastLabel := 1, wire := [f])), true)
      && Do(State(log, 0, [], Some(one.(at := Cursor(1, 0), lastLabel := 1, wire := [f])), true), Receive, 0)
         == State(log, 0, [f], Some(one.(at := Cursor(1, 0), lastLabel := 1)), true)
      && Do(State(log, 0, [f], Some(one.(at := Cursor(1, 0), lastLabel := 1)), true), Disconnect, 0)
         == State(log, 0, [f], None, true)
      && Do(State(log, 0, [f], None, true), Dial, 0) == State(log, 0, [f], Some(two), true)
      && Do(State(log, 0, [f], Some(two), true), Send, 0)
         == State(log, 0, [f], Some(two.(at := Cursor(1, 0), lastLabel := 1, wire := [f])), true)
      && Do(State(log, 0, [f], Some(two.(at := Cursor(1, 0), lastLabel := 1, wire := [f])), true), Receive, 0)
         == State(log, 0, [f, f], Some(two.(at := Cursor(1, 0), lastLabel := 1)), true)
  {
    var f := Output(1, first);
    FirstOutputSent(first);
    assert [f][1..] == [] && [f] + [f] == [f, f];
    hide SendNext;
  }

  /** The link is lost after the first output, and the second dial, at limit 0, sends it again. */
  lemma DialedTwice(first: string)
    ensures var acts := [Dial, Send, Receive, Disconnect, Dial, Send, Receive];
      var log, f := Start(first).log, Output(1, first);
      && After(first, acts[..4], 0) == State(log, 0, [f], None, true)
      && After(first, acts[..6], 0) == State(log, 0, [f], Some(Link(Cursor(1, 0), 1, Some(-1), true, false, [f])), true)
      && After(first, acts, 0) == State(log, 0, [f, f], Some(Link(Cursor(1, 0), 1, Some(-1), true, false, [])), true)
  {
    var acts := [Dial, Send, Receive, Disconnect, Dial, Send, Receive];
    assert acts[..0] == [] && acts[..7] == acts;
    assert After(first, acts[..0], 0) == Start(first);
    hide *;
    SevenActs(first);
    AfterOne(first, acts, 0, 0);
    AfterOne(first, acts, 1, 0);
    AfterOne(first, acts, 2, 0);
    AfterOne(first, acts, 3, 0);
    AfterOne(first, acts, 4, 0);
    AfterOne(first, acts, 5, 0);
    AfterOne(first, acts, 6, 0);
  }

  /** With a limit of 0: an output, a lost link and a second dial bring that output again. */
  lemma LimitRewinds(first: string)
    ensures var acts := [Dial, Send, Receive, Disconnect, Dial, Send, Receive];
      var s := After(first, acts, 0);
      && Rewound(first, acts, 0)
      && s.received == [Output(1, first), Output(1, first)] && !InOrder(s.received, FreshFrames(s.log))
  {
    var acts := [Dial, Send, Receive, Disconnect, Dial, Send, Receive];
    DialedTwice(first);
    FirstOutputSent(first);
    SeenTwice(Output(1, first));
    Prefixes(acts);
    hide After, SendNext, FreshFrames, InOrder;
    assert Stale(first, acts[..5], 0) && Stale(first, acts[..6], 0);
  }

  /** Every dial finds the consumer within the limit. */
  ghost predicate WithinLimit(first: string, acts: seq<Act>, limit: nat) {
    forall k | 0 <= k < |acts| && acts[k].Dial? :: OutputsSeen(After(first, acts[..k], limit).received) <= limit
  }

  lemma {:induction false} WithinLimitNeverRewinds(first: string, acts: seq<Act>, limit: nat)
    requires WithinLimit(first, acts, limit)
    ensures !Stale(first, acts, limit) && !Rewound(first, acts, limit)
    decreases |acts|
  {
    hide After;
    if acts != [] {
      var before := acts[..|acts| - 1];
      forall k | 0 <= k < |before| && before[k].Dial?
          ensures OutputsSeen(After(first, before[..k], limit).received) <= limit {
        assert before[..k] == acts[..k];
      }
      WithinLimitNeverRewinds(first, before, limit);
    }
  }

  /** The frames received are a start of the log's, labelled 1, 2, …, or all of them and then the end again. */
  ghost predicate Exact(received: seq<Frame>, frames: seq<Frame>) {
    && (|received| <= |frames| ==> received <= frames)
    && (|received| > |frames| ==> frames <= received && Finished(frames))
    && (forall i | 0 <= i < |received| :: received[i].wireLabel == if i < |frames| then i + 1 else |frames|)
    && (forall i | |frames| <= i < |received| :: received[i] == frames[|frames| - 1])
    && (Finished(received) ==> |received| >= |frames|)
  }

  lemma InOrderIsExact(log: seq<Entry>, received: seq<Frame>)
    requires SteadyFrom(log, 0) && InOrder(received, FreshFrames(log))
    ensures Exact(received, FreshFrames(log))
  {
    hide FreshFrames, Items, Ended, SteadyFrom, OutputsSeen, LastSeen;
    var frames := FreshFrames(log);
    InOrderFacts(log, received);
    forall i | 0 <= i < |received| ensures received[i].wireLabel == if i < |frames| then i + 1 else |frames| {
      FreshAt(log, if i < |frames| then i else |frames| - 1);
    }
  }

  /** So, with every cursor within the limit: consecutive labels, and everything once the end has come. */
  lemma ExactlyOnceInOrder(first: string, acts: seq<Act>, limit: nat)
    requires WithinLimit(first, acts, limit)
    ensures var s := After(first, acts, limit); Exact(s.received, FreshFrames(s.log))
  {
    hide After, Stale, Rewound, WithinLimit, FreshFrames, InOrder, Items, Ended, SteadyFrom, Continues, Exact;
    WithinLimitNeverRewinds(first, acts, limit);
    AfterKeeps(first, acts, limit);
    var s := After(first, acts, limit);
    InOrderIsExact(s.log, s.received);
  }

  /** A dial after the consumer has the end brings the end once more, under the same label, and nothing else. */
  lemma DialAfterEnd(first: string, acts: seq<Act>, limit: nat)
    requires WithinLimit(first, acts, limit)
    requires var s := After(first, acts, limit);
      Finished(s.received) && s.link.None? && s.dialed && OutputsSeen(s.received) <= limit
    ensures var s := After(first, acts, limit);
      var t := Do(Do(Do(s, Dial, limit), Send, limit), Receive, limit);
      && t.received == s.received + [s.received[|s.received| - 1]]
      && Do(Do(t, Send, limit), Receive, limit) == t
  {
    hide After, Do, Inv, Stale, Rewound, WithinLimit, OutputsSeen, NewLink, SendNext;
    WithinLimitNeverRewinds(first, acts, limit);
    AfterKeeps(first, acts, limit);
    var s := After(first, acts, limit);
    RedialSendsEnd(s, limit);
    OneFrameRound(s, s.received[|s.received| - 1], limit);
  }

  /** A dial whose link sends one frame and is done brings that frame, and then nothing. */
  lemma OneFrameRound(s: State, f: Frame, limit: nat)
    requires s.link.None? && s.dialed
    requires var l := NewLink(s, limit);
      l.at.pos <= |s.log| && !l.done && SendNext(s.log, l).done && SendNext(s.log, l).wire == [f]
    ensures var t := Do(Do(Do(s, Dial, limit), Send, limit), Receive, limit);
      t.received == s.received + [f] && Do(Do(t, Send, limit), Receive, limit) == t
  {
    hide SendNext, NewLink;
  }

  lemma RedialSendsEnd(s: State, limit: nat)
    requires Inv(s, false, limit) && Finished(s.received) && s.link.None? && s.dialed
      && OutputsSeen(s.received) <= limit
    ensures var l := NewLink(s, limit);
      && l.at.pos <= |s.log| && !l.done
      && SendNext(s.log, l).done && SendNext(s.log, l).wire == [s.received[|s.received| - 1]]
  {
    InOrderFacts(s.log, s.received);
    DialKeeps(s, false, limit);
    var l, frames := NewLink(s, limit), FreshFrames(s.log);
    RedialGoal(s, limit);
    hide FreshFrames, Items, SteadyFrom, Ended, LastSeen, OutputsSeen, NewLink, Sound, Goal, SendNext;
    SendIsNext(s.log, l);
    SentAtEnd(s.log, l);
    assert s.received[|s.received| - 1] == frames[|frames| - 1];
  }

  lemma RedialGoal(s: State, limit: nat)
    requires Inv(s, false, limit) && Finished(s.received) && s.link.None? && s.dialed
      && OutputsSeen(s.received) <= limit
    ensures var l := NewLink(s, limit); !l.done && l.wire == [] && Sound(l, s.log) && Goal(l, s.log) == |Items(s.log)|
  {
    InOrderFacts(s.log, s.received);
    DialKeeps(s, false, limit);
    hide FreshFrames, Items, SteadyFrom, Ended, LastSeen, Sound, Finished, InOrder;
  }

  lemma SentAtEnd(log: seq<Entry>, l: Link)
    requires SteadyFrom(log, 0) && Items(log) != [] && Sound(l, log) && !l.done && Goal(l, log) == |Items(log)|
      && Ended(log) && l.at.pos <= |log|
    ensures SendNext(log, l).done
  {
    SteadyItems(log, 0);
    if l.resume && l.at == Cursor(0, 0) { SkipAhead(log, 0, |Items(log)|, l.skipTo.value); }
    ReadAtGoal(log, |Items(log)|, if l.resume then |Items(log)| - 1 else l.at.lastSeq, l.skipTo);
  }

  /** A cursor beyond the limit is cut down to it, and the frames in between are sent again. */
  lemma CursorPastLimitRepeats(log: seq<Entry>, limit: nat, c: nat)
    requires SteadyFrom(log, 0) && Items(log) != [] && limit < c <= |Items(log)|
    ensures |FreshFrames(log)| >= |Items(log)|
    ensures ResumedFrames(log, limit) == FreshFrames(log)[limit..]
    ensures |ResumedFrames(log, limit)| > |FreshFrames(log)[c..]|
  {
    SteadyIsFaithful(log);
    FaithfulResumes(log, limit);
    FreshLength(log);
  }

  lemma SteadyIsFaithful(log: seq<Entry>)
    requires SteadyFrom(log, 0) && Items(log) != []
    ensures Faithful(log)
  {
    SteadyItems(log, 0);
    SteadyLast(log, 0, 0);
  }

  lemma {:induction false} SteadyLast(log: seq<Entry>, base: nat, last: int)
    requires SteadyFrom(log, base)
    ensures LastSeq(log, last) == if Items(log) == [] then last else base + |Items(log)| - 1
    decreases |log|
  {
    if log != [] && log[0].Data? {
      SteadyLast(log[1..], base + 1, base);
    }
  }
}
