/**
 The durable output log of one task, the reader that turns it into wire frames, and exactly when a
 consumer that reconnects gets precisely what it has not yet seen.
 */
module Delivery {
  import opened Wrappers
  import opened Sequences

  /** The `seq` field of a log entry: missing, not a number, or a number. */
  datatype StoredSeq = Absent | Malformed | Number(n: int)

  /** A log entry. A `body` of `None` is a payload that is missing or does not decode. */
  datatype Entry = Eos | Data(stored: StoredSeq, body: Option<string>)

  /** A frame on the wire: an output or the final `stream.end`. */
  datatype Frame = Output(wireLabel: int, body: string) | End(wireLabel: int)

  // ── The reader ──

  /** What asking the reader for the next struct gives; `Blocked` waits for the log to grow. */
  datatype Read = Struct(body: string) | AtEos | Blocked

  /** The reader's position in the log and the last stored seq it has seen. */
  datatype Cursor = Cursor(pos: nat, lastSeq: int)

  function SeqOf(s: StoredSeq): Option<int> {
    match s
    case Absent => Some(0)
    case Malformed => None
    case Number(n) => Some(n)
  }

  /** The reader loop: malformed entries are passed over, skipped and empty ones only advance `lastSeq`. */
  function ReadNext(log: seq<Entry>, at: Cursor, skipTo: Option<int>): (r: (Cursor, Read))
    requires at.pos <= |log|
    ensures at.pos <= r.0.pos <= |log|
    ensures !r.1.Blocked? ==> at.pos < r.0.pos
    decreases |log| - at.pos
  {
    if at.pos == |log| then (at, Blocked)
    else
      match log[at.pos]
      case Eos => (at.(pos := at.pos + 1), AtEos)
      case Data(stored, body) =>
        if SeqOf(stored).None? then ReadNext(log, at.(pos := at.pos + 1), skipTo)
        else
          var next := Cursor(at.pos + 1, SeqOf(stored).value);
          if (skipTo.Some? && next.lastSeq <= skipTo.value) || body.None? then ReadNext(log, next, skipTo)
          else (next, Struct(body.value))
  }

  class ProtoStreamReader {
    var at: Cursor

    constructor ()
      ensures at == Cursor(0, 0)
    {
      at := Cursor(0, 0);
    }

    /** The saved position, or the start when none was saved. */
    method RestoreCursor(saved: Option<nat>)
      modifies this
      ensures at == (if saved.Some? then old(at).(pos := saved.value) else old(at))
    {
      if saved.Some? {
        at := at.(pos := saved.value);
      }
    }

    method Next(log: seq<Entry>, skipTo: Option<int>) returns (r: Read)
      requires at.pos <= |log|
      modifies this
      ensures (at, r) == ReadNext(log, old(at), skipTo)
    {
      while at.pos < |log|
        invariant at.pos <= |log|
        invariant ReadNext(log, at, skipTo) == ReadNext(log, old(at), skipTo)
        decreases |log| - at.pos
      {
        var entry := log[at.pos];
        if entry.Eos? {
          at := at.(pos := at.pos + 1);
          return AtEos;
        }
        var seqNo := SeqOf(entry.stored);
        if seqNo.None? {
          at := at.(pos := at.pos + 1);
          continue;
        }
        at := Cursor(at.pos + 1, seqNo.value);
        if skipTo.Some? && seqNo.value <= skipTo.value {
          continue;
        }
        if entry.body.None? {
          continue;
        }
        return Struct(entry.body.value);
      }
      return Blocked;
    }
  }

  // ── From the log to frames ──

  /** The label of the next output: counted from the start when fresh, taken from the stored seq on resume. */
  function NextLabel(resume: bool, lastSeq: int, lastLabel: int): int {
    if resume then lastSeq + 1 else lastLabel + 1
  }

  /** The frames the log holds from a cursor on. */
  function Drain(log: seq<Entry>, at: Cursor, lastLabel: int, skipTo: Option<int>, resume: bool): seq<Frame>
    requires at.pos <= |log|
    decreases |log| - at.pos
  {
    var (next, read) := ReadNext(log, at, skipTo);
    match read
    case Blocked => []
    case AtEos => [End(if resume then next.lastSeq + 2 else lastLabel + 1)]
    case Struct(body) =>
      var l := NextLabel(resume, next.lastSeq, lastLabel);
      [Output(l, body)] + Drain(log, next, l, skipTo, resume)
  }

  /** The frames of a first delivery. */
  function FreshFrames(log: seq<Entry>): seq<Frame> {
    Drain(log, Cursor(0, 0), 0, None, false)
  }

  /** The frames of a delivery resumed by a consumer that last saw label `cursor`. */
  function ResumedFrames(log: seq<Entry>, cursor: int): seq<Frame> {
    Drain(log, Cursor(0, 0), cursor, Some(cursor - 1), true)
  }

  /**
   What a consumer is owed. A resumed one gets what stands past its cursor, under its own seqs. A late client
   that has seen something is read to from the saved position, which is exact precisely when as many outputs
   stand before it as the client has seen; without one it gets everything.
   */
  ghost predicate Owed(log: seq<Entry>, fromSeq: int, resume: bool, saved: Option<nat>, frames: seq<Frame>)
    requires saved.Some? ==> saved.value <= |log|
  {
    && (resume ==>
          && frames == ResumedFrames(log, fromSeq)
          && frames == Selected(Items(log), fromSeq - 1, Ended(log), LastSeq(log, 0)))
    && (!resume && fromSeq == 0 ==> frames == FreshFrames(log))
    && (!resume && (fromSeq <= 0 || saved.None?) ==> frames == Numbered(Items(log), fromSeq, Ended(log)))
    && (!resume && fromSeq > 0 && saved.Some? ==>
          frames == Numbered(Items(log[saved.value..]), fromSeq, Ended(log[saved.value..])))
    && (!resume && 0 < fromSeq <= |Items(log)| && saved.Some? && !Ended(log[..saved.value]) ==>
          && fromSeq <= |FreshFrames(log)|
          && (frames == FreshFrames(log)[fromSeq..] <==> |Items(log[..saved.value])| == fromSeq))
  }

  /** Everything the log currently holds, as frames. */
  method ConsumeFromRedis(log: seq<Entry>, fromSeq: int, resume: bool, saved: Option<nat>) returns (frames: seq<Frame>)
    requires saved.Some? ==> saved.value <= |log|
    ensures Owed(log, fromSeq, resume, saved, frames)
  {
    hide *;
    var reader := new ProtoStreamReader();
    var skipTo := None;
    if resume {
      skipTo := Some(fromSeq - 1);
    } else if fromSeq > 0 {
      reader.RestoreCursor(saved);
    }
    frames := [];
    var lastLabel := fromSeq;
    ghost var all := Drain(log, reader.at, fromSeq, skipTo, resume);
    Served(log, fromSeq, resume, saved, reader.at, skipTo);
    while true
      invariant reader.at.pos <= |log|
      invariant Owed(log, fromSeq, resume, saved, all)
      invariant frames + Drain(log, reader.at, lastLabel, skipTo, resume) == all
      decreases |log| - reader.at.pos
    {
      ghost var from := reader.at;
      var read := reader.Next(log, skipTo);
      DrainOn(log, from, reader.at, read, lastLabel, skipTo, resume, frames, all);
      match read
      case Blocked =>
        return frames;
      case AtEos =>
        var last := if resume then reader.at.lastSeq + 2 else lastLabel + 1;
        return frames + [End(last)];
      case Struct(body) =>
        lastLabel := if resume then reader.at.lastSeq + 1 else lastLabel + 1;
        frames := frames + [Output(lastLabel, body)];
    }
  }

  // ── What the log says, independently of the reader ──

  datatype Item = Item(seqNo: int, body: string)

  /** The deliverable entries before the first end marker. */
  function Items(log: seq<Entry>): seq<Item> {
    if log == [] || log[0].Eos? then []
    else if log[0].body.Some? && SeqOf(log[0].stored).Some?
    then [Item(SeqOf(log[0].stored).value, log[0].body.value)] + Items(log[1..])
    else Items(log[1..])
  }

  predicate Ended(log: seq<Entry>) {
    log != [] && (log[0].Eos? || Ended(log[1..]))
  }

  /** The last readable seq before the first end marker, `last` if there is none. */
  function LastSeq(log: seq<Entry>, last: int): int {
    if log == [] || log[0].Eos? then last
    else LastSeq(log[1..], if SeqOf(log[0].stored).Some? then SeqOf(log[0].stored).value else last)
  }

  /** Consecutive labels, one per item, then the end. */
  function Numbered(items: seq<Item>, lastLabel: int, ended: bool): seq<Frame> {
    if items == [] then (if ended then [End(lastLabel + 1)] else [])
    else [Output(lastLabel + 1, items[0].body)] + Numbered(items[1..], lastLabel + 1, ended)
  }

  /** Items past `skipTo`, each labelled by its own seq, then the end. */
  function Selected(items: seq<Item>, skipTo: int, ended: bool, last: int): seq<Frame> {
    if items == [] then (if ended then [End(last + 2)] else [])
    else (if items[0].seqNo > skipTo then [Output(items[0].seqNo + 1, items[0].body)] else [])
         + Selected(items[1..], skipTo, ended, last)
  }

  lemma {:induction false} DrainFresh(log: seq<Entry>, at: Cursor, lastLabel: int)
    requires at.pos <= |log|
    ensures Drain(log, at, lastLabel, None, false) == Numbered(Items(log[at.pos..]), lastLabel, Ended(log[at.pos..]))
    decreases |log| - at.pos
  {
    if at.pos < |log| {
      assert log[at.pos..][1..] == log[at.pos + 1..];
      if log[at.pos].Data? {
        var n := SeqOf(log[at.pos].stored);
        var next := Cursor(at.pos + 1, if n.Some? then n.value else at.lastSeq);
        if n.None? || log[at.pos].body.None? {
          DrainFresh(log, next, lastLabel);
          assert Drain(log, at, lastLabel, None, false) == Drain(log, next, lastLabel, None, false);
        } else {
          DrainFresh(log, next, lastLabel + 1);
        }
      }
    }
  }

  /** An entry that is not delivered does not change what the rest of the log drains to. */
  lemma DrainPasses(log: seq<Entry>, at: Cursor, lastLabel: int, skipTo: int)
    requires at.pos < |log| && log[at.pos].Data?
    ensures var n := SeqOf(log[at.pos].stored);
      var next := Cursor(at.pos + 1, if n.Some? then n.value else at.lastSeq);
      n.None? || log[at.pos].body.None? || n.value <= skipTo ==>
        Drain(log, at, lastLabel, Some(skipTo), true) == Drain(log, next, lastLabel, Some(skipTo), true)
  {
  }

  /** An entry past the cursor is delivered under its own label. */
  lemma DrainDelivers(log: seq<Entry>, at: Cursor, lastLabel: int, skipTo: int)
    requires at.pos < |log| && log[at.pos].Data? && log[at.pos].body.Some?
    requires var n := SeqOf(log[at.pos].stored); n.Some? && n.value > skipTo
    ensures var n := SeqOf(log[at.pos].stored).value;
      Drain(log, at, lastLabel, Some(skipTo), true)
      == [Output(n + 1, log[at.pos].body.value)] + Drain(log, Cursor(at.pos + 1, n), n + 1, Some(skipTo), true)
  {
  }

  /** At the end of what is there, and at an end marker. */
  lemma DrainStops(log: seq<Entry>, at: Cursor, lastLabel: int, skipTo: int)
    requires at.pos <= |log| && (at.pos < |log| ==> log[at.pos].Eos?)
    ensures Drain(log, at, lastLabel, Some(skipTo), true) == if at.pos < |log| then [End(at.lastSeq + 2)] else []
  {
  }

  /** The same three cases for the direct reading. */
  lemma SelectedAt(log: seq<Entry>, skipTo: int, last: int)
    ensures var all := Selected(Items(log), skipTo, Ended(log), LastSeq(log, last));
      if log == [] then all == []
      else if log[0].Eos? then all == [End(last + 2)]
      else
        var n := SeqOf(log[0].stored);
        var rest := Selected(Items(log[1..]), skipTo, Ended(log[1..]),
          LastSeq(log[1..], if n.Some? then n.value else last));
        all == if n.Some? && log[0].body.Some?
          && n.value > skipTo then [Output(n.value + 1, log[0].body.value)] + rest else rest
  {
    if log != [] && log[0].Data? && log[0].body.Some? && SeqOf(log[0].stored).Some? {
      var item := Item(SeqOf(log[0].stored).value, log[0].body.value);
      assert ([item] + Items(log[1..]))[1..] == Items(log[1..]);
    }
  }

  lemma {:induction false} DrainResumed(log: seq<Entry>, at: Cursor, lastLabel: int, skipTo: int)
    requires at.pos <= |log|
    ensures Drain(log, at, lastLabel, Some(skipTo), true)
         == Selected(Items(log[at.pos..]), skipTo, Ended(log[at.pos..]), LastSeq(log[at.pos..], at.lastSeq))
    decreases |log| - at.pos
  {
    hide Drain, Selected, Items, Ended, LastSeq;
    SelectedAt(log[at.pos..], skipTo, at.lastSeq);
    if at.pos == |log| || log[at.pos].Eos? {
      DrainStops(log, at, lastLabel, skipTo);
    } else {
      assert log[at.pos..][1..] == log[at.pos + 1..];
      var n := SeqOf(log[at.pos].stored);
      var next := Cursor(at.pos + 1, if n.Some? then n.value else at.lastSeq);
      if n.Some? && log[at.pos].body.Some? && n.value > skipTo {
        DrainResumed(log, next, n.value + 1, skipTo);
        DrainDelivers(log, at, lastLabel, skipTo);
      } else {
        DrainResumed(log, next, lastLabel, skipTo);
        DrainPasses(log, at, lastLabel, skipTo);
      }
    }
  }

  // ── Resuming, exactly ──

  /** Stored seqs count the deliverable entries from 0, and the last readable one is the last of them. */
  predicate Faithful(log: seq<Entry>) {
    var items := Items(log);
    && (forall i | 0 <= i < |items| :: items[i].seqNo == i)
    && (Ended(log) ==> LastSeq(log, 0) == |items| - 1)
  }

  lemma {:induction false} NumberedDrop(items: seq<Item>, lastLabel: int, ended: bool, c: nat)
    requires c <= |items|
    ensures |Numbered(items, lastLabel, ended)| == |items| + (if ended then 1 else 0)
    ensures Numbered(items, lastLabel, ended)[c..] == Numbered(items[c..], lastLabel + c, ended)
    decreases |items|
  {
    if items != [] {
      var rest := Numbered(items[1..], lastLabel + 1, ended);
      NumberedDrop(items[1..], lastLabel + 1, ended, if c > 0 then c - 1 else 0);
      if c > 0 {
        assert items[1..][c - 1..] == items[c..];
        assert Numbered(items, lastLabel, ended)[c..] == rest[c - 1..];
      } else {
        assert items[0..] == items;
      }
    }
  }

  /** With items numbered from `base`, selecting past `skipTo` is dropping the ones up to it. */
  lemma {:induction false} SelectedIsSuffix(items: seq<Item>, base: int, skipTo: int, ended: bool, last: int)
    requires forall i | 0 <= i < |items| :: items[i].seqNo == base + i
    requires ended ==> last == base + |items| - 1
    requires skipTo < base + |items|
    ensures var drop := if skipTo < base then 0 else skipTo - base + 1;
      Selected(items, skipTo, ended, last) == Numbered(items[drop..], base + drop, ended)
    decreases |items|
  {
    if items != [] {
      forall i | 0 <= i < |items[1..]| ensures items[1..][i].seqNo == base + 1 + i {
        assert items[1..][i] == items[i + 1];
      }
      SelectedIsSuffix(items[1..], base + 1, skipTo, ended, last);
      var drop := if skipTo < base then 0 else skipTo - base + 1;
      if drop == 0 {
        assert items[drop..] == items && items[1..][0..] == items[1..];
      } else {
        assert items[1..][drop - 1..] == items[drop..];
      }
    }
  }

  lemma {:induction false} SelectedLength(items: seq<Item>, skipTo: int, ended: bool, last: int)
    ensures |Selected(items, skipTo, ended, last)| <= |items| + (if ended then 1 else 0)
    decreases |items|
  {
    if items != [] {
      SelectedLength(items[1..], skipTo, ended, last);
    }
  }

  /** If selecting past -1 gives consecutive labels, the items were numbered consecutively. */
  lemma {:induction false} NumberedOnlyIf(items: seq<Item>, base: nat, ended: bool, last: int)
    requires Selected(items, -1, ended, last) == Numbered(items, base, ended)
    ensures forall i | 0 <= i < |items| :: items[i].seqNo == base + i
    ensures ended ==> last == base + |items| - 1
    decreases |items|
  {
    if items != [] {
      NumberedDrop(items, base, ended, 0);
      SelectedLength(items[1..], -1, ended, last);
      assert items[0].seqNo > -1;
      var s, n := Selected(items, -1, ended, last), Numbered(items, base, ended);
      assert s[0] == n[0];
      assert s[1..] == Selected(items[1..], -1, ended, last) && n[1..] == Numbered(items[1..], base + 1, ended);
      NumberedOnlyIf(items[1..], base + 1, ended, last);
    }
  }

  lemma FreshAndResumed(log: seq<Entry>, c: int)
    ensures FreshFrames(log) == Numbered(Items(log), 0, Ended(log))
    ensures ResumedFrames(log, c) == Selected(Items(log), c - 1, Ended(log), LastSeq(log, 0))
  {
    assert log[0..] == log;
    DrainFresh(log, Cursor(0, 0), 0);
    DrainResumed(log, Cursor(0, 0), c, c - 1);
  }

  predicate ResumesAt(log: seq<Entry>, c: nat)
    requires c <= |Items(log)|
  {
    |FreshFrames(log)| >= c && ResumedFrames(log, c) == FreshFrames(log)[c..]
  }

  lemma FaithfulResumes(log: seq<Entry>, c: nat)
    requires Faithful(log) && c <= |Items(log)|
    ensures ResumesAt(log, c)
  {
    FreshAndResumed(log, c);
    NumberedDrop(Items(log), 0, Ended(log), c);
    SelectedIsSuffix(Items(log), 0, c - 1, Ended(log), LastSeq(log, 0));
  }

  lemma ResumesFromStart(log: seq<Entry>)
    requires ResumesAt(log, 0)
    ensures Faithful(log)
  {
    FreshAndResumed(log, 0);
    assert FreshFrames(log)[0..] == FreshFrames(log);
    NumberedOnlyIf(Items(log), 0, Ended(log), LastSeq(log, 0));
  }

  /**
   Whatever the log: resuming after any number of outputs gives exactly the frames not yet seen,
   under the same labels, if and only if the stored seqs count the deliverable entries from 0.
   */
  lemma ResumeIsExact(log: seq<Entry>)
    ensures (forall c: nat | c <= |Items(log)| :: ResumesAt(log, c)) <==> Faithful(log)
  {
    if Faithful(log) {
      forall c: nat | c <= |Items(log)| ensures ResumesAt(log, c) {
        FaithfulResumes(log, c);
      }
    }
    if forall c: nat | c <= |Items(log)| :: ResumesAt(log, c) {
      ResumesFromStart(log);
    }
  }

  // ── The saved position ──

  lemma {:induction false} ItemsSplit(log: seq<Entry>, pos: nat)
    requires pos <= |log| && !Ended(log[..pos])
    ensures Items(log) == Items(log[..pos]) + Items(log[pos..]) && Ended(log) == Ended(log[pos..])
    decreases pos
  {
    if pos == 0 {
      assert log[..0] == [] && log[0..] == log;
    } else {
      var rest := log[1..];
      assert log[..pos][1..] == rest[..pos - 1] && log[..pos][0] == log[0] && rest[pos - 1..] == log[pos..];
      ItemsSplit(rest, pos - 1);
    }
  }

  /**
   A late client that has seen `c` labels and is read to from a saved position gets exactly the rest,
   under the right labels, if and only if `c` deliverable entries stand before that position.
   */
  lemma SavedPositionIsExact(log: seq<Entry>, pos: nat, c: nat)
    requires pos <= |log| && !Ended(log[..pos]) && c <= |Items(log)|
    ensures |FreshFrames(log)| >= c
    ensures Drain(log, Cursor(pos, 0), c, None, false) == FreshFrames(log)[c..] <==> |Items(log[..pos])| == c
  {
    FreshAndResumed(log, 0);
    DrainFresh(log, Cursor(pos, 0), c);
    ItemsSplit(log, pos);
    NumberedDrop(Items(log), 0, Ended(log), c);
    NumberedDrop(Items(log[pos..]), c, Ended(log[pos..]), 0);
    NumberedDrop(Items(log)[c..], c, Ended(log), 0);
    if |Items(log[..pos])| == c {
      assert Items(log)[c..] == Items(log[pos..]);
    }
  }

  /**
   From a position saved past an end marker a late client gets only what was logged after it, under the
   labels that follow its own; with nothing logged after it, not even the end.
   */
  lemma SavedPastEnd(log: seq<Entry>, pos: nat, c: nat)
    requires pos <= |log| && Ended(log[..pos]) && c <= |Items(log)|
    ensures Drain(log, Cursor(pos, 0), c, None, false) == Numbered(Items(log[pos..]), c, Ended(log[pos..]))
    ensures pos == |log| ==> Drain(log, Cursor(pos, 0), c, None, false) == []
    ensures |FreshFrames(log)| > c
  {
    FreshAndResumed(log, 0);
    DrainFresh(log, Cursor(pos, 0), c);
    EndedBefore(log, pos);
    NumberedDrop(Items(log), 0, Ended(log), c);
  }

  lemma {:induction false} EndedBefore(log: seq<Entry>, pos: nat)
    requires pos <= |log| && Ended(log[..pos])
    ensures Ended(log) && Items(log[..pos]) == Items(log)
    decreases |log|
  {
    if !log[0].Eos? {
      assert log[..pos][1..] == log[1..][..pos - 1];
      EndedBefore(log[1..], pos - 1);
    }
  }

  /** One read takes the frames got so far one step on towards all of them. */
  lemma DrainOn(
      log: seq<Entry>, at: Cursor, next: Cursor, read: Read, lastLabel: int, skipTo: Option<int>, resume: bool,
      frames: seq<Frame>, all: seq<Frame>)
    requires at.pos <= |log| && frames + Drain(log, at, lastLabel, skipTo, resume) == all
    requires (next, read) == ReadNext(log, at, skipTo)
    ensures next.pos <= |log| && (!read.Blocked? ==> at.pos < next.pos)
    ensures read.Blocked? ==> frames == all
    ensures read.AtEos? && resume ==> frames + [End(next.lastSeq + 2)] == all
    ensures read.AtEos? && !resume ==> frames + [End(lastLabel + 1)] == all
    ensures read.Struct? && resume ==>
      frames + [Output(next.lastSeq + 1, read.body)] + Drain(log, next, next.lastSeq + 1, skipTo, resume) == all
    ensures read.Struct? && !resume ==>
      frames + [Output(lastLabel + 1, read.body)] + Drain(log, next, lastLabel + 1, skipTo, resume) == all
  {
    hide ReadNext;
    if read.Struct? {
      var l := NextLabel(resume, next.lastSeq, lastLabel);
      Associate(frames, [Output(l, read.body)], Drain(log, next, l, skipTo, resume));
    }
  }

  /** What is owed is what stands in the log from the position served. */
  lemma Served(log: seq<Entry>, fromSeq: int, resume: bool, saved: Option<nat>, at: Cursor, skipTo: Option<int>)
    requires saved.Some? ==> saved.value <= |log|
    requires at == Cursor(if !resume && fromSeq > 0 && saved.Some? then saved.value else 0, 0)
    requires skipTo == if resume then Some(fromSeq - 1) else None
    ensures Owed(log, fromSeq, resume, saved, Drain(log, at, fromSeq, skipTo, resume))
  {
    assert log[0..] == log;
    FreshAndResumed(log, fromSeq);
    if !resume {
      DrainFresh(log, at, fromSeq);
      if 0 < fromSeq <= |Items(log)| && saved.Some? && !Ended(log[..at.pos]) {
        SavedPositionIsExact(log, at.pos, fromSeq);
      }
    }
    hide Drain, Items, Ended, LastSeq, Numbered, Selected;
  }

  // ── The fatal entry ──

  /** What `_emit_fatal_to_redis` appends: an error without a seq, and the end marker. */
  function WithFatal(log: seq<Entry>, error: string): seq<Entry> {
    log + [Data(Absent, Some(error)), Eos]
  }

  lemma {:induction false} FatalLast(log: seq<Entry>, error: string, last: int)
    requires !Ended(log)
    ensures Items(WithFatal(log, error)) == Items(log) + [Item(0, error)]
    ensures Ended(WithFatal(log, error)) && LastSeq(WithFatal(log, error), last) == 0
    decreases |log|
  {
    var full := WithFatal(log, error);
    if log == [] {
      assert full[1..] == [Eos] && full[0] == Data(Absent, Some(error));
      assert Items([Eos]) == [];
    } else {
      assert full[1..] == WithFatal(log[1..], error) && full[0] == log[0];
      FatalLast(log[1..], error, if SeqOf(log[0].stored).Some? then SeqOf(log[0].stored).value else last);
    }
  }

  /**
   A fatal error after at least one output is delivered first time, but a consumer that resumes
   after that output never receives it: it gets the other outputs and an end labelled 2.
   */
  lemma ResumeMissesFatal(log: seq<Entry>, error: string)
    requires Faithful(log) && !Ended(log) && Items(log) != []
    ensures var n := |Items(log)|;
      && FreshFrames(WithFatal(log, error)) == FreshFrames(log) + [Output(n + 1, error), End(n + 2)]
      && ResumedFrames(WithFatal(log, error), n) == [End(2)]
      && !Faithful(WithFatal(log, error))
  {
    var full, items := WithFatal(log, error), Items(log);
    FatalLast(log, error, 0);
    FreshAndResumed(log, |items|);
    FreshAndResumed(full, |items|);
    NumberedAppend(items, 0, error);
    AllSkipped(Items(full), |items| - 1, 0);
    assert Items(full)[|items|].seqNo == 0;
  }

  lemma {:induction false} NumberedAppend(items: seq<Item>, lastLabel: int, error: string)
    ensures Numbered(items + [Item(0, error)], lastLabel, true)
         == Numbered(items, lastLabel, false) + [Output(lastLabel + |items| + 1, error), End(lastLabel + |items| + 2)]
    decreases |items|
  {
    var more := items + [Item(0, error)];
    if items == [] {
      assert more[1..] == [];
    } else {
      assert more[1..] == items[1..] + [Item(0, error)];
      NumberedAppend(items[1..], lastLabel + 1, error);
      Associate([Output(lastLabel + 1, items[0].body)], Numbered(items[1..], lastLabel + 1, false),
                [Output(lastLabel + |items| + 1, error), End(lastLabel + |items| + 2)]);
    }
  }

  lemma {:induction false} AllSkipped(items: seq<Item>, skipTo: int, last: int)
    requires forall i | 0 <= i < |items| :: items[i].seqNo <= skipTo
    ensures Selected(items, skipTo, true, last) == [End(last + 2)]
    decreases |items|
  {
    if items != [] {
      AllSkipped(items[1..], skipTo, last);
    }
  }
}
