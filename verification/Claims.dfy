/**
 One task id and any number of concurrent `StartStream` calls for it, on any number of replicas:
 the claim, the local registries, and the dial each accepted call becomes.
 */
module Claims {
  import opened Wrappers

  /**
   Where a call stands between two awaits. `Undo` has failed to seed the stream and will release and
   then unregister; `Dialing` knows whether this attempt resumes and whether the module was spawned.
   */
  datatype Phase =
    | Checked | Claimed | Full | Registered | Undo | Unregister
    | Dialing(resume: bool, spawned: bool) | Refused | Over(spawned: bool)

  datatype Call = Call(replica: nat, phase: Phase)

  /**
   `claim` is the durable key, which lapses when its time to live ends; `sessions` are the registries;
   `runs` counts module runs and `lapses` claims that lapsed.
   */
  datatype State = State(calls: map<nat, Call>, claim: Option<nat>, sessions: map<nat, nat>, runs: nat, lapses: nat)

  /** One step of one call; the flags are what the outside world answers. */
  datatype Act =
    | Arrive(call: nat, replica: nat)
    | Claim(call: nat, replyLost: bool)
    | Register(call: nat, full: bool)
    | Seed(call: nat, ok: bool)
    | Release(call: nat, ok: bool)
    | Drop(call: nat)
    | FirstReply(call: nat)
    | Disconnect(call: nat)
    | EndDial(call: nat)
    | Lapse                      // the claim's time to live ends

  function Start(): State {
    State(map[], None, map[], 0, 0)
  }

  function Move(s: State, call: nat, phase: Phase): State
    requires call in s.calls
  {
    s.(calls := s.calls[call := s.calls[call].(phase := phase)])
  }

  predicate At(s: State, call: nat, phase: Phase) {
    call in s.calls && s.calls[call].phase == phase
  }

  /** One act; an act a call is not ready for changes nothing. */
  function Do(s: State, act: Act): State {
    match act
    case Arrive(call, replica) =>
      if call in s.calls then s
      else s.(calls := s.calls[call := Call(replica, if replica in s.sessions then Refused else Checked)])
    case Claim(call, replyLost) =>
      if !At(s, call, Checked) then s
      else if s.claim.Some? then Move(s, call, Refused)
      else Move(s.(claim := Some(s.calls[call].replica)), call, if replyLost then Refused else Claimed)
    case Register(call, full) =>
      if !At(s, call, Claimed) then s
      else if full then Move(s, call, Full)
      else Move(s.(sessions := s.sessions[s.calls[call].replica := call]), call, Registered)
    case Seed(call, ok) =>
      if !At(s, call, Registered) then s
      else Move(s, call, if ok then Dialing(false, false) else Undo)
    case Release(call, ok) =>
      var t := if ok then s.(claim := None) else s;
      if At(s, call, Full) then Move(t, call, Refused)
      else if At(s, call, Undo) then Move(t, call, Unregister)
      else s
    case Drop(call) =>
      if !At(s, call, Unregister) then s
      else Move(s.(sessions := s.sessions - {s.calls[call].replica}), call, Refused)
    case FirstReply(call) =>
      if At(s, call, Dialing(false, false)) then Move(s.(runs := s.runs + 1), call, Dialing(false, true)) else s
    case Disconnect(call) =>
      if !(call in s.calls && s.calls[call].phase.Dialing?) then s
      else if !s.calls[call].phase.spawned then EndOf(s, call)
      else Move(s, call, Dialing(true, true))
    case EndDial(call) =>
      if call in s.calls && s.calls[call].phase.Dialing? then EndOf(s, call) else s
    case Lapse =>
      if s.claim.None? then s else s.(claim := None, lapses := s.lapses + 1)
  }

  /** The dial is over for good: the session leaves the registry, the claim stays. */
  function EndOf(s: State, call: nat): State
    requires call in s.calls && s.calls[call].phase.Dialing?
  {
    Move(s.(sessions := s.sessions - {s.calls[call].replica}), call, Over(s.calls[call].phase.spawned))
  }

  function After(acts: seq<Act>): State {
    if acts == [] then Start() else Do(After(acts[..|acts| - 1]), acts[|acts| - 1])
  }

  /** The call was granted the claim and has not given it back. */
  predicate Holds(p: Phase) {
    !p.Checked? && !p.Refused? && !p.Unregister?
  }

  predicate Spawned(p: Phase) {
    (p.Dialing? || p.Over?) && p.spawned
  }

  function Holders(s: State): set<nat> {
    set c | c in s.calls && Holds(s.calls[c].phase)
  }

  function Runners(s: State): set<nat> {
    set c | c in s.calls && Spawned(s.calls[c].phase)
  }

  /** The claim is granted again only after it was given back or lapsed, and every run belongs to a holder. */
  ghost predicate Inv(s: State) {
    && |Holders(s)| <= s.lapses + (if s.claim.Some? then 1 else 0)
    && s.runs == |Runners(s)|
  }

  lemma SetGrows(x: set<nat>, c: nat)
    ensures |x + {c}| == if c in x then |x| else |x| + 1
    ensures |x - {c}| == if c in x then |x| - 1 else |x|
  {
    if c in x { assert x - {c} + {c} == x; } else { assert x - {c} == x; }
    if c in x { assert x + {c} == x; }
  }

  function One(b: bool): int {
    if b then 1 else 0
  }

  predicate IsHolder(s: State, c: nat) {
    c in s.calls && Holds(s.calls[c].phase)
  }

  predicate IsRunner(s: State, c: nat) {
    c in s.calls && Spawned(s.calls[c].phase)
  }

  lemma MoveHolders(s: State, t: State, call: nat)
    requires call in t.calls && t.calls == s.calls[call := t.calls[call]]
    ensures |Holders(t)| - |Holders(s)| == One(IsHolder(t, call)) - One(IsHolder(s, call))
  {
    assert Holders(t) == if IsHolder(t, call) then Holders(s) + {call} else Holders(s) - {call};
    assert call in Holders(s) <==> IsHolder(s, call);
    SetGrows(Holders(s), call);
  }

  lemma MoveRunners(s: State, t: State, call: nat)
    requires call in t.calls && t.calls == s.calls[call := t.calls[call]]
    ensures |Runners(t)| - |Runners(s)| == One(IsRunner(t, call)) - One(IsRunner(s, call))
  {
    assert Runners(t) == if IsRunner(t, call) then Runners(s) + {call} else Runners(s) - {call};
    assert call in Runners(s) <==> IsRunner(s, call);
    SetGrows(Runners(s), call);
  }

  /** What one act does to the acting call, the claim and the count of runs. */
  lemma ActEffect(s: State, act: Act)
    requires !act.Lapse? && Do(s, act) != s
    ensures var t, c := Do(s, act), act.call;
      && c in t.calls && t.calls == s.calls[c := t.calls[c]] && t.lapses == s.lapses
      && One(IsHolder(t, c)) - One(IsHolder(s, c)) <= One(t.claim.Some?) - One(s.claim.Some?)
      && t.runs - s.runs == One(IsRunner(t, c)) - One(IsRunner(s, c))
  {
  }

  lemma DoKeeps(s: State, act: Act)
    requires Inv(s)
    ensures Inv(Do(s, act))
  {
    var t := Do(s, act);
    if act.Lapse? {
      assert Holders(t) == Holders(s) && Runners(t) == Runners(s);
    } else if t != s {
      ActEffect(s, act);
      hide Do, Holders, Runners, IsHolder, IsRunner;
      MoveHolders(s, t, act.call);
      MoveRunners(s, t, act.call);
    }
  }

  lemma {:induction false} AfterKeeps(acts: seq<Act>)
    ensures Inv(After(acts))
    decreases |acts|
  {
    if acts != [] {
      AfterKeeps(acts[..|acts| - 1]);
      DoKeeps(After(acts[..|acts| - 1]), acts[|acts| - 1]);
    }
  }

  /** Runners hold: a run never belongs to a call that was refused or gave the claim back. */
  lemma RunnersHold(s: State)
    ensures Runners(s) <= Holders(s) && |Runners(s)| <= |Holders(s)|
  {
    Smaller(Runners(s), Holders(s));
  }

  lemma Smaller(x: set<nat>, y: set<nat>)
    requires x <= y
    ensures |x| <= |y|
  {
    assert y == x + (y - x);
  }

  /**
   For every interleaving of calls, replicas, failures, disconnects, re-dials and lapses: the module
   runs at most once more than the claim has lapsed.
   */
  lemma RunsBounded(acts: seq<Act>)
    ensures After(acts).runs <= After(acts).lapses + 1
  {
    AfterKeeps(acts);
    RunnersHold(After(acts));
  }

  /** While the claim has not lapsed it runs at most once, and at most one call ever dials. */
  lemma AtMostOneRun(acts: seq<Act>)
    requires After(acts).lapses == 0
    ensures After(acts).runs <= 1
    ensures forall c, d | Dialed(After(acts), c) && Dialed(After(acts), d) :: c == d
  {
    var s := After(acts);
    AfterKeeps(acts);
    RunnersHold(s);
    hide After;
    forall c, d | Dialed(s, c) && Dialed(s, d) ensures c == d {
      if c != d {
        assert {c, d} <= Holders(s);
        Smaller({c, d}, Holders(s));
        assert false;
      }
    }
  }

  predicate Dialed(s: State, c: nat) {
    c in s.calls && (s.calls[c].phase.Dialing? || s.calls[c].phase.Over?)
  }

  lemma StaysDialed(s: State, act: Act, c: nat)
    requires Dialed(s, c)
    ensures Dialed(Do(s, act), c)
  {
  }

  /** Once a call has dialed, only a lapse can free the claim, so until then no later call is accepted. */
  lemma {:induction false} DialedForever(acts: seq<Act>, k: nat, c: nat)
    requires k <= |acts| && Dialed(After(acts[..k]), c)
    ensures Dialed(After(acts), c) && (After(acts).claim.Some? || After(acts).lapses > 0)
    decreases |acts|
  {
    hide Do;
    if k == |acts| {
      assert acts[..k] == acts;
    } else {
      var prefix := acts[..|acts| - 1];
      assert prefix[..k] == acts[..k];
      DialedForever(prefix, k, c);
      StaysDialed(After(prefix), acts[|acts| - 1], c);
    }
    AfterKeeps(acts);
    assert c in Holders(After(acts));
  }

  lemma Then(acts: seq<Act>, act: Act)
    ensures After(acts + [act]) == Do(After(acts), act)
  {
    assert (acts + [act])[..|acts|] == acts;
  }

  /** A call that claims, registers, seeds the log and spawns the module. */
  function Accepting(call: nat, replica: nat): seq<Act> {
    [Arrive(call, replica), Claim(call, false), Register(call, false), Seed(call, true), FirstReply(call)]
  }

  /** The claim and the registration go through on a replica without a session for the task. */
  lemma Admitted(s: State, c: nat, replica: nat)
    requires c !in s.calls && replica !in s.sessions && s.claim.None?
    ensures Do(Do(Do(s, Arrive(c, replica)), Claim(c, false)), Register(c, false))
      == State(s.calls[c := Call(replica, Registered)], Some(replica), s.sessions[replica := c], s.runs, s.lapses)
  {
    var s1 := Do(s, Arrive(c, replica));
    var s2 := Do(s1, Claim(c, false));
    assert s2 == s.(calls := s.calls[c := Call(replica, Claimed)], claim := Some(replica));
  }

  lemma SeededAndSpawned(s: State, c: nat, replica: nat)
    ensures var t :=
        State(s.calls[c := Call(replica, Registered)], Some(replica), s.sessions[replica := c], s.runs, s.lapses);
      Do(Do(t, Seed(c, true)), FirstReply(c))
        == t.(calls := s.calls[c := Call(replica, Dialing(false, true))], runs := s.runs + 1)
  {
    var t := State(s.calls[c := Call(replica, Registered)], Some(replica), s.sessions[replica := c], s.runs, s.lapses);
    assert Do(t, Seed(c, true)) == t.(calls := s.calls[c := Call(replica, Dialing(false, false))]);
  }

  lemma AcceptingSteps(acts: seq<Act>, c: nat, replica: nat)
    ensures After(acts + Accepting(c, replica)) ==
      Do(Do(Do(Do(Do(After(acts), Arrive(c, replica)), Claim(c, false)), Register(c, false)), Seed(c, true)),
        FirstReply(c))
  {
    var w := Accepting(c, replica);
    hide Do, After;
    Then(acts, w[0]);
    Then(acts + w[..1], w[1]);
    Then(acts + w[..2], w[2]);
    Then(acts + w[..3], w[3]);
    Then(acts + w[..4], w[4]);
    assert acts + w[..1] == acts + [w[0]] && acts + w[..1] + [w[1]] == acts + w[..2];
    assert acts + w[..2] + [w[2]] == acts + w[..3] && acts + w[..3] + [w[3]] == acts + w[..4];
    assert acts + w[..4] + [w[4]] == acts + w;
  }

  /** After any schedule that leaves the claim free, such a call runs the module once more. */
  lemma Accepted(acts: seq<Act>, c: nat, replica: nat)
    requires var s := After(acts); c !in s.calls && replica !in s.sessions && s.claim.None?
    ensures var s := After(acts);
      After(acts + Accepting(c, replica)) ==
        State(s.calls[c := Call(replica, Dialing(false, true))], Some(replica), s.sessions[replica := c], s.runs + 1,
          s.lapses)
  {
    hide After, Do;
    var s := After(acts);
    Admitted(s, c, replica);
    AcceptingSteps(acts, c, replica);
    SeededAndSpawned(s, c, replica);
  }

  /**
   After any schedule that leaves the claim free: once the first call's claim has lapsed, a call on a
   second replica is accepted while the first dial goes on, and the module runs twice.
   */
  lemma LapsedClaimRunsTwice(acts: seq<Act>, c: nat, d: nat, r: nat, q: nat)
    requires var s := After(acts);
      c !in s.calls && d !in s.calls && c != d && r !in s.sessions && q !in s.sessions && r != q && s.claim.None?
    ensures var s, t := After(acts), After(acts + Accepting(c, r) + [Lapse] + Accepting(d, q));
      t.runs == s.runs + 2 && t.lapses == s.lapses + 1 && Dialed(t, c) && Dialed(t, d)
  {
    hide After;
    var s, first := After(acts), acts + Accepting(c, r);
    Accepted(acts, c, r);
    Then(first, Lapse);
    var t := State(s.calls[c := Call(r, Dialing(false, true))], Some(r), s.sessions[r := c], s.runs + 1, s.lapses);
    assert After(first + [Lapse]) == t.(claim := None, lapses := s.lapses + 1);
    hide Do, Accepting;
    Accepted(first + [Lapse], d, q);
  }

  // ── The re-dial loop ──

  /**
   What one pass of the loop finds: whether the attempt lost its consumer, whether the module was
   spawned, the session and the stream length (`None` for a Redis error), the clock, and the
   backoff drawn.
   */
  datatype Pass = Pass(disconnected: bool, spawned: bool, live: bool, streamLen: Option<nat>, now: real, draw: real)

  predicate Retries(p: Pass, deadline: real) {
    p.disconnected && p.spawned && p.live && p.streamLen.Some? && p.streamLen.value > 0 && p.now < deadline
  }

  function Delay(p: Pass, deadline: real): real {
    var d := if p.draw < deadline - p.now then p.draw else deadline - p.now;
    if d > 0.0 then d else 0.0
  }

  /** Every pass comes at least the slept delay after the one before. */
  ghost predicate Clock(passes: seq<Pass>, deadline: real) {
    forall i | 0 <= i < |passes| - 1 :: passes[i + 1].now >= passes[i].now + Delay(passes[i], deadline)
  }

  /** How many passes in a row ask for another dial. */
  function Redials(passes: seq<Pass>, deadline: real): nat {
    if passes == [] || !Retries(passes[0], deadline) then 0 else 1 + Redials(passes[1..], deadline)
  }

  /** The loop itself: the window opens at the first disconnect. */
  method DialConsumer(passes: seq<Pass>, window: real) returns (attempt: nat)
    requires passes != []
    ensures attempt == Redials(passes, passes[0].now + window) <= |passes|
    ensures forall i | 0 <= i < attempt :: var p := passes[i];
      p.disconnected && p.spawned && p.live && p.streamLen.Some? && p.streamLen.value != 0
      && p.now < passes[0].now + window
    ensures attempt < |passes| ==> var p := passes[attempt];
      !p.disconnected || !p.spawned || !p.live || p.streamLen.None? || p.streamLen.value == 0
      || p.now >= passes[0].now + window
  {
    var deadline: Option<real> := None;
    attempt := 0;
    var i := 0;
    while i < |passes|
      invariant 0 <= i <= |passes| && attempt == i
      invariant deadline == if i == 0 then None else Some(passes[0].now + window)
      invariant forall j | 0 <= j < i :: Retries(passes[j], passes[0].now + window)
      invariant attempt + Redials(passes[i..], passes[0].now + window) == Redials(passes, passes[0].now + window)
    {
      var p := passes[i];
      assert passes[i..][0] == p && passes[i..][1..] == passes[i + 1..];
      if !p.disconnected || !p.spawned || !p.live || p.streamLen.None? || p.streamLen.value == 0 {
        return;
      }
      if deadline.None? {
        deadline := Some(p.now + window);
      }
      if p.now >= deadline.value {
        return;
      }
      attempt := attempt + 1;
      i := i + 1;
    }
  }

  lemma OneMore(i: nat, least: real)
    ensures (i + 1) as real * least == i as real * least + least
  {
    var n := i as real;
    assert (i + 1) as real == n + 1.0;
    assert (n + 1.0) * least == n * least + least;
  }

  lemma {:induction false} PassesSpread(passes: seq<Pass>, deadline: real, least: real, i: nat)
    requires Clock(passes, deadline) && least > 0.0 && i < Redials(passes, deadline)
    requires forall j | 0 <= j < |passes| :: passes[j].draw >= least
    ensures i < |passes| && passes[i].now < deadline
    ensures passes[0].now + i as real * least <= passes[i].now
  {
    RetriesAt(passes, deadline, i);
    if i > 0 {
      PassesSpread(passes, deadline, least, i - 1);
      RetriesAt(passes, deadline, i - 1);
      OneMore(i - 1, least);
    }
  }

  lemma {:induction false} RetriesAt(passes: seq<Pass>, deadline: real, i: nat)
    requires i < Redials(passes, deadline)
    ensures i < |passes| && Retries(passes[i], deadline)
    decreases |passes|
  {
    if i > 0 {
      RetriesAt(passes[1..], deadline, i - 1);
    }
  }

  /** With every backoff at least `least`, re-dial number i + 1 needs i backoffs to fit in the window. */
  lemma RedialsBounded(passes: seq<Pass>, window: real, least: real, i: nat)
    requires passes != [] && least > 0.0 && Clock(passes, passes[0].now + window)
    requires forall j | 0 <= j < |passes| :: passes[j].draw >= least
    requires i < Redials(passes, passes[0].now + window)
    ensures i as real * least < window
  {
    PassesSpread(passes, passes[0].now + window, least, i);
  }
}
