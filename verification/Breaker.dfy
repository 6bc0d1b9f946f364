/** The per-service circuit breaker, and what its state says about the history of calls. */
module Breaker {

  datatype CBState = Closed | Open | HalfOpen

  /** Thresholds; both are checked positive when a breaker is built. */
  datatype Config = Config(failMax: int, resetTimeout: real)

  predicate Sound(cfg: Config) {
    cfg.failMax > 0 && cfg.resetTimeout > 0.0
  }

  /** What happens to one breaker; `now` is the monotonic clock at that moment. */
  datatype Event =
    | Look(now: real)       // the `state` property is read
    | Check(now: real)      // a call asks to go out, admitted or not
    | Success
    | Failure(now: real)
    | Release               // the end of a call, outcome or not
    | Reset

  /** The fields. */
  datatype Fields = Fields(state: CBState, failures: nat, lastFailure: real, probing: bool)

  const FRESH := Fields(Closed, 0, 0.0, false)

  /** Reading `state` turns an open circuit half-open once the timeout has passed. */
  function Looked(f: Fields, now: real, cfg: Config): Fields {
    if f.state.Open? && now - f.lastFailure >= cfg.resetTimeout then f.(state := HalfOpen, probing := false) else f
  }

  predicate Admits(f: Fields, now: real, cfg: Config) {
    var g := Looked(f, now, cfg);
    g.state.Closed? || (g.state.HalfOpen? && !g.probing)
  }

  function Step(f: Fields, e: Event, cfg: Config): Fields {
    match e
    case Look(now) => Looked(f, now, cfg)
    case Check(now) =>
      var g := Looked(f, now, cfg);
      if Admits(f, now, cfg) && g.state.HalfOpen? then g.(probing := true) else g
    case Success => f.(state := Closed, failures := 0, probing := false)
    case Failure(now) =>
      var g := f.(failures := f.failures + 1, lastFailure := now);
      if f.state.HalfOpen? then g.(state := Open, probing := false)
      else if g.failures >= cfg.failMax then g.(state := Open)
      else g
    case Release => if f.state.HalfOpen? then f.(probing := false) else f
    case Reset => f.(state := Closed, failures := 0, probing := false)
  }

  function After(h: seq<Event>, cfg: Config): Fields {
    if h == [] then FRESH else Step(After(h[..|h| - 1], cfg), h[|h| - 1], cfg)
  }

  lemma Then(h: seq<Event>, e: Event, cfg: Config)
    ensures After(h + [e], cfg) == Step(After(h, cfg), e, cfg)
  {
    assert (h + [e])[..|h|] == h;
  }

  class CircuitBreaker {
    const cfg: Config
    var state: CBState
    var failureCount: nat
    var lastFailureTime: real
    var halfOpenLock: bool
    ghost var history: seq<Event>

    ghost predicate Valid()
      reads this
    {
      Sound(cfg) && Fields(state, failureCount, lastFailureTime, halfOpenLock) == After(history, cfg)
    }

    constructor (cfg: Config)
      requires Sound(cfg)
      ensures Valid() && history == [] && this.cfg == cfg
    {
      this.cfg := cfg;
      state, failureCount, lastFailureTime, halfOpenLock := Closed, 0, 0.0, false;
      history := [];
    }

    ghost method Note(e: Event)
      modifies `history
      ensures history == old(history) + [e]
      ensures After(history, cfg) == Step(After(old(history), cfg), e, cfg)
    {
      Then(history, e, cfg);
      history := history + [e];
    }

    method CurrentState(now: real) returns (current: CBState)
      requires Valid()
      modifies this
      ensures Valid() && history == old(history) + [Look(now)] && current == state
    {
      Note(Look(now));
      if state == Open && now - lastFailureTime >= cfg.resetTimeout {
        state, halfOpenLock := HalfOpen, false;
      }
      current := state;
    }

    /** False is the `CircuitOpenError`. */
    method CheckCall(now: real) returns (allowed: bool)
      requires Valid()
      modifies this
      ensures Valid() && history == old(history) + [Check(now)]
      ensures allowed <==> Admits(After(old(history), cfg), now, cfg)
    {
      Note(Check(now));
      if state == Open && now - lastFailureTime >= cfg.resetTimeout {
        state, halfOpenLock := HalfOpen, false;
      }
      if state == Open || (state == HalfOpen && halfOpenLock) {
        return false;
      }
      if state == HalfOpen {
        halfOpenLock := true;
      }
      allowed := true;
    }

    method RecordSuccess()
      requires Valid()
      modifies this
      ensures Valid() && history == old(history) + [Success]
    {
      Note(Success);
      state, failureCount, halfOpenLock := Closed, 0, false;
    }

    method RecordFailure(now: real)
      requires Valid()
      modifies this
      ensures Valid() && history == old(history) + [Failure(now)]
    {
      Note(Failure(now));
      failureCount, lastFailureTime := failureCount + 1, now;
      if state == HalfOpen {
        state, halfOpenLock := Open, false;
      } else if failureCount >= cfg.failMax {
        state := Open;
      }
    }

    /** True when a held probe slot was freed. */
    method ReleaseProbe() returns (released: bool)
      requires Valid()
      modifies this
      ensures Valid() && history == old(history) + [Release]
      ensures released <==> old(state) == HalfOpen && old(halfOpenLock)
      ensures !(state == HalfOpen && halfOpenLock)
    {
      Note(Release);
      released := state == HalfOpen && halfOpenLock;
      if released {
        halfOpenLock := false;
      }
    }

    method ForceReset()
      requires Valid()
      modifies this
      ensures Valid() && history == old(history) + [Reset]
    {
      Note(Reset);
      state, failureCount, halfOpenLock := Closed, 0, false;
    }
  }

  // ── The same facts read off the history alone ──

  /** Failures since the last success or reset. */
  function Failures(h: seq<Event>): nat {
    if h == [] then 0
    else match h[|h| - 1]
      case Success => 0
      case Reset => 0
      case Failure(_) => Failures(h[..|h| - 1]) + 1
      case _ => Failures(h[..|h| - 1])
  }

  function LastFailure(h: seq<Event>): real {
    if h == [] then 0.0
    else match h[|h| - 1]
      case Failure(now) => now
      case _ => LastFailure(h[..|h| - 1])
  }

  predicate Tripped(h: seq<Event>, cfg: Config) {
    Failures(h) >= cfg.failMax
  }

  predicate TimedOut(h: seq<Event>, now: real, cfg: Config) {
    now - LastFailure(h) >= cfg.resetTimeout
  }

  /** Since the last outcome, release or reset, a call was let out although the circuit had tripped. */
  predicate ProbeOut(h: seq<Event>, cfg: Config) {
    h != [] &&
    var before := h[..|h| - 1];
    match h[|h| - 1]
    case Look(_) => ProbeOut(before, cfg)
    case Check(now) => ProbeOut(before, cfg) || (Tripped(before, cfg) && TimedOut(before, now, cfg))
    case _ => false
  }

  /** The time of the latest event that reads the clock never decreases. */
  function Clock(h: seq<Event>): real {
    if h == [] then 0.0
    else match h[|h| - 1]
      case Look(now) => now
      case Check(now) => now
      case Failure(now) => now
      case _ => Clock(h[..|h| - 1])
  }

  ghost predicate Monotone(h: seq<Event>) {
    forall i | 0 <= i < |h| :: Clock(h[..i]) <= Clock(h[..i + 1])
  }

  lemma MonotonePrefix(h: seq<Event>)
    requires Monotone(h) && h != []
    ensures Monotone(h[..|h| - 1]) && Clock(h[..|h| - 1]) <= Clock(h)
  {
    var before := h[..|h| - 1];
    forall i | 0 <= i < |before| ensures Clock(before[..i]) <= Clock(before[..i + 1]) {
      assert before[..i] == h[..i] && before[..i + 1] == h[..i + 1];
    }
    assert h[..|h| - 1 + 1] == h;
  }

  /** The fields hold nothing but the history. */
  lemma {:induction false} StateIsHistory(h: seq<Event>, cfg: Config)
    requires Sound(cfg) && Monotone(h)
    ensures var f := After(h, cfg);
      && f.failures == Failures(h) && f.lastFailure == LastFailure(h)
      && (f.state != Closed <==> Tripped(h, cfg))
      && f.probing == ProbeOut(h, cfg)
      && (f.state == HalfOpen ==> TimedOut(h, Clock(h), cfg))
      && (f.probing ==> f.state == HalfOpen)
    decreases |h|
  {
    if h != [] {
      MonotonePrefix(h);
      StateIsHistory(h[..|h| - 1], cfg);
    }
  }

  /**
   What callers see is a function of the history: a circuit reads closed exactly while fewer than
   `failMax` failures follow the last success or reset; otherwise it reads half-open from
   `resetTimeout` after the last failure on; and then one call is let out until something is recorded.
   */
  lemma SeenIsHistory(h: seq<Event>, now: real, cfg: Config)
    requires Sound(cfg) && Monotone(h) && now >= Clock(h)
    ensures var seen := Looked(After(h, cfg), now, cfg).state;
      && (seen == Closed <==> !Tripped(h, cfg))
      && (seen == HalfOpen <==> Tripped(h, cfg) && TimedOut(h, now, cfg))
      && (seen == Open <==> Tripped(h, cfg) && !TimedOut(h, now, cfg))
    ensures Admits(After(h, cfg), now, cfg) <==> !Tripped(h, cfg) || (TimedOut(h, now, cfg) && !ProbeOut(h, cfg))
  {
    StateIsHistory(h, cfg);
  }

  /** While tripped, of the calls asking with no outcome, release or reset between them only one goes out. */
  lemma {:induction false} OneProbe(h: seq<Event>, first: real, between: seq<Event>, second: real, cfg: Config)
    requires Sound(cfg) && Monotone(h + [Check(first)] + between) && Tripped(h, cfg)
    requires forall e | e in between :: e.Look? || e.Check?
    requires Admits(After(h, cfg), first, cfg) && second >= Clock(h + [Check(first)] + between)
    ensures !Admits(After(h + [Check(first)] + between, cfg), second, cfg)
    decreases |between|
  {
    var all := h + [Check(first)] + between;
    ProbeStays(h, first, between, cfg);
    SeenIsHistory(all, second, cfg);
  }

  lemma {:induction false} ProbeStays(h: seq<Event>, first: real, between: seq<Event>, cfg: Config)
    requires Sound(cfg) && Monotone(h + [Check(first)] + between) && Tripped(h, cfg)
    requires forall e | e in between :: e.Look? || e.Check?
    requires Admits(After(h, cfg), first, cfg)
    ensures ProbeOut(h + [Check(first)] + between, cfg) && Tripped(h + [Check(first)] + between, cfg)
    decreases |between|
  {
    var all := h + [Check(first)] + between;
    MonotonePrefix(all);
    if between == [] {
      assert all[..|all| - 1] == h;
      SeenIsHistory(h, first, cfg);
    } else {
      var rest := between[..|between| - 1];
      assert all[..|all| - 1] == h + [Check(first)] + rest;
      assert all[|all| - 1] == between[|between| - 1] && between[|between| - 1] in between;
      ProbeStays(h, first, rest, cfg);
    }
  }
}
