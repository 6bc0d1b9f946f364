/** One unary query: breaker check, retry loop with doubling backoff, and one recorded outcome. */
module Retry {
  import opened Breaker

  datatype Code =
    | Cancelled | Unknown | InvalidArgument | DeadlineExceeded | NotFound | AlreadyExists
    | PermissionDenied | ResourceExhausted | FailedPrecondition | Aborted | OutOfRange
    | Unimplemented | Internal | Unavailable | DataLoss | Unauthenticated

  const RETRYABLE: set<Code> := {Unavailable, Internal, DeadlineExceeded}
  const CIRCUIT_FAILURE: set<Code> := RETRYABLE + {Unknown, ResourceExhausted}

  /** What one round of the loop meets; cancellation may strike in the backoff or in the call. */
  datatype Round = Reply | Error(code: Code) | CancelledAsleep | CancelledInCall

  datatype Outcome =
    | MissingMethod
    | Refused                                 // the circuit is open
    | Answered
    | Rejected(code: Code, retried: bool)     // `retried` adds "after max_retries + 1 attempts"
    | NeverTried                              // the loop body never ran
    | Interrupted

  predicate Retries(r: Round) {
    r.Error? && r.code in RETRYABLE
  }

  /** The round that ends the loop: the first that is not a retryable error, at latest the last one. */
  function Decisive(script: nat -> Round, i: nat, last: nat): (k: nat)
    requires i <= last
    ensures i <= k <= last && (k < last ==> !Retries(script(k)))
    ensures forall j | i <= j < k :: Retries(script(j))
    decreases last - i
  {
    if i == last || !Retries(script(i)) then i else Decisive(script, i + 1, last)
  }

  lemma {:induction false} DecisiveIsFirst(script: nat -> Round, i: nat, k: nat, last: nat)
    requires i <= k <= last && (k < last ==> !Retries(script(k)))
    requires forall j | i <= j < k :: Retries(script(j))
    ensures Decisive(script, i, last) == k
    decreases k - i
  {
    if i < k { DecisiveIsFirst(script, i + 1, k, last); }
  }

  function Pow2(n: nat): nat {
    if n == 0 then 1 else 2 * Pow2(n - 1)
  }

  /** The backoff after round `i`. */
  function Delay(base: real, i: nat): real {
    base * (Pow2(i) as real)
  }

  /** The first `n` backoffs together. */
  function Slept(base: real, n: nat): real {
    if n == 0 then 0.0 else Slept(base, n - 1) + Delay(base, n - 1)
  }

  lemma {:induction false} SleptInAll(base: real, n: nat)
    ensures Slept(base, n) == base * ((Pow2(n) - 1) as real)
  {
    if n > 0 { SleptInAll(base, n - 1); }
  }

  /** What the breaker sees of an admitted call whose decisive round is `r`. */
  function Recorded(r: Round, now: real): seq<Event> {
    match r
    case Reply => [Success]
    case Error(code) => [if code in CIRCUIT_FAILURE then Failure(now) else Success]
    case _ => []
  }

  /** What the caller is told of a round: its reply, its error with its own code, or the interruption. */
  ghost predicate Tells(out: Outcome, r: Round) {
    && (out.Answered? <==> r.Reply?)
    && (out.Rejected? <==> r.Error?)
    && (out.Interrupted? <==> r.CancelledAsleep? || r.CancelledInCall?)
    && (out.Rejected? ==>
          out.code == r.code && (out.retried <==> r.code in {Unavailable, Internal, DeadlineExceeded}))
  }

  /** `k` is the first round that is not an error worth retrying, or else the last one. */
  ghost predicate Ends(script: nat -> Round, k: nat, last: nat) {
    && k <= last
    && (forall j | 0 <= j < k :: script(j).Error? && script(j).code in {Unavailable, Internal, DeadlineExceeded})
    && (k < last ==> !(script(k).Error? && script(k).code in {Unavailable, Internal, DeadlineExceeded}))
  }

  /** The breaker hears of a reply or an error once; only five codes count against the circuit. */
  ghost predicate Hears(told: seq<Event>, r: Round, now: real) {
    match r
    case Reply => told == [Success]
    case Error(code) =>
      told == [if code in {Unavailable, Internal, DeadlineExceeded, Unknown, ResourceExhausted}
               then Failure(now) else Success]
    case _ => told == []
  }

  lemma RecordedIsHeard(r: Round, now: real)
    ensures Hears(Recorded(r, now), r, now)
  {
  }

  lemma DecisiveEnds(script: nat -> Round, last: nat)
    ensures Ends(script, Decisive(script, 0, last), last)
  {
  }

  /** Backoffs that finish when round `k` ends the loop. */
  function Backoffs(script: nat -> Round, k: nat): nat {
    if script(k).CancelledAsleep? && k > 0 then k - 1 else k
  }

  /** One round's call, for rounds whose backoff was not cancelled. */
  method Settle(cb: CircuitBreaker, round: Round, last: bool, failed: real) returns (out: Outcome)
    requires cb.Valid()
    modifies cb
    ensures cb.Valid() && Tells(out, round)
    ensures cb.history == old(cb.history) + (if Retries(round) && !last then [] else Recorded(round, failed))
    ensures Hears(Recorded(round, failed), round, failed)
  {
    RecordedIsHeard(round, failed);
    out := Interrupted;
    match round {
      case Reply =>
        out := Answered;
        cb.RecordSuccess();
      case Error(code) =>
        out := Rejected(code, code in RETRYABLE);
        if !(code in RETRYABLE && !last) {
          if code in CIRCUIT_FAILURE {
            cb.RecordFailure(failed);
          } else {
            cb.RecordSuccess();
          }
        }
      case _ =>
    }
  }

  /**
   The loop. `script` is what each round would meet, `asked` and `failed` the clock when the breaker
   is checked and when a failure is recorded. `attempts` counts calls sent, `slept` finished backoffs.
   */
  method ExecQuery(cb: CircuitBreaker, known: bool, script: nat -> Round, maxRetries: int, base: real, asked: real,
      failed: real)
    returns (out: Outcome, attempts: nat, slept: real)
    requires cb.Valid()
    modifies cb
    ensures cb.Valid()
    ensures !known ==> out == MissingMethod && attempts == 0 && cb.history == old(cb.history)
    ensures known && !old(Admits(After(cb.history, cb.cfg), asked, cb.cfg)) ==>
      out == Refused && attempts == 0 && slept == 0.0 && cb.history == old(cb.history) + [Check(asked)]
    ensures known && old(Admits(After(cb.history, cb.cfg), asked, cb.cfg)) && maxRetries < 0 ==>
      out == NeverTried && attempts == 0 && slept == 0.0 && cb.history == old(cb.history) + [Check(asked)] + [Release]
    ensures known && old(Admits(After(cb.history, cb.cfg), asked, cb.cfg)) && maxRetries >= 0 ==>
      var k := Decisive(script, 0, maxRetries);
      && Ends(script, k, maxRetries)
      && Tells(out, script(k))
      && Hears(Recorded(script(k), failed), script(k), failed)
      && attempts == Backoffs(script, k) + 1
      && slept == Slept(base, Backoffs(script, k))
      && cb.history == old(cb.history) + [Check(asked)] + Recorded(script(k), failed) + [Release]
    ensures known && old(Admits(After(cb.history, cb.cfg), asked, cb.cfg)) ==>
      !(cb.state == HalfOpen && cb.halfOpenLock)
  {
    hide Ends, Hears, Recorded, After, Admits, Decisive, Retries, Delay;
    attempts, slept := 0, 0.0;
    if maxRetries >= 0 {
      DecisiveEnds(script, maxRetries);
      RecordedIsHeard(script(Decisive(script, 0, maxRetries)), failed);
    }
    if !known {
      return MissingMethod, 0, 0.0;
    }
    var allowed := cb.CheckCall(asked);
    if !allowed {
      return Refused, 0, 0.0;
    }
    out := NeverTried;
    var attempt: nat := 0;
    while attempt <= maxRetries
      invariant attempt == attempts && (attempt == 0 || attempt <= maxRetries)
      invariant forall j | 0 <= j < attempt :: Retries(script(j))
      invariant cb.Valid() && cb.history == old(cb.history) + [Check(asked)]
      invariant slept == (if attempt == 0 then 0.0 else Slept(base, attempt - 1))
      invariant attempt == 0 ==> out == NeverTried
    {
      var round, last := script(attempt), attempt == maxRetries;
      if attempt > 0 {
        if round.CancelledAsleep? {
          out := Interrupted;
          DecisiveIsFirst(script, 0, attempt, maxRetries);
          break;
        }
        slept := slept + Delay(base, attempt - 1);
      }
      attempts := attempts + 1;
      out := Settle(cb, round, last, failed);
      if !Retries(round) || last {
        DecisiveIsFirst(script, 0, attempt, maxRetries);
        break;
      }
      attempt := attempt + 1;
    }
    var released := cb.ReleaseProbe();
  }

  // ── What every call keeps ──

  /** Never more than `max_retries + 1` calls, and exactly that many when the final error is retryable. */
  lemma AttemptsBound(script: nat -> Round, maxRetries: nat)
    ensures var k := Decisive(script, 0, maxRetries);
      && Backoffs(script, k) + 1 <= maxRetries + 1
      && (Retries(script(k)) ==> Backoffs(script, k) + 1 == maxRetries + 1)
      && (forall out | Tells(out, script(k)) && out.Rejected? && out.retried ::
        Backoffs(script, k) + 1 == maxRetries + 1)
  {
    var k := Decisive(script, 0, maxRetries);
    assert k < maxRetries ==> !Retries(script(k));
  }

  predicate IsOutcome(e: Event) {
    e.Success? || e.Failure?
  }

  /** How many outcomes a stretch of history records. */
  function Outcomes(h: seq<Event>): nat {
    if h == [] then 0 else Outcomes(h[1..]) + (if IsOutcome(h[0]) then 1 else 0)
  }

  /** Exactly one outcome when the call ended in a response or an error, none when it was interrupted. */
  lemma OneOutcome(r: Round, asked: real, failed: real)
    ensures Outcomes([Check(asked)] + Recorded(r, failed) + [Release]) == (if r.Reply? || r.Error? then 1 else 0)
    ensures Recorded(r, failed) == [Failure(failed)] <==> r.Error? && r.code in CIRCUIT_FAILURE
  {
    var end: seq<Event> := [Release];
    var h := [Check(asked)] + Recorded(r, failed) + end;
    var rest := Recorded(r, failed) + end;
    assert h[1..] == rest && Outcomes(h) == Outcomes(rest);
    assert end[1..] == [] && Outcomes(end) == 0;
    if Recorded(r, failed) == [] {
      assert rest == end;
    } else {
      assert rest[1..] == end;
      assert rest[0] == Recorded(r, failed)[0] && IsOutcome(rest[0]);
      assert Recorded(r, failed)[0] == (if r.Error? && r.code in CIRCUIT_FAILURE then Failure(failed) else Success);
    }
  }

  /** A call that ends in a reply or an application error leaves the circuit closed with a clean count. */
  lemma ApplicationErrorsClose(h: seq<Event>, r: Round, asked: real, failed: real, cfg: Config)
    requires Sound(cfg) && (r.Reply? || (r.Error? && r.code !in CIRCUIT_FAILURE))
    ensures After(h + [Check(asked)] + Recorded(r, failed) + [Release], cfg)
      == Fields(Closed, 0, After(h, cfg).lastFailure, false)
  {
    hide After;
    Then(h, Check(asked), cfg);
    Then(h + [Check(asked)], Success, cfg);
    Then(h + [Check(asked)] + [Success], Release, cfg);
    assert Recorded(r, failed) == [Success];
  }
}
