/** Replacing every local reference of a JSON Schema by the definition it names. */
module InlineRefs {
  import opened Json
  import opened Wrappers

  datatype Error = MissingDef(name: string) | Malformed | TooDeep

  datatype Result<T> = Ok(value: T) | Err(error: Error)

  const LOCAL := "#/$defs/"

  predicate StartsWith(s: string, prefix: string): (r: bool)
    ensures r <==> prefix <= s
  {
    |prefix| <= |s| && s[..|prefix|] == prefix
  }

  /** `s.split("/")[-1]`. */
  function LastSegment(s: string): string {
    if s == [] then []
    else if s[|s| - 1] == '/' then []
    else LastSegment(s[..|s| - 1]) + [s[|s| - 1]]
  }

  /** The name a member list refers to, when it holds a reference into `$defs`. */
  function LocalRef(ms: seq<Member>): Option<string> {
    match Get(ms, "$ref")
    case Some(Str(s)) => if StartsWith(s, LOCAL) then Some(LastSegment(s)) else None
    case _ => None
  }

  /** A `$ref` that is not a string stops the walk. */
  predicate BadRef(ms: seq<Member>) {
    var r := Get(ms, "$ref");
    r.Some? && !r.value.Str?
  }

  /**
   The walk. `depth` is how many references may still be followed inside one another, as the
   interpreter's stack would allow; a referenced definition replaces the object and its other members.
   */
  function Resolve(v: Value, defs: seq<Member>, depth: nat): Result<Value>
    decreases depth, v, |defs| + 1
  {
    match v
    case Obj(ms) =>
      if BadRef(ms) then Err(Malformed)
      else if LocalRef(ms).Some? then
        var def := Get(defs, LocalRef(ms).value);
        if def.None? then Err(MissingDef(LocalRef(ms).value))
        else if depth == 0 then Err(TooDeep)
        else Resolve(def.value, defs, depth - 1)
      else
        var r := ResolveMembers(ms, defs, depth);
        if r.Err? then Err(r.error) else Ok(Obj(r.value))
    case Arr(items) =>
      var r := ResolveItems(items, defs, depth);
      if r.Err? then Err(r.error) else Ok(Arr(r.value))
    case _ => Ok(v)
  }

  function ResolveMembers(ms: seq<Member>, defs: seq<Member>, depth: nat): (r: Result<seq<Member>>)
    ensures r.Ok? <==> forall i | 0 <= i < |ms| :: Resolve(ms[i].value, defs, depth).Ok?
    ensures r.Ok? ==> |r.value| == |ms|
    ensures r.Ok? ==>
      forall i | 0 <= i < |ms| :: r.value[i] == Member(ms[i].key, Resolve(ms[i].value, defs, depth).value)
    ensures r.Err? ==> exists i :: 0 <= i < |ms| && Resolve(ms[i].value, defs, depth) == Err(r.error)
    decreases depth, ms, 0
  {
    if ms == [] then Ok([])
    else
      var first := Resolve(ms[0].value, defs, depth);
      if first.Err? then Err(first.error)
      else
        var rest := ResolveMembers(ms[1..], defs, depth);
        if rest.Err? then rest else Ok([Member(ms[0].key, first.value)] + rest.value)
  }

  function ResolveItems(items: seq<Value>, defs: seq<Member>, depth: nat): (r: Result<seq<Value>>)
    ensures r.Ok? <==> forall i | 0 <= i < |items| :: Resolve(items[i], defs, depth).Ok?
    ensures r.Ok? ==> |r.value| == |items|
    ensures r.Ok? ==> forall i | 0 <= i < |items| :: r.value[i] == Resolve(items[i], defs, depth).value
    ensures r.Err? ==> exists i :: 0 <= i < |items| && Resolve(items[i], defs, depth) == Err(r.error)
    decreases depth, items, 0
  {
    if items == [] then Ok([])
    else
      var first := Resolve(items[0], defs, depth);
      if first.Err? then Err(first.error)
      else
        var rest := ResolveItems(items[1..], defs, depth);
        if rest.Err? then rest else Ok([first.value] + rest.value)
  }

  /** `inline_refs`: the top-level `$defs` are taken out first; any others stay and are walked. */
  function Inline(schema: seq<Member>, depth: nat): Result<Value> {
    match Get(schema, "$defs")
    case None => Resolve(Obj(schema), [], depth)
    case Some(Obj(defs)) => Resolve(Obj(Without(schema, "$defs")), defs, depth)
    case _ =>
      var r := Resolve(Obj(Without(schema, "$defs")), [], depth);
      if r.Err? && r.error.MissingDef? then Err(Malformed) else r
  }

  function Without(ms: seq<Member>, key: string): seq<Member> {
    if ms == [] then []
    else if ms[0].key == key then ms[1..]
    else [ms[0]] + Without(ms[1..], key)
  }

  // ── No local reference survives ──

  /** At no depth is there an object that refers into `$defs`, or whose `$ref` is not a string. */
  predicate Settled(v: Value) {
    match v
    case Obj(ms) => !BadRef(ms) && LocalRef(ms).None? && forall i | 0 <= i < |ms| :: Settled(ms[i].value)
    case Arr(items) => forall i | 0 <= i < |items| :: Settled(items[i])
    case _ => true
  }

  /** `out` is `ms` with every value walked. */
  ghost predicate Walked(ms: seq<Member>, out: seq<Member>, defs: seq<Member>, depth: nat) {
    && |out| == |ms|
    && forall i | 0 <= i < |ms| ::
      Resolve(ms[i].value, defs, depth).Ok? && out[i] == Member(ms[i].key, Resolve(ms[i].value, defs, depth).value)
  }

  lemma {:induction false} GetWalked(ms: seq<Member>, out: seq<Member>, defs: seq<Member>, depth: nat, key: string)
    requires Walked(ms, out, defs, depth)
    ensures Get(out, key).Some? <==> Get(ms, key).Some?
    ensures Get(ms, key).Some? ==>
      Resolve(Get(ms, key).value, defs, depth).Ok?
        && Get(out, key).value == Resolve(Get(ms, key).value, defs, depth).value
    decreases |ms|
  {
    if ms != [] && ms[0].key != key {
      GetWalked(ms[1..], out[1..], defs, depth, key);
    }
  }

  /** A walk through an object that refers nowhere walks each member. */
  lemma ThroughMembers(ms: seq<Member>, defs: seq<Member>, depth: nat) returns (out: seq<Member>)
    requires Resolve(Obj(ms), defs, depth).Ok? && LocalRef(ms).None?
    ensures Resolve(Obj(ms), defs, depth) == Ok(Obj(out)) && Walked(ms, out, defs, depth) && !BadRef(ms)
  {
    out := ResolveMembers(ms, defs, depth).value;
  }

  lemma ThroughItems(items: seq<Value>, defs: seq<Member>, depth: nat) returns (out: seq<Value>)
    requires Resolve(Arr(items), defs, depth).Ok?
    ensures Resolve(Arr(items), defs, depth) == Ok(Arr(out)) && |out| == |items|
    ensures forall i | 0 <= i < |items| :: Resolve(items[i], defs, depth) == Ok(out[i])
  {
    out := ResolveItems(items, defs, depth).value;
  }

  lemma ThroughRef(ms: seq<Member>, defs: seq<Member>, depth: nat) returns (def: Value)
    requires Resolve(Obj(ms), defs, depth).Ok? && LocalRef(ms).Some?
    ensures depth > 0 && Get(defs, LocalRef(ms).value) == Some(def)
    ensures Resolve(Obj(ms), defs, depth) == Resolve(def, defs, depth - 1) && !BadRef(ms)
  {
    def := Get(defs, LocalRef(ms).value).value;
  }

  /** A plain object keeps its `$ref` member as it is. */
  lemma WalkedKeepsRef(ms: seq<Member>, out: seq<Member>, defs: seq<Member>, depth: nat)
    requires Walked(ms, out, defs, depth) && !BadRef(ms) && LocalRef(ms).None?
    ensures Get(out, "$ref") == Get(ms, "$ref") && !BadRef(out) && LocalRef(out).None?
  {
    GetWalked(ms, out, defs, depth, "$ref");
  }

  lemma {:induction false} InlinedIsSettled(v: Value, defs: seq<Member>, depth: nat)
    requires Resolve(v, defs, depth).Ok?
    ensures Settled(Resolve(v, defs, depth).value)
    decreases depth, v
  {
    hide LocalRef, BadRef, Get, Resolve;
    match v
    case Obj(ms) =>
      if LocalRef(ms).Some? {
        var def := ThroughRef(ms, defs, depth);
        InlinedIsSettled(def, defs, depth - 1);
      } else {
        var out := ThroughMembers(ms, defs, depth);
        WalkedKeepsRef(ms, out, defs, depth);
        forall i | 0 <= i < |ms| ensures Settled(out[i].value) { InlinedIsSettled(ms[i].value, defs, depth); }
      }
    case Arr(items) =>
      var out := ThroughItems(items, defs, depth);
      forall i | 0 <= i < |items| ensures Settled(out[i]) { InlinedIsSettled(items[i], defs, depth); }
    case _ => AtomIs(v, defs, depth);
  }

  /** What is settled is left alone, so inlining twice is inlining once. */
  lemma {:induction false} SettledIsKept(v: Value, defs: seq<Member>, depth: nat)
    requires Settled(v)
    ensures Resolve(v, defs, depth) == Ok(v)
    decreases v
  {
    match v
    case Obj(ms) =>
      forall i | 0 <= i < |ms| ensures Resolve(ms[i].value, defs, depth) == Ok(ms[i].value) {
        SettledIsKept(ms[i].value, defs, depth);
      }
      assert ResolveMembers(ms, defs, depth).value == ms;
    case Arr(items) =>
      forall i | 0 <= i < |items| ensures Resolve(items[i], defs, depth) == Ok(items[i]) {
        SettledIsKept(items[i], defs, depth);
      }
      assert ResolveItems(items, defs, depth).value == items;
    case _ =>
  }

  // ── When the walk ends ──

  /** `v` holds, where the walk gets to it, a reference to `name`. */
  predicate Mentions(v: Value, name: string) {
    match v
    case Obj(ms) =>
      if LocalRef(ms).Some? then LocalRef(ms).value == name
      else exists i | 0 <= i < |ms| :: Mentions(ms[i].value, name)
    case Arr(items) => exists i | 0 <= i < |items| :: Mentions(items[i], name)
    case _ => false
  }

  /** Where the walk gets to it, every `$ref` is a string, and one into `$defs` names a definition. */
  predicate Closed(v: Value, defs: seq<Member>) {
    match v
    case Obj(ms) =>
      && !BadRef(ms)
      && if LocalRef(ms).Some? then Has(defs, LocalRef(ms).value)
         else forall i | 0 <= i < |ms| :: Closed(ms[i].value, defs)
    case Arr(items) => forall i | 0 <= i < |items| :: Closed(items[i], defs)
    case _ => true
  }

  ghost predicate AllClosed(defs: seq<Member>) {
    forall n | Has(defs, n) :: Closed(Get(defs, n).value, defs)
  }

  /** Every definition mentions only definitions of lower rank: no reference leads back to itself. */
  ghost predicate Ranked(defs: seq<Member>, rank: string -> nat) {
    forall n, m | Has(defs, n) && Mentions(Get(defs, n).value, m) :: rank(m) < rank(n)
  }

  /** With acyclic definitions the walk ends, at a depth the ranks bound. */
  lemma {:induction false} AcyclicEnds(v: Value, defs: seq<Member>, rank: string -> nat, depth: nat)
    requires AllClosed(defs) && Ranked(defs, rank) && Closed(v, defs)
    requires forall n | Mentions(v, n) :: rank(n) < depth
    ensures Resolve(v, defs, depth).Ok?
    decreases depth, v
  {
    hide LocalRef, BadRef, Get;
    match v
    case Obj(ms) =>
      if LocalRef(ms).Some? {
        var n := LocalRef(ms).value;
        assert Mentions(v, n);
        AcyclicEnds(Get(defs, n).value, defs, rank, depth - 1);
      } else {
        forall i | 0 <= i < |ms| ensures Resolve(ms[i].value, defs, depth).Ok? {
          AcyclicEnds(ms[i].value, defs, rank, depth);
        }
      }
    case Arr(items) =>
      forall i | 0 <= i < |items| ensures Resolve(items[i], defs, depth).Ok? {
        AcyclicEnds(items[i], defs, rank, depth);
      }
    case _ =>
  }

  /** A walk that ended has followed every reference it met. */
  lemma {:induction false} EndedFollowed(v: Value, defs: seq<Member>, depth: nat, name: string)
    requires Resolve(v, defs, depth).Ok? && Mentions(v, name)
    ensures Has(defs, name) && depth > 0 && Resolve(Get(defs, name).value, defs, depth - 1).Ok?
    decreases v
  {
    match v
    case Obj(ms) =>
      if LocalRef(ms).None? {
        var i :| 0 <= i < |ms| && Mentions(ms[i].value, name);
        EndedFollowed(ms[i].value, defs, depth, name);
      }
    case Arr(items) =>
      var i :| 0 <= i < |items| && Mentions(items[i], name);
      EndedFollowed(items[i], defs, depth, name);
    case _ =>
  }

  /** More depth never changes a result. */
  lemma {:induction false} DeeperIsSame(v: Value, defs: seq<Member>, depth: nat, more: nat)
    requires Resolve(v, defs, depth).Ok? && more >= depth
    ensures Resolve(v, defs, more) == Resolve(v, defs, depth)
    decreases depth, v
  {
    hide LocalRef, BadRef, Get, Resolve;
    match v
    case Obj(ms) =>
      if LocalRef(ms).Some? {
        var def := ThroughRef(ms, defs, depth);
        DeeperIsSame(def, defs, depth - 1, more - 1);
        RefIs(ms, defs, more);
      } else {
        var out := ThroughMembers(ms, defs, depth);
        forall i | 0 <= i < |ms| ensures Resolve(ms[i].value, defs, more) == Resolve(ms[i].value, defs, depth) {
          DeeperIsSame(ms[i].value, defs, depth, more);
        }
        MembersAre(ms, out, defs, more);
      }
    case Arr(items) =>
      var out := ThroughItems(items, defs, depth);
      forall i | 0 <= i < |items| ensures Resolve(items[i], defs, more) == Ok(out[i]) {
        DeeperIsSame(items[i], defs, depth, more);
      }
      ItemsAre(items, out, defs, more);
    case _ =>
      AtomIs(v, defs, depth);
      AtomIs(v, defs, more);
  }

  lemma RefIs(ms: seq<Member>, defs: seq<Member>, depth: nat)
    requires !BadRef(ms) && LocalRef(ms).Some? && Has(defs, LocalRef(ms).value) && depth > 0
    ensures Resolve(Obj(ms), defs, depth) == Resolve(Get(defs, LocalRef(ms).value).value, defs, depth - 1)
  {
  }

  lemma MembersAre(ms: seq<Member>, out: seq<Member>, defs: seq<Member>, depth: nat)
    requires Walked(ms, out, defs, depth) && !BadRef(ms) && LocalRef(ms).None?
    ensures Resolve(Obj(ms), defs, depth) == Ok(Obj(out))
  {
    assert ResolveMembers(ms, defs, depth).value == out;
  }

  lemma ItemsAre(items: seq<Value>, out: seq<Value>, defs: seq<Member>, depth: nat)
    requires |out| == |items| && forall i | 0 <= i < |items| :: Resolve(items[i], defs, depth) == Ok(out[i])
    ensures Resolve(Arr(items), defs, depth) == Ok(Arr(out))
  {
    assert ResolveItems(items, defs, depth).value == out;
  }

  lemma AtomIs(v: Value, defs: seq<Member>, depth: nat)
    requires !v.Obj? && !v.Arr?
    ensures Resolve(v, defs, depth) == Ok(v)
  {
  }

  /** The least number up to `n` from which on `p` holds up to `n`. */
  ghost function Least(p: nat -> bool, n: nat): (d: nat)
    requires p(n)
    ensures d <= n && p(d) && (d > 0 ==> !p(d - 1))
  {
    if n > 0 && p(n - 1) then Least(p, n - 1) else n
  }

  ghost predicate AllEnd(defs: seq<Member>, depth: nat) {
    forall n | Has(defs, n) :: Resolve(Get(defs, n).value, defs, depth).Ok?
  }

  predicate Ends(defs: seq<Member>, n: string, depth: nat) {
    Has(defs, n) && Resolve(Get(defs, n).value, defs, depth).Ok?
  }

  ghost function LeastDepth(defs: seq<Member>, depth: nat, n: string): nat {
    if Ends(defs, n, depth) then Least((d: nat) => Ends(defs, n, d), depth) else 0
  }

  lemma RankOf(defs: seq<Member>, depth: nat)
    requires AllEnd(defs, depth)
    ensures Ranked(defs, n => LeastDepth(defs, depth, n))
  {
    hide Mentions, Resolve;
    var rank := n => LeastDepth(defs, depth, n);
    forall n, m | Has(defs, n) && Mentions(Get(defs, n).value, m) ensures rank(m) < rank(n) {
      assert Ends(defs, n, depth) && Ends(defs, n, rank(n));
      EndedFollowed(Get(defs, n).value, defs, rank(n), m);
      assert Ends(defs, m, depth) && Ends(defs, m, rank(n) - 1);
      if rank(m) >= rank(n) {
        DeeperIsSame(Get(defs, m).value, defs, rank(n) - 1, rank(m) - 1);
        assert false;
      }
    }
  }

  lemma Bounded(defs: seq<Member>, rank: string -> nat) returns (depth: nat)
    ensures forall n | Has(defs, n) :: rank(n) < depth
    decreases |defs|
  {
    if defs == [] {
      depth := 0;
    } else {
      depth := Bounded(defs[1..], rank);
      depth := depth + rank(defs[0].key) + 1;
      forall n | Has(defs, n) ensures rank(n) < depth {
        assert n == defs[0].key || Has(defs[1..], n);
      }
    }
  }

  lemma {:induction false} ClosedMentions(v: Value, defs: seq<Member>, name: string)
    requires Closed(v, defs) && Mentions(v, name)
    ensures Has(defs, name)
    decreases v
  {
    match v
    case Obj(ms) =>
      if LocalRef(ms).None? {
        var i :| 0 <= i < |ms| && Mentions(ms[i].value, name);
        ClosedMentions(ms[i].value, defs, name);
      }
    case Arr(items) =>
      var i :| 0 <= i < |items| && Mentions(items[i], name);
      ClosedMentions(items[i], defs, name);
    case _ =>
  }

  /** All definitions inline, given depth enough, exactly when no reference leads back to itself. */
  lemma InlinesIffAcyclic(defs: seq<Member>)
    requires AllClosed(defs)
    ensures (exists depth :: AllEnd(defs, depth)) <==> (exists rank :: Ranked(defs, rank))
  {
    if depth :| AllEnd(defs, depth) {
      RankOf(defs, depth);
    }
    if rank :| Ranked(defs, rank) {
      var depth := Bounded(defs, rank);
      forall n | Has(defs, n) ensures Resolve(Get(defs, n).value, defs, depth).Ok? {
        var v := Get(defs, n).value;
        forall m | Mentions(v, m) ensures rank(m) < depth { ClosedMentions(v, defs, m); }
        AcyclicEnds(v, defs, rank, depth);
      }
      assert AllEnd(defs, depth);
    }
  }
}