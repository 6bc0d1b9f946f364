/** The per-target breakers of outgoing module-to-module calls: a map bounded by recency of use. */
module Breakers {
  import opened OrderedDict

  const CAPACITY: nat := 256

  /** A breaker is known by the number of breakers built before it. */
  datatype Cache = Cache(breakers: Dict<string, nat>, built: nat)

  /** `move_to_end`. */
  function MoveToEnd(d: Dict<string, nat>, k: string): Dict<string, nat> {
    Dict(Without(d.order, k) + [k], d.vals)
  }

  /** `popitem(last=False)`. */
  function DropOldest(d: Dict<string, nat>): Dict<string, nat> {
    if d.order == [] then d else Dict(d.order[1..], d.vals - {d.order[0]})
  }

  function Use(c: Cache, target: string): Cache {
    if target in c.breakers.vals then c.(breakers := MoveToEnd(c.breakers, target))
    else
      var more := Put(c.breakers, target, c.built);
      Cache(if |more.order| > CAPACITY then DropOldest(more) else more, c.built + 1)
  }

  function After(uses: seq<string>): Cache {
    if uses == [] then Cache(Empty(), 0) else Use(After(uses[..|uses| - 1]), uses[|uses| - 1])
  }

  class M2MCallRegistry {
    var breakers: Dict<string, nat>
    var built: nat
    ghost var uses: seq<string>

    ghost predicate Valid()
      reads this
    {
      Cache(breakers, built) == After(uses)
    }

    constructor ()
      ensures Valid() && uses == []
    {
      breakers, built, uses := Empty(), 0, [];
    }

    method BreakerFor(target: string) returns (breaker: nat)
      requires Valid()
      modifies this
      ensures Valid() && uses == old(uses) + [target]
      ensures target in breakers.vals && breaker == breakers.vals[target]
    {
      Bounded(uses);
      BoundedStep(uses, target);
      uses := uses + [target];
      assert uses[..|uses| - 1] == old(uses);
      if target in breakers.vals {
        breaker := breakers.vals[target];
        breakers := MoveToEnd(breakers, target);
        return;
      }
      breaker := built;
      built := built + 1;
      breakers := Put(breakers, target, breaker);
      if |breakers.order| > CAPACITY {
        breakers := DropOldest(breakers);
      }
    }
  }

  // ── What the map is ──

  /** Every target ever used, in the order of last use. */
  function ByLastUse(uses: seq<string>): seq<string> {
    if uses == [] then []
    else Without(ByLastUse(uses[..|uses| - 1]), uses[|uses| - 1]) + [uses[|uses| - 1]]
  }

  function Newest(s: seq<string>): seq<string> {
    if |s| > 256 then s[|s| - 256..] else s
  }

  lemma {:induction false} ByLastUseDistinct(uses: seq<string>)
    ensures Distinct(ByLastUse(uses))
    ensures forall t :: t in ByLastUse(uses) <==> t in uses
    decreases |uses|
  {
    if uses != [] {
      var before, t := uses[..|uses| - 1], uses[|uses| - 1];
      ByLastUseDistinct(before);
      WithoutMembers(ByLastUse(before), t);
      assert uses == before + [t];
    }
  }

  /** `s` around its first `k`. */
  lemma {:induction false} Around(s: seq<string>, k: string) returns (a: seq<string>, b: seq<string>)
    requires k in s
    ensures s == a + [k] + b && k !in a
    decreases |s|
  {
    if s[0] == k {
      a, b := [], s[1..];
    } else {
      assert s == [s[0]] + s[1..];
      a, b := Around(s[1..], k);
      a := [s[0]] + a;
    }
  }

  lemma {:induction false} WithoutMiddle(a: seq<string>, k: string, b: seq<string>)
    requires k !in a
    ensures Without(a + [k] + b, k) == a + b
    decreases |a|
  {
    if a == [] {
      assert a + [k] + b == [k] + b;
    } else {
      assert (a + [k] + b)[1..] == a[1..] + [k] + b;
      WithoutMiddle(a[1..], k, b);
      assert a + b == [a[0]] + (a[1..] + b);
    }
  }

  lemma {:induction false} WithoutAbsent(s: seq<string>, k: string)
    requires k !in s
    ensures Without(s, k) == s
    decreases |s|
  {
    if s != [] { WithoutAbsent(s[1..], k); }
  }

  lemma Apart(a: seq<string>, b: seq<string>, k: string)
    requires Distinct(a + b) && k in b
    ensures k !in a
  {
    forall i | 0 <= i < |a| ensures a[i] != k {
      var j :| 0 <= j < |b| && b[j] == k;
      assert (a + b)[i] != (a + b)[|a| + j];
    }
  }

  lemma NewestOf(lost: seq<string>, kept: seq<string>)
    requires |kept| == CAPACITY || (lost == [] && |kept| < CAPACITY)
    ensures Newest(lost + kept) == kept
  {
  }

  /** Cutting to the newest commutes with one more use. */
  lemma NewestStep(all: seq<string>, k: string)
    requires Distinct(all)
    ensures var kept := Newest(all);
      Newest(Without(all, k) + [k]) == if k in kept then Without(kept, k) + [k] else Newest(kept + [k])
  {
    var kept := Newest(all);
    var lost := all[..|all| - |kept|];
    assert all == lost + kept;
    hide Newest;
    if k in kept {
      NewestStepKept(lost, kept, k);
    } else if k in lost {
      hide Without, Distinct;
      NewestStepOld(lost, kept, k);
    } else {
      WithoutAbsent(all, k);
      NewestStepLost(lost, kept, k);
    }
  }

  lemma NewestStepOld(lost: seq<string>, kept: seq<string>, k: string)
    requires k in lost && |kept| == CAPACITY
    ensures Newest(Without(lost + kept, k) + [k]) == Newest(kept + [k])
  {
    var a, b := Around(lost, k);
    assert lost + kept == a + [k] + (b + kept);
    WithoutMiddle(a, k, b + kept);
    assert a + (b + kept) + [k] == a + b + kept + [k];
    hide Newest, Without;
    NewestStepLost(a + b, kept, k);
  }

  lemma NewestStepLost(lost: seq<string>, kept: seq<string>, k: string)
    requires |kept| == CAPACITY || (lost == [] && |kept| < CAPACITY)
    ensures Newest(lost + kept + [k]) == Newest(kept + [k])
  {
    if |kept| == CAPACITY {
      assert kept == [kept[0]] + kept[1..];
      assert lost + kept + [k] == (lost + [kept[0]]) + (kept[1..] + [k]);
      assert kept + [k] == [kept[0]] + (kept[1..] + [k]);
      NewestOf(lost + [kept[0]], kept[1..] + [k]);
      NewestOf([kept[0]], kept[1..] + [k]);
    } else {
      assert lost + kept + [k] == kept + [k];
    }
  }

  lemma NewestStepKept(lost: seq<string>, kept: seq<string>, k: string)
    requires Distinct(lost + kept) && k in kept && (|kept| == CAPACITY || (lost == [] && |kept| < CAPACITY))
    ensures Newest(Without(lost + kept, k) + [k]) == Without(kept, k) + [k]
  {
    hide *;
    Apart(lost, kept, k);
    var a, b := Around(kept, k);
    WithoutMiddle(a, k, b);
    WithoutMiddle(lost + a, k, b);
    Regroup(lost, a, [k], b);
    NewestOf(lost, a + b + [k]);
  }

  lemma Regroup(x: seq<string>, a: seq<string>, k: seq<string>, b: seq<string>)
    ensures x + (a + k + b) == x + a + k + b && x + a + b + k == x + (a + b + k)
    ensures |a + b + k| == |a + k + b|
  {
  }

  /** The breakers kept, oldest first, are those of the 256 targets used most recently. */
  lemma {:induction false} KeepsMostRecent(uses: seq<string>)
    ensures var c := After(uses); Valid(c.breakers) && c.breakers.order == Newest(ByLastUse(uses))
    decreases |uses|
  {
    if uses != [] {
      var before, t := uses[..|uses| - 1], uses[|uses| - 1];
      KeepsMostRecent(before);
      ByLastUseDistinct(before);
      NewestStep(ByLastUse(before), t);
      UseValid(After(before), t);
    }
  }

  lemma Bounded(uses: seq<string>)
    ensures Valid(After(uses).breakers) && |After(uses).breakers.order| <= CAPACITY
  {
    KeepsMostRecent(uses);
  }

  lemma BoundedStep(uses: seq<string>, target: string)
    ensures target in Use(After(uses), target).breakers.vals
  {
    Bounded(uses);
    UseValid(After(uses), target);
  }

  lemma MoveValid(d: Dict<string, nat>, t: string)
    requires Valid(d) && t in d.vals
    ensures Valid(MoveToEnd(d, t))
  {
    WithoutMembers(d.order, t);
    var s := Without(d.order, t);
    forall k | k in d.vals ensures k in s + [t] { if k != t { assert k in s; } }
  }

  lemma DropValid(d: Dict<string, nat>)
    requires Valid(d) && d.order != []
    ensures Valid(DropOldest(d))
  {
    var e := DropOldest(d);
    assert d.order == [d.order[0]] + e.order;
    assert d.order[0] !in e.order;
  }

  /** A target not in the map goes last, and the oldest makes room. */
  lemma UseNew(c: Cache, t: string)
    requires Valid(c.breakers) && |c.breakers.order| <= CAPACITY && t !in c.breakers.vals
    ensures var d := Use(c, t).breakers;
      && Valid(d) && t in d.vals && t !in c.breakers.order
      && d.order == Newest(c.breakers.order + [t])
      && (forall k | k in d.vals && k in c.breakers.vals :: d.vals[k] == c.breakers.vals[k])
  {
    var d := c.breakers;
    var more := Put(d, t, c.built);
    PutValid(d, t, c.built);
    assert t !in d.order && more.order == d.order + [t];
    if |more.order| > CAPACITY {
      DropValid(more);
      hide Valid, Distinct, Without;
      assert more.order[0] == d.order[0] && d.order[0] in d.order;
      assert |more.order| == CAPACITY + 1;
    } else {
      hide Valid, Distinct, Without;
    }
  }

  /** One use: the order is well formed, and every breaker that stays is the same one. */
  lemma UseValid(c: Cache, t: string)
    requires Valid(c.breakers) && |c.breakers.order| <= CAPACITY
    ensures var d := Use(c, t).breakers;
      && Valid(d) && t in d.vals
      && d.order == (if t in c.breakers.order then Without(c.breakers.order, t) + [t]
        else Newest(c.breakers.order + [t]))
      && (forall k | k in d.vals && k in c.breakers.vals :: d.vals[k] == c.breakers.vals[k])
  {
    if t in c.breakers.vals {
      assert t in c.breakers.order;
      MoveValid(c.breakers, t);
      hide Valid, Without, Distinct;
    } else {
      hide Use, Valid, Newest, Without;
      UseNew(c, t);
    }
  }

  /** While fewer than 256 other targets are used, a target keeps the breaker it got. */
  lemma {:induction false} KeepsBreaker(uses: seq<string>, t: string, others: seq<string>)
    requires |(set x | x in others) - {t}| < 256
    ensures var c, d := After(uses + [t]).breakers, After(uses + [t] + others).breakers;
      t in c.vals && t in d.vals && d.vals[t] == c.vals[t]
    decreases |others|
  {
    hide *;
    var first := uses + [t];
    Then(uses, t);
    BoundedStep(uses, t);
    if others == [] {
      assert first + others == first;
    } else {
      var fewer, x := others[..|others| - 1], others[|others| - 1];
      assert others == fewer + [x];
      assert first + others == first + fewer + [x];
      Smaller((set y | y in fewer) - {t}, (set y | y in others) - {t});
      KeepsBreaker(uses, t, fewer);
      Bounded(first + fewer);
      UseValid(After(first + fewer), x);
      Then(first + fewer, x);
      StaysRecent(uses, t, others);
    }
  }

  lemma Then(uses: seq<string>, t: string)
    ensures After(uses + [t]) == Use(After(uses), t)
  {
    assert (uses + [t])[..|uses|] == uses;
  }

  lemma Smaller(xs: set<string>, ys: set<string>)
    requires xs <= ys
    ensures |xs| <= |ys|
  {
    assert ys == xs + (ys - xs);
  }

  /** Only targets used since can stand behind `t` in the order of last use. */
  lemma {:induction false} UsedSince(uses: seq<string>, t: string, others: seq<string>)
      returns (a: seq<string>, b: seq<string>)
    ensures ByLastUse(uses + [t] + others) == a + [t] + b && forall x | x in b :: x in others && x != t
    decreases |others|
  {
    hide *;
    if others == [] {
      ByLastUseThen(uses, t);
      a, b := Without(ByLastUse(uses), t), [];
      assert uses + [t] + others == uses + [t];
      assert a + [t] + b == a + [t];
    } else {
      var fewer, x := others[..|others| - 1], others[|others| - 1];
      assert others == fewer + [x];
      assert uses + [t] + others == uses + [t] + fewer + [x];
      a, b := UsedSince(uses, t, fewer);
      ByLastUseDistinct(uses + [t] + fewer);
      ByLastUseThen(uses + [t] + fewer, x);
      UsedSinceStep(a, t, b, x);
      if x == t {
        a, b := a + b, [];
        assert a + [t] + b == a + [t];
      } else {
        WithoutKeeps(b, x);
        a, b := Without(a, x), Without(b, x) + [x];
      }
    }
  }

  lemma ByLastUseThen(uses: seq<string>, x: string)
    ensures ByLastUse(uses + [x]) == Without(ByLastUse(uses), x) + [x]
  {
    assert (uses + [x])[..|uses|] == uses;
  }

  lemma {:induction false} WithoutKeeps(s: seq<string>, x: string)
    ensures forall y | y in Without(s, x) :: y in s
    decreases |s|
  {
    if s != [] { WithoutKeeps(s[1..], x); }
  }

  lemma UsedSinceStep(a: seq<string>, t: string, b: seq<string>, x: string)
    requires Distinct(a + [t] + b)
    ensures Without(a + [t] + b, x) + [x] == if x == t then a + b + [t] else Without(a, x) + [t] + (Without(b, x) + [x])
  {
    hide Without;
    if x == t {
      assert a + [t] + b == a + ([t] + b);
      assert t in [t] + b;
      Apart(a, [t] + b, t);
      hide Distinct;
      WithoutMiddle(a, t, b);
    } else if x in a {
      assert a + [t] + b == a + ([t] + b);
      Apart'(a, [t] + b, x);
      hide Distinct;
      UsedBefore(a, t, b, x);
    } else if x in b {
      hide Distinct;
      UsedAfter(a, t, b, x);
    } else {
      hide Distinct;
      WithoutAbsent(a + [t] + b, x);
      WithoutAbsent(a, x);
      WithoutAbsent(b, x);
      assert a + [t] + b + [x] == a + [t] + (b + [x]);
    }
  }

  lemma Apart'(a: seq<string>, b: seq<string>, k: string)
    requires Distinct(a + b) && k in a
    ensures k !in b
  {
    forall j | 0 <= j < |b| ensures b[j] != k {
      var i :| 0 <= i < |a| && a[i] == k;
      assert (a + b)[i] != (a + b)[|a| + j];
    }
  }

  lemma UsedBefore(a: seq<string>, t: string, b: seq<string>, x: string)
    requires x in a && x !in b && x != t
    ensures Without(a + [t] + b, x) + [x] == Without(a, x) + [t] + (Without(b, x) + [x])
  {
    hide Without;
    var p, q := Around(a, x);
    assert a + [t] + b == p + [x] + (q + [t] + b);
    WithoutMiddle(p, x, q + [t] + b);
    WithoutMiddle(p, x, q);
    WithoutAbsent(b, x);
    assert p + (q + [t] + b) + [x] == p + q + [t] + (b + [x]);
  }

  lemma UsedAfter(a: seq<string>, t: string, b: seq<string>, x: string)
    requires x !in a && x in b && x != t
    ensures Without(a + [t] + b, x) + [x] == Without(a, x) + [t] + (Without(b, x) + [x])
  {
    hide Without;
    var p, q := Around(b, x);
    assert a + [t] + b == (a + [t] + p) + [x] + q;
    WithoutMiddle(a + [t] + p, x, q);
    WithoutMiddle(p, x, q);
    WithoutAbsent(a, x);
    assert a + [t] + p + q + [x] == a + [t] + (p + q + [x]);
  }

  lemma {:induction false} DistinctLength(s: seq<string>, xs: set<string>)
    requires Distinct(s) && forall x | x in s :: x in xs
    ensures |s| <= |xs|
    decreases |s|
  {
    if s != [] {
      assert s[0] !in s[1..];
      DistinctLength(s[1..], xs - {s[0]});
    }
  }

  lemma StaysRecent(uses: seq<string>, t: string, others: seq<string>)
    requires |(set x | x in others) - {t}| < 256
    ensures t in After(uses + [t] + others).breakers.vals
  {
    var all := uses + [t] + others;
    KeepsMostRecent(all);
    ByLastUseDistinct(all);
    var a, b := UsedSince(uses, t, others);
    var order := ByLastUse(all);
    assert Distinct(b) by {
      forall i, j | 0 <= i < j < |b| ensures b[i] != b[j] {
        assert order[|a| + 1 + i] == b[i] && order[|a| + 1 + j] == b[j];
      }
    }
    DistinctLength(b, (set x | x in others) - {t});
    var kept := Newest(order);
    assert kept[|kept| - |b| - 1] == t;
  }

  ghost predicate Own(c: Cache) {
    && (forall k | k in c.breakers.vals :: c.breakers.vals[k] < c.built)
    && (forall k, n | k in c.breakers.vals && n in c.breakers.vals && c.breakers.vals[k] == c.breakers.vals[n] ::
      k == n)
  }

  lemma UseOwn(c: Cache, t: string)
    requires Own(c)
    ensures Own(Use(c, t))
  {
  }

  /** No two targets share a breaker. */
  lemma {:induction false} OwnBreakers(uses: seq<string>)
    ensures Own(After(uses))
    decreases |uses|
  {
    if uses != [] {
      OwnBreakers(uses[..|uses| - 1]);
      UseOwn(After(uses[..|uses| - 1]), uses[|uses| - 1]);
    }
  }
}
