/**
 When collecting `ui:` keys ends: exactly when no definition's references, followed where the walk
 follows them, lead back to it.
 */
module SchemaEnds {
  import opened Json
  import opened SchemaSplit
  import opened SchemaSplitter
  import opened SchemaUi

  // ── Ending, without the targets ──

  /** The walk from here follows at most `depth` references inside one another, all of them to objects. */
  predicate Ends(ms: seq<Member>, defs: seq<Member>, depth: nat)
    decreases depth, ms, 0
  {
    forall i | 0 <= i < |ms| :: EndsAt(PlaceOf(ms[i].key), ms[i].value, defs, depth)
  }

  predicate EndsAt(p: Place, value: Value, defs: seq<Member>, depth: nat)
    decreases depth, value, 1
  {
    match value
    case Obj(ms) =>
      if p.Properties? then forall i | 0 <= i < |ms| && ms[i].value.Obj? :: Ends(ms[i].value.members, defs, depth)
      else p.Items? || p.Conditional? ==> Ends(ms, defs, depth)
    case Arr(items) =>
      p.AllOf? || p.Alternatives? ==>
        forall i | 0 <= i < |items| && items[i].Obj? :: Ends(items[i].members, defs, depth)
    case Str(_) =>
      p.Ref? && DefName(value).Some? && Has(defs, DefName(value).value) ==>
        var def := Get(defs, DefName(value).value).value;
        def.Obj? && depth > 0 && Ends(def.members, defs, depth - 1)
    case _ => true
  }

  lemma EndsHead(ms: seq<Member>, defs: seq<Member>, depth: nat)
    requires ms != []
    ensures Ends(ms, defs, depth) <==>
      EndsAt(PlaceOf(ms[0].key), ms[0].value, defs, depth) && Ends(ms[1..], defs, depth)
  {
    hide PlaceOf, EndsAt;
    assert ms == [ms[0]] + ms[1..];
  }

  /** Extraction succeeds exactly where the walk ends, whatever the target already holds. */
  lemma {:induction false} ExtractEnds(ms: seq<Member>, ui: seq<Member>, defs: seq<Member>, depth: nat)
    ensures Extract(ms, ui, defs, depth).Ok? <==> Ends(ms, defs, depth)
    decreases depth, ms, 0
  {
    hide PlaceOf, ExtractMember, EndsAt;
    if ms != [] {
      EndsHead(ms, defs, depth);
      MemberEndsIff(ms[0], ui, defs, depth);
      var r := ExtractMember(ms[0], ui, defs, depth);
      if r.Ok? { ExtractEnds(ms[1..], r.value, defs, depth); }
    }
  }

  lemma {:induction false} MemberEndsIff(m: Member, ui: seq<Member>, defs: seq<Member>, depth: nat)
    ensures ExtractMember(m, ui, defs, depth).Ok? <==> EndsAt(PlaceOf(m.key), m.value, defs, depth)
    decreases depth, m, 0
  {
    hide PlaceOf, Ends, DefName, Extract, ExtractEach, ExtractList, ExtractAll;
    var value := m.value;
    match PlaceOf(m.key)
    case Properties => if value.Obj? { EachEndsIff(value.members, ui, defs, depth); }
    case Items => if value.Obj? { ExtractEnds(value.members, [], defs, depth); }
    case Conditional => if value.Obj? { ExtractEnds(value.members, ui, defs, depth); }
    case Alternatives => if value.Arr? { ListEndsIff(value.items, ui, defs, depth); }
    case AllOf => if value.Arr? { ListEndsIff(value.items, ui, defs, depth); }
    case Ref =>
      DefNameIsText(value);
      if DefName(value).Some? && Has(defs, DefName(value).value) {
        var def := Get(defs, DefName(value).value).value;
        if def.Obj? && depth > 0 { ExtractEnds(def.members, ui, defs, depth - 1); }
      }
    case _ =>
  }

  lemma DefNameIsText(value: Value)
    ensures DefName(value).Some? ==> value.Str?
  {
  }

  lemma {:induction false} EachEndsIff(ms: seq<Member>, ui: seq<Member>, defs: seq<Member>, depth: nat)
    ensures ExtractEach(ms, ui, defs, depth).Ok? <==>
      forall i | 0 <= i < |ms| && ms[i].value.Obj? :: Ends(ms[i].value.members, defs, depth)
    decreases depth, ms, 0
  {
    hide Ends, Extract;
    if ms != [] {
      assert ms == [ms[0]] + ms[1..];
      var next := ui;
      if ms[0].value.Obj? {
        ExtractEnds(ms[0].value.members, [], defs, depth);
        var r := Extract(ms[0].value.members, [], defs, depth);
        if r.Ok? { next := SetFound(ui, ms[0].key, r.value); }
      }
      EachEndsIff(ms[1..], next, defs, depth);
    }
  }

  lemma {:induction false} ListEndsIff(items: seq<Value>, ui: seq<Member>, defs: seq<Member>, depth: nat)
    ensures ExtractList(items, defs, depth).Ok? <==>
      forall i | 0 <= i < |items| && items[i].Obj? :: Ends(items[i].members, defs, depth)
    ensures ExtractAll(items, ui, defs, depth).Ok? <==>
      forall i | 0 <= i < |items| && items[i].Obj? :: Ends(items[i].members, defs, depth)
    decreases depth, items, 0
  {
    hide Ends, Extract;
    if items != [] {
      assert items == [items[0]] + items[1..];
      var next := ui;
      if items[0].Obj? {
        ExtractEnds(items[0].members, [], defs, depth);
        ExtractEnds(items[0].members, ui, defs, depth);
        var r := Extract(items[0].members, ui, defs, depth);
        if r.Ok? { next := r.value; }
      }
      ListEndsIff(items[1..], next, defs, depth);
    }
  }

  // ── Ranks from depths, and depths from ranks ──

  /** A walk that ends has followed every reference it reaches. */
  lemma {:induction false} EndsFollows(ms: seq<Member>, defs: seq<Member>, depth: nat, name: string)
    requires Ends(ms, defs, depth) && SchemaUi.Reaches(ms, name) && Has(defs, name)
    ensures Get(defs, name).value.Obj? && depth > 0 && Ends(Get(defs, name).value.members, defs, depth - 1)
    decreases ms, 0
  {
    hide PlaceOf, DefName;
    var i :| 0 <= i < |ms| && ReachesMember(PlaceOf(ms[i].key), ms[i].value, name);
    var value := ms[i].value;
    assert value < ms[i];
    match value
    case Obj(inner) =>
      if PlaceOf(ms[i].key).Properties? {
        var j :| 0 <= j < |inner| && inner[j].value.Obj? && SchemaUi.Reaches(inner[j].value.members, name);
        EndsFollows(inner[j].value.members, defs, depth, name);
      } else {
        EndsFollows(inner, defs, depth, name);
      }
    case Arr(items) =>
      var j :| 0 <= j < |items| && items[j].Obj? && SchemaUi.Reaches(items[j].members, name);
      EndsFollows(items[j].members, defs, depth, name);
    case Str(_) =>
  }

  /** Every reference reached from here that names a definition names an object. */
  ghost predicate ToObjects(ms: seq<Member>, defs: seq<Member>) {
    forall n | SchemaUi.Reaches(ms, n) && Has(defs, n) :: Get(defs, n).value.Obj?
  }

  ghost predicate AllToObjects(defs: seq<Member>) {
    forall d | d in defs && d.value.Obj? :: ToObjects(d.value.members, defs)
  }

  ghost predicate ReachesBelow(ms: seq<Member>, defs: seq<Member>, rank: string -> nat, depth: nat) {
    forall n | SchemaUi.Reaches(ms, n) :: rank(n) < depth && (Has(defs, n) ==> Get(defs, n).value.Obj?)
  }

  lemma GetIsIn(defs: seq<Member>, n: string)
    requires Has(defs, n)
    ensures Member(n, Get(defs, n).value) in defs
  {
  }

  /** With ranked definitions the walk ends within the rank. */
  lemma {:induction false} RankedEnds(ms: seq<Member>, defs: seq<Member>, rank: string -> nat, depth: nat)
    requires AllToObjects(defs) && UiRanked(defs, rank) && ReachesBelow(ms, defs, rank, depth)
    ensures Ends(ms, defs, depth)
    decreases depth, ms, 1
  {
    hide PlaceOf, EndsAt, AllToObjects, UiRanked;
    forall i | 0 <= i < |ms| ensures EndsAt(PlaceOf(ms[i].key), ms[i].value, defs, depth) {
      forall n | ReachesMember(PlaceOf(ms[i].key), ms[i].value, n)
        ensures rank(n) < depth && (Has(defs, n) ==> Get(defs, n).value.Obj?)
      {
        assert SchemaUi.Reaches(ms, n);
      }
      RankedEndsAt(ms[i], defs, rank, depth);
    }
  }

  lemma {:induction false} RankedEndsAt(m: Member, defs: seq<Member>, rank: string -> nat, depth: nat)
    requires AllToObjects(defs) && UiRanked(defs, rank)
    requires forall n | ReachesMember(PlaceOf(m.key), m.value, n) ::
      rank(n) < depth && (Has(defs, n) ==> Get(defs, n).value.Obj?)
    ensures EndsAt(PlaceOf(m.key), m.value, defs, depth)
    decreases depth, m, 0
  {
    hide PlaceOf, DefName, Ends;
    var p, value := PlaceOf(m.key), m.value;
    match value
    case Obj(ms) =>
      if p.Properties? {
        forall i | 0 <= i < |ms| && ms[i].value.Obj? ensures Ends(ms[i].value.members, defs, depth) {
          RankedEnds(ms[i].value.members, defs, rank, depth);
        }
      } else if p.Items? || p.Conditional? {
        RankedEnds(ms, defs, rank, depth);
      }
    case Arr(items) =>
      if p.AllOf? || p.Alternatives? {
        forall i | 0 <= i < |items| && items[i].Obj? ensures Ends(items[i].members, defs, depth) {
          RankedEnds(items[i].members, defs, rank, depth);
        }
      }
    case Str(_) =>
      if p.Ref? && DefName(value).Some? && Has(defs, DefName(value).value) {
        var n := DefName(value).value;
        assert ReachesMember(p, value, n);
        GetIsIn(defs, n);
        BelowTarget(defs, rank, n);
        RankedEndsMore(defs, rank, n, depth);
      }
    case _ =>
  }

  lemma BelowTarget(defs: seq<Member>, rank: string -> nat, n: string)
    requires AllToObjects(defs) && UiRanked(defs, rank) && Has(defs, n) && Get(defs, n).value.Obj?
    ensures ReachesBelow(Get(defs, n).value.members, defs, rank, rank(n))
  {
    GetIsIn(defs, n);
    hide SchemaUi.Reaches;
  }

  lemma {:induction false} RankedEndsMore(defs: seq<Member>, rank: string -> nat, n: string, depth: nat)
    requires AllToObjects(defs) && UiRanked(defs, rank) && Has(defs, n) && Get(defs, n).value.Obj? && rank(n) < depth
    ensures Ends(Get(defs, n).value.members, defs, depth - 1)
    decreases depth - 1, Get(defs, n).value.members, 2
  {
    BelowTarget(defs, rank, n);
    hide Ends, AllToObjects, UiRanked, SchemaUi.Reaches;
    RankedEnds(Get(defs, n).value.members, defs, rank, depth - 1);
  }

  predicate DefEnds(defs: seq<Member>, n: string, depth: nat) {
    Has(defs, n) && Get(defs, n).value.Obj? && Ends(Get(defs, n).value.members, defs, depth)
  }

  /** The least depth from `i` on, up to `depth`, at which a definition's walk ends. */
  ghost function LeastDepth(defs: seq<Member>, n: string, i: nat, depth: nat): (d: nat)
    requires i <= depth && DefEnds(defs, n, depth)
    ensures i <= d <= depth && DefEnds(defs, n, d)
    ensures forall j | i <= j < d :: !DefEnds(defs, n, j)
    decreases depth - i
  {
    if DefEnds(defs, n, i) then i else LeastDepth(defs, n, i + 1, depth)
  }

  /** One more than that depth; 0 for names that define nothing. */
  ghost function RankOf(defs: seq<Member>, depth: nat, n: string): nat {
    if DefEnds(defs, n, depth) then LeastDepth(defs, n, 0, depth) + 1 else 0
  }

  lemma EndsRanks(defs: seq<Member>, depth: nat)
    requires forall n | Has(defs, n) && Get(defs, n).value.Obj? :: DefEnds(defs, n, depth)
    ensures UiRanked(defs, n => RankOf(defs, depth, n))
  {
    hide Ends, SchemaUi.Reaches;
    var rank := n => RankOf(defs, depth, n);
    forall n, m | Has(defs, n) && Get(defs, n).value.Obj? && SchemaUi.Reaches(Get(defs, n).value.members, m)
        ensures rank(m) < rank(n) {
      assert DefEnds(defs, n, depth);
      var least := LeastDepth(defs, n, 0, depth);
      assert rank(n) == least + 1;
      if Has(defs, m) {
        EndsFollows(Get(defs, n).value.members, defs, least, m);
        assert DefEnds(defs, m, depth) && DefEnds(defs, m, least - 1);
      }
    }
  }

  /** A depth above the ranks of all names that definitions reach. */
  lemma {:induction false} AboveRanks(some: seq<Member>, defs: seq<Member>, rank: string -> nat) returns (depth: nat)
    requires AllToObjects(defs) && forall d | d in some :: d in defs
    ensures forall d | d in some && d.value.Obj? :: Reached(d.value.members, rank, depth)
    decreases |some|
  {
    if some == [] {
      depth := 0;
    } else {
      var rest := some[1..];
      assert some == [some[0]] + rest;
      depth := AboveRanks(rest, defs, rank);
      var own := 0;
      if some[0].value.Obj? { own := AboveMembers(some[0].value.members, rank); }
      var more := if own > depth then own else depth;
      forall d | d in some && d.value.Obj? ensures Reached(d.value.members, rank, more) {
        if d in rest {
          ReachedMore(d.value.members, rank, depth, more);
        } else {
          ReachedMore(d.value.members, rank, own, more);
        }
      }
      depth := more;
    }
  }

  ghost predicate Reached(ms: seq<Member>, rank: string -> nat, depth: nat) {
    forall n | SchemaUi.Reaches(ms, n) :: rank(n) < depth
  }

  lemma ReachedMore(ms: seq<Member>, rank: string -> nat, depth: nat, more: nat)
    requires Reached(ms, rank, depth) && depth <= more
    ensures Reached(ms, rank, more)
  {
    hide SchemaUi.Reaches;
  }

  /** A schema reaches finitely many names. */
  lemma {:induction false} AboveMembers(ms: seq<Member>, rank: string -> nat) returns (depth: nat)
    ensures Reached(ms, rank, depth)
    decreases ms, 0
  {
    hide PlaceOf, ReachesMember;
    if ms == [] {
      depth := 0;
    } else {
      var head := AboveMember(ms[0], rank);
      var rest := AboveMembers(ms[1..], rank);
      depth := head + rest;
      forall n | SchemaUi.Reaches(ms, n) ensures rank(n) < depth {
        var i :| 0 <= i < |ms| && ReachesMember(PlaceOf(ms[i].key), ms[i].value, n);
        if i > 0 {
          assert ms[1..][i - 1] == ms[i];
          assert SchemaUi.Reaches(ms[1..], n);
        }
      }
    }
  }

  lemma {:induction false} AboveMember(m: Member, rank: string -> nat) returns (depth: nat)
    ensures forall n | ReachesMember(PlaceOf(m.key), m.value, n) :: rank(n) < depth
    decreases m, 0
  {
    hide PlaceOf, DefName, SchemaUi.Reaches;
    var p, value := PlaceOf(m.key), m.value;
    match value
    case Obj(ms) =>
      if p.Properties? {
        depth := AboveEach(ms, rank);
      } else {
        depth := AboveMembers(ms, rank);
      }
    case Arr(items) => depth := AboveItems(items, rank);
    case Str(_) => depth := if DefName(value).Some? then rank(DefName(value).value) + 1 else 0;
    case _ => depth := 0;
  }

  lemma {:induction false} AboveEach(ms: seq<Member>, rank: string -> nat) returns (depth: nat)
    ensures forall i, n | 0 <= i < |ms| && ms[i].value.Obj? && SchemaUi.Reaches(ms[i].value.members, n) ::
      rank(n) < depth
    decreases ms, 0
  {
    hide SchemaUi.Reaches;
    depth := 0;
    if ms != [] {
      var rest := AboveEach(ms[1..], rank);
      var head := 0;
      if ms[0].value.Obj? { head := AboveMembers(ms[0].value.members, rank); }
      depth := head + rest;
      forall i, n | 0 <= i < |ms| && ms[i].value.Obj? && SchemaUi.Reaches(ms[i].value.members, n)
          ensures rank(n) < depth {
        if i > 0 { assert ms[1..][i - 1] == ms[i]; }
      }
    }
  }

  lemma {:induction false} AboveItems(items: seq<Value>, rank: string -> nat) returns (depth: nat)
    ensures forall i, n | 0 <= i < |items| && items[i].Obj? && SchemaUi.Reaches(items[i].members, n) :: rank(n) < depth
    decreases items, 0
  {
    hide SchemaUi.Reaches;
    depth := 0;
    if items != [] {
      var rest := AboveItems(items[1..], rank);
      var head := 0;
      if items[0].Obj? { head := AboveMembers(items[0].members, rank); }
      depth := head + rest;
      forall i, n | 0 <= i < |items| && items[i].Obj? && SchemaUi.Reaches(items[i].members, n) ensures rank(n) < depth {
        if i > 0 { assert items[1..][i - 1] == items[i]; }
      }
    }
  }

  // ── The equivalence ──

  lemma {:induction false} DefsUiEnds(some: seq<Member>, defs: seq<Member>, depth: nat)
    ensures DefsUi(some, defs, depth).Ok? <==>
      forall d | d in some && d.value.Obj? :: Ends(d.value.members, defs, depth)
    decreases |some|
  {
    hide Ends, Extract;
    if some != [] {
      assert some == [some[0]] + some[1..];
      if some[0].value.Obj? { ExtractEnds(some[0].value.members, [], defs, depth); }
      DefsUiEnds(some[1..], defs, depth);
    }
  }

  /** The `ui` of all definitions is extracted, given depth enough, exactly when no reference leads back to itself. */
  lemma ExtractsIffAcyclic(defs: seq<Member>)
    requires AllToObjects(defs)
    ensures (exists depth :: DefsUi(defs, defs, depth).Ok?) <==> (exists rank :: UiRanked(defs, rank))
  {
    hide Ends, SchemaUi.Reaches, DefsUi;
    if depth :| DefsUi(defs, defs, depth).Ok? {
      DefsUiEnds(defs, defs, depth);
      forall n | Has(defs, n) && Get(defs, n).value.Obj? ensures DefEnds(defs, n, depth) { GetIsIn(defs, n); }
      EndsRanks(defs, depth);
    }
    if rank :| UiRanked(defs, rank) {
      var depth := AboveRanks(defs, defs, rank);
      RankedDefsEnd(defs, rank, depth);
    }
  }

  lemma RankedDefsEnd(defs: seq<Member>, rank: string -> nat, depth: nat)
    requires AllToObjects(defs) && UiRanked(defs, rank)
    requires forall d | d in defs && d.value.Obj? :: Reached(d.value.members, rank, depth)
    ensures DefsUi(defs, defs, depth).Ok?
  {
    hide Ends, SchemaUi.Reaches, DefsUi, UiRanked;
    forall d | d in defs && d.value.Obj? ensures Ends(d.value.members, defs, depth) {
      RankedEnds(d.value.members, defs, rank, depth);
    }
    DefsUiEnds(defs, defs, depth);
  }

  /** Each definition on the path reaches the next, and the last is the first. */
  ghost predicate Cycle(defs: seq<Member>, path: seq<string>) {
    |path| >= 2 && path[0] == path[|path| - 1] &&
    forall i | 0 <= i < |path| - 1 ::
      Has(defs, path[i]) && Get(defs, path[i]).value.Obj?
        && SchemaUi.Reaches(Get(defs, path[i]).value.members, path[i + 1])
  }

  lemma {:induction false} RanksFall(defs: seq<Member>, rank: string -> nat, path: seq<string>, k: nat)
    requires Cycle(defs, path) && UiRanked(defs, rank) && 0 < k < |path|
    ensures rank(path[k]) < rank(path[0])
    decreases k
  {
    hide SchemaUi.Reaches;
    if k > 1 { RanksFall(defs, rank, path, k - 1); }
    assert SchemaUi.Reaches(Get(defs, path[k - 1]).value.members, path[k]);
  }

  /** Definitions that lead back to themselves, through any number of others, are never extracted. */
  lemma CycleNeverEnds(defs: seq<Member>, path: seq<string>, depth: nat)
    requires Cycle(defs, path)
    ensures !DefsUi(defs, defs, depth).Ok?
  {
    if DefsUi(defs, defs, depth).Ok? {
      hide Ends, SchemaUi.Reaches, DefsUi, UiRanked, Cycle;
      DefsUiEnds(defs, defs, depth);
      forall n | Has(defs, n) && Get(defs, n).value.Obj? ensures DefEnds(defs, n, depth) { GetIsIn(defs, n); }
      EndsRanks(defs, depth);
      CycleIsLong(defs, path);
      RanksFall(defs, n => RankOf(defs, depth, n), path, |path| - 1);
      assert false;
    }
  }

  lemma CycleIsLong(defs: seq<Member>, path: seq<string>)
    requires Cycle(defs, path)
    ensures |path| >= 2 && path[0] == path[|path| - 1]
  {
  }

  // ── The whole split ──

  /** Every `$ref` the property walk meets is a string. */
  predicate TextRefs(ms: seq<Member>)
    decreases ms, 0
  {
    TextRef(ms) && forall i | 0 <= i < |ms| :: TextRefsAt(PlaceOf(ms[i].key), ms[i].value)
  }

  predicate TextRef(ms: seq<Member>) {
    var ref := Get(ms, "$ref");
    ref.Some? ==> ref.value.Str?
  }

  predicate TextRefsAt(p: Place, value: Value)
    decreases value, 1
  {
    match value
    case Obj(ms) =>
      if p.Properties? then forall i | 0 <= i < |ms| && ms[i].value.Obj? :: TextRefs(ms[i].value.members)
      else p.Items? ==> TextRefs(ms)
    case Arr(items) => p.Alternatives? ==> forall i | 0 <= i < |items| && items[i].Obj? :: TextRef(items[i].members)
    case _ => true
  }

  lemma {:induction false} PropertyUiOk(ms: seq<Member>, defsUi: seq<Member>)
    ensures PropertyUi(ms, defsUi).Ok? <==> TextRefs(ms)
    decreases ms, 1
  {
    hide PlaceOf, PropertyKeys, TextRefsAt;
    var start := Referred(ms, defsUi);
    if start.Ok? { PropertyKeysOk(ms, start.value, defsUi); }
  }

  lemma {:induction false} PropertyKeysOk(ms: seq<Member>, ui: seq<Member>, defsUi: seq<Member>)
    ensures PropertyKeys(ms, ui, defsUi).Ok? <==>
      forall i | 0 <= i < |ms| :: TextRefsAt(PlaceOf(ms[i].key), ms[i].value)
    decreases ms, 0
  {
    hide PlaceOf, PropertyMember, TextRefsAt;
    if ms != [] {
      assert ms == [ms[0]] + ms[1..];
      PropertyMemberOk(ms[0], ui, defsUi);
      var r := PropertyMember(ms[0], ui, defsUi);
      if r.Ok? { PropertyKeysOk(ms[1..], r.value, defsUi); }
    }
  }

  lemma {:induction false} PropertyMemberOk(m: Member, ui: seq<Member>, defsUi: seq<Member>)
    ensures PropertyMember(m, ui, defsUi).Ok? <==> TextRefsAt(PlaceOf(m.key), m.value)
    decreases m, 0
  {
    hide PlaceOf, TextRefs, PropertyUi, PropertyEachUi, PropertyList;
    match PlaceOf(m.key)
    case Properties => if m.value.Obj? { PropertyEachOk(m.value.members, ui, defsUi); }
    case Items => if m.value.Obj? { PropertyUiOk(m.value.members, defsUi); }
    case Alternatives => if m.value.Arr? { PropertyListOk(m.value.items, defsUi); }
    case _ =>
  }

  lemma {:induction false} PropertyEachOk(ms: seq<Member>, ui: seq<Member>, defsUi: seq<Member>)
    ensures PropertyEachUi(ms, ui, defsUi).Ok? <==>
      forall i | 0 <= i < |ms| && ms[i].value.Obj? :: TextRefs(ms[i].value.members)
    decreases ms, 0
  {
    hide TextRefs, PropertyUi;
    if ms != [] {
      assert ms == [ms[0]] + ms[1..];
      var next := ui;
      if ms[0].value.Obj? {
        PropertyUiOk(ms[0].value.members, defsUi);
        var r := PropertyUi(ms[0].value.members, defsUi);
        if r.Ok? { next := SetFound(ui, ms[0].key, r.value); }
      }
      PropertyEachOk(ms[1..], next, defsUi);
    }
  }

  lemma {:induction false} PropertyListOk(items: seq<Value>, defsUi: seq<Member>)
    ensures PropertyList(items, defsUi).Ok? <==>
      forall i | 0 <= i < |items| && items[i].Obj? :: TextRef(items[i].members)
    decreases |items|
  {
    if items != [] {
      assert items == [items[0]] + items[1..];
      PropertyListOk(items[1..], defsUi);
      hide Get, DefName, Update;
    }
  }

  /**
   What a member of the top-level schema asks for: text references below properties and items, elsewhere a
   walk that ends.
   */
  predicate MemberDone(m: Member, defs: seq<Member>, depth: nat) {
    var p := PlaceOf(m.key);
    if p.Properties? || p.Items? then TextRefsAt(p, m.value) else p.Ref? || EndsAt(p, m.value, defs, depth)
  }

  lemma {:induction false} ObjectUiOk(ms: seq<Member>, ui: seq<Member>, defsUi: seq<Member>, defs: seq<Member>,
      depth: nat)
    ensures ObjectUi(ms, ui, defsUi, defs, depth).Ok? <==> forall i | 0 <= i < |ms| :: MemberDone(ms[i], defs, depth)
    decreases |ms|
  {
    hide ObjectMember, MemberDone;
    if ms != [] {
      assert ms == [ms[0]] + ms[1..];
      ObjectMemberOk(ms[0], ui, defsUi, defs, depth);
      var r := ObjectMember(ms[0], ui, defsUi, defs, depth);
      if r.Ok? { ObjectUiOk(ms[1..], r.value, defsUi, defs, depth); }
    }
  }

  lemma ObjectMemberOk(m: Member, ui: seq<Member>, defsUi: seq<Member>, defs: seq<Member>, depth: nat)
    ensures ObjectMember(m, ui, defsUi, defs, depth).Ok? <==> MemberDone(m, defs, depth)
  {
    hide PlaceOf, PropertyMember, ExtractMember, TextRefsAt, EndsAt;
    PropertyMemberOk(m, ui, defsUi);
    MemberEndsIff(m, ui, defs, depth);
  }

  /** A schema whose references are strings where properties are walked, and name objects where keys are extracted. */
  ghost predicate WellReferred(schema: seq<Member>) {
    DefsOf(schema).Ok? && AllToObjects(DefsOf(schema).value) &&
    forall i | 0 <= i < |schema| ::
      var p := PlaceOf(schema[i].key);
      if p.Properties? || p.Items? then TextRefsAt(p, schema[i].value)
      else
        p.Ref? || forall n | ReachesMember(p, schema[i].value, n) && Has(DefsOf(schema).value, n) ::
          Get(DefsOf(schema).value, n).value.Obj?
  }

  lemma SplitEndsAt(schema: seq<Member>, depth: nat)
    requires DefsOf(schema).Ok?
    ensures var defs := DefsOf(schema).value;
      Split(schema, depth).Ok? <==>
        DefsUi(defs, defs, depth).Ok? && forall i | 0 <= i < |schema| :: MemberDone(schema[i], defs, depth)
  {
    hide MemberDone, ObjectUi, ObjectJson, DefsUi;
    var defs := DefsOf(schema).value;
    var defsUi := DefsUi(defs, defs, depth);
    if defsUi.Ok? { ObjectUiOk(schema, [], defsUi.value, defs, depth); }
  }

  /** A well-referred schema is split, given depth enough, exactly when none of its definitions leads back to itself. */
  lemma SplitsIffAcyclic(schema: seq<Member>)
    requires WellReferred(schema)
    ensures (exists depth :: Split(schema, depth).Ok?) <==> (exists rank :: UiRanked(DefsOf(schema).value, rank))
  {
    var defs := DefsOf(schema).value;
    hide Split, UiRanked, DefsOf, AllToObjects, DefsUi;
    if depth :| Split(schema, depth).Ok? {
      SplitEndsAt(schema, depth);
      ExtractsIffAcyclic(defs);
    }
    if rank :| UiRanked(defs, rank) {
      var inDefs := AboveRanks(defs, defs, rank);
      var inSchema := AboveMembers(schema, rank);
      var depth := inDefs + inSchema;
      forall d | d in defs && d.value.Obj? ensures Reached(d.value.members, rank, depth) {
        ReachedMore(d.value.members, rank, inDefs, depth);
      }
      RankedDefsEnd(defs, rank, depth);
      ReachedMore(schema, rank, inSchema, depth);
      forall i | 0 <= i < |schema| ensures MemberDone(schema[i], defs, depth) {
        MemberIsDone(schema, i, rank, depth);
      }
      SplitEndsAt(schema, depth);
    }
  }

  lemma MemberIsDone(schema: seq<Member>, i: nat, rank: string -> nat, depth: nat)
    requires WellReferred(schema) && UiRanked(DefsOf(schema).value, rank) && i < |schema|
      && Reached(schema, rank, depth)
    ensures MemberDone(schema[i], DefsOf(schema).value, depth)
  {
    hide DefsOf, AllToObjects, UiRanked, EndsAt, TextRefsAt, PlaceOf, ReachesMember;
    var p := PlaceOf(schema[i].key);
    if !p.Properties? && !p.Items? && !p.Ref? {
      forall n | ReachesMember(p, schema[i].value, n) ensures rank(n) < depth { assert SchemaUi.Reaches(schema, n); }
      RankedEndsAt(schema[i], DefsOf(schema).value, rank, depth);
    }
  }
}
