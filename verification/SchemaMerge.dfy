/**
 Merging in order: every walk that fills a `ui` half is a list of assignments, taken in the order of the
 schema through `allOf`, conditionals and references, and the last one under a name wins.
 */
module SchemaMerge {
  import opened Json
  import opened SchemaSplit
  import opened SchemaSplitter
  import opened SchemaUi
  import opened Wrappers

  /** The assignments one schema makes, each a name with what is put under it. */
  function Writes(ms: seq<Member>, defs: seq<Member>, depth: nat): seq<Member>
    decreases depth, ms, 0
  {
    if ms == [] then [] else MemberWrites(ms[0], defs, depth) + Writes(ms[1..], defs, depth)
  }

  function MemberWrites(m: Member, defs: seq<Member>, depth: nat): seq<Member>
    decreases depth, m, 0
  {
    match PlaceOf(m.key)
    case Ui => [m]
    case Properties => if m.value.Obj? then EachWrites(m.value.members, defs, depth) else []
    case Items => if m.value.Obj? then Put("items", Writes(m.value.members, defs, depth)) else []
    case Alternatives => if m.value.Arr? then [Member(m.key, Arr(Mirrors(m.value.items, defs, depth)))] else []
    case AllOf => if m.value.Arr? then AllWrites(m.value.items, defs, depth) else []
    case Conditional => if m.value.Obj? then Writes(m.value.members, defs, depth) else []
    case Ref =>
      if DefName(m.value).None? || !Has(defs, DefName(m.value).value) || depth == 0 then []
      else
        var def := Get(defs, DefName(m.value).value).value;
        if def.Obj? then Writes(def.members, defs, depth - 1) else []
    case Defs => []
    case Other => []
  }

  /** A part's own assignments make one object, put under the part's name unless there are none. */
  function Put(name: string, part: seq<Member>): seq<Member> {
    if part == [] then [] else [Member(name, Obj(Update([], part)))]
  }

  function EachWrites(ms: seq<Member>, defs: seq<Member>, depth: nat): seq<Member>
    decreases depth, ms, 0
  {
    if ms == [] then []
    else
      (if ms[0].value.Obj? then Put(ms[0].key, Writes(ms[0].value.members, defs, depth)) else [])
        + EachWrites(ms[1..], defs, depth)
  }

  function Mirrors(items: seq<Value>, defs: seq<Member>, depth: nat): seq<Value>
    decreases depth, items, 0
  {
    if items == [] then []
    else
      (if items[0].Obj? then [Obj(Update([], Writes(items[0].members, defs, depth)))] else [])
        + Mirrors(items[1..], defs, depth)
  }

  function AllWrites(items: seq<Value>, defs: seq<Member>, depth: nat): seq<Member>
    decreases depth, items, 0
  {
    if items == [] then []
    else (if items[0].Obj? then Writes(items[0].members, defs, depth) else []) + AllWrites(items[1..], defs, depth)
  }

  /** The last assignment under a name. */
  function Last(ws: seq<Member>, x: string): Option<Value> {
    if ws == [] then None
    else
      var rest := Last(ws[1..], x);
      if rest.Some? then rest else if ws[0].key == x then Some(ws[0].value) else None
  }

  // ── Assigning in order ──

  lemma {:induction false} UpdateBoth(d: seq<Member>, x: seq<Member>, y: seq<Member>)
    ensures Update(d, x + y) == Update(Update(d, x), y)
    decreases |x|
  {
    if x == [] {
      assert x + y == y;
    } else {
      assert (x + y)[1..] == x[1..] + y;
      UpdateBoth(Set(d, x[0].key, x[0].value), x[1..], y);
    }
  }

  lemma UpdateOne(d: seq<Member>, m: Member)
    ensures Update(d, [m]) == Set(d, m.key, m.value) && Update(d, []) == d
  {
    assert [m][1..] == [];
  }

  lemma {:induction false} UpdateIsEmpty(d: seq<Member>, ws: seq<Member>)
    ensures Update(d, ws) == [] <==> d == [] && ws == []
    decreases |ws|
  {
    if ws != [] { UpdateIsEmpty(Set(d, ws[0].key, ws[0].value), ws[1..]); }
  }

  lemma {:induction false} GetUpdate(d: seq<Member>, ws: seq<Member>, x: string)
    ensures Get(Update(d, ws), x) == if Last(ws, x).Some? then Last(ws, x) else Get(d, x)
    decreases |ws|
  {
    hide Get;
    if ws != [] {
      GetSet(d, ws[0].key, ws[0].value, x);
      GetUpdate(Set(d, ws[0].key, ws[0].value), ws[1..], x);
    }
  }

  lemma PutIsSet(d: seq<Member>, name: string, part: seq<Member>)
    ensures Update(d, Put(name, part)) == SetFound(d, name, Update([], part))
  {
    UpdateIsEmpty([], part);
    if part != [] { UpdateOne(d, Member(name, Obj(Update([], part)))); }
  }

  // ── Extraction makes these assignments ──

  lemma {:induction false} ExtractAssigns(ms: seq<Member>, ui: seq<Member>, defs: seq<Member>, depth: nat)
    requires Extract(ms, ui, defs, depth).Ok?
    ensures Extract(ms, ui, defs, depth).value == Update(ui, Writes(ms, defs, depth))
    decreases depth, ms, 0
  {
    hide MemberWrites, ExtractMember;
    if ms != [] {
      MemberAssigns(ms[0], ui, defs, depth);
      var next := ExtractMember(ms[0], ui, defs, depth).value;
      ExtractAssigns(ms[1..], next, defs, depth);
      UpdateBoth(ui, MemberWrites(ms[0], defs, depth), Writes(ms[1..], defs, depth));
    }
  }

  lemma {:induction false} MemberAssigns(m: Member, ui: seq<Member>, defs: seq<Member>, depth: nat)
    requires ExtractMember(m, ui, defs, depth).Ok?
    ensures ExtractMember(m, ui, defs, depth).value == Update(ui, MemberWrites(m, defs, depth))
    decreases depth, m, 0
  {
    hide PlaceOf, Extract, ExtractEach, ExtractList, ExtractAll, Writes, EachWrites, Mirrors, AllWrites;
    match PlaceOf(m.key)
    case Ui => UpdateOne(ui, m);
    case Properties => if m.value.Obj? { EachAssigns(m.value.members, ui, defs, depth); }
    case Items =>
      if m.value.Obj? {
        ExtractAssigns(m.value.members, [], defs, depth);
        PutIsSet(ui, "items", Writes(m.value.members, defs, depth));
      }
    case Alternatives =>
      if m.value.Arr? {
        ListMirrors(m.value.items, defs, depth);
        UpdateOne(ui, Member(m.key, Arr(Mirrors(m.value.items, defs, depth))));
      }
    case AllOf => if m.value.Arr? { AllAssigns(m.value.items, ui, defs, depth); }
    case Conditional => if m.value.Obj? { ExtractAssigns(m.value.members, ui, defs, depth); }
    case Ref =>
      if DefName(m.value).Some? && Has(defs, DefName(m.value).value) {
        ExtractAssigns(Get(defs, DefName(m.value).value).value.members, ui, defs, depth - 1);
      }
    case _ =>
  }

  lemma {:induction false} EachAssigns(ms: seq<Member>, ui: seq<Member>, defs: seq<Member>, depth: nat)
    requires ExtractEach(ms, ui, defs, depth).Ok?
    ensures ExtractEach(ms, ui, defs, depth).value == Update(ui, EachWrites(ms, defs, depth))
    decreases depth, ms, 0
  {
    hide Extract, Writes, Put, SetFound;
    if ms != [] {
      var next, first := ui, [];
      if ms[0].value.Obj? {
        ExtractAssigns(ms[0].value.members, [], defs, depth);
        first := Put(ms[0].key, Writes(ms[0].value.members, defs, depth));
        PutIsSet(ui, ms[0].key, Writes(ms[0].value.members, defs, depth));
        next := SetFound(ui, ms[0].key, Extract(ms[0].value.members, [], defs, depth).value);
      }
      EachAssigns(ms[1..], next, defs, depth);
      UpdateBoth(ui, first, EachWrites(ms[1..], defs, depth));
    }
  }

  lemma {:induction false} ListMirrors(items: seq<Value>, defs: seq<Member>, depth: nat)
    requires ExtractList(items, defs, depth).Ok?
    ensures ExtractList(items, defs, depth).value == Mirrors(items, defs, depth)
    decreases depth, items, 0
  {
    hide Extract, Writes;
    if items != [] {
      if items[0].Obj? { ExtractAssigns(items[0].members, [], defs, depth); }
      ListMirrors(items[1..], defs, depth);
    }
  }

  lemma {:induction false} AllAssigns(items: seq<Value>, ui: seq<Member>, defs: seq<Member>, depth: nat)
    requires ExtractAll(items, ui, defs, depth).Ok?
    ensures ExtractAll(items, ui, defs, depth).value == Update(ui, AllWrites(items, defs, depth))
    decreases depth, items, 0
  {
    hide Extract, Writes;
    if items != [] {
      var next, first := ui, [];
      if items[0].Obj? {
        ExtractAssigns(items[0].members, ui, defs, depth);
        first := Writes(items[0].members, defs, depth);
        next := Extract(items[0].members, ui, defs, depth).value;
      }
      AllAssigns(items[1..], next, defs, depth);
      UpdateBoth(ui, first, AllWrites(items[1..], defs, depth));
    }
  }

  // ── The whole schema ──

  /** The top level: properties and items bring their own halves, a reference nothing, the rest is merged in. */
  function TopWrites(ms: seq<Member>, defsUi: seq<Member>, defs: seq<Member>, depth: nat): seq<Member> {
    if ms == [] then [] else TopMemberWrites(ms[0], defsUi, defs, depth) + TopWrites(ms[1..], defsUi, defs, depth)
  }

  function TopMemberWrites(m: Member, defsUi: seq<Member>, defs: seq<Member>, depth: nat): seq<Member> {
    match PlaceOf(m.key)
    case Properties => if m.value.Obj? then Halves(m.value.members, defsUi) else []
    case Items => if m.value.Obj? then Half("items", m.value.members, defsUi) else []
    case Ref => []
    case _ => MemberWrites(m, defs, depth)
  }

  function Half(name: string, ms: seq<Member>, defsUi: seq<Member>): seq<Member> {
    var half := PropertyUi(ms, defsUi);
    if half.Err? || half.value == [] then [] else [Member(name, Obj(half.value))]
  }

  function Halves(props: seq<Member>, defsUi: seq<Member>): seq<Member> {
    if props == [] then []
    else
      (if props[0].value.Obj? then Half(props[0].key, props[0].value.members, defsUi) else [])
        + Halves(props[1..], defsUi)
  }

  lemma {:induction false} HalvesAssign(props: seq<Member>, ui: seq<Member>, defsUi: seq<Member>)
    requires PropertyEachUi(props, ui, defsUi).Ok?
    ensures PropertyEachUi(props, ui, defsUi).value == Update(ui, Halves(props, defsUi))
    decreases |props|
  {
    hide PropertyUi;
    if props != [] {
      var next, first := ui, [];
      if props[0].value.Obj? {
        HalfAssigns(props[0].key, props[0].value.members, ui, defsUi);
        first := Half(props[0].key, props[0].value.members, defsUi);
        next := SetFound(ui, props[0].key, PropertyUi(props[0].value.members, defsUi).value);
      }
      HalvesAssign(props[1..], next, defsUi);
      UpdateBoth(ui, first, Halves(props[1..], defsUi));
    }
  }

  lemma HalfAssigns(name: string, ms: seq<Member>, ui: seq<Member>, defsUi: seq<Member>)
    requires PropertyUi(ms, defsUi).Ok?
    ensures SetFound(ui, name, PropertyUi(ms, defsUi).value) == Update(ui, Half(name, ms, defsUi))
  {
    hide PropertyUi;
    UpdateOne(ui, Member(name, Obj(PropertyUi(ms, defsUi).value)));
  }

  lemma TopMemberAssigns(m: Member, ui: seq<Member>, defsUi: seq<Member>, defs: seq<Member>, depth: nat)
    requires ObjectMember(m, ui, defsUi, defs, depth).Ok?
    ensures ObjectMember(m, ui, defsUi, defs, depth).value == Update(ui, TopMemberWrites(m, defsUi, defs, depth))
  {
    hide PlaceOf, MemberWrites, ExtractMember, PropertyEachUi, PropertyUi, Halves, Half;
    match PlaceOf(m.key)
    case Properties => if m.value.Obj? { HalvesAssign(m.value.members, ui, defsUi); }
    case Items => if m.value.Obj? { HalfAssigns("items", m.value.members, ui, defsUi); }
    case Ref =>
    case _ => MemberAssigns(m, ui, defs, depth);
  }

  lemma {:induction false} TopAssigns(ms: seq<Member>, ui: seq<Member>, defsUi: seq<Member>, defs: seq<Member>,
      depth: nat)
    requires ObjectUi(ms, ui, defsUi, defs, depth).Ok?
    ensures ObjectUi(ms, ui, defsUi, defs, depth).value == Update(ui, TopWrites(ms, defsUi, defs, depth))
    decreases |ms|
  {
    hide ObjectMember, TopMemberWrites;
    if ms != [] {
      TopMemberAssigns(ms[0], ui, defsUi, defs, depth);
      TopAssigns(ms[1..], ObjectMember(ms[0], ui, defsUi, defs, depth).value, defsUi, defs, depth);
      UpdateBoth(ui, TopMemberWrites(ms[0], defsUi, defs, depth), TopWrites(ms[1..], defsUi, defs, depth));
    }
  }

  /**
   For every schema that is split: under each name the `ui` half holds the last assignment in the order
   of the schema, through properties, items, alternatives, `allOf`, conditionals and references.
   */
  lemma SplitMergesInOrder(schema: seq<Member>, depth: nat, x: string)
    requires Split(schema, depth).Ok?
    ensures DefsOf(schema).Ok? && DefsUi(DefsOf(schema).value, DefsOf(schema).value, depth).Ok?
    ensures var defs := DefsOf(schema).value;
      Get(Split(schema, depth).value.ui, x) == Last(TopWrites(schema, DefsUi(defs, defs, depth).value, defs, depth), x)
  {
    hide ObjectUi, ObjectJson, TopWrites, Get;
    var defs := DefsOf(schema).value;
    var defsUi := DefsUi(defs, defs, depth).value;
    TopAssigns(schema, [], defsUi, defs, depth);
    GetUpdate([], TopWrites(schema, defsUi, defs, depth), x);
    assert Get([], x) == None;
  }
}
