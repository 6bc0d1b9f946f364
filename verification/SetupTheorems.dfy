/** Compile-then-accept against the reading, over whole schemas with references. */
module SetupTheorems {
  import opened InlineRefs
  import opened Json
  import opened SetupAgreement
  import opened SetupCompiler
  import opened SetupSchema
  import opened Wrappers

  /** What the schema allows the type admits; with `tight`, the other way round too. */
  ghost predicate Agrees(t: Typed, s: Value, v: Value, defs: seq<Member>, scope: Scope, tight: bool) {
    && (ConformsItem(s, v, defs, scope) ==> Admits(t, v))
    && (tight && Admits(t, v) ==> ConformsItem(s, v, defs, scope))
  }

  // ── Objects ──

  lemma {:induction false} FieldsAll(props: seq<Member>, required: Option<Value>, defs: seq<Member>, seen: set<string>)
    requires forall i | 0 <= i < |props| :: Identifier(props[i].key)
    ensures var fields := FieldsOf(props, required, defs, seen);
      && |fields| == |props|
      && forall i | 0 <= i < |props| ::
        fields[i] == Field(props[i].key, FieldType(props[i].value, defs, seen), Requires(required, props[i].key))
    decreases |props|
  {
    hide Identifier, FieldType, Requires;
    if props != [] {
      forall i | 0 <= i < |props[1..]| ensures Identifier(props[1..][i].key) { assert props[1..][i] == props[i + 1]; }
      FieldsAll(props[1..], required, defs, seen);
    }
  }

  ghost predicate PropertiesConform(props: seq<Member>, vs: seq<Member>, defs: seq<Member>, scope: Scope) {
    forall i | 0 <= i < |props| && Has(vs, props[i].key) ::
      ConformsItem(props[i].value, Get(vs, props[i].key).value, defs, scope)
  }

  ghost predicate RequiredPresent(required: Option<Value>, vs: seq<Member>) {
    required.Some? && required.value.Arr? ==> forall n | n in required.value.items && n.Str? :: Has(vs, n.s)
  }

  ghost predicate Closed(props: seq<Member>, vs: seq<Member>) {
    forall i | 0 <= i < |vs| :: Has(props, vs[i].key)
  }

  lemma DeclaredConforms(ms: seq<Member>, vs: seq<Member>, defs: seq<Member>, scope: Scope)
    requires Declares(Read(ms))
    ensures var k := Read(ms);
      var props := k.properties.value.members;
      ConformsMembers(ms, vs, defs, scope) <==>
        PropertiesConform(props, vs, defs, scope) && RequiredPresent(k.required, vs)
          && (k.additional == Some(Bool(true)) || Closed(props, vs))
  {
    ReadIs(ms);
    hide Read, ConformsItem, Has, Get;
  }

  /** `required` names only properties: an absent required name is an absent required field. */
  lemma RequiredAgrees(props: seq<Member>, required: Option<Value>, vs: seq<Member>)
    requires required.Some? ==> required.value.Arr? && forall n | n in required.value.items :: n.Str? && Has(props, n.s)
    ensures RequiredPresent(required, vs) <==>
      forall i | 0 <= i < |props| && !Has(vs, props[i].key) :: !Requires(required, props[i].key)
  {
    if required.Some? {
      forall n | n in required.value.items ensures exists i :: 0 <= i < |props| && props[i].key == n.s {
        assert Has(props, n.s);
      }
      hide Get;
      if forall i | 0 <= i < |props| && !Has(vs, props[i].key) :: !Requires(required, props[i].key) {
        forall n | n in required.value.items ensures Has(vs, n.s) {
          var i :| 0 <= i < |props| && props[i].key == n.s;
          assert Str(props[i].key) == n;
        }
      }
    }
  }

  lemma ClosedAgrees(props: seq<Member>, fields: seq<Field>, vs: seq<Member>)
    requires |fields| == |props| && forall i | 0 <= i < |props| :: fields[i].name == props[i].key
    ensures Closed(props, vs) <==> forall i | 0 <= i < |vs| :: Named(fields, vs[i].key)
  {
    forall key ensures Named(fields, key) <==> Has(props, key) {
      if Has(props, key) {
        var i :| 0 <= i < |props| && props[i] == Member(key, Get(props, key).value);
        assert fields[i].name == key;
      }
    }
    hide Named, Has, Get;
  }

  ghost predicate FieldsAgree(props: seq<Member>, vs: seq<Member>, defs: seq<Member>, seen: set<string>, scope: Scope,
      tight: bool) {
    forall i | 0 <= i < |props| && Has(vs, props[i].key) ::
      Agrees(FieldType(props[i].value, defs, seen), props[i].value, Get(vs, props[i].key).value, defs, scope, tight)
  }

  ghost predicate Filled(fields: seq<Field>, vs: seq<Member>) {
    forall i | 0 <= i < |fields| ::
      if Has(vs, fields[i].name) then Admits(fields[i].typed, Get(vs, fields[i].name).value) else !fields[i].required
  }

  lemma ModelAccepts(fields: seq<Field>, open: bool, vs: seq<Member>)
    ensures Accepts(PyModel(fields, open), Obj(vs)) <==>
      Filled(fields, vs) && (open || forall i | 0 <= i < |vs| :: Named(fields, vs[i].key))
  {
    hide Admits, Named, Has, Get;
  }

  lemma FilledAgrees(props: seq<Member>, required: Option<Value>, fields: seq<Field>, vs: seq<Member>,
                     defs: seq<Member>, seen: set<string>, scope: Scope, tight: bool)
    requires |fields| == |props|
    requires forall i | 0 <= i < |props| ::
      fields[i] == Field(props[i].key, FieldType(props[i].value, defs, seen), Requires(required, props[i].key))
    requires FieldsAgree(props, vs, defs, seen, scope, tight)
    requires RequiredPresent(required, vs) <==>
      forall i | 0 <= i < |props| && !Has(vs, props[i].key) :: !Requires(required, props[i].key)
    ensures PropertiesConform(props, vs, defs, scope) && RequiredPresent(required, vs) ==> Filled(fields, vs)
    ensures tight && Filled(fields, vs) ==> PropertiesConform(props, vs, defs, scope) && RequiredPresent(required, vs)
  {
    hide RequiredPresent, Requires, FieldType, ConformsItem, Admits, Get;
    if tight && Filled(fields, vs) {
      forall i | 0 <= i < |props| && !Has(vs, props[i].key) ensures !Requires(required, props[i].key) {
        assert !fields[i].required;
      }
      forall i | 0 <= i < |props| && Has(vs, props[i].key)
          ensures ConformsItem(props[i].value, Get(vs, props[i].key).value, defs, scope) {
        assert Admits(fields[i].typed, Get(vs, fields[i].name).value);
      }
    }
  }

  lemma ModelAgrees(ms: seq<Member>, vs: seq<Member>, defs: seq<Member>, seen: set<string>, scope: Scope, tight: bool)
    requires ObjectShape(ms, defs) && Declares(Read(ms))
    requires FieldsAgree(Read(ms).properties.value.members, vs, defs, seen, scope, tight)
    ensures ModelOf(ms, defs, seen).Some?
    ensures ConformsMembers(ms, vs, defs, scope) ==> Accepts(ModelOf(ms, defs, seen).value, Obj(vs))
    ensures tight && Accepts(ModelOf(ms, defs, seen).value, Obj(vs)) ==> ConformsMembers(ms, vs, defs, scope)
  {
    var k := Read(ms);
    var props := k.properties.value.members;
    var fields := FieldsOf(props, k.required, defs, seen);
    FieldsAll(props, k.required, defs, seen);
    RequiredAgrees(props, k.required, vs);
    assert ModelOf(ms, defs, seen) == Some(PyModel(fields, k.additional == Some(Bool(true))));
    hide *;
    ClosedAgrees(props, fields, vs);
    FilledAgrees(props, k.required, fields, vs, defs, seen, scope, tight);
    DeclaredConforms(ms, vs, defs, scope);
    ModelAccepts(fields, k.additional == Some(Bool(true)), vs);
  }

  // ── One typed schema, given its parts ──

  ghost predicate ElementsAgree(s: Value, v: Value, defs: seq<Member>, seen: set<string>, scope: Scope, tight: bool)
    requires s.Obj?
  {
    match v
    case Arr(items) => forall i | 0 <= i < |items| ::
      Agrees(PyType(s.members, defs, seen), s, items[i], defs, scope, tight)
    case Obj(vs) => forall i | 0 <= i < |vs| ::
      Agrees(PyType(s.members, defs, seen), s, vs[i].value, defs, scope, tight)
    case _ => true
  }

  lemma ElementIs(s: Value, defs: seq<Member>, seen: set<string>)
    requires s.Obj?
    ensures var t := PyType(s.members, defs, seen);
      && ElementType(s, defs, seen) == (if s.members == [] || t.py.PyAny? then None else Some(t))
      && (t.py.PyAny? ==> forall v :: Admits(t, v))
  {
    hide PyType;
  }

  lemma ListAgrees(s: Value, items: seq<Value>, defs: seq<Member>, seen: set<string>, scope: Scope, tight: bool)
    requires s.Obj? && ElementsAgree(s, Arr(items), defs, seen, scope, tight)
    ensures var e := ElementType(s, defs, seen);
      && ((forall i | 0 <= i < |items| :: ConformsItem(s, items[i], defs, scope)) ==> Accepts(PyList(e), Arr(items)))
      && (tight && Accepts(PyList(e), Arr(items)) ==>
        forall i | 0 <= i < |items| :: ConformsItem(s, items[i], defs, scope))
  {
    hide PyType, ElementType, ConformsItem, Admits;
    if s.members == [] { EmptyAllows(defs, scope); }
    ElementIs(s, defs, seen);
  }

  lemma MapAgrees(s: Value, vs: seq<Member>, defs: seq<Member>, seen: set<string>, scope: Scope, tight: bool)
    requires s.Obj? && ElementsAgree(s, Obj(vs), defs, seen, scope, tight)
    ensures var e := ElementType(s, defs, seen);
      && ((forall i | 0 <= i < |vs| :: ConformsItem(s, vs[i].value, defs, scope)) ==> Accepts(PyDict(e), Obj(vs)))
      && (tight && Accepts(PyDict(e), Obj(vs)) ==>
        forall i | 0 <= i < |vs| :: ConformsItem(s, vs[i].value, defs, scope))
  {
    hide PyType, ElementType, ConformsItem, Admits;
    if s.members == [] { EmptyAllows(defs, scope); }
    ElementIs(s, defs, seen);
  }

  lemma EmptyAllows(defs: seq<Member>, scope: Scope)
    ensures forall v :: ConformsItem(Obj([]), v, defs, scope)
  {
    forall v ensures ConformsItem(Obj([]), v, defs, scope) {
      assert Read([]) == NOTHING;
      ConformsTyped([], v, defs, scope);
      NothingMembers([], v, defs, scope);
    }
  }

  // ── References ──

  /** `v` holds, at any scope, a `$ref` whose last segment is `name`. */
  predicate RefersTo(v: Value, name: string) {
    match v
    case Obj(ms) => RefIs(Get(ms, "$ref"), name) || exists i | 0 <= i < |ms| :: RefersTo(ms[i].value, name)
    case Arr(items) => exists i | 0 <= i < |items| :: RefersTo(items[i], name)
    case _ => false
  }

  predicate RefIs(ref: Option<Value>, name: string) {
    ref.Some? && ref.value.Str? && LastSegment(ref.value.s) == name
  }

  ghost predicate Link(defs: seq<Member>, a: string, b: string) {
    Has(defs, a) && RefersTo(Get(defs, a).value, b)
  }

  ghost predicate Leads(defs: seq<Member>, a: string, b: string, n: nat)
    decreases n
  {
    if n == 0 then Link(defs, a, b) else exists c :: Leads(defs, a, c, n - 1) && Link(defs, c, b)
  }

  ghost predicate Reaches(defs: seq<Member>, a: string, b: string) {
    exists n: nat :: Leads(defs, a, b, n)
  }

  lemma ReachesFurther(defs: seq<Member>, a: string, b: string, c: string)
    requires Link(defs, b, c) && (a == b || Reaches(defs, a, b))
    ensures Reaches(defs, a, c)
  {
    if a == b {
      assert Leads(defs, a, c, 0);
    } else {
      var n: nat :| Leads(defs, a, b, n);
      assert Leads(defs, a, c, n + 1);
    }
  }

  /** The definition accepts objects only. */
  predicate ObjectTyped(defs: seq<Member>, n: string) {
    Has(defs, n) && Get(defs, n).value.Obj? && Get(Get(defs, n).value.members, "type") == Some(Str("object"))
  }

  /** Every definition that leads back to itself is typed as an object. */
  ghost predicate CyclesAreObjects(defs: seq<Member>) {
    forall n | Reaches(defs, n, n) :: ObjectTyped(defs, n)
  }

  /** No definition leads back to itself. */
  ghost predicate Acyclic(defs: seq<Member>, rank: string -> nat) {
    forall a, b | Link(defs, a, b) :: rank(b) < rank(a)
  }

  ghost predicate Below(v: Value, rank: string -> nat, bound: nat) {
    forall m | RefersTo(v, m) :: rank(m) < bound
  }

  /** What holds wherever the compiler gets to: below the references it has followed. */
  ghost predicate Context(v: Value, defs: seq<Member>, seen: set<string>, scope: Scope, rank: string -> nat,
      bound: nat, tight: bool) {
    match scope
    case Cut(taken) => taken == seen
    case Deep(depth) =>
      && (forall n, m | n in seen && RefersTo(v, m) :: Reaches(defs, n, m))
      && (tight ==> Below(v, rank, bound) && (forall n | n in seen :: rank(n) >= bound) && depth >= bound)
  }

  ghost predicate Setting(defs: seq<Member>, scope: Scope, rank: string -> nat, tight: bool) {
    AllCompilable(defs) && (scope.Deep? ==> CyclesAreObjects(defs) && (tight ==> Acyclic(defs, rank)))
  }

  /** A part refers to nothing the whole does not. */
  ghost predicate Inside(part: Value, whole: Value) {
    forall m | RefersTo(part, m) :: RefersTo(whole, m)
  }

  lemma ContextInside(part: Value, whole: Value, defs: seq<Member>, seen: set<string>, scope: Scope,
      rank: string -> nat, bound: nat, tight: bool)
    requires Context(whole, defs, seen, scope, rank, bound, tight) && Inside(part, whole)
    ensures Context(part, defs, seen, scope, rank, bound, tight)
  {
    hide RefersTo, Reaches;
  }

  lemma InsideGet(ms: seq<Member>, key: string)
    requires Has(ms, key)
    ensures Inside(Get(ms, key).value, Obj(ms))
  {
    var i :| 0 <= i < |ms| && ms[i] == Member(key, Get(ms, key).value);
  }

  lemma InsideRead(ms: seq<Member>)
    ensures var k := Read(ms);
      && (k.anyOf.Some? ==> Inside(k.anyOf.value, Obj(ms))) && (k.oneOf.Some? ==> Inside(k.oneOf.value, Obj(ms)))
      && (k.properties.Some? ==> Inside(k.properties.value, Obj(ms)))
        && (k.items.Some? ==> Inside(k.items.value, Obj(ms)))
      && (k.additional.Some? ==> Inside(k.additional.value, Obj(ms)))
  {
    hide Inside, Get;
    if Has(ms, "anyOf") { InsideGet(ms, "anyOf"); }
    if Has(ms, "oneOf") { InsideGet(ms, "oneOf"); }
    if Has(ms, "properties") { InsideGet(ms, "properties"); }
    if Has(ms, "items") { InsideGet(ms, "items"); }
    if Has(ms, "additionalProperties") { InsideGet(ms, "additionalProperties"); }
  }

  lemma InsideParts(v: Value)
    ensures v.Arr? ==> forall x | x in v.items :: Inside(x, v)
    ensures v.Obj? ==> forall m | m in v.members :: Inside(m.value, v)
  {
  }

  lemma InsideTrans(a: Value, b: Value, c: Value)
    requires Inside(a, b) && Inside(b, c)
    ensures Inside(a, c)
  {
    hide RefersTo;
  }

  // ── The agreement ──

  lemma ObjectsOnly(ms: seq<Member>, v: Value, defs: seq<Member>, scope: Scope)
    requires Get(ms, "type") == Some(Str("object")) && Conforms(ms, v, defs, scope)
    ensures v.Obj?
  {
    assert TypeAllows(Str("object"), v) by { hide TypeAllows, ConformsItem, ConformsMembers, Get; }
    assert NameAllows("object", v);
    hide Conforms;
  }

  lemma TargetContext(ms: seq<Member>, name: string, defs: seq<Member>, seen: set<string>, scope: Scope,
      rank: string -> nat, bound: nat, tight: bool)
    requires Setting(defs, scope, rank, tight) && Context(Obj(ms), defs, seen, scope, rank, bound, tight)
    requires RefIs(Get(ms, "$ref"), name) && Has(defs, name) && (scope.Deep? ==> scope.depth > 0)
    ensures Setting(defs, Under(scope, name), rank, tight)
    ensures Context(Get(defs, name).value, defs, seen + {name}, Under(scope, name), rank, rank(name), tight)
    ensures scope.Deep? && tight ==> name !in seen
    ensures scope.Deep? && name in seen ==> Reaches(defs, name, name)
  {
    var d := Get(defs, name).value;
    assert RefersTo(Obj(ms), name);
    hide RefersTo, Reaches;
    if scope.Deep? {
      forall n, m | n in seen + {name} && RefersTo(d, m) ensures Reaches(defs, n, m) {
        assert Link(defs, name, m);
        ReachesFurther(defs, n, name, m);
      }
      if tight {
        forall m | RefersTo(d, m) ensures rank(m) < rank(name) { assert Link(defs, name, m); }
      }
    }
  }

  lemma {:induction false} Agree(
      ms: seq<Member>, v: Value, defs: seq<Member>, seen: set<string>, scope: Scope, rank: string -> nat, bound: nat,
      tight: bool)
    requires Setting(defs, scope, rank, tight) && Compilable(ms, defs)
      && Context(Obj(ms), defs, seen, scope, rank, bound, tight)
    ensures Agrees(PyType(ms, defs, seen), Obj(ms), v, defs, scope, tight)
    decreases Names(defs) - seen, Obj(ms), 4
  {
    var k := Read(ms);
    hide Read, Setting, Context, LiteralShape, UnionShape, TypedShape, OnlyOne, Admits, Agrees, PyType, Conforms;
    if k.ref.Some? {
      AgreeRef(ms, v, defs, seen, scope, rank, bound, tight);
    } else if k.enum.Some? || k.const_.Some? {
      LiteralAgrees(ms, v, defs, seen, scope);
      AgreesMeans(PyType(ms, defs, seen), ms, v, defs, scope, tight);
    } else if k.anyOf.Some? || k.oneOf.Some? {
      AgreeUnion(ms, v, defs, seen, scope, rank, bound, tight);
    } else {
      AgreeTyped(ms, v, defs, seen, scope, rank, bound, tight);
    }
  }

  lemma AgreesMeans(t: Typed, ms: seq<Member>, v: Value, defs: seq<Member>, scope: Scope, tight: bool)
    ensures Agrees(t, Obj(ms), v, defs, scope, tight) <==>
      (Conforms(ms, v, defs, scope) ==> Admits(t, v)) && (tight && Admits(t, v) ==> Conforms(ms, v, defs, scope))
  {
    hide Conforms, Admits;
  }

  /** A reference, as the compiler sees it. */
  lemma RefParts(ms: seq<Member>, defs: seq<Member>, seen: set<string>) returns (name: string)
    requires Compilable(ms, defs) && Read(ms).ref.Some?
    ensures RefIs(Get(ms, "$ref"), name) && Has(defs, name) && Get(defs, name).value.Obj? && name in Names(defs)
    ensures PyType(ms, defs, seen) ==
      if name in seen then Typed(PyDict(None), false) else PyType(Get(defs, name).value.members, defs, seen + {name})
    ensures forall v, scope: Scope :: Conforms(ms, v, defs, scope) <==>
      if scope.Cut? && name in scope.seen then v.Obj?
      else (scope.Deep? ==> scope.depth > 0) && Conforms(Get(defs, name).value.members, v, defs, Under(scope, name))
  {
    name := LastSegment(Read(ms).ref.value.s);
    forall v, scope: Scope
      ensures Conforms(ms, v, defs, scope) <==>
        if scope.Cut? && name in scope.seen then v.Obj?
        else (scope.Deep? ==> scope.depth > 0) && Conforms(Get(defs, name).value.members, v, defs, Under(scope, name))
    {
      ConformsRef(ms, v, defs, scope);
    }
    hide Conforms, RefersTo;
  }

  lemma {:induction false} AgreeRef(
      ms: seq<Member>, v: Value, defs: seq<Member>, seen: set<string>, scope: Scope, rank: string -> nat, bound: nat,
      tight: bool)
    requires Setting(defs, scope, rank, tight) && Compilable(ms, defs)
      && Context(Obj(ms), defs, seen, scope, rank, bound, tight)
    requires Read(ms).ref.Some?
    ensures Agrees(PyType(ms, defs, seen), Obj(ms), v, defs, scope, tight)
    decreases Names(defs) - seen, Obj(ms), 3
  {
    hide Read, Compilable, PyType, Conforms, Context, Setting, RefersTo, Agrees, Admits, LastSegment, Reaches, RefIs;
    var name := RefParts(ms, defs, seen);
    var target := Get(defs, name).value.members;
    DepthIsLeft(ms, name, defs, seen, scope, rank, bound, tight);
    AgreesMeans(PyType(ms, defs, seen), ms, v, defs, scope, tight);
    if scope.Cut? && name in seen {
      DictAdmits(v);
    } else if scope.Cut? || scope.depth > 0 {
      TargetContext(ms, name, defs, seen, scope, rank, bound, tight);
      if name in seen {
        CutIsObject(name, v, defs, Under(scope, name), rank, tight);
      } else {
        SettingPlain(name, defs, scope, rank, tight);
        Agree(target, v, defs, seen + {name}, Under(scope, name), rank, rank(name), tight);
        AgreesMeans(PyType(target, defs, seen + {name}), target, v, defs, Under(scope, name), tight);
      }
    }
  }

  lemma DictAdmits(v: Value)
    ensures Admits(Typed(PyDict(None), false), v) <==> v.Obj?
  {
  }

  lemma DepthIsLeft(ms: seq<Member>, name: string, defs: seq<Member>, seen: set<string>, scope: Scope,
      rank: string -> nat, bound: nat, tight: bool)
    requires Context(Obj(ms), defs, seen, scope, rank, bound, tight) && RefIs(Get(ms, "$ref"), name)
    ensures scope.Deep? && tight ==> scope.depth > 0
    ensures scope.Cut? ==> scope.seen == seen
  {
    assert RefersTo(Obj(ms), name);
  }

  lemma SettingPlain(name: string, defs: seq<Member>, scope: Scope, rank: string -> nat, tight: bool)
    requires Setting(defs, scope, rank, tight) && Has(defs, name) && Get(defs, name).value.Obj?
    ensures Compilable(Get(defs, name).value.members, defs)
  {
    hide Compilable, Acyclic, CyclesAreObjects;
  }

  lemma CutIsObject(name: string, v: Value, defs: seq<Member>, scope: Scope, rank: string -> nat, tight: bool)
    requires Setting(defs, scope, rank, tight) && scope.Deep? && Reaches(defs, name, name)
    ensures Has(defs, name) && Get(defs, name).value.Obj?
    ensures Conforms(Get(defs, name).value.members, v, defs, scope) ==> Admits(Typed(PyDict(None), false), v)
  {
    assert ObjectTyped(defs, name);
    var target := Get(defs, name).value.members;
    if Conforms(target, v, defs, scope) { ObjectsOnly(target, v, defs, scope); }
    hide Conforms, Read;
  }

  lemma {:induction false} AgreeUnion(
      ms: seq<Member>, v: Value, defs: seq<Member>, seen: set<string>, scope: Scope, rank: string -> nat, bound: nat,
      tight: bool)
    requires Setting(defs, scope, rank, tight) && Compilable(ms, defs)
      && Context(Obj(ms), defs, seen, scope, rank, bound, tight)
    requires var k := Read(ms); k.ref.None? && k.enum.None? && k.const_.None? && (k.anyOf.Some? || k.oneOf.Some?)
    ensures Agrees(PyType(ms, defs, seen), Obj(ms), v, defs, scope, tight)
    decreases Names(defs) - seen, Obj(ms), 3
  {
    hide *;
    var b, orNull := UnionParts(ms, v, defs, seen, scope);
    AgreesMeans(PyType(ms, defs, seen), ms, v, defs, scope, tight);
    ContextInside(Obj(b), Obj(ms), defs, seen, scope, rank, bound, tight);
    Agree(b, v, defs, seen, scope, rank, bound, tight);
    AgreesMeans(PyType(b, defs, seen), b, v, defs, scope, tight);
  }

  /** The list a union schema holds. */
  lemma UnionItems(ms: seq<Member>, defs: seq<Member>, seen: set<string>) returns (items: seq<Value>)
    requires Compilable(ms, defs)
    requires var k := Read(ms); k.ref.None? && k.enum.None? && k.const_.None? && (k.anyOf.Some? || k.oneOf.Some?)
    ensures var k := Read(ms);
      if k.anyOf.Some? then k == NOTHING.(anyOf := Some(Arr(items)))
      else k == NOTHING.(oneOf := Some(Arr(items))) && OnlyOne(items)
    ensures UnionShape(items, defs) && PyType(ms, defs, seen) == UnionType(items, defs, seen)
    ensures Inside(Arr(items), Obj(ms)) && Arr(items) < Obj(ms)
  {
    var k := Read(ms);
    InsideRead(ms);
    hide Read, Inside, UnionShape, OnlyOne, UnionType, InVocabulary;
    items := if k.anyOf.Some? then k.anyOf.value.items else k.oneOf.value.items;
  }

  lemma UnionAdmits(items: seq<Value>, v: Value, defs: seq<Member>, seen: set<string>)
    requires FirstBranch(items).Some?
    ensures Admits(UnionType(items, defs, seen), v) <==>
      Admits(PyType(FirstBranch(items).value, defs, seen), v)
        || ((exists i | 0 <= i < |items| :: NullBranch(items[i])) && v.Null?)
  {
    hide PyType, NullBranch, FirstBranch, Accepts;
  }

  /** A union: its one branch, and whether null is allowed beside it. */
  lemma UnionParts(ms: seq<Member>, v: Value, defs: seq<Member>, seen: set<string>, scope: Scope)
      returns (b: seq<Member>, orNull: bool)
    requires Compilable(ms, defs)
    requires var k := Read(ms); k.ref.None? && k.enum.None? && k.const_.None? && (k.anyOf.Some? || k.oneOf.Some?)
    ensures Compilable(b, defs) && Inside(Obj(b), Obj(ms)) && Obj(b) < Obj(ms)
    ensures Conforms(ms, v, defs, scope) <==> Conforms(b, v, defs, scope) || (orNull && v.Null?)
    ensures Admits(PyType(ms, defs, seen), v) <==> Admits(PyType(b, defs, seen), v) || (orNull && v.Null?)
  {
    hide Read, Compilable, PyType, UnionType, Conforms, ConformsItem, NullBranch, ExactlyOne, OnlyOne, Inside, Admits;
    var items := UnionItems(ms, defs, seen);
    NullFound(items, defs);
    hide UnionShape, FirstBranch;
    b, orNull := FirstBranch(items).value, exists i | 0 <= i < |items| :: NullBranch(items[i]);
    UnionAdmits(items, v, defs, seen);
    if Read(ms).anyOf.Some? {
      ConformsAny(ms, v, defs, scope);
      AnyAgrees(items, v, defs, scope);
    } else {
      ConformsOne(ms, v, defs, scope);
      OneAgrees(items, v, defs, scope);
    }
    InsideParts(Arr(items));
    assert Obj(b) < Arr(items);
    InsideTrans(Obj(b), Arr(items), Obj(ms));
  }

  /** The object and array keywords, for an instance of either kind. */
  ghost predicate PartsConform(ms: seq<Member>, v: Value, defs: seq<Member>, scope: Scope) {
    && (v.Obj? ==> ConformsMembers(ms, v.members, defs, scope))
    && (v.Arr? && Read(ms).items.Some? ==>
      forall i | 0 <= i < |v.items| :: ConformsItem(Read(ms).items.value, v.items[i], defs, scope))
  }

  lemma {:induction false} AgreeTyped(
      ms: seq<Member>, v: Value, defs: seq<Member>, seen: set<string>, scope: Scope, rank: string -> nat, bound: nat,
      tight: bool)
    requires Setting(defs, scope, rank, tight) && TypedShape(ms, defs)
      && Context(Obj(ms), defs, seen, scope, rank, bound, tight)
    ensures Agrees(PyType(ms, defs, seen), Obj(ms), v, defs, scope, tight)
    decreases Names(defs) - seen, Obj(ms), 3
  {
    if Read(ms).typ.None? {
      UntypedParts(ms, v, defs, seen, scope);
    } else {
      TypedParts(ms, v, defs, seen, scope);
      AgreeBase(ms, v, defs, seen, scope, rank, bound, tight);
    }
    hide *;
    AgreesMeans(PyType(ms, defs, seen), ms, v, defs, scope, tight);
  }

  lemma TypedIs(ms: seq<Member>, defs: seq<Member>, seen: set<string>)
    requires TypedShape(ms, defs)
    ensures PyType(ms, defs, seen) == Typed(BaseType(TypeOf(Read(ms).typ).0, ms, defs, seen), TypeOf(Read(ms).typ).1)
  {
    hide Read, BaseType, TypeOf, ObjectShape, SingleType;
  }

  /** Without a type, nothing is asked and anything admitted. */
  lemma UntypedParts(ms: seq<Member>, v: Value, defs: seq<Member>, seen: set<string>, scope: Scope)
    requires TypedShape(ms, defs) && Read(ms).typ.None?
    ensures Conforms(ms, v, defs, scope) && Admits(PyType(ms, defs, seen), v)
  {
    TypedIs(ms, defs, seen);
    ConformsTyped(ms, v, defs, scope);
    NothingMembers(ms, v, defs, scope);
    hide Read, PyType, Conforms, ConformsMembers, ConformsItem;
  }

  /** What is not an object or an array has no parts. */
  lemma NullHasNoParts(ms: seq<Member>, defs: seq<Member>, scope: Scope)
    ensures PartsConform(ms, Null, defs, scope)
  {
  }

  /** A typed schema: its type, null beside it, and its parts. */
  lemma TypedParts(ms: seq<Member>, v: Value, defs: seq<Member>, seen: set<string>, scope: Scope)
    requires TypedShape(ms, defs) && Read(ms).typ.Some?
    ensures var (t, nullable) := TypeOf(Read(ms).typ);
      && (Conforms(ms, v, defs, scope) <==>
        (Matches(t, v) && PartsConform(ms, v, defs, scope)) || (nullable && v.Null?))
      && (Admits(PyType(ms, defs, seen), v) <==> Accepts(BaseType(t, ms, defs, seen), v) || (nullable && v.Null?))
  {
    TypedIs(ms, defs, seen);
    ConformsTyped(ms, v, defs, scope);
    NullHasNoParts(ms, defs, scope);
    hide PyType, Conforms, ConformsItem, ConformsMembers, BaseType, Accepts, Matches, TypeAllows, Read, TypeOf;
    TypeSplits(Read(ms).typ.value, v);
  }

  lemma {:induction false} AgreeBase(
      ms: seq<Member>, v: Value, defs: seq<Member>, seen: set<string>, scope: Scope, rank: string -> nat, bound: nat,
      tight: bool)
    requires Setting(defs, scope, rank, tight) && TypedShape(ms, defs)
      && Context(Obj(ms), defs, seen, scope, rank, bound, tight)
    requires Read(ms).typ.Some?
    ensures var t := TypeOf(Read(ms).typ).0;
      && (Matches(t, v) && PartsConform(ms, v, defs, scope) ==> Accepts(BaseType(t, ms, defs, seen), v))
      && (tight && Accepts(BaseType(t, ms, defs, seen), v) ==> Matches(t, v) && PartsConform(ms, v, defs, scope))
    decreases Names(defs) - seen, Obj(ms), 2
  {
    var k := Read(ms);
    var t := TypeOf(k.typ).0;
    if t.TObject? {
      ObjectBase(ms, defs, seen, v);
      hide *;
      if v.Obj? { AgreeObject(ms, v.members, defs, seen, scope, rank, bound, tight); }
      PartsOfObject(ms, v, defs, scope);
    } else if t.TArray? {
      if v.Arr? && k.items.Some? {
        AgreeElements(ms, k.items.value, v, defs, seen, scope, rank, bound, tight);
        ListAgrees(k.items.value, v.items, defs, seen, scope, tight);
      }
      ListBase(ms, v, defs, seen, scope);
      hide *;
    } else {
      ScalarBase(ms, v, defs, seen, scope);
      hide *;
    }
  }

  lemma ListBase(ms: seq<Member>, v: Value, defs: seq<Member>, seen: set<string>, scope: Scope)
    ensures var items := Read(ms).items;
      && BaseType(TArray, ms, defs, seen) == PyList(if items.Some? then ElementType(items.value, defs, seen) else None)
      && (Accepts(BaseType(TArray, ms, defs, seen), v) ==> v.Arr?)
      && (v.Arr? && items.None? ==> Accepts(BaseType(TArray, ms, defs, seen), v))
      && (Matches(TArray, v) <==> v.Arr?)
      && (v.Arr? ==> (PartsConform(ms, v, defs, scope) <==>
            (items.Some? ==> forall i | 0 <= i < |v.items| :: ConformsItem(items.value, v.items[i], defs, scope))))
  {
    hide Read, ElementType, ConformsItem, ConformsMembers, Admits;
  }

  lemma ScalarBase(ms: seq<Member>, v: Value, defs: seq<Member>, seen: set<string>, scope: Scope)
    requires TypedShape(ms, defs) && Read(ms).typ.Some? && !TypeOf(Read(ms).typ).0.TObject?
      && !TypeOf(Read(ms).typ).0.TArray?
    ensures var t := TypeOf(Read(ms).typ).0;
      Accepts(BaseType(t, ms, defs, seen), v) <==> Matches(t, v) && PartsConform(ms, v, defs, scope)
  {
    assert !TypeOf(Read(ms).typ).0.TOther?;
    if v.Str? { ReadableIs(v.s); }
    hide Read, TypeOf, Readable, NoControl;
  }

  lemma ObjectBase(ms: seq<Member>, defs: seq<Member>, seen: set<string>, v: Value)
    ensures Accepts(BaseType(TObject, ms, defs, seen), v) ==> v.Obj?
  {
    var model := ModelOf(ms, defs, seen);
    if model.Some? {
      ModelIsBase(ms, defs, seen);
    } else {
      NoModelIsBase(ms, defs, seen);
    }
  }

  lemma NoModelIsBase(ms: seq<Member>, defs: seq<Member>, seen: set<string>)
    requires ModelOf(ms, defs, seen).None?
    ensures BaseType(TObject, ms, defs, seen).PyDict?
  {
    hide Read;
  }

  lemma PartsOfObject(ms: seq<Member>, v: Value, defs: seq<Member>, scope: Scope)
    ensures v.Obj? ==> (PartsConform(ms, v, defs, scope) <==> ConformsMembers(ms, v.members, defs, scope))
    ensures Matches(TObject, v) <==> v.Obj?
  {
    hide ConformsMembers, Read;
  }

  lemma {:induction false} AgreeElements(
      ms: seq<Member>, s: Value, v: Value, defs: seq<Member>, seen: set<string>, scope: Scope, rank: string -> nat,
      bound: nat, tight: bool)
    requires Setting(defs, scope, rank, tight) && Context(Obj(ms), defs, seen, scope, rank, bound, tight)
    requires s.Obj? && Compilable(s.members, defs) && (Read(ms).items == Some(s) || Read(ms).additional == Some(s))
    ensures ElementsAgree(s, v, defs, seen, scope, tight)
    decreases Names(defs) - seen, s, 5
  {
    InsideRead(ms);
    ContextInside(s, Obj(ms), defs, seen, scope, rank, bound, tight);
    hide Compilable, Context, Setting, Agrees, Read, PyType;
    match v
    case Arr(items) =>
      forall i | 0 <= i < |items| ensures Agrees(PyType(s.members, defs, seen), s, items[i], defs, scope, tight) {
        Agree(s.members, items[i], defs, seen, scope, rank, bound, tight);
      }
    case Obj(vs) =>
      forall i | 0 <= i < |vs| ensures Agrees(PyType(s.members, defs, seen), s, vs[i].value, defs, scope, tight) {
        Agree(s.members, vs[i].value, defs, seen, scope, rank, bound, tight);
      }
    case _ =>
  }

  lemma {:induction false} AgreeObject(
      ms: seq<Member>, vs: seq<Member>, defs: seq<Member>, seen: set<string>, scope: Scope, rank: string -> nat,
      bound: nat, tight: bool)
    requires Setting(defs, scope, rank, tight) && ObjectShape(ms, defs)
      && Context(Obj(ms), defs, seen, scope, rank, bound, tight)
    ensures ConformsMembers(ms, vs, defs, scope) ==> Accepts(BaseType(TObject, ms, defs, seen), Obj(vs))
    ensures tight && Accepts(BaseType(TObject, ms, defs, seen), Obj(vs)) ==> ConformsMembers(ms, vs, defs, scope)
    decreases Names(defs) - seen, Obj(ms), 1
  {
    if Declares(Read(ms)) {
      AgreeFields(ms, vs, defs, seen, scope, rank, bound, tight);
      hide *;
      ModelAgrees(ms, vs, defs, seen, scope, tight);
      ModelIsBase(ms, defs, seen);
    } else {
      MapConforms(ms, vs, defs, scope);
      MapIsBase(ms, defs, seen);
      var additional := Read(ms).additional;
      if additional.Some? && additional.value.Obj? {
        hide Read, Compilable, PyType, Conforms, Context, Setting, RefersTo, Agrees, Admits, ConformsMembers,
          ElementType,
          BaseType, Accepts;
        AgreeElements(ms, additional.value, Obj(vs), defs, seen, scope, rank, bound, tight);
        MapAgrees(additional.value, vs, defs, seen, scope, tight);
      } else {
        hide Read, Compilable, PyType, Conforms, Context, Setting, RefersTo, Agrees, Admits, ConformsMembers,
          ElementType,
          BaseType;
      }
    }
  }

  lemma {:induction false} AgreeFields(
      ms: seq<Member>, vs: seq<Member>, defs: seq<Member>, seen: set<string>, scope: Scope, rank: string -> nat,
      bound: nat, tight: bool)
    requires Setting(defs, scope, rank, tight) && ObjectShape(ms, defs)
      && Context(Obj(ms), defs, seen, scope, rank, bound, tight)
    requires Declares(Read(ms))
    ensures FieldsAgree(Read(ms).properties.value.members, vs, defs, seen, scope, tight)
    decreases Names(defs) - seen, Obj(ms), 0
  {
    var props := Read(ms).properties.value;
    InsideRead(ms);
    InsideParts(props);
    hide ConformsMembers, Accepts, Context, Setting, RefersTo, Inside, Read, Agrees, Get, FieldType, Compilable, PyType;
    forall i | 0 <= i < |props.members| && Has(vs, props.members[i].key)
      ensures Agrees(FieldType(props.members[i].value, defs, seen), props.members[i].value,
        Get(vs, props.members[i].key).value, defs, scope, tight)
    {
      var p := props.members[i];
      InsideTrans(p.value, props, Obj(ms));
      ContextInside(p.value, Obj(ms), defs, seen, scope, rank, bound, tight);
      assert p.value < Obj(ms);
      Agree(p.value.members, Get(vs, p.key).value, defs, seen, scope, rank, bound, tight);
      FieldIs(p.value, defs, seen);
    }
  }

  lemma MapIsBase(ms: seq<Member>, defs: seq<Member>, seen: set<string>)
    requires !Declares(Read(ms))
    ensures var additional := Read(ms).additional;
      BaseType(TObject, ms, defs, seen) ==
        PyDict(if additional.Some? && additional.value.Obj? then ElementType(additional.value, defs, seen) else None)
  {
    hide Read;
  }

  lemma FieldIs(s: Value, defs: seq<Member>, seen: set<string>)
    requires s.Obj?
    ensures FieldType(s, defs, seen) == PyType(s.members, defs, seen)
  {
  }

  lemma ModelIsBase(ms: seq<Member>, defs: seq<Member>, seen: set<string>)
    requires ModelOf(ms, defs, seen).Some?
    ensures BaseType(TObject, ms, defs, seen) == ModelOf(ms, defs, seen).value && ModelOf(ms, defs, seen).value.PyModel?
  {
  }

  /** Without declared properties only the values count. */
  lemma MapConforms(ms: seq<Member>, vs: seq<Member>, defs: seq<Member>, scope: Scope)
    requires ObjectShape(ms, defs) && !Declares(Read(ms))
    ensures var additional := Read(ms).additional;
      ConformsMembers(ms, vs, defs, scope) <==>
        (additional.Some? && additional.value.Obj? ==>
          forall i | 0 <= i < |vs| :: ConformsItem(additional.value, vs[i].value, defs, scope))
  {
    ReadIs(ms);
    hide Read, Get, Compilable;
  }

  // ── The theorems ──

  lemma {:induction false} LeadsDown(defs: seq<Member>, rank: string -> nat, a: string, b: string, n: nat)
    requires Acyclic(defs, rank) && Leads(defs, a, b, n)
    ensures rank(b) < rank(a)
    decreases n
  {
    hide RefersTo, Get, Has;
    if n > 0 {
      var c :| Leads(defs, a, c, n - 1) && Link(defs, c, b);
      LeadsDown(defs, rank, a, c, n - 1);
    }
  }

  lemma NoCycles(defs: seq<Member>, rank: string -> nat)
    requires Acyclic(defs, rank)
    ensures CyclesAreObjects(defs)
  {
    forall n ensures !Reaches(defs, n, n) {
      forall k: nat ensures !Leads(defs, n, n, k) { NoLoop(defs, rank, n, k); }
    }
  }

  lemma NoLoop(defs: seq<Member>, rank: string -> nat, n: string, k: nat)
    requires Acyclic(defs, rank)
    ensures !Leads(defs, n, n, k)
  {
    if Leads(defs, n, n, k) {
      LeadsDown(defs, rank, n, n, k);
      assert false;
    }
  }

  /** On acyclic references, compiling and accepting is reading the schema. */
  lemma CompileAgrees(ms: seq<Member>, v: Value, defs: seq<Member>, rank: string -> nat, depth: nat)
    requires AllPlain(defs) && Acyclic(defs, rank) && Plain(ms, defs) && Below(Obj(ms), rank, depth)
    ensures Admits(PyType(ms, defs, {}), v) <==> Conforms(ms, v, defs, Deep(depth))
  {
    NoCycles(defs, rank);
    hide Plain, AllPlain, Compilable, PyType, Conforms, Admits, Agrees;
    PlainFits(ms, defs);
    AllFit(defs);
    Agree(ms, v, defs, {}, Deep(depth), rank, depth, true);
    AgreesMeans(PyType(ms, defs, {}), ms, v, defs, Deep(depth), true);
  }

  /** Cutting a cycle only loosens: what the schema, unrolled to any depth, accepts is accepted. */
  lemma CuttingLoosens(ms: seq<Member>, v: Value, defs: seq<Member>, depth: nat)
    requires AllPlain(defs) && CyclesAreObjects(defs) && Plain(ms, defs) && Conforms(ms, v, defs, Deep(depth))
    ensures Admits(PyType(ms, defs, {}), v)
  {
    hide Plain, AllPlain, Compilable, PyType, Conforms, Admits, Agrees;
    PlainFits(ms, defs);
    AllFit(defs);
    Agree(ms, v, defs, {}, Deep(depth), n => 0, 0, false);
    AgreesMeans(PyType(ms, defs, {}), ms, v, defs, Deep(depth), false);
  }

  /**
   For every schema in the fragment, cyclic references or not: the compiled type accepts exactly what the
   schema allows when each reference to a definition that is being followed already allows any object.
   */
  lemma CutCompileAgrees(ms: seq<Member>, v: Value, defs: seq<Member>)
    requires AllPlain(defs) && Plain(ms, defs)
    ensures Admits(PyType(ms, defs, {}), v) <==> Conforms(ms, v, defs, Cut({}))
  {
    hide Plain, AllPlain, Compilable, PyType, Conforms, Admits, Agrees, RefersTo;
    PlainFits(ms, defs);
    AllFit(defs);
    Agree(ms, v, defs, {}, Cut({}), n => 0, 0, true);
    AgreesMeans(PyType(ms, defs, {}), ms, v, defs, Cut({}), true);
  }

  /** Where it is cut, every object is let through. */
  lemma CutAdmitsObjects(ms: seq<Member>, name: string, v: Value, defs: seq<Member>, seen: set<string>)
    requires RefIs(Get(ms, "$ref"), name) && name in seen
    ensures Admits(PyType(ms, defs, seen), v) <==> v.Obj?
  {
    assert PyType(ms, defs, seen) == Typed(PyDict(None), false);
    hide PyType;
  }

  /** A top-level schema of the fragment that declares properties. */
  ghost predicate Declared(schema: seq<Member>) {
    var defs := Definitions(schema);
    && Plain(schema, defs) && AllPlain(defs) && Get(schema, "type") == Some(Str("object"))
    && Has(schema, "properties") && Get(schema, "properties").value != Obj([])
  }

  lemma DefsAgree(schema: seq<Member>)
    ensures DefsOf(schema) == Definitions(schema)
  {
  }

  lemma DeclaredType(schema: seq<Member>, defs: seq<Member>)
    requires Compilable(schema, defs) && Get(schema, "type") == Some(Str("object"))
    requires Has(schema, "properties") && Get(schema, "properties").value != Obj([])
    ensures ObjectShape(schema, defs) && PyType(schema, defs, {}) == Typed(BaseType(TObject, schema, defs, {}), false)
    ensures Declares(Read(schema))
  {
    ReadIs(schema);
    NamedTypes("object");
    hide ObjectShape, BaseType, ModelOf, Get, TypeNamed;
    TypedWhole(schema, defs);
    ObjectDeclares(schema, defs);
  }

  lemma TypedWhole(schema: seq<Member>, defs: seq<Member>)
    requires Compilable(schema, defs) && Read(schema).typ == Some(Str("object")) && Read(schema).properties.Some?
    ensures TypedShape(schema, defs)
  {
    hide TypedShape, UnionShape, InVocabulary, Read;
  }

  lemma ObjectDeclares(schema: seq<Member>, defs: seq<Member>)
    requires TypedShape(schema, defs) && Read(schema).typ == Some(Str("object"))
    requires Read(schema).properties.Some? && Read(schema).properties.value != Obj([])
    ensures ObjectShape(schema, defs) && Declares(Read(schema))
  {
    NamedTypes("object");
    hide Read, Compilable, TypeNamed;
  }

  lemma ValidIsAdmitted(schema: seq<Member>, content: seq<Member>, defs: seq<Member>)
    requires Compilable(schema, defs) && Get(schema, "type") == Some(Str("object"))
    requires Has(schema, "properties") && Get(schema, "properties").value != Obj([])
    ensures ModelOf(schema, defs, {}).Some?
    ensures Accepts(ModelOf(schema, defs, {}).value, Obj(content)) <==> Admits(PyType(schema, defs, {}), Obj(content))
  {
    DeclaredType(schema, defs);
    var k := Read(schema);
    hide PyType, BaseType, Read, Compilable, ObjectShape, Get;
    FieldsAll(k.properties.value.members, k.required, defs, {});
    ModelIsBase(schema, defs, {});
  }

  lemma ValidIs(content: seq<Member>, schema: seq<Member>)
    requires Declared(schema)
    ensures Valid(content, schema) <==> Admits(PyType(schema, Definitions(schema), {}), Obj(content))
  {
    hide Plain, AllPlain, PyType, Admits, ModelOf, Get, Compilable, Definitions;
    DefsAgree(schema);
    PlainFits(schema, Definitions(schema));
    ValidIsAdmitted(schema, content, Definitions(schema));
  }

  /** `validate`, with acyclic references: the content is accepted exactly when it conforms. */
  lemma ValidateAgrees(content: seq<Member>, schema: seq<Member>, rank: string -> nat, depth: nat)
    requires Declared(schema) && Acyclic(Definitions(schema), rank) && Below(Obj(schema), rank, depth)
    ensures Valid(content, schema) <==> Conforms(schema, Obj(content), Definitions(schema), Deep(depth))
  {
    hide Plain, AllPlain, PyType, Conforms, Admits, Valid;
    ValidIs(content, schema);
    CompileAgrees(schema, Obj(content), Definitions(schema), rank, depth);
  }

  /** `validate`, with any references: content that conforms is never refused. */
  lemma ValidateLoosens(content: seq<Member>, schema: seq<Member>, depth: nat)
    requires Declared(schema) && CyclesAreObjects(Definitions(schema))
    requires Conforms(schema, Obj(content), Definitions(schema), Deep(depth))
    ensures Valid(content, schema)
  {
    hide Plain, AllPlain, PyType, Conforms, Admits, Valid;
    ValidIs(content, schema);
    CuttingLoosens(schema, Obj(content), Definitions(schema), depth);
  }

  /** `validate`, with any references: the content is accepted exactly when it conforms to the cut reading. */
  lemma ValidateCutAgrees(content: seq<Member>, schema: seq<Member>)
    requires Declared(schema)
    ensures Valid(content, schema) <==> Conforms(schema, Obj(content), Definitions(schema), Cut({}))
  {
    hide Plain, AllPlain, PyType, Conforms, Admits, Valid;
    ValidIs(content, schema);
    CutCompileAgrees(schema, Obj(content), Definitions(schema));
  }

  // ── What the validator refuses and lets through ──

  lemma MembersConform(content: seq<Member>, schema: seq<Member>, scope: Scope)
    requires Conforms(schema, Obj(content), Definitions(schema), scope)
    ensures ConformsMembers(schema, content, Definitions(schema), scope)
  {
    hide ConformsMembers, ConformsItem, Get, TypeAllows;
  }

  /** Content that lacks a name listed under `required` is refused: accepted content has them all. */
  lemma RequiredAreThere(content: seq<Member>, schema: seq<Member>, names: seq<Value>)
    requires Declared(schema) && Get(schema, "required") == Some(Arr(names)) && Valid(content, schema)
    ensures forall name | Str(name) in names :: Has(content, name)
  {
    hide Declared, Conforms, ConformsItem, Get, Valid;
    ValidateCutAgrees(content, schema);
    MembersConform(content, schema, Cut({}));
    forall name | Str(name) in names ensures Has(content, name) { assert Has(content, Str(name).s); }
  }

  /** Content with a member the schema does not declare is refused, unless the schema opts in. */
  lemma OnlyDeclaredPass(content: seq<Member>, schema: seq<Member>, props: seq<Member>)
    requires Declared(schema) && Get(schema, "properties") == Some(Obj(props)) && Valid(content, schema)
    requires Get(schema, "additionalProperties") != Some(Bool(true))
    ensures forall m | m in content :: Has(props, m.key)
  {
    hide Plain, AllPlain, Conforms, ConformsItem, Get, Has, Valid;
    ValidateCutAgrees(content, schema);
    MembersConform(content, schema, Cut({}));
  }

  /** Content with a value that its property's schema does not allow is refused. */
  lemma ValuesConform(content: seq<Member>, schema: seq<Member>, props: seq<Member>)
    requires Declared(schema) && Get(schema, "properties") == Some(Obj(props)) && Valid(content, schema)
    ensures forall i | 0 <= i < |props| && Has(content, props[i].key) ::
      ConformsItem(props[i].value, Get(content, props[i].key).value, Definitions(schema), Cut({}))
  {
    hide Plain, AllPlain, Conforms, ConformsItem, Get, Has, Valid;
    ValidateCutAgrees(content, schema);
    MembersConform(content, schema, Cut({}));
  }

  /** A schema that declares no properties lets everything through. */
  lemma UndeclaredPasses(content: seq<Member>, schema: seq<Member>)
    requires var properties := Get(schema, "properties");
      properties.None? || !properties.value.Obj? || properties.value.members == []
    ensures Valid(content, schema)
  {
    ReadIs(schema);
    hide Read, Get, FieldsOf;
  }

  /** Each type name, by itself, lets through exactly its own values. */
  lemma TypeDecides(v: Value)
    ensures Passes("string", v) <==> v.Str? && forall c | c in v.s :: c >= ' ' || c in ['\t', '\n', '\r']
    ensures (Passes("integer", v) <==> v.Int?) && (Passes("number", v) <==> v.Int? || v.Num?)
    ensures (Passes("boolean", v) <==> v.Bool?) && (Passes("null", v) <==> v.Null?)
    ensures (Passes("array", v) <==> v.Arr?) && (Passes("object", v) <==> v.Obj?)
  {
    hide Passes, NameAllows;
    forall i | 0 <= i < |TYPES| ensures Passes(TYPES[i], v) <==> NameAllows(TYPES[i], v) { NamedAllows(TYPES[i], v); }
    assert TYPES[0] == "string" && TYPES[1] == "integer" && TYPES[2] == "number" && TYPES[3] == "boolean";
    assert TYPES[4] == "null" && TYPES[5] == "array" && TYPES[6] == "object";
    SevenNames(v);
  }

  lemma SevenNames(v: Value)
    ensures NameAllows("string", v) <==> v.Str? && Readable(v.s)
    ensures (NameAllows("integer", v) <==> v.Int?) && (NameAllows("number", v) <==> v.Int? || v.Num?)
    ensures (NameAllows("boolean", v) <==> v.Bool?) && (NameAllows("null", v) <==> v.Null?)
    ensures (NameAllows("array", v) <==> v.Arr?) && (NameAllows("object", v) <==> v.Obj?)
  {
    hide Readable;
  }

  /** `{"type": name}`, compiled, lets the value through. */
  predicate Passes(name: string, v: Value) {
    Admits(PyType([Member("type", Str(name))], [], {}), v)
  }

  lemma NamedAllows(name: string, v: Value)
    requires name in TYPES
    ensures Passes(name, v) <==> NameAllows(name, v)
  {
    var ms := [Member("type", Str(name))];
    BareIsPlain(name);
    hide PyType, Admits, NameAllows, Plain;
    CutCompileAgrees(ms, v, []);
    BareConforms(name, v);
  }

  lemma BareGet(name: string, key: string)
    ensures Get([Member("type", Str(name))], key) == if key == "type" then Some(Str(name)) else None
  {
    assert [Member("type", Str(name))][1..] == [];
  }

  lemma BareIsPlain(name: string)
    requires name in TYPES
    ensures Plain([Member("type", Str(name))], []) && AllPlain([])
  {
    var ms := [Member("type", Str(name))];
    BareGet(name, "type");
    forall i | 0 <= i < |WORDS| ensures WORDS[i] in ["type"] || !Has(ms, WORDS[i]) { BareGet(name, WORDS[i]); }
    forall i | 0 <= i < |UNREAD| ensures !Has(ms, UNREAD[i]) {
      BareGet(name, UNREAD[i]);
      NotType(i);
    }
    hide Get;
    assert Only(ms, ["type"]);
    assert TypeIs(Str(name), name);
  }

  lemma NotType(i: nat)
    requires i < |UNREAD|
    ensures UNREAD[i] != "type"
  {
  }

  lemma BareConforms(name: string, v: Value)
    ensures Conforms([Member("type", Str(name))], v, [], Cut({})) <==> NameAllows(name, v)
  {
    BareGet(name, "$ref");
    BareGet(name, "enum");
    BareGet(name, "const");
    BareGet(name, "anyOf");
    BareGet(name, "oneOf");
    BareGet(name, "type");
    BareGet(name, "properties");
    BareGet(name, "required");
    BareGet(name, "additionalProperties");
    BareGet(name, "items");
    hide Get, NameAllows;
  }
}
