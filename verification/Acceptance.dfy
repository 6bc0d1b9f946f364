/**
 What a JSON Schema accepts, after JSON Schema 2020-12, and that inlining keeps it. The keywords that
 hold schemas are spelled out; `plain` gives every other keyword any fixed meaning.
 */
module Acceptance {
  import opened Json
  import opened InlineRefs
  import opened Pointers
  import opened Wrappers

  /** Whether a keyword with this value allows this instance. */
  type Plain = (string, Value, Value) -> bool

  /** The keywords that hold schemas, and the rest. */
  datatype Keyword =
    | Ref | Not | If | Then | Else | Items | AdditionalProperties | Contains | PropertyNames   // one schema
    | AllOf | AnyOf | OneOf | PrefixItems                                                     // a list
    | Properties | PatternProperties | DependentSchemas                                       // a map
    | Other

  function KeywordOf(key: string): Keyword {
    if key == "$ref" then Ref
    else if key == "properties" then Properties
    else if key == "items" then Items
    else if key == "additionalProperties" then AdditionalProperties
    else if key == "allOf" then AllOf
    else if key == "anyOf" then AnyOf
    else if key == "oneOf" then OneOf
    else if key == "not" then Not
    else if key == "if" then If
    else if key == "then" then Then
    else if key == "else" then Else
    else if key == "prefixItems" then PrefixItems
    else if key == "contains" then Contains
    else if key == "patternProperties" then PatternProperties
    else if key == "propertyNames" then PropertyNames
    else if key == "dependentSchemas" then DependentSchemas
    else Other
  }

  predicate One(k: Keyword) {
    k.Not? || k.If? || k.Then? || k.Else? || k.Items? || k.AdditionalProperties? || k.Contains? || k.PropertyNames?
  }

  predicate Many(k: Keyword) {
    k.AllOf? || k.AnyOf? || k.OneOf? || k.PrefixItems?
  }

  predicate Mapping(k: Keyword) {
    k.Properties? || k.PatternProperties? || k.DependentSchemas?
  }

  /** A reference applies beside its siblings (section 8.2.3.1 of JSON Schema Core 2020-12). */
  predicate Accepts(s: Value, v: Value, defs: seq<Member>, plain: Plain, depth: nat)
    decreases depth, s, 1
  {
    match s
    case Bool(b) => b
    case Obj(ms) =>
      && (LocalRef(ms).Some? ==>
          depth > 0 && Target(ms, defs).Some? && Accepts(Target(ms, defs).value, v, defs, plain, depth - 1))
      && forall i | 0 <= i < |ms| :: Allows(ms, ms[i], v, defs, plain, depth)
    case _ => false
  }

  /** One keyword of a schema object. */
  predicate Allows(ms: seq<Member>, m: Member, v: Value, defs: seq<Member>, plain: Plain, depth: nat)
    requires m in ms
    decreases depth, Obj(ms), 0
  {
    var value := m.value;
    assert value < Obj(ms);
    match KeywordOf(m.key)
    case Ref => LocalRef(ms).Some? || plain(m.key, value, v)
    case Not => !Accepts(value, v, defs, plain, depth)
    case If =>
      if Accepts(value, v, defs, plain, depth)
      then Get(ms, "then").Some? ==> Accepts(Get(ms, "then").value, v, defs, plain, depth)
      else Get(ms, "else").Some? ==> Accepts(Get(ms, "else").value, v, defs, plain, depth)
    case Then => true
    case Else => true
    case Items => v.Arr? ==> forall j | Prefix(ms) <= j < |v.items| :: Accepts(value, v.items[j], defs, plain, depth)
    case Contains => v.Arr? ==> Enough(ms, Hits(value, v.items, defs, plain, depth))
    case PropertyNames => v.Obj? ==>
      forall j | 0 <= j < |v.members| :: Accepts(value, Str(v.members[j].key), defs, plain, depth)
    case AdditionalProperties =>
      v.Obj? ==> forall j | 0 <= j < |v.members| && !Listed(ms, v.members[j].key, plain) ::
        Accepts(value, v.members[j].value, defs, plain, depth)
    case Properties =>
      if value.Obj? then
        v.Obj? ==> forall j | 0 <= j < |value.members| && Has(v.members, value.members[j].key) ::
          Accepts(value.members[j].value, Get(v.members, value.members[j].key).value, defs, plain, depth)
      else plain(m.key, value, v)
    case PatternProperties =>
      if value.Obj? then
        v.Obj? ==>
          forall j, k | 0 <= j < |value.members| && 0 <= k < |v.members|
          && Fits(value.members[j].key, v.members[k].key, plain) ::
          Accepts(value.members[j].value, v.members[k].value, defs, plain, depth)
      else plain(m.key, value, v)
    case DependentSchemas =>
      if value.Obj? then
        v.Obj? ==> forall j | 0 <= j < |value.members| && Has(v.members, value.members[j].key) ::
          Accepts(value.members[j].value, v, defs, plain, depth)
      else plain(m.key, value, v)
    case PrefixItems =>
      if value.Arr? then
        v.Arr? ==>
          forall j | 0 <= j < |value.items| && j < |v.items| :: Accepts(value.items[j], v.items[j], defs, plain, depth)
      else plain(m.key, value, v)
    case Other => plain(m.key, value, v)
    case AllOf => Listing(m, v, plain, Verdicts(value, v, defs, plain, depth))
    case AnyOf => Listing(m, v, plain, Verdicts(value, v, defs, plain, depth))
    case OneOf => Listing(m, v, plain, Verdicts(value, v, defs, plain, depth))
  }

  /** Which branches of a list of schemas accept. */
  function Verdicts(value: Value, v: Value, defs: seq<Member>, plain: Plain, depth: nat): (r: seq<bool>)
    ensures |r| == if value.Arr? then |value.items| else 0
    decreases depth, value, 0
  {
    if value.Arr? then seq(|value.items|,
      j requires 0 <= j < |value.items| => Accepts(value.items[j], v, defs, plain, depth))
    else []
  }

  /** How many of the items the schema accepts. */
  function Hits(value: Value, items: seq<Value>, defs: seq<Member>, plain: Plain, depth: nat): nat
    decreases depth, value, 2, items
  {
    if items == [] then 0
    else (if Accepts(value, items[0], defs, plain, depth) then 1 else 0) + Hits(value, items[1..], defs, plain, depth)
  }

  /** A number that bounds how many items `contains` asks for. */
  function Bound(ms: seq<Member>, key: string): Option<real> {
    match Get(ms, key)
    case Some(Int(n)) => Some(n as real)
    case Some(Num(r)) => Some(r)
    case _ => None
  }

  /** At least `minContains`, which is 1 when it is absent, and at most `maxContains`. */
  predicate Enough(ms: seq<Member>, hits: nat) {
    var least, most := Bound(ms, "minContains"), Bound(ms, "maxContains");
    (if least.Some? then hits as real >= least.value else hits >= 1) && (most.Some? ==> hits as real <= most.value)
  }

  /** How many items `prefixItems` is about; `items` is about the ones after them. */
  function Prefix(ms: seq<Member>): nat {
    match Get(ms, "prefixItems")
    case Some(Arr(items)) => |items|
    case _ => 0
  }

  /** The name matches the pattern, as the keyword `pattern` has it. */
  predicate Fits(pattern: string, name: string, plain: Plain) {
    plain("pattern", Str(pattern), Str(name))
  }

  /** What the reference of a schema object points to. */
  function Target(ms: seq<Member>, defs: seq<Member>): Option<Value>
    requires LocalRef(ms).Some?
  {
    Pointed(Get(ms, "$ref").value.s, defs)
  }

  /** All, any or exactly one. */
  predicate Listing(m: Member, v: Value, plain: Plain, verdicts: seq<bool>) {
    if !m.value.Arr? then plain(m.key, m.value, v)
    else match KeywordOf(m.key)
      case AllOf => forall j | 0 <= j < |verdicts| :: verdicts[j]
      case AnyOf => exists j | 0 <= j < |verdicts| :: verdicts[j]
      case _ => exists j | 0 <= j < |verdicts| :: verdicts[j] && forall k | 0 <= k < |verdicts| && k != j ::
        !verdicts[k]
  }

  /** `properties` names the key, or a pattern of `patternProperties` matches it. */
  predicate Listed(ms: seq<Member>, key: string, plain: Plain) {
    || (Get(ms, "properties").Some? && Get(ms, "properties").value.Obj?
      && Named(Get(ms, "properties").value.members, key))
    || (Get(ms, "patternProperties").Some? && Get(ms, "patternProperties").value.Obj?
        && Patterned(Get(ms, "patternProperties").value.members, key, plain))
  }

  predicate Named(props: seq<Member>, key: string) {
    Has(props, key)
  }

  predicate Patterned(patterns: seq<Member>, key: string, plain: Plain) {
    exists j :: 0 <= j < |patterns| && Fits(patterns[j].key, key, plain)
  }

  /**
   A schema inlining understands: its references are direct and stand alone, no property is called
   `$ref`, and data inside other keywords holds no reference.
   */
  predicate Inlinable(s: Value)
    decreases s, 0
  {
    match s
    case Obj(ms) =>
      && !BadRef(ms)
      && (LocalRef(ms).Some? ==> |ms| == 1 && Direct(Get(ms, "$ref").value.s))
      && forall i | 0 <= i < |ms| :: Holds(KeywordOf(ms[i].key), ms[i].value)
    case _ => Settled(s)
  }

  /** The same for what stands under a keyword. */
  predicate Holds(k: Keyword, value: Value)
    decreases value, 1
  {
    if One(k) then Inlinable(value)
    else if Many(k) && value.Arr? then forall j | 0 <= j < |value.items| :: Inlinable(value.items[j])
    else if Mapping(k) && value.Obj? then
      !Has(value.members, "$ref") && forall j | 0 <= j < |value.members| :: Inlinable(value.members[j].value)
    else Settled(value)
  }

  lemma HoldsAt(ms: seq<Member>, key: string)
    requires Inlinable(Obj(ms)) && Has(ms, key)
    ensures Holds(KeywordOf(key), Get(ms, key).value)
  {
    hide Holds, KeywordOf;
  }

  ghost predicate AllInlinable(defs: seq<Member>) {
    forall n | Has(defs, n) :: Inlinable(Get(defs, n).value)
  }

  // ── Inlining keeps the meaning ──

  /** `s` in the context of `defs`, against its inlined form in any context at all. */
  ghost predicate Same(s: Value, v: Value, defs: seq<Member>, depth: nat, others: seq<Member>, any: nat, plain: Plain)
    requires Resolve(s, defs, depth).Ok?
  {
    Accepts(Resolve(s, defs, depth).value, v, others, plain, any) <==> Accepts(s, v, defs, plain, depth)
  }

  lemma {:induction false} InliningKeeps(s: Value, v: Value, defs: seq<Member>, depth: nat, others: seq<Member>,
      any: nat, plain: Plain)
    requires AllInlinable(defs) && Inlinable(s) && Resolve(s, defs, depth).Ok?
    ensures Same(s, v, defs, depth, others, any, plain)
    decreases depth, s, 4
  {
    hide Resolve, LocalRef, Inlinable, Settled, Accepts, Allows, BadRef;
    match s
    case Obj(ms) =>
      if LocalRef(ms).Some? {
        var def := ThroughRef(ms, defs, depth);
        InliningKeeps(def, v, defs, depth - 1, others, any, plain);
        RefAccepts(ms, v, defs, depth, plain);
      } else {
        var out := ThroughMembers(ms, defs, depth);
        WalkedKeepsRef(ms, out, defs, depth);
        forall i | 0 <= i < |ms|
          ensures Allows(out, out[i], v, others, plain, any) <==> Allows(ms, ms[i], v, defs, plain, depth)
        {
          KeywordKept(ms, out, i, v, defs, depth, others, any, plain);
        }
        ObjAccepts(ms, v, defs, depth, plain);
        ObjAccepts(out, v, others, any, plain);
      }
    case _ =>
      AtomKept(s, v, defs, depth, others, any, plain);
  }

  lemma AtomKept(s: Value, v: Value, defs: seq<Member>, depth: nat, others: seq<Member>, any: nat, plain: Plain)
    requires Inlinable(s) && !s.Obj? && Resolve(s, defs, depth).Ok?
    ensures Same(s, v, defs, depth, others, any, plain)
  {
    SettledIsKept(s, defs, depth);
  }

  lemma RefAccepts(ms: seq<Member>, v: Value, defs: seq<Member>, depth: nat, plain: Plain)
    requires LocalRef(ms).Some? && Inlinable(Obj(ms))
    ensures Accepts(Obj(ms), v, defs, plain, depth) <==>
            depth > 0 && Has(defs, LocalRef(ms).value)
              && Accepts(Get(defs, LocalRef(ms).value).value, v, defs, plain, depth - 1)
  {
    DirectNames(Get(ms, "$ref").value.s, defs);
    assert |ms| == 1 && ms[0].key == "$ref";
    hide Pointed, Direct, Inlinable, LocalRef;
    AcceptsIs(ms, v, defs, plain, depth);
    RefAllowsItself(ms, v, defs, depth, plain);
    hide Allows, Accepts;
  }

  lemma RefAllowsItself(ms: seq<Member>, v: Value, defs: seq<Member>, depth: nat, plain: Plain)
    requires LocalRef(ms).Some? && |ms| == 1 && ms[0].key == "$ref"
    ensures AllAllow(ms, v, defs, plain, depth)
  {
    hide Accepts, LocalRef;
    assert KeywordOf("$ref").Ref?;
    forall m | m in ms ensures Allows(ms, m, v, defs, plain, depth) { assert m == ms[0]; }
  }

  lemma ObjAccepts(ms: seq<Member>, v: Value, defs: seq<Member>, depth: nat, plain: Plain)
    requires LocalRef(ms).None?
    ensures Accepts(Obj(ms), v, defs, plain, depth) <==>
      forall i | 0 <= i < |ms| :: Allows(ms, ms[i], v, defs, plain, depth)
  {
  }

  lemma {:induction false} KeywordKept(
      ms: seq<Member>, out: seq<Member>, i: nat, v: Value, defs: seq<Member>, depth: nat, others: seq<Member>,
      any: nat, plain: Plain)
    requires AllInlinable(defs) && Inlinable(Obj(ms)) && LocalRef(ms).None? && Walked(ms, out, defs, depth) && i < |ms|
    requires LocalRef(out).None?
    ensures Allows(out, out[i], v, others, plain, any) <==> Allows(ms, ms[i], v, defs, plain, depth)
    decreases depth, Obj(ms), 3
  {
    hide KeywordOf, Accepts, Allows, Inlinable, Walked;
    var k, value := KeywordOf(ms[i].key), ms[i].value;
    if One(k) {
      OneKept(ms, out, i, v, defs, depth, others, any, plain);
    } else if k.PrefixItems? && value.Arr? {
      PrefixItemsKept(ms, out, i, v, defs, depth, others, any, plain);
    } else if Many(k) && value.Arr? {
      ListKept(ms, out, i, v, defs, depth, others, any, plain);
    } else if Mapping(k) && value.Obj? {
      MappingKept(ms, out, i, v, defs, depth, others, any, plain);
    } else {
      DataKept(ms, out, i, v, defs, depth, others, any, plain);
    }
  }

  /** Where no schema stands the walk changes nothing. */
  lemma DataKept(
      ms: seq<Member>, out: seq<Member>, i: nat, v: Value, defs: seq<Member>, depth: nat, others: seq<Member>,
      any: nat, plain: Plain)
    requires Inlinable(Obj(ms)) && Walked(ms, out, defs, depth) && i < |ms| && LocalRef(ms).None? && LocalRef(out).None?
    requires !One(KeywordOf(ms[i].key))
    requires !(Many(KeywordOf(ms[i].key)) && ms[i].value.Arr?) && !(Mapping(KeywordOf(ms[i].key)) && ms[i].value.Obj?)
    ensures Allows(out, out[i], v, others, plain, any) <==> Allows(ms, ms[i], v, defs, plain, depth)
  {
    assert Holds(KeywordOf(ms[i].key), ms[i].value);
    SettledIsKept(ms[i].value, defs, depth);
    assert out[i] == ms[i];
    hide KeywordOf, Accepts, Inlinable, Walked, LocalRef;
    DataAllows(ms, ms[i], v, defs, depth, plain);
    DataAllows(out, out[i], v, others, any, plain);
  }

  lemma DataAllows(ms: seq<Member>, m: Member, v: Value, defs: seq<Member>, depth: nat, plain: Plain)
    requires m in ms && LocalRef(ms).None? && !One(KeywordOf(m.key))
    requires !(Many(KeywordOf(m.key)) && m.value.Arr?) && !(Mapping(KeywordOf(m.key)) && m.value.Obj?)
    ensures Allows(ms, m, v, defs, plain, depth) <==> plain(m.key, m.value, v)
  {
    hide KeywordOf, Accepts, LocalRef;
  }

  lemma {:induction false} OneKept(
      ms: seq<Member>, out: seq<Member>, i: nat, v: Value, defs: seq<Member>, depth: nat, others: seq<Member>,
      any: nat, plain: Plain)
    requires AllInlinable(defs) && Inlinable(Obj(ms)) && LocalRef(ms).None? && Walked(ms, out, defs, depth)
    requires i < |ms| && One(KeywordOf(ms[i].key))
    ensures Allows(out, out[i], v, others, plain, any) <==> Allows(ms, ms[i], v, defs, plain, depth)
    decreases depth, Obj(ms), 2
  {
    hide Allows, Accepts, Inlinable, Walked, KeywordOf;
    match KeywordOf(ms[i].key)
    case Items => ItemsKept(ms, out, i, v, defs, depth, others, any, plain);
    case Contains => ContainsKept(ms, out, i, v, defs, depth, others, any, plain);
    case PropertyNames => PropertyNamesKept(ms, out, i, v, defs, depth, others, any, plain);
    case AdditionalProperties => AdditionalKept(ms, out, i, v, defs, depth, others, any, plain);
    case _ => TestKept(ms, out, i, v, defs, depth, others, any, plain);
  }

  /** Under a keyword that holds one schema stands an inlinable schema, and its walked form in `out`. */
  lemma OneHeld(ms: seq<Member>, out: seq<Member>, i: nat, defs: seq<Member>, depth: nat)
    requires Inlinable(Obj(ms)) && Walked(ms, out, defs, depth) && i < |ms| && One(KeywordOf(ms[i].key))
    ensures ms[i].value < Obj(ms) && Inlinable(ms[i].value)
    ensures |out| == |ms| && out[i].key == ms[i].key && Resolve(ms[i].value, defs, depth) == Ok(out[i].value)
  {
    hide KeywordOf, Resolve, Settled;
    assert Holds(KeywordOf(ms[i].key), ms[i].value);
  }

  lemma {:induction false} TestKept(
      ms: seq<Member>, out: seq<Member>, i: nat, v: Value, defs: seq<Member>, depth: nat, others: seq<Member>,
      any: nat, plain: Plain)
    requires AllInlinable(defs) && Inlinable(Obj(ms)) && Walked(ms, out, defs, depth) && i < |ms|
      && One(KeywordOf(ms[i].key))
    requires !KeywordOf(ms[i].key).Items? && !KeywordOf(ms[i].key).Contains?
    requires !KeywordOf(ms[i].key).PropertyNames? && !KeywordOf(ms[i].key).AdditionalProperties?
    ensures Allows(out, out[i], v, others, plain, any) <==> Allows(ms, ms[i], v, defs, plain, depth)
    decreases depth, Obj(ms), 1
  {
    assert KeywordOf("then").Then? && KeywordOf("else").Else?;
    OneHeld(ms, out, i, defs, depth);
    hide KeywordOf, Accepts, Inlinable, Walked, Resolve;
    InliningKeeps(ms[i].value, v, defs, depth, others, any, plain);
    if KeywordOf(ms[i].key).If? {
      BranchKept(ms, out, "then", v, defs, depth, others, any, plain);
      BranchKept(ms, out, "else", v, defs, depth, others, any, plain);
    }
  }

  lemma AllowsItems(ms: seq<Member>, m: Member, v: Value, defs: seq<Member>, depth: nat, plain: Plain)
    requires m in ms && KeywordOf(m.key).Items?
    ensures Allows(ms, m, v, defs, plain, depth) <==>
      (v.Arr? ==> forall j | Prefix(ms) <= j < |v.items| :: Accepts(m.value, v.items[j], defs, plain, depth))
  {
    hide KeywordOf, Accepts, Listed, Hits, Enough, Prefix;
  }

  lemma {:induction false} ItemsKept(
      ms: seq<Member>, out: seq<Member>, i: nat, v: Value, defs: seq<Member>, depth: nat, others: seq<Member>,
      any: nat, plain: Plain)
    requires AllInlinable(defs) && Inlinable(Obj(ms)) && Walked(ms, out, defs, depth) && i < |ms|
      && KeywordOf(ms[i].key).Items?
    ensures Allows(out, out[i], v, others, plain, any) <==> Allows(ms, ms[i], v, defs, plain, depth)
    decreases depth, Obj(ms), 0
  {
    var value := ms[i].value;
    OneHeld(ms, out, i, defs, depth);
    AllowsItems(ms, ms[i], v, defs, depth, plain);
    AllowsItems(out, out[i], v, others, any, plain);
    hide KeywordOf, Accepts, Allows, Inlinable, Walked, Resolve, Prefix;
    PrefixKept(ms, out, defs, depth);
    if v.Arr? {
      forall j | 0 <= j < |v.items| ensures Same(value, v.items[j], defs, depth, others, any, plain) {
        InliningKeeps(value, v.items[j], defs, depth, others, any, plain);
      }
    }
  }

  lemma AllowsNames(ms: seq<Member>, m: Member, v: Value, defs: seq<Member>, depth: nat, plain: Plain)
    requires m in ms && KeywordOf(m.key).PropertyNames?
    ensures Allows(ms, m, v, defs, plain, depth) <==>
      (v.Obj? ==> forall j | 0 <= j < |v.members| :: Accepts(m.value, Str(v.members[j].key), defs, plain, depth))
  {
    hide KeywordOf, Accepts, Listed, Hits, Enough, Prefix;
  }

  lemma {:induction false} PropertyNamesKept(
      ms: seq<Member>, out: seq<Member>, i: nat, v: Value, defs: seq<Member>, depth: nat, others: seq<Member>,
      any: nat, plain: Plain)
    requires AllInlinable(defs) && Inlinable(Obj(ms)) && Walked(ms, out, defs, depth) && i < |ms|
      && KeywordOf(ms[i].key).PropertyNames?
    ensures Allows(out, out[i], v, others, plain, any) <==> Allows(ms, ms[i], v, defs, plain, depth)
    decreases depth, Obj(ms), 0
  {
    var value := ms[i].value;
    OneHeld(ms, out, i, defs, depth);
    AllowsNames(ms, ms[i], v, defs, depth, plain);
    AllowsNames(out, out[i], v, others, any, plain);
    hide KeywordOf, Accepts, Allows, Inlinable, Walked, Resolve;
    if v.Obj? {
      forall j | 0 <= j < |v.members| ensures Same(value, Str(v.members[j].key), defs, depth, others, any, plain) {
        InliningKeeps(value, Str(v.members[j].key), defs, depth, others, any, plain);
      }
    }
  }

  lemma AllowsAdditional(ms: seq<Member>, m: Member, v: Value, defs: seq<Member>, depth: nat, plain: Plain)
    requires m in ms && KeywordOf(m.key).AdditionalProperties?
    ensures Allows(ms, m, v, defs, plain, depth) <==>
      (v.Obj? ==> forall j | 0 <= j < |v.members| && !Listed(ms, v.members[j].key, plain) ::
        Accepts(m.value, v.members[j].value, defs, plain, depth))
  {
    hide KeywordOf, Accepts, Listed, Hits, Enough, Prefix;
  }

  lemma {:induction false} AdditionalKept(
      ms: seq<Member>, out: seq<Member>, i: nat, v: Value, defs: seq<Member>, depth: nat, others: seq<Member>,
      any: nat, plain: Plain)
    requires AllInlinable(defs) && Inlinable(Obj(ms)) && Walked(ms, out, defs, depth) && i < |ms|
      && KeywordOf(ms[i].key).AdditionalProperties?
    ensures Allows(out, out[i], v, others, plain, any) <==> Allows(ms, ms[i], v, defs, plain, depth)
    decreases depth, Obj(ms), 0
  {
    var value := ms[i].value;
    OneHeld(ms, out, i, defs, depth);
    AllowsAdditional(ms, ms[i], v, defs, depth, plain);
    AllowsAdditional(out, out[i], v, others, any, plain);
    hide KeywordOf, Accepts, Allows, Inlinable, Walked, Resolve, Listed;
    ListedKept(ms, out, defs, depth, plain);
    if v.Obj? {
      forall j | 0 <= j < |v.members| ensures Same(value, v.members[j].value, defs, depth, others, any, plain) {
        InliningKeeps(value, v.members[j].value, defs, depth, others, any, plain);
      }
    }
  }

  lemma AllowsContains(ms: seq<Member>, m: Member, v: Value, defs: seq<Member>, depth: nat, plain: Plain)
    requires m in ms && KeywordOf(m.key).Contains?
    ensures Allows(ms, m, v, defs, plain, depth) <==>
      (v.Arr? ==> Enough(ms, Hits(m.value, v.items, defs, plain, depth)))
  {
    hide KeywordOf, Accepts, Listed, Hits, Enough, Prefix;
  }

  lemma {:induction false} ContainsKept(
      ms: seq<Member>, out: seq<Member>, i: nat, v: Value, defs: seq<Member>, depth: nat, others: seq<Member>,
      any: nat, plain: Plain)
    requires AllInlinable(defs) && Inlinable(Obj(ms)) && Walked(ms, out, defs, depth) && i < |ms|
      && KeywordOf(ms[i].key).Contains?
    ensures Allows(out, out[i], v, others, plain, any) <==> Allows(ms, ms[i], v, defs, plain, depth)
    decreases depth, Obj(ms), 0
  {
    var value := ms[i].value;
    OneHeld(ms, out, i, defs, depth);
    AllowsContains(ms, ms[i], v, defs, depth, plain);
    AllowsContains(out, out[i], v, others, any, plain);
    EnoughKept(ms, out, defs, depth);
    hide KeywordOf, Accepts, Allows, Inlinable, Walked, Resolve, Hits, Enough;
    if v.Arr? {
      forall x | x in v.items ensures Same(value, x, defs, depth, others, any, plain) {
        InliningKeeps(value, x, defs, depth, others, any, plain);
      }
      HitsKept(value, v.items, defs, depth, others, any, plain);
    }
  }

  lemma {:induction false} HitsKept(
      value: Value, items: seq<Value>, defs: seq<Member>, depth: nat, others: seq<Member>, any: nat, plain: Plain)
    requires Resolve(value, defs, depth).Ok? && forall x | x in items :: Same(value, x, defs, depth, others, any, plain)
    ensures Hits(Resolve(value, defs, depth).value, items, others, plain, any) == Hits(value, items, defs, plain, depth)
    decreases |items|
  {
    hide Resolve, Accepts;
    if items != [] {
      assert items[0] in items && forall x | x in items[1..] :: x in items;
      HitsKept(value, items[1..], defs, depth, others, any, plain);
    }
  }

  /** A keyword that holds no schema stays as it is. */
  lemma OtherKept(ms: seq<Member>, out: seq<Member>, defs: seq<Member>, depth: nat, key: string)
    requires Inlinable(Obj(ms)) && Walked(ms, out, defs, depth) && KeywordOf(key).Other?
    ensures Get(out, key) == Get(ms, key)
  {
    hide KeywordOf, Resolve, Settled, Inlinable, Walked;
    GetWalked(ms, out, defs, depth, key);
    if Has(ms, key) {
      HoldsAt(ms, key);
      SettledIsKept(Get(ms, key).value, defs, depth);
    }
  }

  lemma BoundsAreOther()
    ensures KeywordOf("minContains").Other? && KeywordOf("maxContains").Other?
  {
    assert "minContains"[0] == 'm' && "maxContains"[0] == 'm';
  }

  lemma EnoughKept(ms: seq<Member>, out: seq<Member>, defs: seq<Member>, depth: nat)
    requires Inlinable(Obj(ms)) && Walked(ms, out, defs, depth)
    ensures forall n: nat :: Enough(out, n) <==> Enough(ms, n)
  {
    hide KeywordOf, Inlinable, Walked;
    BoundsAreOther();
    OtherKept(ms, out, defs, depth, "minContains");
    OtherKept(ms, out, defs, depth, "maxContains");
  }

  lemma PrefixKey()
    ensures KeywordOf("prefixItems").PrefixItems?
  {
  }

  lemma PrefixKept(ms: seq<Member>, out: seq<Member>, defs: seq<Member>, depth: nat)
    requires Inlinable(Obj(ms)) && Walked(ms, out, defs, depth)
    ensures Prefix(out) == Prefix(ms)
  {
    hide KeywordOf, Resolve, Settled, Inlinable, Walked;
    PrefixKey();
    GetWalked(ms, out, defs, depth, "prefixItems");
    if Has(ms, "prefixItems") {
      HoldsAt(ms, "prefixItems");
      var value := Get(ms, "prefixItems").value;
      match value
      case Arr(items) => var same := ThroughItems(items, defs, depth);
      case _ => SettledIsKept(value, defs, depth);
    }
  }

  lemma {:induction false} BranchKept(
      ms: seq<Member>, out: seq<Member>, key: string, v: Value, defs: seq<Member>, depth: nat, others: seq<Member>,
      any: nat, plain: Plain)
    requires AllInlinable(defs) && Inlinable(Obj(ms)) && Walked(ms, out, defs, depth) && One(KeywordOf(key))
    ensures Has(out, key) <==> Has(ms, key)
    ensures Has(ms, key) ==>
      (Accepts(Get(out, key).value, v, others, plain, any) <==> Accepts(Get(ms, key).value, v, defs, plain, depth))
    decreases depth, Obj(ms), 0
  {
    GetWalked(ms, out, defs, depth, key);
    if Has(ms, key) {
      InliningKeeps(Get(ms, key).value, v, defs, depth, others, any, plain);
    }
  }

  /** A map keeps its names, in order. */
  lemma NamesKept(ms: seq<Member>, out: seq<Member>, defs: seq<Member>, depth: nat, key: string)
    requires Inlinable(Obj(ms)) && Walked(ms, out, defs, depth) && Mapping(KeywordOf(key))
    ensures Has(out, key) <==> Has(ms, key)
    ensures Has(ms, key) ==>
      var before, after := Get(ms, key).value, Get(out, key).value;
      (after.Obj? <==> before.Obj?) && (before.Obj? ==> Walked(before.members, after.members, defs, depth))
  {
    hide Inlinable, Settled, Resolve, KeywordOf, Walked;
    GetWalked(ms, out, defs, depth, key);
    if Has(ms, key) {
      HoldsAt(ms, key);
      match Get(ms, key).value
      case Obj(props) => var named := ThroughMembers(props, defs, depth);
      case value => SettledIsKept(value, defs, depth);
    }
  }

  lemma ListedKept(ms: seq<Member>, out: seq<Member>, defs: seq<Member>, depth: nat, plain: Plain)
    requires Inlinable(Obj(ms)) && Walked(ms, out, defs, depth)
    ensures forall key :: Listed(out, key, plain) <==> Listed(ms, key, plain)
  {
    assert KeywordOf("properties").Properties? && KeywordOf("patternProperties").PatternProperties?;
    hide Inlinable, KeywordOf, Walked, Named, Patterned;
    NamesKept(ms, out, defs, depth, "properties");
    NamesKept(ms, out, defs, depth, "patternProperties");
    forall key ensures Listed(out, key, plain) <==> Listed(ms, key, plain) {
      if Has(ms, "properties") && Get(ms, "properties").value.Obj? {
        NamedKept(Get(ms, "properties").value.members, Get(out, "properties").value.members, defs, depth, key, plain);
      }
      if Has(ms, "patternProperties") && Get(ms, "patternProperties").value.Obj? {
        var before, after := Get(ms, "patternProperties").value.members, Get(out, "patternProperties").value.members;
        NamedKept(before, after, defs, depth, key, plain);
      }
    }
  }

  lemma NamedKept(before: seq<Member>, after: seq<Member>, defs: seq<Member>, depth: nat, key: string, plain: Plain)
    requires Walked(before, after, defs, depth)
    ensures Named(after, key) <==> Named(before, key)
    ensures Patterned(after, key, plain) <==> Patterned(before, key, plain)
  {
    hide Resolve;
    GetWalked(before, after, defs, depth, key);
    assert forall j | 0 <= j < |before| :: after[j].key == before[j].key;
  }

  lemma {:induction false} ListKept(
      ms: seq<Member>, out: seq<Member>, i: nat, v: Value, defs: seq<Member>, depth: nat, others: seq<Member>,
      any: nat, plain: Plain)
    requires AllInlinable(defs) && Inlinable(Obj(ms)) && Walked(ms, out, defs, depth)
    requires i < |ms| && Many(KeywordOf(ms[i].key)) && !KeywordOf(ms[i].key).PrefixItems? && ms[i].value.Arr?
    ensures Allows(out, out[i], v, others, plain, any) <==> Allows(ms, ms[i], v, defs, plain, depth)
    decreases depth, Obj(ms), 1
  {
    var m := ms[i];
    assert m.value < Obj(ms);
    InlinableList(ms, i);
    hide Resolve, Inlinable, Settled, LocalRef, Accepts, Allows, KeywordOf;
    var branches := ThroughItems(m.value.items, defs, depth);
    forall j | 0 <= j < |branches|
      ensures Accepts(branches[j], v, others, plain, any) <==> Accepts(m.value.items[j], v, defs, plain, depth)
    {
      InliningKeeps(m.value.items[j], v, defs, depth, others, any, plain);
    }
    ListAllows(ms, m, out, out[i], v, defs, depth, others, any, plain);
  }

  lemma {:induction false} PrefixItemsKept(
      ms: seq<Member>, out: seq<Member>, i: nat, v: Value, defs: seq<Member>, depth: nat, others: seq<Member>,
      any: nat, plain: Plain)
    requires AllInlinable(defs) && Inlinable(Obj(ms)) && Walked(ms, out, defs, depth)
    requires i < |ms| && KeywordOf(ms[i].key).PrefixItems? && ms[i].value.Arr?
    ensures Allows(out, out[i], v, others, plain, any) <==> Allows(ms, ms[i], v, defs, plain, depth)
    decreases depth, Obj(ms), 1
  {
    var items := ms[i].value.items;
    assert ms[i].value < Obj(ms);
    InlinableList(ms, i);
    hide Inlinable, Settled, LocalRef, Accepts, KeywordOf;
    var walked := ThroughItems(items, defs, depth);
    if v.Arr? {
      forall j | 0 <= j < |items| && j < |v.items| ensures Same(items[j], v.items[j], defs, depth, others, any, plain) {
        InliningKeeps(items[j], v.items[j], defs, depth, others, any, plain);
      }
    }
  }

  lemma InlinableList(ms: seq<Member>, i: nat)
    requires Inlinable(Obj(ms)) && i < |ms| && Many(KeywordOf(ms[i].key)) && ms[i].value.Arr?
    ensures forall j | 0 <= j < |ms[i].value.items| :: Inlinable(ms[i].value.items[j]) && ms[i].value.items[j] < Obj(ms)
  {
    forall j | 0 <= j < |ms[i].value.items| ensures ms[i].value.items[j] < Obj(ms) {
      assert ms[i].value.items[j] < ms[i].value;
    }
  }

  /** A combinator depends only on which of its branches accept. */
  lemma ListAllows(
      ms: seq<Member>, m: Member, ns: seq<Member>, n: Member, v: Value,
      defs: seq<Member>, depth: nat, others: seq<Member>, any: nat, plain: Plain)
    requires m in ms && n in ns && m.key == n.key && Many(KeywordOf(m.key)) && !KeywordOf(m.key).PrefixItems?
    requires m.value.Arr? && n.value.Arr? && |n.value.items| == |m.value.items|
    requires forall j | 0 <= j < |n.value.items| ::
      Accepts(n.value.items[j], v, others, plain, any) <==> Accepts(m.value.items[j], v, defs, plain, depth)
    ensures Allows(ns, n, v, others, plain, any) <==> Allows(ms, m, v, defs, plain, depth)
  {
    hide KeywordOf, Accepts;
    assert Verdicts(n.value, v, others, plain, any) == Verdicts(m.value, v, defs, plain, depth);
  }

  lemma {:induction false} MappingKept(
      ms: seq<Member>, out: seq<Member>, i: nat, v: Value, defs: seq<Member>, depth: nat, others: seq<Member>,
      any: nat, plain: Plain)
    requires AllInlinable(defs) && Inlinable(Obj(ms)) && Walked(ms, out, defs, depth)
    requires i < |ms| && Mapping(KeywordOf(ms[i].key)) && ms[i].value.Obj?
    ensures Allows(out, out[i], v, others, plain, any) <==> Allows(ms, ms[i], v, defs, plain, depth)
    decreases depth, Obj(ms), 1
  {
    var props := ms[i].value.members;
    var named := MapHeld(ms, out, i, defs, depth);
    hide Inlinable, Accepts, Allows, KeywordOf, Resolve, Walked;
    if v.Obj? {
      forall j, w | 0 <= j < |props| && (w == v || exists k :: 0 <= k < |v.members| && v.members[k].value == w)
        ensures Accepts(named[j].value, w, others, plain, any) <==> Accepts(props[j].value, w, defs, plain, depth)
      {
        InliningKeeps(props[j].value, w, defs, depth, others, any, plain);
      }
      MapAllows(ms, i, out, named, v.members, defs, depth, others, any, plain);
    } else {
      MapIgnores(ms, ms[i], v, defs, depth, plain);
      MapIgnores(out, out[i], v, others, any, plain);
    }
  }

  /** Under a keyword that holds a map stand inlinable schemas, and their walked forms in `out`. */
  lemma MapHeld(ms: seq<Member>, out: seq<Member>, i: nat, defs: seq<Member>, depth: nat) returns (named: seq<Member>)
    requires Inlinable(Obj(ms)) && Walked(ms, out, defs, depth)
    requires i < |ms| && Mapping(KeywordOf(ms[i].key)) && ms[i].value.Obj?
    ensures |out| == |ms| && out[i] == Member(ms[i].key, Obj(named))
    ensures var props := ms[i].value.members;
      && |named| == |props|
      && forall j | 0 <= j < |props| ::
        && Inlinable(props[j].value) && props[j].value < Obj(ms)
        && named[j].key == props[j].key && Resolve(props[j].value, defs, depth) == Ok(named[j].value)
  {
    InlinableEach(ms, i);
    hide Inlinable, KeywordOf, LocalRef;
    named := ThroughMembers(ms[i].value.members, defs, depth);
  }

  lemma MapIgnores(ms: seq<Member>, m: Member, v: Value, defs: seq<Member>, depth: nat, plain: Plain)
    requires m in ms && Mapping(KeywordOf(m.key)) && m.value.Obj? && !v.Obj?
    ensures Allows(ms, m, v, defs, plain, depth)
  {
    hide KeywordOf, Accepts;
  }

  lemma InlinableEach(ms: seq<Member>, i: nat)
    requires Inlinable(Obj(ms)) && i < |ms| && Mapping(KeywordOf(ms[i].key)) && ms[i].value.Obj?
    ensures var props := ms[i].value.members;
      LocalRef(props).None? && forall j | 0 <= j < |props| :: Inlinable(props[j].value) && props[j].value < Obj(ms)
  {
    var props := ms[i].value.members;
    forall j | 0 <= j < |props| ensures props[j].value < Obj(ms) { assert props[j].value < ms[i].value; }
    hide KeywordOf;
  }

  /** A map of schemas depends only on its names and on what each schema in it accepts. */
  lemma MapAllows(
      ms: seq<Member>, i: nat, out: seq<Member>, named: seq<Member>, vs: seq<Member>,
      defs: seq<Member>, depth: nat, others: seq<Member>, any: nat, plain: Plain)
    requires i < |ms| == |out| && out[i].key == ms[i].key && Mapping(KeywordOf(ms[i].key)) && ms[i].value.Obj?
      && out[i].value == Obj(named)
    requires var props := ms[i].value.members;
      && |named| == |props| && (forall j | 0 <= j < |props| :: named[j].key == props[j].key)
      && forall j, w | 0 <= j < |props| && (w == Obj(vs) || exists k :: 0 <= k < |vs| && vs[k].value == w) ::
        Accepts(named[j].value, w, others, plain, any) <==> Accepts(props[j].value, w, defs, plain, depth)
    ensures Allows(out, out[i], Obj(vs), others, plain, any) <==> Allows(ms, ms[i], Obj(vs), defs, plain, depth)
  {
    var props := ms[i].value.members;
    forall j, k | 0 <= j < |props| && 0 <= k < |vs|
      ensures Accepts(named[j].value, vs[k].value, others, plain, any) <==>
        Accepts(props[j].value, vs[k].value, defs, plain, depth)
    {
    }
    forall j | 0 <= j < |props| && Has(vs, props[j].key)
      ensures Accepts(named[j].value, Get(vs, props[j].key).value, others, plain, any)
         <==> Accepts(props[j].value, Get(vs, props[j].key).value, defs, plain, depth)
    {
      var k :| 0 <= k < |vs| && vs[k] == Member(props[j].key, Get(vs, props[j].key).value);
    }
    hide Accepts, KeywordOf, Get, Has;
  }

  /** What a keyword reads of its siblings. */
  ghost predicate SameContext(ms: seq<Member>, ns: seq<Member>) {
    && Get(ns, "then") == Get(ms, "then") && Get(ns, "else") == Get(ms, "else")
    && Get(ns, "properties") == Get(ms, "properties") && Get(ns, "patternProperties") == Get(ms, "patternProperties")
    && Get(ns, "prefixItems") == Get(ms, "prefixItems")
    && Get(ns, "minContains") == Get(ms, "minContains") && Get(ns, "maxContains") == Get(ms, "maxContains")
    && Get(ns, "$ref") == Get(ms, "$ref")
  }

  lemma MemberAllows(ms: seq<Member>, ns: seq<Member>, m: Member, v: Value, defs: seq<Member>, depth: nat, plain: Plain)
    requires m in ms && m in ns && SameContext(ms, ns)
    ensures Allows(ns, m, v, defs, plain, depth) <==> Allows(ms, m, v, defs, plain, depth)
  {
    SameReads(ms, ns, plain);
    hide KeywordOf, Allows, Accepts, SameContext, Prefix, Listed, Enough, Hits;
    match KeywordOf(m.key)
    case Items =>
      AllowsItems(ms, m, v, defs, depth, plain);
      AllowsItems(ns, m, v, defs, depth, plain);
    case Contains =>
      AllowsContains(ms, m, v, defs, depth, plain);
      AllowsContains(ns, m, v, defs, depth, plain);
    case AdditionalProperties =>
      AllowsAdditional(ms, m, v, defs, depth, plain);
      AllowsAdditional(ns, m, v, defs, depth, plain);
    case _ => MemberAllowsAlike(ms, ns, m, v, defs, depth, plain);
  }

  lemma SameReads(ms: seq<Member>, ns: seq<Member>, plain: Plain)
    requires SameContext(ms, ns)
    ensures Prefix(ns) == Prefix(ms)
    ensures forall key :: Listed(ns, key, plain) <==> Listed(ms, key, plain)
    ensures forall n: nat :: Enough(ns, n) <==> Enough(ms, n)
  {
    hide Get, Named, Patterned;
  }

  lemma MemberAllowsAlike(ms: seq<Member>, ns: seq<Member>, m: Member, v: Value, defs: seq<Member>, depth: nat,
      plain: Plain)
    requires m in ms && m in ns && SameContext(ms, ns)
    requires var k := KeywordOf(m.key); !k.Items? && !k.Contains? && !k.AdditionalProperties?
    ensures Allows(ns, m, v, defs, plain, depth) <==> Allows(ms, m, v, defs, plain, depth)
  {
    hide KeywordOf, Accepts, Verdicts, Listing, Get, Prefix, Listed, Enough, Hits;
  }

  lemma SameSiblings(ms: seq<Member>)
    ensures SameContext(ms, Without(ms, "$defs"))
  {
    GetWithout(ms, "$defs", "then");
    GetWithout(ms, "$defs", "else");
    GetWithout(ms, "$defs", "properties");
    GetWithout(ms, "$defs", "patternProperties");
    GetWithout(ms, "$defs", "prefixItems");
    GetWithout(ms, "$defs", "minContains");
    GetWithout(ms, "$defs", "maxContains");
    GetWithout(ms, "$defs", "$ref");
  }

  lemma DefsAllow(ms: seq<Member>, m: Member, v: Value, defs: seq<Member>, depth: nat, plain: Plain)
    requires m in ms && m.key == "$defs" && plain("$defs", m.value, v)
    ensures Allows(ms, m, v, defs, plain, depth)
  {
    assert KeywordOf("$defs").Other?;
    hide KeywordOf;
  }

  /** A schema object: its reference, if it has one, and each of its members. */
  ghost predicate RefAllows(ms: seq<Member>, v: Value, defs: seq<Member>, plain: Plain, depth: nat) {
    LocalRef(ms).Some? ==>
      depth > 0 && Target(ms, defs).Some? && Accepts(Target(ms, defs).value, v, defs, plain, depth - 1)
  }

  ghost predicate AllAllow(ms: seq<Member>, v: Value, defs: seq<Member>, plain: Plain, depth: nat) {
    forall m | m in ms :: Allows(ms, m, v, defs, plain, depth)
  }

  lemma AcceptsIs(ms: seq<Member>, v: Value, defs: seq<Member>, plain: Plain, depth: nat)
    ensures Accepts(Obj(ms), v, defs, plain, depth) <==>
      RefAllows(ms, v, defs, plain, depth) && AllAllow(ms, v, defs, plain, depth)
  {
    hide Allows, LocalRef, Get;
  }

  /** `$defs` asserts nothing, so taking it out of a schema changes nothing else. */
  lemma WithoutDefs(ms: seq<Member>, v: Value, defs: seq<Member>, depth: nat, plain: Plain)
    requires forall value, w :: plain("$defs", value, w)
    ensures Accepts(Obj(Without(ms, "$defs")), v, defs, plain, depth) <==> Accepts(Obj(ms), v, defs, plain, depth)
  {
    var less := Without(ms, "$defs");
    SameSiblings(ms);
    WithoutWhere(ms, "$defs");
    assert RefAllows(ms, v, defs, plain, depth) <==> RefAllows(less, v, defs, plain, depth);
    hide *;
    AcceptsIs(ms, v, defs, plain, depth);
    AcceptsIs(less, v, defs, plain, depth);
    forall m | m in ms
      ensures m in less ==> (Allows(less, m, v, defs, plain, depth) <==> Allows(ms, m, v, defs, plain, depth))
      ensures m !in less ==> Allows(ms, m, v, defs, plain, depth)
    {
      if m in less {
        MemberAllows(ms, less, m, v, defs, depth, plain);
      } else {
        DefsAllow(ms, m, v, defs, depth, plain);
      }
    }
    AllAllowAre(ms, less, v, defs, depth, plain);
  }

  lemma AllAllowAre(ms: seq<Member>, less: seq<Member>, v: Value, defs: seq<Member>, depth: nat, plain: Plain)
    requires forall m | m in less :: m in ms
    requires forall m | m in ms :: m in less ==>
      (Allows(less, m, v, defs, plain, depth) <==> Allows(ms, m, v, defs, plain, depth))
    requires forall m | m in ms :: m !in less ==> Allows(ms, m, v, defs, plain, depth)
    ensures AllAllow(less, v, defs, plain, depth) <==> AllAllow(ms, v, defs, plain, depth)
  {
    hide Allows;
  }

  lemma {:induction false} GetWithout(ms: seq<Member>, gone: string, key: string)
    requires key != gone
    ensures Get(Without(ms, gone), key) == Get(ms, key)
    decreases |ms|
  {
    if ms != [] && ms[0].key != gone { GetWithout(ms[1..], gone, key); }
  }

  lemma {:induction false} WithoutWhere(ms: seq<Member>, gone: string)
    ensures forall m | m in Without(ms, gone) :: m in ms
    ensures forall m | m in ms && m !in Without(ms, gone) :: m.key == gone
    decreases |ms|
  {
    if ms != [] {
      assert ms == [ms[0]] + ms[1..];
      if ms[0].key != gone { WithoutWhere(ms[1..], gone); }
    }
  }

  /** `inline_refs`: the result, read with no definitions, accepts what the schema accepted with its own. */
  lemma InlineAccepts(schema: seq<Member>, defs: seq<Member>, v: Value, depth: nat, plain: Plain)
    requires Get(schema, "$defs") == Some(Obj(defs)) && forall value, w :: plain("$defs", value, w)
    requires AllInlinable(defs) && Inlinable(Obj(Without(schema, "$defs")))
    requires Inline(schema, depth).Ok?
    ensures Settled(Inline(schema, depth).value)
    ensures Accepts(Inline(schema, depth).value, v, [], plain, 0) <==> Accepts(Obj(schema), v, defs, plain, depth)
  {
    hide Accepts, Inlinable;
    InliningKeeps(Obj(Without(schema, "$defs")), v, defs, depth, [], 0, plain);
    InlinedIsSettled(Obj(Without(schema, "$defs")), defs, depth);
    WithoutDefs(schema, v, defs, depth, plain);
  }

  /**
   Any reference, with any siblings: the meaning is kept exactly for the instances on which the definition
   taken agrees with what the pointer points to and the siblings together.
   */
  lemma ReferenceDecides(ms: seq<Member>, v: Value, defs: seq<Member>, depth: nat, others: seq<Member>, any: nat,
      plain: Plain)
    requires AllInlinable(defs) && LocalRef(ms).Some? && Resolve(Obj(ms), defs, depth).Ok?
    ensures depth > 0 && Has(defs, LocalRef(ms).value)
    ensures Same(Obj(ms), v, defs, depth, others, any, plain) <==>
      (Accepts(Get(defs, LocalRef(ms).value).value, v, defs, plain, depth - 1) <==>
        RefAllows(ms, v, defs, plain, depth) && AllAllow(ms, v, defs, plain, depth))
  {
    hide Resolve, Allows, Inlinable, LocalRef, Accepts, AllAllow, Get, Settled;
    var def := ThroughRef(ms, defs, depth);
    InliningKeeps(def, v, defs, depth - 1, others, any, plain);
    AcceptsIs(ms, v, defs, plain, depth);
  }

  /** So beside a direct reference the siblings decide, for the instances the definition accepts. */
  lemma SiblingsDecide(ms: seq<Member>, v: Value, defs: seq<Member>, depth: nat, others: seq<Member>, any: nat,
      plain: Plain)
    requires AllInlinable(defs) && LocalRef(ms).Some? && Direct(Get(ms, "$ref").value.s)
      && Resolve(Obj(ms), defs, depth).Ok?
    ensures depth > 0 && Has(defs, LocalRef(ms).value)
    ensures Same(Obj(ms), v, defs, depth, others, any, plain) <==>
      (Accepts(Get(defs, LocalRef(ms).value).value, v, defs, plain, depth - 1) ==> AllAllow(ms, v, defs, plain, depth))
  {
    DirectNames(Get(ms, "$ref").value.s, defs);
    hide Resolve, Allows, Inlinable, Accepts, AllAllow, Get, Settled, Direct, Pointed, Same;
    ReferenceDecides(ms, v, defs, depth, others, any, plain);
  }

  /**
   A pointer into a definition is taken for a definition: here nothing is accepted before inlining and
   everything after.
   */
  lemma NestedPointerLoosens(v: Value, plain: Plain)
    ensures var defs := [Member("A", Obj([Member("x", Bool(false))])), Member("x", Obj([]))];
      var ms := [Member("$ref", Str("#/$defs/A/x"))];
      && Resolve(Obj(ms), defs, 1) == Ok(Obj([]))
      && Accepts(Obj([]), v, [], plain, 0) && !Accepts(Obj(ms), v, defs, plain, 1)
  {
    var defs := [Member("A", Obj([Member("x", Bool(false))])), Member("x", Obj([]))];
    var ms := [Member("$ref", Str("#/$defs/A/x"))];
    NestedPointer(Bool(false), Obj([]));
    assert "#/$defs/A/x"[..8] == LOCAL;
    assert LocalRef(ms) == Some("x") && !BadRef(ms) && LocalRef([]) == None && !BadRef([]);
    hide Pointed, LastSegment;
    AcceptsIs(ms, v, defs, plain, 1);
    RefIs(ms, defs, 1);
    MembersAre([], [], defs, 0);
    AcceptsIs([], v, [], plain, 0);
  }

  /** Dropped siblings loosen: here nothing is accepted before inlining and everything after. */
  lemma SiblingsAreDropped(v: Value, plain: Plain)
    ensures var defs := [Member("A", Obj([]))];
      var ms := [Member("$ref", Str("#/$defs/A")), Member("not", Bool(true))];
      && Resolve(Obj(ms), defs, 1) == Ok(Obj([]))
      && Accepts(Obj([]), v, [], plain, 0) && !Accepts(Obj(ms), v, defs, plain, 1)
  {
    var defs := [Member("A", Obj([]))];
    var ms := [Member("$ref", Str("#/$defs/A")), Member("not", Bool(true))];
    LocalA(ms);
    NotTrue(ms, v, defs, plain);
    AcceptsIs(ms, v, defs, plain, 1);
    hide LocalRef, Accepts, Allows;
    RefIs(ms, defs, 1);
    MembersAre([], [], defs, 0);
    AcceptsIs([], v, [], plain, 0);
  }

  lemma LocalA(ms: seq<Member>)
    requires ms != [] && ms[0] == Member("$ref", Str("#/$defs/A"))
    ensures LocalRef(ms) == Some("A") && !BadRef(ms) && LocalRef([]) == None && !BadRef([])
  {
    assert LastSegment("#/$defs/A") == "A" by {
      assert LastSegment("#/$defs/") == [];
      assert "#/$defs/A"[..8] == "#/$defs/" && "#/$defs/A"[8] == 'A';
    }
  }

  lemma NotTrue(ms: seq<Member>, v: Value, defs: seq<Member>, plain: Plain)
    requires Member("not", Bool(true)) in ms
    ensures !AllAllow(ms, v, defs, plain, 1)
  {
    assert KeywordOf("not").Not?;
    assert !Allows(ms, Member("not", Bool(true)), v, defs, plain, 1);
  }
}
