/**
 Splitting a combined schema into its JSON half and its `ui:` half: what the walkers compute. An object
 has each key once, so writing a member of the JSON half appends it; the `ui` half may be overwritten.
 */
module SchemaSplit {
  import opened InlineRefs
  import opened Json
  import opened Wrappers

  /** The keys the walkers single out. */
  datatype Place = Ui | Properties | Defs | Items | AllOf | Alternatives | Conditional | Ref | Other

  function PlaceOf(key: string): Place {
    if StartsWith(key, "ui:") then Ui
    else if key == "properties" then Properties
    else if key == "$defs" then Defs
    else if key == "items" then Items
    else if key == "allOf" then AllOf
    else if key == "oneOf" || key == "anyOf" then Alternatives
    else if key == "if" || key == "then" || key == "else" then Conditional
    else if key == "$ref" then Ref
    else Other
  }

  // ── The JSON half ──

  /** `_strip_ui_properties`. */
  function Strip(ms: seq<Member>): seq<Member> {
    if ms == [] then []
    else
      var p := PlaceOf(ms[0].key);
      (if p.Ui? then [] else [Member(ms[0].key, StripValue(p, ms[0].value))]) + Strip(ms[1..])
  }

  function StripValue(p: Place, value: Value): Value
    decreases value
  {
    match value
    case Obj(ms) =>
      if p.Properties? || p.Defs? then Obj(StripEach(ms))
      else if p.Items? || p.Conditional? then Obj(Strip(ms))
      else value
    case Arr(items) => if p.AllOf? || p.Alternatives? then Arr(StripList(items)) else value
    case _ => value
  }

  /** A map of schemas: names are kept, whatever they start with. */
  function StripEach(ms: seq<Member>): seq<Member> {
    if ms == [] then []
    else [Member(ms[0].key, StripSchema(ms[0].value))] + StripEach(ms[1..])
  }

  function StripList(items: seq<Value>): seq<Value> {
    if items == [] then [] else [StripSchema(items[0])] + StripList(items[1..])
  }

  function StripSchema(v: Value): Value {
    if v.Obj? then Obj(Strip(v.members)) else v
  }

  /** The JSON half of `_process_property`: `allOf`, `if`, `then`, `else` and `$defs` are copied as they are. */
  function PropertyJson(ms: seq<Member>): seq<Member> {
    if ms == [] then []
    else
      var p := PlaceOf(ms[0].key);
      (if p.Ui? then [] else [Member(ms[0].key, PropertyValue(p, ms[0].value))]) + PropertyJson(ms[1..])
  }

  function PropertyValue(p: Place, value: Value): Value
    decreases value
  {
    match value
    case Obj(ms) =>
      if p.Properties? then Obj(PropertyEach(ms))
      else if p.Items? then Obj(PropertyJson(ms))
      else value
    case Arr(items) => if p.Alternatives? then Arr(StripList(items)) else value
    case _ => value
  }

  function PropertyEach(ms: seq<Member>): seq<Member> {
    if ms == [] then []
    else
      [Member(ms[0].key, if ms[0].value.Obj? then Obj(PropertyJson(ms[0].value.members)) else ms[0].value)]
        + PropertyEach(ms[1..])
  }

  /** The JSON half of `_process_object`. */
  function ObjectJson(ms: seq<Member>): seq<Member> {
    if ms == [] then []
    else
      var p := PlaceOf(ms[0].key);
      (if p.Ui? then [] else [Member(ms[0].key, ObjectValue(p, ms[0].value))]) + ObjectJson(ms[1..])
  }

  function ObjectValue(p: Place, value: Value): Value {
    if p.Properties? || p.Items? then PropertyValue(p, value) else StripValue(p, value)
  }

  // ── What stripping achieves ──

  /** No member of any walked object is a `ui:` key. */
  predicate NoUi(ms: seq<Member>) {
    forall i | 0 <= i < |ms| :: !PlaceOf(ms[i].key).Ui? && NoUiValue(PlaceOf(ms[i].key), ms[i].value)
  }

  predicate NoUiValue(p: Place, value: Value)
    decreases value
  {
    match value
    case Obj(ms) =>
      if p.Properties? || p.Defs? then forall i | 0 <= i < |ms| :: ms[i].value.Obj? ==> NoUi(ms[i].value.members)
      else if p.Items? || p.Conditional? then NoUi(ms)
      else true
    case Arr(items) =>
      if p.AllOf? || p.Alternatives? then forall i | 0 <= i < |items| :: items[i].Obj? ==>
        NoUi(items[i].members) else true
    case _ => true
  }

  lemma {:induction false} StripLeavesNoUi(ms: seq<Member>)
    ensures NoUi(Strip(ms))
    decreases ms, 1
  {
    hide PlaceOf;
    if ms != [] {
      StripLeavesNoUi(ms[1..]);
      StripValueLeavesNoUi(PlaceOf(ms[0].key), ms[0].value);
    }
  }

  lemma {:induction false} StripValueLeavesNoUi(p: Place, value: Value)
    ensures NoUiValue(p, StripValue(p, value))
    decreases value, 2
  {
    match value
    case Obj(ms) =>
      StripLeavesNoUi(ms);
      StripEachLeavesNoUi(ms);
    case Arr(items) => StripListLeavesNoUi(items);
    case _ =>
  }

  lemma {:induction false} StripEachLeavesNoUi(ms: seq<Member>)
    ensures |StripEach(ms)| == |ms|
    ensures forall i | 0 <= i < |ms| :: StripEach(ms)[i] == Member(ms[i].key, StripSchema(ms[i].value))
    ensures forall i | 0 <= i < |ms| :: StripEach(ms)[i].value.Obj? ==> NoUi(StripEach(ms)[i].value.members)
    decreases ms, 1
  {
    if ms != [] {
      StripEachLeavesNoUi(ms[1..]);
      if ms[0].value.Obj? { StripLeavesNoUi(ms[0].value.members); }
    }
  }

  lemma {:induction false} StripListLeavesNoUi(items: seq<Value>)
    ensures |StripList(items)| == |items|
    ensures forall i | 0 <= i < |items| :: StripList(items)[i] == StripSchema(items[i])
    ensures forall i | 0 <= i < |items| :: StripList(items)[i].Obj? ==> NoUi(StripList(items)[i].members)
    decreases items, 1
  {
    if items != [] {
      StripListLeavesNoUi(items[1..]);
      if items[0].Obj? { StripLeavesNoUi(items[0].members); }
    }
  }

  /** Stripping changes a schema exactly when it holds a `ui:` key where stripping looks. */
  lemma {:induction false} NoUiIsKept(ms: seq<Member>)
    requires NoUi(ms)
    ensures Strip(ms) == ms
    decreases ms, 1
  {
    hide PlaceOf;
    if ms != [] {
      assert NoUi(ms[1..]);
      NoUiIsKept(ms[1..]);
      NoUiValueIsKept(PlaceOf(ms[0].key), ms[0].value);
    }
  }

  lemma {:induction false} NoUiValueIsKept(p: Place, value: Value)
    requires NoUiValue(p, value)
    ensures StripValue(p, value) == value
    decreases value, 2
  {
    match value
    case Obj(ms) =>
      if p.Properties? || p.Defs? {
        StripEachLeavesNoUi(ms);
        forall i | 0 <= i < |ms| ensures StripSchema(ms[i].value) == ms[i].value {
          if ms[i].value.Obj? { NoUiIsKept(ms[i].value.members); }
        }
        assert StripEach(ms) == ms;
      } else if p.Items? || p.Conditional? {
        NoUiIsKept(ms);
      }
    case Arr(items) =>
      if p.AllOf? || p.Alternatives? {
        StripListLeavesNoUi(items);
        forall i | 0 <= i < |items| ensures StripSchema(items[i]) == items[i] {
          if items[i].Obj? { NoUiIsKept(items[i].members); }
        }
        assert StripList(items) == items;
      }
    case _ =>
  }

  lemma StripKeepsIff(ms: seq<Member>)
    ensures Strip(ms) == ms <==> NoUi(ms)
    ensures Strip(Strip(ms)) == Strip(ms)
  {
    StripLeavesNoUi(ms);
    NoUiIsKept(Strip(ms));
    if NoUi(ms) { NoUiIsKept(ms); }
  }

  lemma StripValueKeepsIff(p: Place, value: Value)
    ensures StripValue(p, value) == value <==> NoUiValue(p, value)
  {
    StripValueLeavesNoUi(p, value);
    if NoUiValue(p, value) { NoUiValueIsKept(p, value); }
  }

  // ── What stripping keeps ──

  /** A step into a subschema, under one of the keywords that hold them. */
  datatype Way = Sole(word: string) | Named(word: string, name: string) | Nth(word: string, i: nat)

  function Child(ms: seq<Member>, way: Way): Option<Value> {
    match way
    case Sole(word) =>
      if word == "items" || word == "if" || word == "then" || word == "else" then Get(ms, word) else None
    case Named(word, name) =>
      if word != "properties" && word != "$defs" then None
      else
        var parts := Get(ms, word);
        if parts.Some? && parts.value.Obj? then Get(parts.value.members, name) else None
    case Nth(word, i) =>
      if word != "allOf" && word != "oneOf" && word != "anyOf" then None
      else
        var list := Get(ms, word);
        if list.Some? && list.value.Arr? && i < |list.value.items| then Some(list.value.items[i]) else None
  }

  /** The subschema at the end of a path. */
  function Reached(v: Value, path: seq<Way>): Option<Value>
    decreases |path|
  {
    if path == [] then Some(v)
    else if !v.Obj? || Child(v.members, path[0]).None? then None
    else Reached(Child(v.members, path[0]).value, path[1..])
  }

  predicate HoldsSchemas(key: string) {
    || key == "properties" || key == "$defs" || key == "items" || key == "allOf" || key == "oneOf" || key == "anyOf"
    || key == "if" || key == "then" || key == "else"
  }

  function StrippedPart(v: Option<Value>): Option<Value> {
    if v.Some? then Some(StripSchema(v.value)) else None
  }

  lemma GetFirst(m: Member, rest: seq<Member>, key: string)
    ensures Get([m] + rest, key) == if m.key == key then Some(m.value) else Get(rest, key)
  {
    assert ([m] + rest)[1..] == rest;
  }

  lemma {:induction false} StripGet(ms: seq<Member>, key: string)
    ensures Get(Strip(ms), key) ==
      if PlaceOf(key).Ui? || Get(ms, key).None? then None else Some(StripValue(PlaceOf(key), Get(ms, key).value))
    decreases |ms|
  {
    if ms != [] {
      var m, rest := ms[0], Strip(ms[1..]);
      var p := PlaceOf(m.key);
      StripGet(ms[1..], key);
      assert ms == [m] + ms[1..];
      GetFirst(m, ms[1..], key);
      GetFirst(Member(m.key, StripValue(p, m.value)), rest, key);
      assert Strip(ms) == if p.Ui? then rest
        else [Member(m.key, StripValue(p, m.value))] + rest by { NothingFirst(rest); }
    }
    hide *;
  }

  lemma {:induction false} StripEachGet(ms: seq<Member>, name: string)
    ensures Get(StripEach(ms), name) == StrippedPart(Get(ms, name))
    decreases |ms|
  {
    if ms != [] {
      var m, rest := ms[0], StripEach(ms[1..]);
      StripEachGet(ms[1..], name);
      assert ms == [m] + ms[1..];
      GetFirst(m, ms[1..], name);
      GetFirst(Member(m.key, StripSchema(m.value)), rest, name);
      assert StripEach(ms) == [Member(m.key, StripSchema(m.value))] + rest;
      hide Get, StripEach, StripSchema;
    }
  }

  lemma PlacesAre(key: string)
    ensures PlaceOf(key).Ui? <==> "ui:" <= key
    ensures PlaceOf(key).Ref? || PlaceOf(key).Other? <==> !("ui:" <= key) && !HoldsSchemas(key)
  {
  }

  lemma WaysAre(way: Way)
    ensures way.Sole? && (way.word == "items" || way.word == "if" || way.word == "then" || way.word == "else") ==>
      PlaceOf(way.word).Items? || PlaceOf(way.word).Conditional?
    ensures way.Named? && (way.word == "properties" || way.word == "$defs") ==>
      PlaceOf(way.word).Properties? || PlaceOf(way.word).Defs?
    ensures way.Nth? && (way.word == "allOf" || way.word == "oneOf" || way.word == "anyOf") ==>
      PlaceOf(way.word).AllOf? || PlaceOf(way.word).Alternatives?
  {
    assert "ui:"[0] == 'u';
    assert HoldsSchemas(way.word) ==> way.word[0] != 'u';
    assert |"items"| == 5 && |"$defs"| == 5 && |"allOf"| == 5 && |"oneOf"| == 5 && |"anyOf"| == 5;
    assert "items"[0] == 'i' && "$defs"[0] == '$' && "allOf"[0] == 'a' && "oneOf"[0] == 'o' && "anyOf"[1] == 'n';
  }

  lemma ChildIsStripped(ms: seq<Member>, way: Way)
    ensures Child(Strip(ms), way) == StrippedPart(Child(ms, way))
  {
    hide Strip, Get, PlaceOf;
    WaysAre(way);
    StripGet(ms, way.word);
    var v := Get(ms, way.word);
    if v.Some? && v.value.Obj? && way.Named? { StripEachGet(v.value.members, way.name); }
    if v.Some? && v.value.Arr? { StripListLeavesNoUi(v.value.items); }
  }

  lemma {:induction false} ReachedIsStripped(v: Value, path: seq<Way>)
    ensures Reached(StripSchema(v), path) == StrippedPart(Reached(v, path))
    decreases |path|
  {
    hide Child;
    if path != [] && v.Obj? {
      ChildIsStripped(v.members, path[0]);
      var next := Child(v.members, path[0]);
      if next.Some? { ReachedIsStripped(next.value, path[1..]); }
    }
  }

  /** Without `ui:` keys, and under any key that does not hold schemas what was there before. */
  ghost predicate KeepsRest(ms: seq<Member>, kept: seq<Member>, key: string) {
    if "ui:" <= key then !Has(kept, key)
    else if HoldsSchemas(key) then Has(kept, key) <==> Has(ms, key)
    else Get(kept, key) == Get(ms, key)
  }

  lemma StripKeepsKey(ms: seq<Member>, key: string)
    ensures KeepsRest(ms, Strip(ms), key)
  {
    PlacesAre(key);
    StripGet(ms, key);
    hide PlaceOf, HoldsSchemas, Strip, Get;
  }

  /**
   Stripping takes away `ui:` keys and nothing else: the same subschemas are reached on the same paths, and
   each holds what it held under every other key that does not hold schemas itself.
   */
  lemma StripKeepsRest(v: Value, path: seq<Way>, key: string)
    ensures var before, after := Reached(v, path), Reached(StripSchema(v), path);
      && (before.Some? <==> after.Some?)
      && (before.Some? && !before.value.Obj? ==> after == before)
      && (before.Some? && before.value.Obj? ==>
            after.value.Obj? && KeepsRest(before.value.members, after.value.members, key))
  {
    ReachedIsStripped(v, path);
    var before := Reached(v, path);
    if before.Some? && before.value.Obj? { StripKeepsKey(before.value.members, key); }
    hide Reached, Strip, KeepsRest;
  }

  // ── When the JSON half is the stripped schema ──

  /** Where a property's own keywords are copied without a look inside, there is nothing to strip. */
  predicate CleanProperty(ms: seq<Member>) {
    forall i | 0 <= i < |ms| && !PlaceOf(ms[i].key).Ui? :: CleanValue(PlaceOf(ms[i].key), ms[i].value)
  }

  predicate CleanValue(p: Place, value: Value)
    decreases value
  {
    if p.AllOf? || p.Conditional? || p.Defs? then NoUiValue(p, value)
    else match value
      case Obj(ms) =>
        if p.Properties? then forall i | 0 <= i < |ms| :: ms[i].value.Obj? ==> CleanProperty(ms[i].value.members)
        else if p.Items? then CleanProperty(ms)
        else true
      case _ => true
  }

  /** Every property and item subschema is clean. */
  predicate Clean(ms: seq<Member>) {
    forall i | 0 <= i < |ms| && (PlaceOf(ms[i].key).Properties? || PlaceOf(ms[i].key).Items?) ::
      CleanValue(PlaceOf(ms[i].key), ms[i].value)
  }

  lemma {:induction false} PropertyIsStrippedIff(ms: seq<Member>)
    ensures PropertyJson(ms) == Strip(ms) <==> CleanProperty(ms)
    decreases ms, 1
  {
    hide PlaceOf;
    if ms != [] {
      var p := PlaceOf(ms[0].key);
      PropertyIsStrippedIff(ms[1..]);
      ValueIsStrippedIff(p, ms[0].value);
      NothingFirst(PropertyJson(ms[1..]));
      NothingFirst(Strip(ms[1..]));
      assert CleanProperty(ms) <==> (p.Ui? || CleanValue(p, ms[0].value)) && CleanProperty(ms[1..]) by {
        assert ms == [ms[0]] + ms[1..];
      }
      HeadsDecide(Member(ms[0].key, PropertyValue(p, ms[0].value)), PropertyJson(ms[1..]),
                  Member(ms[0].key, StripValue(p, ms[0].value)), Strip(ms[1..]));
    }
  }

  lemma NothingFirst<T>(xs: seq<T>)
    ensures [] + xs == xs
  {
  }

  lemma HeadsDecide<T>(x: T, xs: seq<T>, y: T, ys: seq<T>)
    ensures [x] + xs == [y] + ys <==> x == y && xs == ys
  {
    if [x] + xs == [y] + ys {
      assert ([x] + xs)[0] == x && ([x] + xs)[1..] == xs;
      assert ([y] + ys)[0] == y && ([y] + ys)[1..] == ys;
    }
  }

  lemma {:induction false} ValueIsStrippedIff(p: Place, value: Value)
    ensures PropertyValue(p, value) == StripValue(p, value) <==> CleanValue(p, value)
    decreases value, 2
  {
    StripValueKeepsIff(p, value);
    match value
    case Obj(ms) =>
      if p.Properties? { EachIsStrippedIff(ms); }
      if p.Items? { PropertyIsStrippedIff(ms); }
    case _ =>
  }

  lemma {:induction false} EachIsStrippedIff(ms: seq<Member>)
    ensures PropertyEach(ms) == StripEach(ms) <==>
      forall i | 0 <= i < |ms| :: ms[i].value.Obj? ==> CleanProperty(ms[i].value.members)
    decreases ms, 1
  {
    if ms != [] {
      var v := ms[0].value;
      EachIsStrippedIff(ms[1..]);
      if v.Obj? { PropertyIsStrippedIff(v.members); }
      assert (forall i | 0 <= i < |ms| :: ms[i].value.Obj? ==> CleanProperty(ms[i].value.members)) <==>
             (v.Obj? ==> CleanProperty(v.members)) && forall i | 0 <= i < |ms[1..]| :: ms[1..][i].value.Obj? ==>
               CleanProperty(ms[1..][i].value.members)
      by {
        assert ms == [ms[0]] + ms[1..];
      }
      HeadsDecide(Member(ms[0].key, if v.Obj? then Obj(PropertyJson(v.members)) else v), PropertyEach(ms[1..]),
                  Member(ms[0].key, StripSchema(v)), StripEach(ms[1..]));
    }
  }

  /**
   The JSON half of `split` is the stripped schema exactly when no property or item subschema keeps a
   `ui:` key under `allOf`, `if`, `then`, `else` or `$defs`.
   */
  lemma {:induction false} JsonHalfIsStrippedIff(ms: seq<Member>)
    ensures ObjectJson(ms) == Strip(ms) <==> Clean(ms)
    decreases ms
  {
    hide PlaceOf;
    if ms != [] {
      var p := PlaceOf(ms[0].key);
      JsonHalfIsStrippedIff(ms[1..]);
      ValueIsStrippedIff(p, ms[0].value);
      NothingFirst(ObjectJson(ms[1..]));
      NothingFirst(Strip(ms[1..]));
      assert Clean(ms) <==> ((p.Properties? || p.Items?) ==> CleanValue(p, ms[0].value)) && Clean(ms[1..]) by {
        assert ms == [ms[0]] + ms[1..];
      }
      HeadsDecide(Member(ms[0].key, ObjectValue(p, ms[0].value)), ObjectJson(ms[1..]),
                  Member(ms[0].key, StripValue(p, ms[0].value)), Strip(ms[1..]));
    }
  }
}
