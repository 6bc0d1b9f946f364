/** The four walkers of the schema splitter, filling their targets key by key. */
module SchemaSplitter {
  import opened InlineRefs
  import opened Json
  import opened SchemaSplit
  import opened SchemaUi
  import opened Sequences

  datatype Halves = Halves(json: seq<Member>, ui: seq<Member>)

  lemma StripAt(source: seq<Member>, i: nat)
    requires i <= |source|
    ensures Strip(source[i..]) ==
      if i == |source| then []
      else
        var p := PlaceOf(source[i].key);
        (if p.Ui? then [] else [Member(source[i].key, StripValue(p, source[i].value))]) + Strip(source[i + 1..])
  {
    hide PlaceOf, StripValue;
    if i < |source| { RestAt(source, i); }
  }

  /** `_strip_ui_properties`. */
  method StripUiProperties(source: seq<Member>) returns (json: seq<Member>)
    ensures json == Strip(source)
    decreases source, 1
  {
    hide PlaceOf, StripValue, Strip;
    json := [];
    assert source[0..] == source;
    for i := 0 to |source|
      invariant Strip(source) == json + Strip(source[i..])
    {
      StripAt(source, i);
      var p := PlaceOf(source[i].key);
      assert source[i].value < source[i];
      if !p.Ui? {
        var half := StripMember(p, source[i].value);
        json := json + [Member(source[i].key, half)];
      }
    }
    StripAt(source, |source|);
  }

  /** One key of `_strip_ui_properties`. */
  method StripMember(p: Place, value: Value) returns (half: Value)
    ensures half == StripValue(p, value)
    decreases value, 2
  {
    half := value;
    if (p.Properties? || p.Defs?) && value.Obj? {
      var each := StripMap(value.members);
      half := Obj(each);
    } else if (p.Items? || p.Conditional?) && value.Obj? {
      var inner := StripUiProperties(value.members);
      half := Obj(inner);
    } else if (p.AllOf? || p.Alternatives?) && value.Arr? {
      var items := StripItems(value.items);
      half := Arr(items);
    }
  }

  lemma StripEachAt(source: seq<Member>, i: nat)
    requires i <= |source|
    ensures StripEach(source[i..]) ==
      if i == |source| then [] else [Member(source[i].key, StripSchema(source[i].value))] + StripEach(source[i + 1..])
  {
    hide StripSchema;
    if i < |source| { RestAt(source, i); }
  }

  method StripMap(source: seq<Member>) returns (json: seq<Member>)
    ensures json == StripEach(source)
    decreases source, 1
  {
    hide Strip, StripEach;
    json := [];
    assert source[0..] == source;
    for i := 0 to |source|
      invariant StripEach(source) == json + StripEach(source[i..])
    {
      StripEachAt(source, i);
      var value := source[i].value;
      assert value < source[i];
      if value.Obj? {
        var inner := StripUiProperties(value.members);
        value := Obj(inner);
      }
      json := json + [Member(source[i].key, value)];
    }
    StripEachAt(source, |source|);
  }

  lemma StripListAt(source: seq<Value>, i: nat)
    requires i <= |source|
    ensures StripList(source[i..]) == if i == |source| then []
      else [StripSchema(source[i])] + StripList(source[i + 1..])
  {
    hide StripSchema;
    if i < |source| { RestAt(source, i); }
  }

  method StripItems(source: seq<Value>) returns (json: seq<Value>)
    ensures json == StripList(source)
    decreases source, 1
  {
    hide Strip, StripList;
    json := [];
    assert source[0..] == source;
    for i := 0 to |source|
      invariant StripList(source) == json + StripList(source[i..])
    {
      StripListAt(source, i);
      var value := source[i];
      if value.Obj? {
        var inner := StripUiProperties(value.members);
        value := Obj(inner);
      }
      json := json + [value];
    }
    StripListAt(source, |source|);
  }

  /** `_extract_ui_properties`, adding to `ui`. */
  method ExtractUiProperties(source: seq<Member>, ui: seq<Member>, defs: seq<Member>, depth: nat)
      returns (r: Result<seq<Member>>)
    ensures r == Extract(source, ui, defs, depth)
    decreases depth, source, 1
  {
    hide ExtractMember;
    r := Ok(ui);
    for i := 0 to |source|
      invariant r.Ok? && Extract(source, ui, defs, depth) == Extract(source[i..], r.value, defs, depth)
    {
      RestAt(source, i);
      r := ExtractKey(source[i], r.value, defs, depth);
      if r.Err? {
        return;
      }
    }
  }

  method ExtractKey(m: Member, ui: seq<Member>, defs: seq<Member>, depth: nat) returns (r: Result<seq<Member>>)
    ensures r == ExtractMember(m, ui, defs, depth)
    decreases depth, m, 0
  {
    hide PlaceOf, StartsWith, Extract, ExtractList, ExtractAll, ExtractEach;
    var p, value := PlaceOf(m.key), m.value;
    r := Ok(ui);
    if p.Ui? {
      r := Ok(Set(ui, m.key, value));
    } else if p.Properties? && value.Obj? {
      r := ExtractProperties(value.members, ui, defs, depth);
    } else if p.Items? && value.Obj? {
      r := ExtractUiProperties(value.members, [], defs, depth);
      if r.Ok? {
        r := Ok(SetFound(ui, "items", r.value));
      }
    } else if p.Alternatives? && value.Arr? {
      var variants := ExtractAlternatives(value.items, defs, depth);
      r := if variants.Err? then Err(variants.error) else Ok(Set(ui, m.key, Arr(variants.value)));
    } else if p.AllOf? && value.Arr? {
      r := ExtractMerged(value.items, ui, defs, depth);
    } else if p.Conditional? && value.Obj? {
      r := ExtractUiProperties(value.members, ui, defs, depth);
    } else if p.Ref? && DefName(value).Some? && Has(defs, DefName(value).value) {
      var def := Get(defs, DefName(value).value).value;
      if !def.Obj? {
        return Err(Malformed);
      }
      if depth == 0 {
        return Err(TooDeep);
      }
      r := ExtractUiProperties(def.members, ui, defs, depth - 1);
    }
  }

  method ExtractProperties(props: seq<Member>, ui: seq<Member>, defs: seq<Member>, depth: nat)
      returns (r: Result<seq<Member>>)
    ensures r == ExtractEach(props, ui, defs, depth)
    decreases depth, props, 1
  {
    hide Extract;
    r := Ok(ui);
    for i := 0 to |props|
      invariant r.Ok? && ExtractEach(props, ui, defs, depth) == ExtractEach(props[i..], r.value, defs, depth)
    {
      RestAt(props, i);
      assert props[i].value < props[i];
      if props[i].value.Obj? {
        var found := ExtractUiProperties(props[i].value.members, [], defs, depth);
        if found.Err? {
          return found;
        }
        r := Ok(SetFound(r.value, props[i].key, found.value));
      }
    }
  }

  /** `all` is what `rest` gives after `done`. */
  ghost predicate Follows<T>(all: Result<seq<T>>, done: seq<T>, rest: Result<seq<T>>) {
    if rest.Err? then all == rest else all.Ok? && all.value == done + rest.value
  }

  method ExtractAlternatives(items: seq<Value>, defs: seq<Member>, depth: nat) returns (r: Result<seq<Value>>)
    ensures r == ExtractList(items, defs, depth)
    decreases depth, items, 1
  {
    hide Extract;
    var variants: seq<Value> := [];
    assert items[0..] == items;
    for i := 0 to |items|
      invariant Follows(ExtractList(items, defs, depth), variants, ExtractList(items[i..], defs, depth))
    {
      RestAt(items, i);
      if items[i].Obj? {
        var found := ExtractUiProperties(items[i].members, [], defs, depth);
        if found.Err? {
          return Err(found.error);
        }
        variants := variants + [Obj(found.value)];
      }
    }
    assert items[|items|..] == [] && variants + [] == variants;
    return Ok(variants);
  }

  method ExtractMerged(items: seq<Value>, ui: seq<Member>, defs: seq<Member>, depth: nat)
      returns (r: Result<seq<Member>>)
    ensures r == ExtractAll(items, ui, defs, depth)
    decreases depth, items, 1
  {
    hide Extract;
    r := Ok(ui);
    for i := 0 to |items|
      invariant r.Ok? && ExtractAll(items, ui, defs, depth) == ExtractAll(items[i..], r.value, defs, depth)
    {
      RestAt(items, i);
      if items[i].Obj? {
        r := ExtractUiProperties(items[i].members, r.value, defs, depth);
        if r.Err? {
          return;
        }
      }
    }
  }

  /** The halves a property walk gives, or the error its `ui` half meets. */
  function PropertyHalves(ms: seq<Member>, defsUi: seq<Member>): Result<Halves> {
    var ui := PropertyUi(ms, defsUi);
    if ui.Err? then Err(ui.error) else Ok(Halves(PropertyJson(ms), ui.value))
  }

  /** `_process_property`: the reference first, then every key. */
  method ProcessProperty(source: seq<Member>, defsUi: seq<Member>) returns (r: Result<Halves>)
    ensures r == PropertyHalves(source, defsUi)
    decreases source, 2
  {
    var start := Referred(source, defsUi);
    if start.Err? {
      return Err(start.error);
    }
    r := ProcessKeys(source, start.value, defsUi);
  }

  lemma KeysAt(source: seq<Member>, i: nat, ui: seq<Member>, defsUi: seq<Member>)
    requires i <= |source|
    ensures PropertyJson(source[i..]) ==
      if i == |source| then []
      else
        var p := PlaceOf(source[i].key);
        (if p.Ui? then [] else [Member(source[i].key, PropertyValue(p, source[i].value))])
          + PropertyJson(source[i + 1..])
    ensures PropertyKeys(source[i..], ui, defsUi) ==
      if i == |source| then Ok(ui)
      else
        var r := PropertyMember(source[i], ui, defsUi);
        if r.Err? then r else PropertyKeys(source[i + 1..], r.value, defsUi)
  {
    hide PlaceOf, PropertyMember, PropertyValue;
    if i < |source| { RestAt(source, i); }
  }

  method ProcessKeys(source: seq<Member>, start: seq<Member>, defsUi: seq<Member>) returns (r: Result<Halves>)
    ensures var ui := PropertyKeys(source, start, defsUi);
      r == if ui.Err? then Err(ui.error) else Ok(Halves(PropertyJson(source), ui.value))
    decreases source, 1
  {
    hide PlaceOf, PropertyMember, PropertyValue, PropertyJson, PropertyKeys;
    var json, ui := [], start;
    assert source[0..] == source;
    for i := 0 to |source|
      invariant PropertyJson(source) == json + PropertyJson(source[i..])
      invariant PropertyKeys(source, start, defsUi) == PropertyKeys(source[i..], ui, defsUi)
    {
      KeysAt(source, i, ui, defsUi);
      var half, found := ProcessKey(source[i], ui, defsUi);
      if found.Err? {
        return Err(found.error);
      }
      ui := found.value;
      if !PlaceOf(source[i].key).Ui? {
        json := json + [Member(source[i].key, half)];
      }
    }
    KeysAt(source, |source|, ui, defsUi);
    assert json + [] == json;
    return Ok(Halves(json, ui));
  }

  /** One key of a property: its JSON value and what it adds to `ui`. */
  method ProcessKey(m: Member, ui: seq<Member>, defsUi: seq<Member>) returns (half: Value, r: Result<seq<Member>>)
    ensures r == PropertyMember(m, ui, defsUi)
    ensures r.Ok? ==> half == PropertyValue(PlaceOf(m.key), m.value)
    decreases m, 4
  {
    hide PlaceOf, PropertyUi, PropertyJson, PropertyEachUi, PropertyEach, PropertyList, StripList;
    var p, value := PlaceOf(m.key), m.value;
    half, r := value, Ok(ui);
    if p.Ui? {
      r := Ok(Set(ui, m.key, value));
    } else if p.Properties? && value.Obj? {
      half, r := ProcessProperties(value.members, ui, defsUi);
    } else if p.Items? && value.Obj? {
      var inner := ProcessProperty(value.members, defsUi);
      if inner.Err? {
        return half, Err(inner.error);
      }
      half, r := Obj(inner.value.json), Ok(SetFound(ui, "items", inner.value.ui));
    } else if p.Alternatives? && value.Arr? {
      var items := StripItems(value.items);
      var variants := PropertyList(value.items, defsUi);
      if variants.Err? {
        return half, Err(variants.error);
      }
      half, r := Arr(items), Ok(Set(ui, m.key, Arr(variants.value)));
    }
  }

  lemma EachAt(props: seq<Member>, i: nat, ui: seq<Member>, defsUi: seq<Member>)
    requires i <= |props|
    ensures PropertyEach(props[i..]) ==
      if i == |props| then []
      else
        var v := props[i].value;
        [Member(props[i].key, if v.Obj? then Obj(PropertyJson(v.members)) else v)] + PropertyEach(props[i + 1..])
    ensures PropertyEachUi(props[i..], ui, defsUi) ==
      if i == |props| then Ok(ui)
      else
        var v := props[i].value;
        if !v.Obj? then PropertyEachUi(props[i + 1..], ui, defsUi)
        else if PropertyUi(v.members, defsUi).Err? then PropertyUi(v.members, defsUi)
        else PropertyEachUi(props[i + 1..], SetFound(ui, props[i].key, PropertyUi(v.members, defsUi).value), defsUi)
  {
    hide PropertyUi, PropertyJson;
    if i < |props| { RestAt(props, i); }
  }

  method ProcessProperties(props: seq<Member>, ui: seq<Member>, defsUi: seq<Member>)
      returns (half: Value, r: Result<seq<Member>>)
    ensures r == PropertyEachUi(props, ui, defsUi)
    ensures r.Ok? ==> half == Obj(PropertyEach(props))
    decreases props, 3
  {
    hide PropertyUi, PropertyJson, PropertyEach, PropertyEachUi, SetFound;
    var json: seq<Member> := [];
    half, r := Obj([]), Ok(ui);
    assert props[0..] == props;
    for i := 0 to |props|
      invariant r.Ok? && PropertyEachUi(props, ui, defsUi) == PropertyEachUi(props[i..], r.value, defsUi)
      invariant PropertyEach(props) == json + PropertyEach(props[i..])
    {
      EachAt(props, i, r.value, defsUi);
      assert props[i].value < props[i];
      var value := props[i].value;
      if value.Obj? {
        var inner := ProcessProperty(value.members, defsUi);
        if inner.Err? {
          return half, Err(inner.error);
        }
        value, r := Obj(inner.value.json), Ok(SetFound(r.value, props[i].key, inner.value.ui));
      }
      json := json + [Member(props[i].key, value)];
    }
    EachAt(props, |props|, r.value, defsUi);
    half := Obj(json);
  }

  /** `_process_object`. */
  method ProcessObject(source: seq<Member>, defsUi: seq<Member>, defs: seq<Member>, depth: nat)
      returns (r: Result<Halves>)
    ensures var ui := ObjectUi(source, [], defsUi, defs, depth);
      r == if ui.Err? then Err(ui.error) else Ok(Halves(ObjectJson(source), ui.value))
  {
    hide PlaceOf, ObjectMember, ObjectValue;
    var json, ui := [], [];
    assert source[0..] == source;
    for i := 0 to |source|
      invariant ObjectJson(source) == json + ObjectJson(source[i..])
      invariant ObjectUi(source, [], defsUi, defs, depth) == ObjectUi(source[i..], ui, defsUi, defs, depth)
    {
      RestAt(source, i);
      var half, found := ProcessObjectKey(source[i], ui, defsUi, defs, depth);
      if found.Err? {
        return Err(found.error);
      }
      ui := found.value;
      if !PlaceOf(source[i].key).Ui? {
        json := json + [Member(source[i].key, half)];
      }
    }
    assert source[|source|..] == [] && json + [] == json;
    return Ok(Halves(json, ui));
  }

  method ProcessObjectKey(m: Member, ui: seq<Member>, defsUi: seq<Member>, defs: seq<Member>, depth: nat)
    returns (half: Value, r: Result<seq<Member>>)
    ensures r == ObjectMember(m, ui, defsUi, defs, depth)
    ensures r.Ok? ==> half == ObjectValue(PlaceOf(m.key), m.value)
  {
    hide PlaceOf, PropertyMember, ExtractMember, PropertyValue, StripValue;
    var p := PlaceOf(m.key);
    if p.Properties? || p.Items? {
      half, r := ProcessKey(m, ui, defsUi);
    } else {
      half := StripMember(p, m.value);
      r := Ok(ui);
      if !p.Ref? {
        r := ExtractKey(m, ui, defs, depth);
      }
    }
  }

  /** `$defs` when it is an object; anything falsy stands for none. */
  function DefsOf(schema: seq<Member>): Result<seq<Member>> {
    match Get(schema, "$defs")
    case None => Ok([])
    case Some(Obj(defs)) => Ok(defs)
    case Some(Arr(items)) => if items == [] then Ok([]) else Err(Malformed)
    case Some(other) => if other in [Null, Str(""), Bool(false), Int(0), Num(0.0)] then Ok([]) else Err(Malformed)
  }

  /** What `split` gives. */
  function Split(schema: seq<Member>, depth: nat): Result<Halves> {
    var defs := DefsOf(schema);
    if defs.Err? then Err(defs.error)
    else
      var defsUi := DefsUi(defs.value, defs.value, depth);
      if defsUi.Err? then Err(defsUi.error)
      else
        var ui := ObjectUi(schema, [], defsUi.value, defs.value, depth);
        if ui.Err? then Err(ui.error) else Ok(Halves(ObjectJson(schema), ui.value))
  }

  /** `split`: first the `ui` of every definition, then both halves of the schema. */
  method SplitSchema(schema: seq<Member>, depth: nat) returns (r: Result<Halves>)
    ensures r == Split(schema, depth)
  {
    hide Extract, ObjectUi, ObjectJson;
    var d := DefsOf(schema);
    if d.Err? {
      return Err(d.error);
    }
    var defs, defsUi: seq<Member> := d.value, [];
    assert defs[0..] == defs;
    for i := 0 to |defs|
      invariant Follows(DefsUi(defs, defs, depth), defsUi, DefsUi(defs[i..], defs, depth))
    {
      RestAt(defs, i);
      if defs[i].value.Obj? {
        var found := ExtractUiProperties(defs[i].value.members, [], defs, depth);
        if found.Err? {
          return Err(found.error);
        }
        defsUi := defsUi + [Member(defs[i].key, Obj(found.value))];
      }
    }
    assert defs[|defs|..] == [] && defsUi + [] == defsUi;
    r := ProcessObject(schema, defsUi, defs, depth);
  }

  /** The JSON half of a split is the stripped schema, without a `ui:` key, exactly for clean schemas. */
  lemma SplitStrips(schema: seq<Member>, depth: nat)
    requires Split(schema, depth).Ok?
    ensures var json := Split(schema, depth).value.json;
      && (json == Strip(schema) <==> Clean(schema))
      && (Clean(schema) ==> NoUi(json))
  {
    JsonHalfIsStrippedIff(schema);
    StripLeavesNoUi(schema);
  }
}
