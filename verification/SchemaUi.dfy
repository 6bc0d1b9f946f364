/** The `ui:` half of a split: what is collected where, and when collecting ends. */
module SchemaUi {
  import opened InlineRefs
  import opened Json
  import opened SchemaSplit
  import opened Wrappers

  /** `d[key] = value`. */
  function Set(d: seq<Member>, key: string, value: Value): seq<Member> {
    if d == [] then [Member(key, value)]
    else if d[0].key == key then [Member(key, value)] + d[1..]
    else [d[0]] + Set(d[1..], key, value)
  }

  /** `if found: d[key] = found`. */
  function SetFound(d: seq<Member>, key: string, found: seq<Member>): seq<Member> {
    if found == [] then d else Set(d, key, Obj(found))
  }

  /** `d.update(more)`. */
  function Update(d: seq<Member>, more: seq<Member>): seq<Member>
    decreases |more|
  {
    if more == [] then d else Update(Set(d, more[0].key, more[0].value), more[1..])
  }

  /** The definition name of a `#/$defs/` reference: everything after the prefix. */
  function DefName(ref: Value): (r: Option<string>)
    ensures r.Some? ==> ref == Str("#/$defs/" + r.value)
    ensures r.None? ==> !(ref.Str? && "#/$defs/" <= ref.s)
  {
    if ref.Str? && StartsWith(ref.s, LOCAL) then Some(ref.s[|LOCAL|..]) else None
  }

  /**
   `_extract_ui_properties` into `ui`. `depth` bounds the references followed inside one another; a
   reference to a definition that is not an object stops the walk with an error.
   */
  function Extract(ms: seq<Member>, ui: seq<Member>, defs: seq<Member>, depth: nat): Result<seq<Member>>
    decreases depth, ms, 0
  {
    if ms == [] then Ok(ui)
    else
      var r := ExtractMember(ms[0], ui, defs, depth);
      if r.Err? then r else Extract(ms[1..], r.value, defs, depth)
  }

  function ExtractMember(m: Member, ui: seq<Member>, defs: seq<Member>, depth: nat): Result<seq<Member>>
    decreases depth, m, 0
  {
    match PlaceOf(m.key)
    case Ui => Ok(Set(ui, m.key, m.value))
    case Properties => if m.value.Obj? then ExtractEach(m.value.members, ui, defs, depth) else Ok(ui)
    case Items =>
      if m.value.Obj? then
        var r := Extract(m.value.members, [], defs, depth);
        if r.Err? then r else Ok(SetFound(ui, "items", r.value))
      else Ok(ui)
    case Alternatives =>
      if m.value.Arr? then
        var r := ExtractList(m.value.items, defs, depth);
        if r.Err? then Err(r.error) else Ok(Set(ui, m.key, Arr(r.value)))
      else Ok(ui)
    case AllOf => if m.value.Arr? then ExtractAll(m.value.items, ui, defs, depth) else Ok(ui)
    case Conditional => if m.value.Obj? then Extract(m.value.members, ui, defs, depth) else Ok(ui)
    case Ref =>
      if DefName(m.value).None? || !Has(defs, DefName(m.value).value) then Ok(ui)
      else
        var def := Get(defs, DefName(m.value).value).value;
        if !def.Obj? then Err(Malformed)
        else if depth == 0 then Err(TooDeep)
        else Extract(def.members, ui, defs, depth - 1)
    case Defs => Ok(ui)
    case Other => Ok(ui)
  }

  function ExtractEach(ms: seq<Member>, ui: seq<Member>, defs: seq<Member>, depth: nat): Result<seq<Member>>
    decreases depth, ms, 0
  {
    if ms == [] then Ok(ui)
    else if !ms[0].value.Obj? then ExtractEach(ms[1..], ui, defs, depth)
    else
      var r := Extract(ms[0].value.members, [], defs, depth);
      if r.Err? then r else ExtractEach(ms[1..], SetFound(ui, ms[0].key, r.value), defs, depth)
  }

  /** One entry for each object among the alternatives. */
  function ExtractList(items: seq<Value>, defs: seq<Member>, depth: nat): Result<seq<Value>>
    decreases depth, items, 0
  {
    if items == [] then Ok([])
    else if !items[0].Obj? then ExtractList(items[1..], defs, depth)
    else
      var r := Extract(items[0].members, [], defs, depth);
      if r.Err? then Err(r.error)
      else
        var rest := ExtractList(items[1..], defs, depth);
        if rest.Err? then rest else Ok([Obj(r.value)] + rest.value)
  }

  function ExtractAll(items: seq<Value>, ui: seq<Member>, defs: seq<Member>, depth: nat): Result<seq<Member>>
    decreases depth, items, 0
  {
    if items == [] then Ok(ui)
    else if !items[0].Obj? then ExtractAll(items[1..], ui, defs, depth)
    else
      var r := Extract(items[0].members, ui, defs, depth);
      if r.Err? then r else ExtractAll(items[1..], r.value, defs, depth)
  }

  // ── The `ui` half of a property and of the whole schema ──

  /** The `ui` of the definition a property refers to, from those extracted beforehand. */
  function Referred(ms: seq<Member>, defsUi: seq<Member>): Result<seq<Member>> {
    match Get(ms, "$ref")
    case None => Ok([])
    case Some(ref) =>
      if !ref.Str? then Err(Malformed)
      else if DefName(ref).Some? && Has(defsUi, DefName(ref).value) then
        var found := Get(defsUi, DefName(ref).value).value;
        Ok(Update([], if found.Obj? then found.members else []))
      else Ok([])
  }

  /** `_process_property`: what the reference brings, then the property's own keys over it. */
  function PropertyUi(ms: seq<Member>, defsUi: seq<Member>): Result<seq<Member>>
    decreases ms, 1
  {
    var start := Referred(ms, defsUi);
    if start.Err? then start else PropertyKeys(ms, start.value, defsUi)
  }

  function PropertyKeys(ms: seq<Member>, ui: seq<Member>, defsUi: seq<Member>): Result<seq<Member>>
    decreases ms, 0
  {
    if ms == [] then Ok(ui)
    else
      var r := PropertyMember(ms[0], ui, defsUi);
      if r.Err? then r else PropertyKeys(ms[1..], r.value, defsUi)
  }

  function PropertyMember(m: Member, ui: seq<Member>, defsUi: seq<Member>): Result<seq<Member>>
    decreases m, 0
  {
    match PlaceOf(m.key)
    case Ui => Ok(Set(ui, m.key, m.value))
    case Properties => if m.value.Obj? then PropertyEachUi(m.value.members, ui, defsUi) else Ok(ui)
    case Items =>
      if m.value.Obj? then
        var r := PropertyUi(m.value.members, defsUi);
        if r.Err? then r else Ok(SetFound(ui, "items", r.value))
      else Ok(ui)
    case Alternatives =>
      if m.value.Arr? then
        var r := PropertyList(m.value.items, defsUi);
        if r.Err? then Err(r.error) else Ok(Set(ui, m.key, Arr(r.value)))
      else Ok(ui)
    case _ => Ok(ui)
  }

  function PropertyEachUi(ms: seq<Member>, ui: seq<Member>, defsUi: seq<Member>): Result<seq<Member>>
    decreases ms, 0
  {
    if ms == [] then Ok(ui)
    else if !ms[0].value.Obj? then PropertyEachUi(ms[1..], ui, defsUi)
    else
      var r := PropertyUi(ms[0].value.members, defsUi);
      if r.Err? then r else PropertyEachUi(ms[1..], SetFound(ui, ms[0].key, r.value), defsUi)
  }

  function PropertyList(items: seq<Value>, defsUi: seq<Member>): Result<seq<Value>> {
    if items == [] then Ok([])
    else if !items[0].Obj? then PropertyList(items[1..], defsUi)
    else
      var r := Referred(items[0].members, defsUi);
      if r.Err? then Err(r.error)
      else
        var rest := PropertyList(items[1..], defsUi);
        if rest.Err? then rest else Ok([Obj(r.value)] + rest.value)
  }

  /** `_process_object`. */
  function ObjectUi(ms: seq<Member>, ui: seq<Member>, defsUi: seq<Member>, defs: seq<Member>,
      depth: nat): Result<seq<Member>> {
    if ms == [] then Ok(ui)
    else
      var r := ObjectMember(ms[0], ui, defsUi, defs, depth);
      if r.Err? then r else ObjectUi(ms[1..], r.value, defsUi, defs, depth)
  }

  function ObjectMember(m: Member, ui: seq<Member>, defsUi: seq<Member>, defs: seq<Member>,
      depth: nat): Result<seq<Member>> {
    match PlaceOf(m.key)
    case Properties => PropertyMember(m, ui, defsUi)
    case Items => PropertyMember(m, ui, defsUi)
    case Ref => Ok(ui)
    case _ => ExtractMember(m, ui, defs, depth)
  }

  /** The `ui` of every definition that is an object. */
  function DefsUi(some: seq<Member>, defs: seq<Member>, depth: nat): Result<seq<Member>> {
    if some == [] then Ok([])
    else if !some[0].value.Obj? then DefsUi(some[1..], defs, depth)
    else
      var r := Extract(some[0].value.members, [], defs, depth);
      if r.Err? then r
      else
        var rest := DefsUi(some[1..], defs, depth);
        if rest.Err? then rest else Ok([Member(some[0].key, Obj(r.value))] + rest.value)
  }

  // ── A property's own `ui:` keys land in its half ──

  lemma {:induction false} GetSet(d: seq<Member>, key: string, value: Value, other: string)
    ensures Get(Set(d, key, value), other) == if other == key then Some(value) else Get(d, other)
    decreases |d|
  {
    if d != [] && d[0].key != key { GetSet(d[1..], key, value, other); }
  }

  /** No property inside is itself named like a `ui:` key. */
  predicate PlainNames(m: Member) {
    PlaceOf(m.key).Properties? && m.value.Obj? ==>
      forall i | 0 <= i < |m.value.members| :: !PlaceOf(m.value.members[i].key).Ui?
  }

  lemma {:induction false} EachKeeps(ms: seq<Member>, ui: seq<Member>, defsUi: seq<Member>, key: string)
    requires forall i | 0 <= i < |ms| :: !PlaceOf(ms[i].key).Ui?
    requires PlaceOf(key).Ui? && PropertyEachUi(ms, ui, defsUi).Ok?
    ensures Get(PropertyEachUi(ms, ui, defsUi).value, key) == Get(ui, key)
    decreases |ms|
  {
    hide PlaceOf, PropertyUi;
    if ms != [] {
      assert ms[0].key != key;
      if ms[0].value.Obj? {
        var found := PropertyUi(ms[0].value.members, defsUi).value;
        GetSet(ui, ms[0].key, Obj(found), key);
        EachKeeps(ms[1..], SetFound(ui, ms[0].key, found), defsUi, key);
      } else {
        EachKeeps(ms[1..], ui, defsUi, key);
      }
    }
  }

  lemma MemberKeeps(m: Member, ui: seq<Member>, defsUi: seq<Member>, key: string)
    requires PlainNames(m) && PlaceOf(key).Ui? && PropertyMember(m, ui, defsUi).Ok?
    ensures Get(PropertyMember(m, ui, defsUi).value, key) == if m.key == key then Some(m.value) else Get(ui, key)
  {
    assert !PlaceOf("items").Ui? by { assert "items"[..3][0] != "ui:"[0]; }
    hide PlaceOf;
    match PlaceOf(m.key)
    case Ui => GetSet(ui, m.key, m.value, key);
    case Properties => if m.value.Obj? { EachKeeps(m.value.members, ui, defsUi, key); }
    case Items =>
      if m.value.Obj? { GetSet(ui, "items", Obj(PropertyUi(m.value.members, defsUi).value), key); }
    case Alternatives =>
      if m.value.Arr? { GetSet(ui, m.key, Arr(PropertyList(m.value.items, defsUi).value), key); }
    case _ =>
  }

  lemma {:induction false} KeysKeep(ms: seq<Member>, ui: seq<Member>, defsUi: seq<Member>, key: string)
    requires forall i | 0 <= i < |ms| :: PlainNames(ms[i])
    requires forall i, j | 0 <= i < j < |ms| :: ms[i].key != ms[j].key
    requires PlaceOf(key).Ui? && PropertyKeys(ms, ui, defsUi).Ok?
    ensures Get(PropertyKeys(ms, ui, defsUi).value, key) == if Has(ms, key) then Get(ms, key) else Get(ui, key)
    decreases |ms|
  {
    hide PlaceOf, PropertyMember, PlainNames;
    if ms != [] {
      MemberKeeps(ms[0], ui, defsUi, key);
      KeysKeep(ms[1..], PropertyMember(ms[0], ui, defsUi).value, defsUi, key);
    }
  }

  /**
   A property's `ui:` keys end in its half with their values, over those of the definition it refers
   to, and no other `ui:` key does.
   */
  lemma UiKeysLand(ms: seq<Member>, defsUi: seq<Member>, key: string)
    requires forall i | 0 <= i < |ms| :: PlainNames(ms[i])
    requires forall i, j | 0 <= i < j < |ms| :: ms[i].key != ms[j].key
    requires PlaceOf(key).Ui? && PropertyUi(ms, defsUi).Ok?
    ensures Get(PropertyUi(ms, defsUi).value, key) == if Has(ms, key) then Get(ms, key)
      else Get(Referred(ms, defsUi).value, key)
  {
    KeysKeep(ms, Referred(ms, defsUi).value, defsUi, key);
  }

  // ── Extraction ends on acyclic definitions ──

  /** Extraction would follow, from here, a reference to `name`. */
  predicate Reaches(ms: seq<Member>, name: string) {
    exists i | 0 <= i < |ms| :: ReachesMember(PlaceOf(ms[i].key), ms[i].value, name)
  }

  predicate ReachesMember(p: Place, value: Value, name: string)
    decreases value
  {
    match value
    case Obj(ms) =>
      if p.Properties? then exists i | 0 <= i < |ms| :: ms[i].value.Obj? && Reaches(ms[i].value.members, name)
      else (p.Items? || p.Conditional?) && Reaches(ms, name)
    case Arr(items) => (p.AllOf? || p.Alternatives?) && exists i | 0 <= i < |items| ::
      items[i].Obj? && Reaches(items[i].members, name)
    case Str(_) => p.Ref? && DefName(value) == Some(name)
    case _ => false
  }

  ghost predicate UiRanked(defs: seq<Member>, rank: string -> nat) {
    forall n, m | Has(defs, n) && Get(defs, n).value.Obj? && Reaches(Get(defs, n).value.members, m) :: rank(m) < rank(n)
  }

  ghost predicate Within(ms: seq<Member>, rank: string -> nat, depth: nat) {
    forall n | Reaches(ms, n) :: rank(n) < depth
  }

  ghost predicate MemberWithin(m: Member, rank: string -> nat, depth: nat) {
    forall n | ReachesMember(PlaceOf(m.key), m.value, n) :: rank(n) < depth
  }

  lemma HeadWithin(ms: seq<Member>, rank: string -> nat, depth: nat)
    requires ms != [] && Within(ms, rank, depth)
    ensures MemberWithin(ms[0], rank, depth) && Within(ms[1..], rank, depth)
  {
    hide ReachesMember, PlaceOf;
    forall n | ReachesMember(PlaceOf(ms[0].key), ms[0].value, n) ensures rank(n) < depth { assert Reaches(ms, n); }
    forall n | Reaches(ms[1..], n) ensures rank(n) < depth {
      var i :| 0 <= i < |ms[1..]| && ReachesMember(PlaceOf(ms[1..][i].key), ms[1..][i].value, n);
      assert ms[i + 1] == ms[1..][i];
      assert Reaches(ms, n);
    }
  }

  /** With acyclic definitions, extraction never runs out of a depth above the ranks it starts from. */
  lemma {:induction false} ExtractionEnds(ms: seq<Member>, ui: seq<Member>, defs: seq<Member>, rank: string -> nat,
      depth: nat)
    requires UiRanked(defs, rank) && Within(ms, rank, depth)
    ensures Extract(ms, ui, defs, depth) != Err(TooDeep)
    decreases depth, ms, 0
  {
    if ms != [] {
      HeadWithin(ms, rank, depth);
      MemberEnds(ms[0], ui, defs, rank, depth);
      hide ExtractMember, UiRanked, Within, MemberWithin;
      var r := ExtractMember(ms[0], ui, defs, depth);
      if r.Ok? { ExtractionEnds(ms[1..], r.value, defs, rank, depth); }
    }
  }

  lemma {:induction false} MemberEnds(m: Member, ui: seq<Member>, defs: seq<Member>, rank: string -> nat, depth: nat)
    requires UiRanked(defs, rank) && MemberWithin(m, rank, depth)
    ensures ExtractMember(m, ui, defs, depth) != Err(TooDeep)
    decreases depth, m, 0
  {
    hide PlaceOf, Reaches, StartsWith;
    match PlaceOf(m.key)
    case Properties => if m.value.Obj? { EachEnds(m.value.members, ui, defs, rank, depth); }
    case Items => if m.value.Obj? { ExtractionEnds(m.value.members, [], defs, rank, depth); }
    case Conditional => if m.value.Obj? { ExtractionEnds(m.value.members, ui, defs, rank, depth); }
    case Alternatives => if m.value.Arr? { ListEnds(m.value.items, ui, defs, rank, depth); }
    case AllOf => if m.value.Arr? { ListEnds(m.value.items, ui, defs, rank, depth); }
    case Ref =>
      if DefName(m.value).Some? && Has(defs, DefName(m.value).value) && Get(defs, DefName(m.value).value).value.Obj? {
        var n := DefName(m.value).value;
        assert ReachesMember(PlaceOf(m.key), m.value, n);
        assert Within(Get(defs, n).value.members, rank, rank(n));
        assert Within(Get(defs, n).value.members, rank, depth - 1);
        ExtractionEnds(Get(defs, n).value.members, ui, defs, rank, depth - 1);
      }
    case _ =>
  }

  lemma {:induction false} EachEnds(ms: seq<Member>, ui: seq<Member>, defs: seq<Member>, rank: string -> nat,
      depth: nat)
    requires UiRanked(defs, rank)
    requires forall i | 0 <= i < |ms| && ms[i].value.Obj? :: Within(ms[i].value.members, rank, depth)
    ensures ExtractEach(ms, ui, defs, depth) != Err(TooDeep)
    decreases depth, ms, 0
  {
    hide UiRanked, Within;
    if ms != [] {
      if ms[0].value.Obj? {
        ExtractionEnds(ms[0].value.members, [], defs, rank, depth);
        var r := Extract(ms[0].value.members, [], defs, depth);
        if r.Ok? { EachEnds(ms[1..], SetFound(ui, ms[0].key, r.value), defs, rank, depth); }
      } else {
        EachEnds(ms[1..], ui, defs, rank, depth);
      }
    }
  }

  lemma {:induction false} ListEnds(items: seq<Value>, ui: seq<Member>, defs: seq<Member>, rank: string -> nat,
      depth: nat)
    requires UiRanked(defs, rank)
    requires forall i | 0 <= i < |items| && items[i].Obj? :: Within(items[i].members, rank, depth)
    ensures ExtractList(items, defs, depth) != Err(TooDeep)
    ensures ExtractAll(items, ui, defs, depth) != Err(TooDeep)
    decreases depth, items, 0
  {
    hide UiRanked, Within;
    if items != [] {
      if items[0].Obj? {
        ExtractionEnds(items[0].members, [], defs, rank, depth);
        ExtractionEnds(items[0].members, ui, defs, rank, depth);
        var r := Extract(items[0].members, ui, defs, depth);
        ListEnds(items[1..], if r.Ok? then r.value else ui, defs, rank, depth);
      } else {
        ListEnds(items[1..], ui, defs, rank, depth);
      }
    }
  }

  /** A definition that refers to itself is never extracted, however deep the walk may go. */
  lemma {:induction false} SelfReferenceNeverEnds(defs: seq<Member>, name: string, ui: seq<Member>, depth: nat)
    requires Get(defs, name) == Some(Obj([Member("$ref", Str(LOCAL + name))]))
    ensures Extract(Get(defs, name).value.members, ui, defs, depth) == Err(TooDeep)
  {
    var m := Member("$ref", Str(LOCAL + name));
    RefToName(name);
    hide PlaceOf, DefName, StartsWith;
    if depth > 0 { SelfReferenceNeverEnds(defs, name, ui, depth - 1); }
    assert Get(defs, name).value.members == [m] && Has(defs, name);
    assert ExtractMember(m, ui, defs, depth) == Err(TooDeep);
    assert [m][0] == m;
  }

  lemma RefToName(name: string)
    ensures PlaceOf("$ref").Ref? && DefName(Str(LOCAL + name)) == Some(name)
  {
    var ref := LOCAL + name;
    assert ref[..|LOCAL|] == LOCAL && ref[|LOCAL|..] == name;
    assert "$ref"[..3][0] != "ui:"[0];
  }
}
