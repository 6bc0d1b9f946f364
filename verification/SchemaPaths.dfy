/**
 Where the `ui:` keys of a schema go: every one is found in the `ui` half under the path it had, a
 property's own keys and parts over those of the definition it refers to, and nothing else is found.
 */
module SchemaPaths {
  import opened Json
  import opened SchemaEnds
  import opened SchemaMerge
  import opened SchemaSplit
  import opened SchemaSplitter
  import opened SchemaUi
  import opened Wrappers

  datatype Turn = Property(name: string) | Item

  predicate DistinctKeys(ms: seq<Member>) {
    forall i, j | 0 <= i < j < |ms| :: ms[i].key != ms[j].key
  }

  /** A name the `ui` half does not use for anything but a property. */
  predicate FreeName(name: string) {
    !PlaceOf(name).Ui? && !PlaceOf(name).Alternatives? && name != "items"
  }

  /** No property, at any depth of properties and items, has a name the `ui` half uses for itself. */
  predicate Sane(ms: seq<Member>) {
    DistinctKeys(ms) && forall i | 0 <= i < |ms| :: SaneMember(ms[i])
  }

  predicate SaneMember(m: Member) {
    match PlaceOf(m.key)
    case Properties => m.value.Obj? ==> SaneProperties(m.value.members)
    case Items => m.value.Obj? ==> Sane(m.value.members)
    case _ => true
  }

  predicate SaneProperties(props: seq<Member>) {
    DistinctKeys(props) && forall i | 0 <= i < |props| ::
      FreeName(props[i].key) && (props[i].value.Obj? ==> Sane(props[i].value.members))
  }

  predicate AllText(ms: seq<Member>) {
    forall i | 0 <= i < |ms| :: TextRefsAt(PlaceOf(ms[i].key), ms[i].value)
  }

  /** The `ui:` key at the end of a path through the schema. */
  function InSchema(ms: seq<Member>, path: seq<Turn>, key: string): Option<Value>
    decreases |path|
  {
    if path == [] then Get(ms, key)
    else
      var next := Below(ms, path[0]);
      if next.Some? then InSchema(next.value, path[1..], key) else None
  }

  function Below(ms: seq<Member>, t: Turn): Option<seq<Member>> {
    match t
    case Item => AsObject(Get(ms, "items"))
    case Property(name) =>
      var props := AsObject(Get(ms, "properties"));
      if props.Some? then AsObject(Get(props.value, name)) else None
  }

  function AsObject(v: Option<Value>): Option<seq<Member>> {
    if v.Some? && v.value.Obj? then Some(v.value.members) else None
  }

  /** The same path through a `ui` half. */
  function InUi(ui: seq<Member>, path: seq<Turn>, key: string): Option<Value>
    decreases |path|
  {
    if path == [] then Get(ui, key)
    else
      var next := AsObject(Get(ui, UiName(path[0])));
      if next.Some? then InUi(next.value, path[1..], key) else None
  }

  function UiName(t: Turn): string {
    if t.Item? then "items" else t.name
  }

  /** A part's `ui` half, empty if it has none. */
  function UiOf(ms: seq<Member>, defsUi: seq<Member>): seq<Member> {
    if PropertyUi(ms, defsUi).Ok? then PropertyUi(ms, defsUi).value else []
  }

  function FromRef(ms: seq<Member>, defsUi: seq<Member>): seq<Member> {
    if Referred(ms, defsUi).Ok? then Referred(ms, defsUi).value else []
  }

  /**
   A part has something to show: a `ui:` key of its own or in a part below it, alternatives, which are
   mirrored even when empty, or what the definition it refers to shows.
   */
  predicate Shows(ms: seq<Member>, defsUi: seq<Member>)
    decreases ms, 0
  {
    FromRef(ms, defsUi) != [] || exists i :: 0 <= i < |ms| && ShowsAt(PlaceOf(ms[i].key), ms[i].value, defsUi)
  }

  predicate ShowsAt(p: Place, value: Value, defsUi: seq<Member>)
    decreases value, 1
  {
    match value
    case Obj(ms) =>
      p.Ui? || (p.Items? && Shows(ms, defsUi))
      || (p.Properties? && exists i :: 0 <= i < |ms| && ms[i].value.Obj? && Shows(ms[i].value.members, defsUi))
    case Arr(_) => p.Ui? || p.Alternatives?
    case _ => p.Ui?
  }

  /**
   The `ui:` key a reader expects at the end of a path: the schema's own, else that of the definition
   it refers to. A part that shows anything hides all of what the definition has for that part.
   */
  function Expected(ms: seq<Member>, defsUi: seq<Member>, path: seq<Turn>, key: string): Option<Value>
    decreases |path|
  {
    if path == [] then if Has(ms, key) then Get(ms, key) else Get(FromRef(ms, defsUi), key)
    else
      var next := Below(ms, path[0]);
      if next.Some? && Shows(next.value, defsUi) then Expected(next.value, defsUi, path[1..], key)
      else InUi(FromRef(ms, defsUi), path, key)
  }

  // ── What shows is there ──

  lemma {:induction false} ShowsIff(ms: seq<Member>, defsUi: seq<Member>)
    requires PropertyUi(ms, defsUi).Ok?
    ensures PropertyUi(ms, defsUi).value != [] <==> Shows(ms, defsUi)
    decreases ms, 2
  {
    hide PropertyKeys, ShowsAt, PlaceOf;
    KeysShow(ms, FromRef(ms, defsUi), defsUi);
  }

  lemma {:induction false} KeysShow(ms: seq<Member>, ui: seq<Member>, defsUi: seq<Member>)
    requires PropertyKeys(ms, ui, defsUi).Ok?
    ensures PropertyKeys(ms, ui, defsUi).value != [] <==>
      ui != [] || exists i :: 0 <= i < |ms| && ShowsAt(PlaceOf(ms[i].key), ms[i].value, defsUi)
    decreases ms, 1
  {
    hide PropertyMember, ShowsAt, PlaceOf;
    if ms != [] {
      MemberShows(ms[0], ui, defsUi);
      KeysShow(ms[1..], PropertyMember(ms[0], ui, defsUi).value, defsUi);
      assert ms == [ms[0]] + ms[1..];
    }
  }

  lemma {:induction false} MemberShows(m: Member, ui: seq<Member>, defsUi: seq<Member>)
    requires PropertyMember(m, ui, defsUi).Ok?
    ensures PropertyMember(m, ui, defsUi).value != [] <==> ui != [] || ShowsAt(PlaceOf(m.key), m.value, defsUi)
    decreases m, 0
  {
    hide PlaceOf, Shows, PropertyUi, PropertyEachUi, PropertyList;
    match PlaceOf(m.key)
    case Properties => if m.value.Obj? { EachShows(m.value.members, ui, defsUi); }
    case Items => if m.value.Obj? { ShowsIff(m.value.members, defsUi); }
    case _ =>
  }

  lemma {:induction false} EachShows(props: seq<Member>, ui: seq<Member>, defsUi: seq<Member>)
    requires PropertyEachUi(props, ui, defsUi).Ok?
    ensures PropertyEachUi(props, ui, defsUi).value != [] <==>
      ui != [] || exists i :: 0 <= i < |props| && props[i].value.Obj? && Shows(props[i].value.members, defsUi)
    decreases props, 0
  {
    hide PropertyUi, Shows;
    if props != [] {
      var next := ui;
      if props[0].value.Obj? {
        ShowsIff(props[0].value.members, defsUi);
        next := SetFound(ui, props[0].key, PropertyUi(props[0].value.members, defsUi).value);
      }
      EachShows(props[1..], next, defsUi);
      assert props == [props[0]] + props[1..];
    }
  }

  // ── One level ──

  /** What a subschema contributes: its own `ui` half, unless that is empty. */
  function Part(v: Option<Value>, defsUi: seq<Member>): Option<Value> {
    if v.Some? && v.value.Obj? && UiOf(v.value.members, defsUi) != [] then Some(Obj(UiOf(v.value.members, defsUi)))
      else None
  }

  /** What one member puts under `x`. */
  function Given(m: Member, x: string, defsUi: seq<Member>): Option<Value> {
    match PlaceOf(m.key)
    case Ui => if m.key == x then Some(m.value) else None
    case Properties => if m.value.Obj? then Part(Get(m.value.members, x), defsUi) else None
    case Items => if x == "items" then Part(Some(m.value), defsUi) else None
    case _ => None
  }

  /** The one key that can put something under `x`. */
  function Source(x: string): string {
    if PlaceOf(x).Ui? || x == "items" then x else "properties"
  }

  lemma KeyNames()
    ensures PlaceOf("properties").Properties? && PlaceOf("items").Items?
    ensures forall key :: (PlaceOf(key).Properties? ==> key == "properties") && (PlaceOf(key).Items? ==> key == "items")
  {
    assert "properties"[..3][0] != "ui:"[0] && "items"[..3][0] != "ui:"[0];
  }

  lemma NotInTail(ms: seq<Member>)
    requires DistinctKeys(ms) && ms != []
    ensures DistinctKeys(ms[1..]) && !Has(ms[1..], ms[0].key)
  {
    forall i | 0 <= i < |ms[1..]| ensures ms[1..][i].key != ms[0].key { assert ms[1..][i] == ms[i + 1]; }
    forall i, j | 0 <= i < j < |ms[1..]| ensures ms[1..][i].key != ms[1..][j].key {
      assert ms[1..][i] == ms[i + 1] && ms[1..][j] == ms[j + 1];
    }
  }

  lemma OnlySourceGives(m: Member, x: string, defsUi: seq<Member>)
    requires SaneMember(m) && m.key != Source(x) && !PlaceOf(x).Alternatives?
    ensures Given(m, x, defsUi) == None
  {
    KeyNames();
    hide PlaceOf, Sane, UiOf;
  }

  lemma {:induction false} EachGives(props: seq<Member>, ui: seq<Member>, defsUi: seq<Member>, x: string)
    requires DistinctKeys(props)
    requires forall i | 0 <= i < |props| && props[i].value.Obj? :: PropertyUi(props[i].value.members, defsUi).Ok?
    ensures PropertyEachUi(props, ui, defsUi).Ok?
    ensures var given := Part(Get(props, x), defsUi);
      Get(PropertyEachUi(props, ui, defsUi).value, x) == if given.Some? then given else Get(ui, x)
    decreases |props|
  {
    hide PropertyUi;
    if props != [] {
      NotInTail(props);
      var next := ui;
      if props[0].value.Obj? {
        var found := PropertyUi(props[0].value.members, defsUi).value;
        GetSet(ui, props[0].key, Obj(found), x);
        next := SetFound(ui, props[0].key, found);
      }
      EachGives(props[1..], next, defsUi, x);
    }
  }

  lemma MemberGives(m: Member, ui: seq<Member>, defsUi: seq<Member>, x: string)
    requires SaneMember(m) && TextRefsAt(PlaceOf(m.key), m.value) && !PlaceOf(x).Alternatives?
    ensures PropertyMember(m, ui, defsUi).Ok?
    ensures var given := Given(m, x, defsUi);
      Get(PropertyMember(m, ui, defsUi).value, x) == if given.Some? then given else Get(ui, x)
  {
    PropertyMemberOk(m, ui, defsUi);
    hide PlaceOf, Sane, PropertyUi, TextRefs, PropertyList;
    match PlaceOf(m.key)
    case Ui => GetSet(ui, m.key, m.value, x);
    case Properties =>
      if m.value.Obj? {
        var props := m.value.members;
        forall i | 0 <= i < |props| && props[i].value.Obj? ensures PropertyUi(props[i].value.members, defsUi).Ok? {
          PropertyUiOk(props[i].value.members, defsUi);
        }
        EachGives(props, ui, defsUi, x);
      }
    case Items =>
      if m.value.Obj? {
        PropertyUiOk(m.value.members, defsUi);
        GetSet(ui, "items", Obj(PropertyUi(m.value.members, defsUi).value), x);
      }
    case Alternatives =>
      if m.value.Arr? { GetSet(ui, m.key, Arr(PropertyList(m.value.items, defsUi).value), x); }
    case _ =>
  }

  /** The same for a member of the top-level schema that merges nothing under the name. */
  lemma TopGives(m: Member, ui: seq<Member>, defsUi: seq<Member>, defs: seq<Member>, depth: nat, x: string)
    requires SaneMember(m) && TextRefsAt(PlaceOf(m.key), m.value) && !PlaceOf(x).Alternatives?
    requires PlaceOf(m.key).AllOf? || PlaceOf(m.key).Conditional? ==> Last(MemberWrites(m, defs, depth), x).None?
    requires ObjectMember(m, ui, defsUi, defs, depth).Ok?
    ensures var given := Given(m, x, defsUi);
      Get(ObjectMember(m, ui, defsUi, defs, depth).value, x) == if given.Some? then given else Get(ui, x)
  {
    hide PlaceOf, Sane, PropertyUi, TextRefs, ExtractAll, ExtractList, Extract, PropertyEachUi, MemberWrites;
    match PlaceOf(m.key)
    case Properties => MemberGives(m, ui, defsUi, x);
    case Items => MemberGives(m, ui, defsUi, x);
    case AllOf => MergesNothing(m, ui, defs, depth, x);
    case Conditional => MergesNothing(m, ui, defs, depth, x);
    case Ui => GetSet(ui, m.key, m.value, x);
    case Alternatives =>
      if m.value.Arr? { GetSet(ui, m.key, Arr(ExtractList(m.value.items, defs, depth).value), x); }
    case _ =>
  }

  lemma MergesNothing(m: Member, ui: seq<Member>, defs: seq<Member>, depth: nat, x: string)
    requires Last(MemberWrites(m, defs, depth), x).None? && ExtractMember(m, ui, defs, depth).Ok?
    ensures Get(ExtractMember(m, ui, defs, depth).value, x) == Get(ui, x)
  {
    hide MemberWrites, ExtractMember, Get;
    MemberAssigns(m, ui, defs, depth);
    GetUpdate(ui, MemberWrites(m, defs, depth), x);
  }

  function Wanted(ms: seq<Member>, x: string, defsUi: seq<Member>): Option<Value> {
    var m := Get(ms, Source(x));
    if m.Some? then Given(Member(Source(x), m.value), x, defsUi) else None
  }

  lemma WantedFirst(ms: seq<Member>, x: string, defsUi: seq<Member>)
    requires Sane(ms) && ms != [] && !PlaceOf(x).Alternatives?
    ensures Sane(ms[1..])
    ensures var rest, first := Wanted(ms[1..], x, defsUi), Given(ms[0], x, defsUi);
      Wanted(ms, x, defsUi) == if rest.Some? then rest else first
  {
    NotInTail(ms);
    hide Given, SaneMember, Source;
    forall i | 0 <= i < |ms[1..]| ensures SaneMember(ms[1..][i]) { assert ms[1..][i] == ms[i + 1]; }
    if ms[0].key == Source(x) {
      assert ms[0] == Member(Source(x), ms[0].value);
    } else {
      OnlySourceGives(ms[0], x, defsUi);
    }
  }

  lemma {:induction false} KeysGive(ms: seq<Member>, ui: seq<Member>, defsUi: seq<Member>, x: string)
    requires Sane(ms) && AllText(ms) && !PlaceOf(x).Alternatives?
    ensures PropertyKeys(ms, ui, defsUi).Ok?
    ensures var wanted := Wanted(ms, x, defsUi);
      Get(PropertyKeys(ms, ui, defsUi).value, x) == if wanted.Some? then wanted else Get(ui, x)
    decreases |ms|
  {
    PropertyKeysOk(ms, ui, defsUi);
    if ms != [] {
      assert AllText(ms[1..]);
      WantedFirst(ms, x, defsUi);
      MemberGives(ms[0], ui, defsUi, x);
      hide PropertyMember, Given, SaneMember, Wanted, TextRefsAt, PlaceOf;
      KeysGive(ms[1..], PropertyMember(ms[0], ui, defsUi).value, defsUi, x);
    }
  }

  /** Nothing under this name is merged into the top from `allOf` or a condition. */
  predicate Unmerged(ms: seq<Member>, x: string, defs: seq<Member>, depth: nat) {
    forall i | 0 <= i < |ms| && (PlaceOf(ms[i].key).AllOf? || PlaceOf(ms[i].key).Conditional?) ::
      Last(MemberWrites(ms[i], defs, depth), x).None?
  }

  lemma {:induction false} TopKeysGive(ms: seq<Member>, ui: seq<Member>, defsUi: seq<Member>, defs: seq<Member>,
      depth: nat, x: string)
    requires Sane(ms) && AllText(ms) && Unmerged(ms, x, defs, depth) && !PlaceOf(x).Alternatives?
    requires ObjectUi(ms, ui, defsUi, defs, depth).Ok?
    ensures var wanted := Wanted(ms, x, defsUi);
      Get(ObjectUi(ms, ui, defsUi, defs, depth).value, x) == if wanted.Some? then wanted else Get(ui, x)
    decreases |ms|
  {
    if ms != [] {
      assert AllText(ms[1..]) && Unmerged(ms[1..], x, defs, depth);
      WantedFirst(ms, x, defsUi);
      TopGives(ms[0], ui, defsUi, defs, depth, x);
      hide ObjectMember, Given, SaneMember, Wanted, TextRefsAt, PlaceOf;
      TopKeysGive(ms[1..], ObjectMember(ms[0], ui, defsUi, defs, depth).value, defsUi, defs, depth, x);
    }
  }

  // ── All levels ──

  /** What stands below one turn is sane and has text references. */
  lemma TurnIsSane(ms: seq<Member>, defsUi: seq<Member>, t: Turn)
    requires Sane(ms) && AllText(ms) && Below(ms, t).Some?
    ensures var next := Below(ms, t); Sane(next.value) && TextRefs(next.value) && PropertyUi(next.value, defsUi).Ok?
  {
    KeyNames();
    var next := Below(ms, t);
    var source := if t.Item? then "items" else "properties";
    var i :| 0 <= i < |ms| && ms[i] == Member(source, Get(ms, source).value);
    assert SaneMember(ms[i]) && TextRefsAt(PlaceOf(source), ms[i].value);
    if t.Property? {
      var props := ms[i].value.members;
      var j :| 0 <= j < |props| && props[j] == Member(t.name, Get(props, t.name).value);
      assert SaneProperties(props);
    }
    PropertyUiOk(next.value, defsUi);
  }

  /** It is wanted exactly when it shows something. */
  lemma TurnWants(ms: seq<Member>, defsUi: seq<Member>, t: Turn)
    requires Sane(ms) && AllText(ms) && (t.Property? ==> FreeName(t.name))
    ensures var next := Below(ms, t);
      && (next.Some? ==> Sane(next.value) && TextRefs(next.value) && PropertyUi(next.value, defsUi).Ok?)
      && Wanted(ms, UiName(t), defsUi)
         == (if next.Some? && Shows(next.value, defsUi) then Some(Obj(UiOf(next.value, defsUi))) else None)
  {
    KeyNames();
    var next := Below(ms, t);
    hide Sane, TextRefs, AllText, PropertyUi, Shows;
    if next.Some? {
      TurnIsSane(ms, defsUi, t);
      ShowsIff(next.value, defsUi);
    }
    hide PlaceOf, Get;
  }

  predicate Sensible(path: seq<Turn>) {
    forall i | 0 <= i < |path| && path[i].Property? :: FreeName(path[i].name)
  }

  lemma UiIsWanted(key: string, ms: seq<Member>, defsUi: seq<Member>)
    requires PlaceOf(key).Ui?
    ensures Wanted(ms, key, defsUi) == Get(ms, key) && !PlaceOf(key).Alternatives?
  {
  }

  lemma TurnIsNoList(t: Turn)
    requires t.Property? ==> FreeName(t.name)
    ensures !PlaceOf(UiName(t)).Alternatives?
  {
    KeyNames();
  }

  /** On every path, a property's `ui` half holds the `ui:` key a reader expects there, and no other. */
  lemma {:induction false} UiIsExpected(ms: seq<Member>, defsUi: seq<Member>, path: seq<Turn>, key: string)
    requires Sane(ms) && TextRefs(ms) && Sensible(path) && PlaceOf(key).Ui?
    ensures PropertyUi(ms, defsUi).Ok?
    ensures InUi(PropertyUi(ms, defsUi).value, path, key) == Expected(ms, defsUi, path, key)
    decreases |path|
  {
    PropertyUiOk(ms, defsUi);
    assert AllText(ms) && Referred(ms, defsUi).Ok?;
    var ui := FromRef(ms, defsUi);
    if path == [] {
      UiIsWanted(key, ms, defsUi);
      KeysGive(ms, ui, defsUi, key);
    } else {
      TurnIsNoList(path[0]);
      KeysGive(ms, ui, defsUi, UiName(path[0]));
      TurnWants(ms, defsUi, path[0]);
      var next := Below(ms, path[0]);
      hide PlaceOf, Sane, TextRefs, Below, Wanted, PropertyKeys, Referred;
      if next.Some? {
        assert Sensible(path[1..]);
        UiIsExpected(next.value, defsUi, path[1..], key);
      }
    }
  }

  // ── Without references ──

  /** No subschema at property or item level refers anywhere. */
  predicate RefFree(ms: seq<Member>)
    decreases ms, 0
  {
    !Has(ms, "$ref") && forall i | 0 <= i < |ms| :: RefFreeAt(PlaceOf(ms[i].key), ms[i].value)
  }

  predicate RefFreeAt(p: Place, value: Value)
    decreases value, 1
  {
    match value
    case Obj(ms) =>
      if p.Properties? then forall i | 0 <= i < |ms| && ms[i].value.Obj? :: RefFree(ms[i].value.members)
      else p.Items? ==> RefFree(ms)
    case _ => true
  }

  lemma BelowIsRefFree(ms: seq<Member>, t: Turn)
    requires forall i | 0 <= i < |ms| :: RefFreeAt(PlaceOf(ms[i].key), ms[i].value)
    ensures Below(ms, t).Some? ==> RefFree(Below(ms, t).value)
  {
    KeyNames();
    if Below(ms, t).Some? {
      var source := if t.Item? then "items" else "properties";
      var i :| 0 <= i < |ms| && ms[i] == Member(source, Get(ms, source).value);
      assert RefFreeAt(PlaceOf(source), ms[i].value);
      if t.Property? {
        var props := ms[i].value.members;
        var j :| 0 <= j < |props| && props[j] == Member(t.name, Get(props, t.name).value);
      }
    }
  }

  lemma NothingInside(path: seq<Turn>, key: string)
    ensures InUi([], path, key) == None
  {
  }

  /** Nothing is expected below a part that shows nothing. */
  lemma NothingShown(ms: seq<Member>, defsUi: seq<Member>, path: seq<Turn>, key: string)
    requires Sane(ms) && TextRefs(ms) && Sensible(path) && PlaceOf(key).Ui? && !Shows(ms, defsUi)
    ensures Expected(ms, defsUi, path, key) == None
  {
    hide Sane, TextRefs, Sensible, PlaceOf, Shows, PropertyUi, Expected;
    UiIsExpected(ms, defsUi, path, key);
    ShowsIff(ms, defsUi);
    NothingInside(path, key);
  }

  /** Then what a reader expects is what the schema itself has there. */
  lemma {:induction false} ExpectedIsOwn(ms: seq<Member>, defsUi: seq<Member>, path: seq<Turn>, key: string)
    requires Sane(ms) && TextRefs(ms) && RefFree(ms) && Sensible(path) && PlaceOf(key).Ui?
    ensures Expected(ms, defsUi, path, key) == InSchema(ms, path, key)
    decreases |path|
  {
    assert FromRef(ms, defsUi) == [];
    NothingInside(path, key);
    if path != [] {
      BelowIsRefFree(ms, path[0]);
      assert AllText(ms);
      hide PlaceOf, Sane, TextRefs, AllText, Below, RefFree, Shows, FromRef;
      var next := Below(ms, path[0]);
      if next.Some? {
        TurnIsSane(ms, defsUi, path[0]);
        assert Sensible(path[1..]);
        ExpectedIsOwn(next.value, defsUi, path[1..], key);
        if !Shows(next.value, defsUi) { NothingShown(next.value, defsUi, path[1..], key); }
      }
    }
  }

  // ── The split ──

  /** What a reader expects of the whole schema, whose own top-level reference brings nothing. */
  function ExpectedAtTop(schema: seq<Member>, defsUi: seq<Member>, path: seq<Turn>, key: string): Option<Value> {
    if path == [] then Get(schema, key)
    else
      var next := Below(schema, path[0]);
      if next.Some? && Shows(next.value, defsUi) then Expected(next.value, defsUi, path[1..], key) else None
  }

  /** The name a path starts with in the `ui` half. */
  function FirstName(path: seq<Turn>, key: string): string {
    if path == [] then key else UiName(path[0])
  }

  /** On every path the split's `ui` half holds the `ui:` key a reader expects there, and no other. */
  lemma SplitKeepsPlaces(schema: seq<Member>, depth: nat, path: seq<Turn>, key: string)
    requires Sane(schema) && AllText(schema) && Sensible(path) && PlaceOf(key).Ui? && Split(schema, depth).Ok?
    requires Unmerged(schema, FirstName(path, key), DefsOf(schema).value, depth)
    ensures DefsOf(schema).Ok? && DefsUi(DefsOf(schema).value, DefsOf(schema).value, depth).Ok?
    ensures var defsUi := DefsUi(DefsOf(schema).value, DefsOf(schema).value, depth).value;
      InUi(Split(schema, depth).value.ui, path, key) == ExpectedAtTop(schema, defsUi, path, key)
  {
    var defs := DefsOf(schema).value;
    var defsUi := DefsUi(defs, defs, depth).value;
    var x := FirstName(path, key);
    UiIsWanted(key, schema, defsUi);
    if path != [] {
      TurnIsNoList(path[0]);
      TurnWants(schema, defsUi, path[0]);
    }
    TopKeysGive(schema, [], defsUi, defs, depth, x);
    hide PlaceOf, Sane, TextRefs, Below, Wanted, ObjectUi, ObjectJson, Extract, DefsUi, DefsOf, UiName;
    if path != [] {
      var next := Below(schema, path[0]);
      if next.Some? {
        assert Sensible(path[1..]);
        UiIsExpected(next.value, defsUi, path[1..], key);
      }
    }
  }

  /**
   A clean schema without references loses nothing: `ui:` keys keep their paths, and the rest is the stripped
   schema.
   */
  lemma SplitLosesNothing(schema: seq<Member>, depth: nat, path: seq<Turn>, key: string)
    requires Sane(schema) && AllText(schema) && Sensible(path) && PlaceOf(key).Ui? && Split(schema, depth).Ok?
    requires Unmerged(schema, FirstName(path, key), DefsOf(schema).value, depth)
    requires Clean(schema) && RefFree(schema)
    ensures var halves := Split(schema, depth).value;
      halves.json == Strip(schema) && InUi(halves.ui, path, key) == InSchema(schema, path, key)
  {
    SplitKeepsPlaces(schema, depth, path, key);
    JsonHalfIsStrippedIff(schema);
    var defsUi := DefsUi(DefsOf(schema).value, DefsOf(schema).value, depth).value;
    if path != [] {
      BelowIsRefFree(schema, path[0]);
      hide PlaceOf, Sane, TextRefs, AllText, Below, RefFree, Shows, ObjectUi, ObjectJson, Extract, DefsUi, DefsOf,
        Clean, Strip;
      var next := Below(schema, path[0]);
      if next.Some? {
        TurnIsSane(schema, defsUi, path[0]);
        assert Sensible(path[1..]);
        ExpectedIsOwn(next.value, defsUi, path[1..], key);
        if !Shows(next.value, defsUi) { NothingShown(next.value, defsUi, path[1..], key); }
      }
    }
  }
}
