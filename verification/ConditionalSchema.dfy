/** Fields shown only when a trigger field has a given value, rewritten into if/then clauses. */
module ConditionalSchema {
  import opened Json
  import opened OrderedDict
  import opened Wrappers

  datatype ShowWhen = Flag(b: bool) | Text(s: string) | OneOf(options: seq<string>)

  datatype Conditional = Conditional(trigger: string, showWhen: ShowWhen, requiredWhenShown: bool)

  /** A one-element list is stored as its element. */
  function Normal(w: ShowWhen): ShowWhen {
    if w.OneOf? && |w.options| == 1 then Text(w.options[0]) else w
  }

  /** A model field and the conditional markers in its metadata, of which the first counts. */
  datatype FieldInfo = FieldInfo(name: string, markers: seq<Conditional>)

  function MarkerOf(f: FieldInfo): Option<Conditional> {
    if f.markers == [] then None else Some(f.markers[0])
  }

  /** What fields are grouped by. */
  datatype Key = Key(trigger: string, showWhen: ShowWhen)

  datatype Entry = Entry(name: string, required: bool)

  function KeyOf(c: Conditional): Key {
    Key(c.trigger, Normal(c.showWhen))
  }

  predicate Collected(f: FieldInfo, props: seq<Member>) {
    MarkerOf(f).Some? && Has(props, f.name)
  }

  type Groups = Dict<Key, seq<Entry>>

  /** `conditions.setdefault(key, []).append(...)`. */
  function Append(groups: Groups, key: Key, entry: Entry): Groups {
    Put(groups, key, (if key in groups.vals then groups.vals[key] else []) + [entry])
  }

  function Collect(fields: seq<FieldInfo>, props: seq<Member>): Groups {
    if fields == [] then Empty()
    else
      var before, f := Collect(fields[..|fields| - 1], props), fields[|fields| - 1];
      if Collected(f, props) then Append(before, KeyOf(MarkerOf(f).value),
        Entry(f.name, MarkerOf(f).value.requiredWhenShown))
      else before
  }

  /** The names that move into clauses. */
  function Moved(fields: seq<FieldInfo>, props: seq<Member>): set<string> {
    set f | f in fields && Collected(f, props) :: f.name
  }

  method CollectConditions(fields: seq<FieldInfo>, props: seq<Member>)
      returns (conditions: Groups, toRemove: set<string>)
    ensures conditions == Collect(fields, props) && toRemove == Moved(fields, props)
  {
    conditions, toRemove := Empty(), {};
    for i := 0 to |fields|
      invariant conditions == Collect(fields[..i], props) && toRemove == Moved(fields[..i], props)
    {
      var f := fields[i];
      assert fields[..i + 1] == fields[..i] + [f];
      if Collected(f, props) {
        var c := MarkerOf(f).value;
        conditions := Append(conditions, KeyOf(c), Entry(f.name, c.requiredWhenShown));
        toRemove := toRemove + {f.name};
      }
    }
    assert fields[..|fields|] == fields;
  }

  // ── Grouping loses nothing ──

  predicate DistinctNames(fields: seq<FieldInfo>) {
    forall i, j | 0 <= i < j < |fields| :: fields[i].name != fields[j].name
  }

  /** Field `f` stands in `groups` under its own key. */
  ghost predicate Stands(groups: Groups, f: FieldInfo) {
    MarkerOf(f).Some? && KeyOf(MarkerOf(f).value) in groups.vals
    && Entry(f.name, MarkerOf(f).value.requiredWhenShown) in groups.vals[KeyOf(MarkerOf(f).value)]
  }

  /** Entry `e` under `key` comes from a field. */
  ghost predicate Comes(fields: seq<FieldInfo>, props: seq<Member>, key: Key, e: Entry) {
    exists f ::
      f in fields && Collected(f, props) && KeyOf(MarkerOf(f).value) == key
      && e == Entry(f.name, MarkerOf(f).value.requiredWhenShown)
  }

  ghost predicate Faithful(groups: Groups, fields: seq<FieldInfo>, props: seq<Member>) {
    && Valid(groups)
    && (forall f | f in fields && Collected(f, props) :: Stands(groups, f))
    && (forall k, e | k in groups.vals && e in groups.vals[k] :: Comes(fields, props, k, e))
    && (forall k | k in groups.vals :: forall i, j | 0 <= i < j < |groups.vals[k]| ::
      groups.vals[k][i].name != groups.vals[k][j].name)
  }

  /** Every collected field is in exactly one group, once, and the groups hold nothing else. */
  lemma {:induction false} GroupsAreFaithful(fields: seq<FieldInfo>, props: seq<Member>)
    requires DistinctNames(fields)
    ensures Faithful(Collect(fields, props), fields, props)
    decreases |fields|
  {
    if fields != [] {
      var before, f := fields[..|fields| - 1], fields[|fields| - 1];
      assert fields == before + [f];
      GroupsAreFaithful(before, props);
      var groups := Collect(before, props);
      ComesLater(groups, before, f, props);
      if Collected(f, props) {
        var c := MarkerOf(f).value;
        PutValid(groups, KeyOf(c), (if KeyOf(c) in groups.vals then groups.vals[KeyOf(c)] else [])
          + [Entry(f.name, c.requiredWhenShown)]);
        NewName(groups, before, f, props);
        AppendFaithful(groups, before, f, props);
      }
    }
  }

  lemma ComesLater(groups: Groups, before: seq<FieldInfo>, f: FieldInfo, props: seq<Member>)
    requires Faithful(groups, before, props)
    ensures forall k, e | k in groups.vals && e in groups.vals[k] :: Comes(before + [f], props, k, e)
  {
    forall k, e | k in groups.vals && e in groups.vals[k] ensures Comes(before + [f], props, k, e) {
      var g :|
        g in before && Collected(g, props) && KeyOf(MarkerOf(g).value) == k
        && e == Entry(g.name, MarkerOf(g).value.requiredWhenShown);
      assert g in before + [f];
    }
  }

  lemma NewName(groups: Groups, before: seq<FieldInfo>, f: FieldInfo, props: seq<Member>)
    requires Faithful(groups, before, props) && DistinctNames(before + [f])
    ensures forall k, e | k in groups.vals && e in groups.vals[k] :: e.name != f.name
  {
    forall k, e | k in groups.vals && e in groups.vals[k] ensures e.name != f.name {
      assert Comes(before, props, k, e);
      var g :| g in before && e.name == g.name;
      var i :| 0 <= i < |before| && before[i] == g;
      assert (before + [f])[i].name != (before + [f])[|before|].name;
    }
  }

  /** The new entry comes last in its group and stands for the new field. */
  lemma AppendStands(groups: Groups, before: seq<FieldInfo>, f: FieldInfo, props: seq<Member>)
    requires Faithful(groups, before, props) && Collected(f, props)
    ensures forall g | g in before + [f] && Collected(g, props) ::
      Stands(Append(groups, KeyOf(MarkerOf(f).value), Entry(f.name, MarkerOf(f).value.requiredWhenShown)), g)
  {
    hide Valid, Has, Comes;
    var c := MarkerOf(f).value;
    var next := Append(groups, KeyOf(c), Entry(f.name, c.requiredWhenShown));
    forall g | g in before + [f] && Collected(g, props) ensures Stands(next, g) {
      if g in before {
        assert Stands(groups, g);
      } else {
        assert Entry(f.name, c.requiredWhenShown) in next.vals[KeyOf(c)];
      }
    }
  }

  lemma AppendDistinct(es: seq<Entry>, e: Entry)
    requires forall i, j | 0 <= i < j < |es| :: es[i].name != es[j].name
    requires forall x | x in es :: x.name != e.name
    ensures forall i, j | 0 <= i < j < |es + [e]| :: (es + [e])[i].name != (es + [e])[j].name
  {
  }

  lemma AppendComes(groups: Groups, fields: seq<FieldInfo>, key: Key, entry: Entry, props: seq<Member>)
    requires forall k, e | k in groups.vals && e in groups.vals[k] :: Comes(fields, props, k, e)
    requires Comes(fields, props, key, entry)
    ensures var next := Append(groups, key, entry);
      forall k, e | k in next.vals && e in next.vals[k] :: Comes(fields, props, k, e)
  {
    hide Comes;
    var next := Append(groups, key, entry);
    forall k, e | k in next.vals && e in next.vals[k] ensures Comes(fields, props, k, e) {
      if k != key || e != entry { assert k in groups.vals && e in groups.vals[k]; }
    }
  }

  lemma AppendFaithful(groups: Groups, before: seq<FieldInfo>, f: FieldInfo, props: seq<Member>)
    requires Faithful(groups, before, props) && Collected(f, props)
    requires forall k, e | k in groups.vals && e in groups.vals[k] ::
      e.name != f.name && Comes(before + [f], props, k, e)
    requires Valid(Append(groups, KeyOf(MarkerOf(f).value), Entry(f.name, MarkerOf(f).value.requiredWhenShown)))
    ensures Faithful(Append(groups, KeyOf(MarkerOf(f).value), Entry(f.name, MarkerOf(f).value.requiredWhenShown)),
      before + [f], props)
  {
    var c := MarkerOf(f).value;
    var key, entry := KeyOf(c), Entry(f.name, c.requiredWhenShown);
    var next := Append(groups, key, entry);
    AppendStands(groups, before, f, props);
    assert Comes(before + [f], props, key, entry) by { assert f in before + [f]; }
    hide Valid, Has, Comes, Stands, Collected;
    AppendComes(groups, before + [f], key, entry, props);
    AppendDistinct(if key in groups.vals then groups.vals[key] else [], entry);
  }

  // ── The rewritten schema ──

  /** The test an `if` clause puts on its trigger, which it also requires. */
  datatype Test = Const(value: Value) | Enum(values: seq<Value>)

  function TestOf(w: ShowWhen): Test {
    match w
    case Flag(b) => Const(Bool(b))
    case Text(s) => Const(Str(s))
    case OneOf(options) => Enum(seq(|options|, i requires 0 <= i < |options| => Str(options[i])))
  }

  datatype Clause = Clause(trigger: string, test: Test, properties: seq<Member>, required: seq<string>)

  /** `allOf` holds what was there before and then the clauses. */
  datatype Schema = Schema(properties: seq<Member>, required: Option<seq<string>>, others: seq<Value>,
    clauses: seq<Clause>)

  /** A property schema as it stands in a clause: a reference resolved, its siblings laid over the target. */
  type Resolver = Value -> Value

  function ClauseOf(key: Key, entries: seq<Entry>, props: seq<Member>, resolve: Resolver): Clause {
    Clause(key.trigger, TestOf(key.showWhen), ThenProperties(entries, props, resolve), ThenRequired(entries))
  }

  function ThenProperties(entries: seq<Entry>, props: seq<Member>, resolve: Resolver): seq<Member> {
    seq(|entries|, i requires 0 <= i < |entries| =>
      Member(entries[i].name, resolve(if Has(props, entries[i].name) then Get(props, entries[i].name).value else Null)))
  }

  function ThenRequired(entries: seq<Entry>): seq<string> {
    if entries == [] then []
    else
      ThenRequired(entries[..|entries| - 1])
        + (if entries[|entries| - 1].required then [entries[|entries| - 1].name] else [])
  }

  function WithoutAll(ms: seq<Member>, names: set<string>): seq<Member> {
    if ms == [] then [] else (if ms[0].key in names then [] else [ms[0]]) + WithoutAll(ms[1..], names)
  }

  function WithoutNames(ns: seq<string>, names: set<string>): seq<string> {
    if ns == [] then [] else (if ns[0] in names then [] else [ns[0]]) + WithoutNames(ns[1..], names)
  }

  function Rewritten(fields: seq<FieldInfo>, schema: Schema, resolve: Resolver): Schema {
    var groups := Collect(fields, schema.properties);
    if schema.properties == [] || groups.order == [] then schema
    else
      var moved := Moved(fields, schema.properties);
      Schema(
        WithoutAll(schema.properties, moved),
        if schema.required.Some? then Some(WithoutNames(schema.required.value, moved)) else None,
        schema.others,
        schema.clauses + ClausesOf(groups, groups.order, schema.properties, resolve))
  }

  function ClausesOf(groups: Groups, keys: seq<Key>, props: seq<Member>, resolve: Resolver): seq<Clause> {
    if keys == [] then []
    else
      ClausesOf(groups, keys[..|keys| - 1], props, resolve)
      + [ClauseOf(keys[|keys| - 1], if keys[|keys| - 1] in groups.vals then groups.vals[keys[|keys| - 1]]
        else [], props, resolve)]
  }

  /** One clause: the loop over a group's fields. */
  method BuildClause(key: Key, entries: seq<Entry>, props: seq<Member>, resolve: Resolver) returns (clause: Clause)
    ensures clause == ClauseOf(key, entries, props, resolve)
  {
    hide TestOf;
    var thenProps: seq<Member>, thenRequired: seq<string> := [], [];
    for j := 0 to |entries|
      invariant thenProps == ThenProperties(entries, props, resolve)[..j]
      invariant thenRequired == ThenRequired(entries[..j])
    {
      var name := entries[j].name;
      thenProps := thenProps + [Member(name, resolve(if Has(props, name) then Get(props, name).value else Null))];
      assert entries[..j + 1][..j] == entries[..j];
      if entries[j].required {
        thenRequired := thenRequired + [name];
      }
    }
    assert entries[..|entries|] == entries;
    clause := Clause(key.trigger, TestOf(key.showWhen), thenProps, thenRequired);
  }

  /** `__get_pydantic_json_schema__`, after the handler's own schema. */
  method RewriteSchema(fields: seq<FieldInfo>, schema: Schema, resolve: Resolver) returns (out: Schema)
    ensures out == Rewritten(fields, schema, resolve)
  {
    if schema.properties == [] {
      return schema;
    }
    var conditions, toRemove := CollectConditions(fields, schema.properties);
    if conditions.order == [] {
      return schema;
    }
    hide Collect, Moved, ClauseOf;
    var clauses: seq<Clause> := [];
    var order := conditions.order;
    for i := 0 to |order|
      invariant clauses == ClausesOf(conditions, order[..i], schema.properties, resolve)
    {
      var clause := BuildClause(order[i], if order[i] in conditions.vals then conditions.vals[order[i]]
        else [], schema.properties, resolve);
      assert order[..i + 1][..i] == order[..i];
      clauses := clauses + [clause];
    }
    assert order[..|order|] == order;
    var required := schema.required;
    if required.Some? {
      required := Some(WithoutNames(required.value, toRemove));
    }
    out := Schema(WithoutAll(schema.properties, toRemove), required, schema.others, schema.clauses + clauses);
  }

  // ── What an instance sees ──

  /** The `if` clause: the trigger is there and passes the test. */
  predicate Holds(trigger: string, test: Test, instance: seq<Member>) {
    Has(instance, trigger) &&
    var v := Get(instance, trigger).value;
    match test
    case Const(w) => v == w
    case Enum(ws) => v in ws
  }

  /** A field's own condition, as declared: the trigger has the value, or one of the values. */
  predicate Shown(c: Conditional, instance: seq<Member>) {
    Has(instance, c.trigger) &&
    var v := Get(instance, c.trigger).value;
    match c.showWhen
    case Flag(b) => v == Bool(b)
    case Text(s) => v == Str(s)
    case OneOf(options) => v.Str? && v.s in options
  }

  lemma TestIsShown(c: Conditional, instance: seq<Member>)
    ensures Holds(c.trigger, TestOf(Normal(c.showWhen)), instance) <==> Shown(c, instance)
  {
    if Has(instance, c.trigger) && c.showWhen.OneOf? {
      var v := Get(instance, c.trigger).value;
      var options := c.showWhen.options;
      var ws := seq(|options|, i requires 0 <= i < |options| => Str(options[i]));
      assert TestOf(OneOf(options)) == Enum(ws);
      if v.Str? && v.s in options {
        var i :| 0 <= i < |options| && options[i] == v.s;
        assert ws[i] == v;
      }
    }
  }

  /** The clause applies and has a property `name`. */
  ghost predicate Offers(c: Clause, instance: seq<Member>, name: string) {
    Holds(c.trigger, c.test, instance) && exists m :: m in c.properties && m.key == name
  }

  ghost predicate Demands(c: Clause, instance: seq<Member>, name: string) {
    Holds(c.trigger, c.test, instance) && name in c.required
  }

  /** Field `name` is offered for this instance: a plain property, or one of a clause that applies. */
  ghost predicate Visible(s: Schema, instance: seq<Member>, name: string) {
    Has(s.properties, name)
    || SomeOffers(s.clauses, instance, name)
  }

  ghost predicate Demanded(s: Schema, instance: seq<Member>, name: string) {
    (s.required.Some? && name in s.required.value)
    || SomeDemands(s.clauses, instance, name)
  }

  /** The same, reading each field's marker by itself. */
  ghost predicate VisibleAlone(fields: seq<FieldInfo>, s: Schema, instance: seq<Member>, name: string) {
    Has(s.properties, name) && forall f | f in fields && f.name == name && f.markers != [] ::
      Shown(f.markers[0], instance)
  }

  ghost predicate DemandedAlone(fields: seq<FieldInfo>, s: Schema, instance: seq<Member>, name: string) {
    if name in Moved(fields, s.properties) then
      exists f :: f in fields && f.name == name && Collected(f, s.properties)
        && Shown(f.markers[0], instance) && f.markers[0].requiredWhenShown
    else s.required.Some? && name in s.required.value
  }

  lemma {:induction false} WithoutAllHas(ms: seq<Member>, names: set<string>, name: string)
    ensures Has(WithoutAll(ms, names), name) <==> Has(ms, name) && name !in names
    decreases |ms|
  {
    if ms != [] {
      WithoutAllHas(ms[1..], names, name);
      assert [] + WithoutAll(ms[1..], names) == WithoutAll(ms[1..], names);
      if ms[0].key !in names {
        assert ([ms[0]] + WithoutAll(ms[1..], names))[1..] == WithoutAll(ms[1..], names);
      }
    }
  }

  lemma {:induction false} WithoutNamesHas(ns: seq<string>, names: set<string>, name: string)
    ensures name in WithoutNames(ns, names) <==> name in ns && name !in names
    decreases |ns|
  {
    if ns != [] {
      WithoutNamesHas(ns[1..], names, name);
      assert ns == [ns[0]] + ns[1..];
    }
  }

  lemma {:induction false} ClausesAre(groups: Groups, keys: seq<Key>, props: seq<Member>, resolve: Resolver, c: Clause)
    requires forall k | k in keys :: k in groups.vals
    ensures c in ClausesOf(groups, keys, props, resolve) <==>
      exists k :: k in keys && c == ClauseOf(k, groups.vals[k], props, resolve)
    decreases |keys|
  {
    hide ClauseOf;
    if keys != [] {
      var before := keys[..|keys| - 1];
      assert keys == before + [keys[|keys| - 1]];
      ClausesAre(groups, before, props, resolve, c);
    }
  }

  lemma {:induction false} ThenRequiredHas(entries: seq<Entry>, name: string)
    ensures name in ThenRequired(entries) <==> Entry(name, true) in entries
    decreases |entries|
  {
    if entries != [] {
      var before := entries[..|entries| - 1];
      assert entries == before + [entries[|entries| - 1]];
      ThenRequiredHas(before, name);
    }
  }

  lemma ThenPropertiesHas(entries: seq<Entry>, props: seq<Member>, resolve: Resolver, name: string)
    ensures (exists m :: m in ThenProperties(entries, props, resolve) && m.key == name) <==>
      exists e :: e in entries && e.name == name
  {
    var ms := ThenProperties(entries, props, resolve);
    if e :| e in entries && e.name == name {
      var i :| 0 <= i < |entries| && entries[i] == e;
      assert ms[i].key == name && ms[i] in ms;
    }
  }

  /** A clause of the rewritten schema that applies and names `name`, in terms of the groups. */
  ghost predicate InGroup(groups: Groups, instance: seq<Member>, e: Entry) {
    exists k :: k in groups.vals && Holds(k.trigger, TestOf(k.showWhen), instance) && e in groups.vals[k]
  }

  lemma GroupIsMarker(fields: seq<FieldInfo>, props: seq<Member>, instance: seq<Member>, e: Entry)
    requires DistinctNames(fields)
    ensures InGroup(Collect(fields, props), instance, e) <==>
      exists f ::
        f in fields && f.name == e.name && Collected(f, props) && Shown(MarkerOf(f).value, instance)
        && MarkerOf(f).value.requiredWhenShown == e.required
  {
    var groups := Collect(fields, props);
    GroupsAreFaithful(fields, props);
    hide Collect, Holds, Shown, Has, TestOf, Valid;
    if InGroup(groups, instance, e) {
      var k :| k in groups.vals && Holds(k.trigger, TestOf(k.showWhen), instance) && e in groups.vals[k];
      var f :|
        f in fields && Collected(f, props) && KeyOf(MarkerOf(f).value) == k
        && e == Entry(f.name, MarkerOf(f).value.requiredWhenShown);
      TestIsShown(MarkerOf(f).value, instance);
    }
    if f :|
      f in fields && f.name == e.name && Collected(f, props) && Shown(MarkerOf(f).value, instance)
      && MarkerOf(f).value.requiredWhenShown == e.required
    {
      TestIsShown(MarkerOf(f).value, instance);
      assert Stands(groups, f);
    }
  }

  lemma SameField(fields: seq<FieldInfo>, f: FieldInfo, g: FieldInfo)
    requires DistinctNames(fields) && f in fields && g in fields && f.name == g.name
    ensures f == g
  {
  }

  lemma ClauseSays(k: Key, entries: seq<Entry>, props: seq<Member>, resolve: Resolver, instance: seq<Member>,
      name: string)
    ensures var c := ClauseOf(k, entries, props, resolve);
      && (Offers(c, instance, name) <==>
        Holds(k.trigger, TestOf(k.showWhen), instance) && exists e :: e in entries && e.name == name)
      && (Demands(c, instance, name) <==>
        Holds(k.trigger, TestOf(k.showWhen), instance) && Entry(name, true) in entries)
  {
    hide Holds, TestOf, ThenProperties, ThenRequired;
    ThenPropertiesHas(entries, props, resolve, name);
    ThenRequiredHas(entries, name);
  }

  ghost predicate SomeOffers(clauses: seq<Clause>, instance: seq<Member>, name: string) {
    exists c :: c in clauses && Offers(c, instance, name)
  }

  ghost predicate SomeDemands(clauses: seq<Clause>, instance: seq<Member>, name: string) {
    exists c :: c in clauses && Demands(c, instance, name)
  }

  lemma OffersAre(groups: Groups, clauses: seq<Clause>, props: seq<Member>, resolve: Resolver, instance: seq<Member>,
      name: string)
    requires forall k | k in groups.vals :: ClauseOf(k, groups.vals[k], props, resolve) in clauses
    requires forall c | c in clauses :: exists k :: k in groups.vals && c == ClauseOf(k, groups.vals[k], props, resolve)
    ensures SomeOffers(clauses, instance, name) <==> exists required :: InGroup(groups, instance, Entry(name, required))
  {
    hide Holds, TestOf, ClauseOf, Offers;
    if SomeOffers(clauses, instance, name) {
      var c :| c in clauses && Offers(c, instance, name);
      var k :| k in groups.vals && c == ClauseOf(k, groups.vals[k], props, resolve);
      ClauseSays(k, groups.vals[k], props, resolve, instance, name);
      var e :| e in groups.vals[k] && e.name == name;
      assert e == Entry(name, e.required);
      assert InGroup(groups, instance, Entry(name, e.required));
    }
    if required :| InGroup(groups, instance, Entry(name, required)) {
      var k :|
        k in groups.vals && Holds(k.trigger, TestOf(k.showWhen), instance) && Entry(name, required) in groups.vals[k];
      ClauseSays(k, groups.vals[k], props, resolve, instance, name);
    }
  }

  lemma DemandsAre(groups: Groups, clauses: seq<Clause>, props: seq<Member>, resolve: Resolver, instance: seq<Member>,
      name: string)
    requires forall k | k in groups.vals :: ClauseOf(k, groups.vals[k], props, resolve) in clauses
    requires forall c | c in clauses :: exists k :: k in groups.vals && c == ClauseOf(k, groups.vals[k], props, resolve)
    ensures SomeDemands(clauses, instance, name) <==> InGroup(groups, instance, Entry(name, true))
  {
    hide Holds, TestOf, ClauseOf, Demands;
    if SomeDemands(clauses, instance, name) {
      var c :| c in clauses && Demands(c, instance, name);
      var k :| k in groups.vals && c == ClauseOf(k, groups.vals[k], props, resolve);
      ClauseSays(k, groups.vals[k], props, resolve, instance, name);
    }
    if InGroup(groups, instance, Entry(name, true)) {
      var k :|
        k in groups.vals && Holds(k.trigger, TestOf(k.showWhen), instance) && Entry(name, true) in groups.vals[k];
      ClauseSays(k, groups.vals[k], props, resolve, instance, name);
    }
  }

  /** The clauses that apply, in terms of the groups. */
  lemma ClauseEntries(fields: seq<FieldInfo>, props: seq<Member>, resolve: Resolver, instance: seq<Member>,
      name: string)
    requires DistinctNames(fields)
    ensures var groups := Collect(fields, props);
      var clauses := ClausesOf(groups, groups.order, props, resolve);
      && (SomeOffers(clauses, instance, name) <==> exists required :: InGroup(groups, instance, Entry(name, required)))
      && (SomeDemands(clauses, instance, name) <==> InGroup(groups, instance, Entry(name, true)))
  {
    var groups := Collect(fields, props);
    var clauses := ClausesOf(groups, groups.order, props, resolve);
    GroupsAreFaithful(fields, props);
    assert forall k :: k in groups.order <==> k in groups.vals;
    hide Collect, Valid, ClausesOf, ClauseOf, Faithful, SomeOffers, SomeDemands, InGroup;
    forall c ensures c in clauses <==>
        exists k :: k in groups.order && c == ClauseOf(k, groups.vals[k], props, resolve) {
      ClausesAre(groups, groups.order, props, resolve, c);
    }
    OffersAre(groups, clauses, props, resolve, instance, name);
    DemandsAre(groups, clauses, props, resolve, instance, name);
  }

  /** A collected field stands under its own key and nowhere else. */
  lemma InOneGroup(fields: seq<FieldInfo>, props: seq<Member>, f: FieldInfo, k: Key, e: Entry)
    requires DistinctNames(fields) && f in fields && Collected(f, props)
    ensures var groups := Collect(fields, props);
      k in groups.vals && e in groups.vals[k] && e.name == f.name ==>
        k == KeyOf(MarkerOf(f).value) && e.required == MarkerOf(f).value.requiredWhenShown
    ensures Stands(Collect(fields, props), f)
  {
    var groups := Collect(fields, props);
    GroupsAreFaithful(fields, props);
    hide Collect;
    if k in groups.vals && e in groups.vals[k] && e.name == f.name {
      assert Comes(fields, props, k, e);
    }
  }

  lemma EmptyGroups(fields: seq<FieldInfo>, props: seq<Member>, f: FieldInfo)
    requires DistinctNames(fields) && f in fields && Collected(f, props)
    ensures Collect(fields, props).order != [] && props != []
  {
    GroupsAreFaithful(fields, props);
    assert Stands(Collect(fields, props), f);
  }

  /** For every instance, the rewritten schema offers the fields whose own condition holds, and no others. */
  lemma VisibleIsSeparate(fields: seq<FieldInfo>, schema: Schema, resolve: Resolver, instance: seq<Member>,
      name: string)
    requires DistinctNames(fields) && schema.clauses == []
    ensures Visible(Rewritten(fields, schema, resolve), instance, name) <==>
      VisibleAlone(fields, schema, instance, name)
  {
    var props := schema.properties;
    var moved := Moved(fields, props);
    WithoutAllHas(props, moved, name);
    ClauseEntries(fields, props, resolve, instance, name);
    GroupIsMarker(fields, props, instance, Entry(name, true));
    GroupIsMarker(fields, props, instance, Entry(name, false));
    forall f | f in fields && f.name == name && Collected(f, props)
        ensures name in moved && Collect(fields, props).order != [] && props != [] {
      EmptyGroups(fields, props, f);
    }
    hide Collect, Shown, Holds, ClausesOf, WithoutAll, WithoutNames, Offers, InGroup, Get;
    assert [] + ClausesOf(Collect(fields, props), Collect(fields, props).order, props, resolve)
      == ClausesOf(Collect(fields, props), Collect(fields, props).order, props, resolve);
    if name in moved {
      var f :| f in fields && Collected(f, props) && f.name == name;
      forall g | g in fields && g.name == name ensures g == f { SameField(fields, f, g); }
    }
  }

  lemma CollectedIsMoved(fields: seq<FieldInfo>, props: seq<Member>, name: string)
    requires DistinctNames(fields)
    ensures forall f | f in fields && f.name == name && Collected(f, props) ::
      name in Moved(fields, props) && Collect(fields, props).order != [] && props != []
  {
    hide Collected, Collect;
    forall f | f in fields && f.name == name && Collected(f, props)
      ensures name in Moved(fields, props) && Collect(fields, props).order != [] && props != []
    {
      EmptyGroups(fields, props, f);
    }
  }

  /** And it demands the ones that are required then, and the plain fields that always were. */
  lemma DemandedIsSeparate(fields: seq<FieldInfo>, schema: Schema, resolve: Resolver, instance: seq<Member>,
      name: string)
    requires DistinctNames(fields) && schema.clauses == []
    ensures Demanded(Rewritten(fields, schema, resolve), instance, name) <==>
      DemandedAlone(fields, schema, instance, name)
  {
    var props := schema.properties;
    var moved := Moved(fields, props);
    if schema.required.Some? { WithoutNamesHas(schema.required.value, moved, name); }
    ClauseEntries(fields, props, resolve, instance, name);
    GroupIsMarker(fields, props, instance, Entry(name, true));
    CollectedIsMoved(fields, props, name);
    assert DemandedAlone(fields, schema, instance, name) <==>
      if name in moved then
        exists f :: f in fields && f.name == name && Collected(f, props)
          && Shown(MarkerOf(f).value, instance) && MarkerOf(f).value.requiredWhenShown
      else schema.required.Some? && name in schema.required.value
    by { hide Collect, Shown, Holds, Get, DistinctNames, Rewritten, Moved; }
    hide Collect, Collected, Shown, Holds, ClausesOf, WithoutAll, WithoutNames, Demands, InGroup, Get, DistinctNames,
      DemandedAlone;
    assert [] + ClausesOf(Collect(fields, props), Collect(fields, props).order, props, resolve)
      == ClausesOf(Collect(fields, props), Collect(fields, props).order, props, resolve);
  }

  // ── What the whole schema accepts ──

  /** Whether a value fits a property schema. */
  type Fits = (Value, Value) -> bool

  predicate ClauseFits(c: Clause, instance: seq<Member>, fits: Fits) {
    && (forall m | m in c.properties && Has(instance, m.key) :: fits(m.value, Get(instance, m.key).value))
    && (forall n | n in c.required :: Has(instance, n))
  }

  /**
   Properties fit, required names are there, the clauses kept and those that apply are met; a closed schema
   has no other keys.
   */
  ghost predicate Accepts(s: Schema, instance: seq<Member>, fits: Fits, closed: bool) {
    && (forall name | Has(s.properties, name) && Has(instance, name) ::
      fits(Get(s.properties, name).value, Get(instance, name).value))
    && (s.required.Some? ==> forall n | n in s.required.value :: Has(instance, n))
    && (forall o | o in s.others :: fits(o, Obj(instance)))
    && (forall c | c in s.clauses && Holds(c.trigger, c.test, instance) :: ClauseFits(c, instance, fits))
    && (closed ==> forall m | m in instance :: Has(s.properties, m.key))
  }

  function SchemaOf(fields: seq<FieldInfo>, s: Schema, resolve: Resolver, name: string): Value
    requires Has(s.properties, name)
  {
    var v := Get(s.properties, name).value;
    if name in Moved(fields, s.properties) then resolve(v) else v
  }

  /** The same, reading each field by itself; a closed schema refuses every conditional field. */
  ghost predicate AcceptsAlone(fields: seq<FieldInfo>, s: Schema, resolve: Resolver, instance: seq<Member>, fits: Fits,
      closed: bool) {
    && (forall name | VisibleAlone(fields, s, instance, name) && Has(instance, name) ::
          fits(SchemaOf(fields, s, resolve, name), Get(instance, name).value))
    && (forall name | DemandedAlone(fields, s, instance, name) :: Has(instance, name))
    && (forall o | o in s.others :: fits(o, Obj(instance)))
    && (closed ==> forall m | m in instance :: Has(s.properties, m.key) && m.key !in Moved(fields, s.properties))
  }

  /** Every collected field that is shown and there fits its own schema. */
  ghost predicate ShownFit(fields: seq<FieldInfo>, props: seq<Member>, resolve: Resolver, instance: seq<Member>,
      fits: Fits) {
    forall f | f in fields && f.markers != [] && Has(props, f.name)
      && Shown(f.markers[0], instance) && Has(instance, f.name) ::
      fits(resolve(Get(props, f.name).value), Get(instance, f.name).value)
  }

  ghost predicate PropertiesFit(clauses: seq<Clause>, instance: seq<Member>, fits: Fits) {
    forall c, m | c in clauses && Holds(c.trigger, c.test, instance) && m in c.properties && Has(instance, m.key) ::
      fits(m.value, Get(instance, m.key).value)
  }

  ghost predicate DemandsMet(clauses: seq<Clause>, instance: seq<Member>) {
    forall name | SomeDemands(clauses, instance, name) :: Has(instance, name)
  }

  lemma ClausesFit(clauses: seq<Clause>, instance: seq<Member>, fits: Fits)
    ensures (forall c | c in clauses && Holds(c.trigger, c.test, instance) :: ClauseFits(c, instance, fits)) <==>
      PropertiesFit(clauses, instance, fits) && DemandsMet(clauses, instance)
  {
    hide Holds, Has, Get;
    if DemandsMet(clauses, instance) {
      forall c, n | c in clauses && Holds(c.trigger, c.test, instance) && n in c.required ensures Has(instance, n) {
        assert Demands(c, instance, n);
        assert SomeDemands(clauses, instance, n);
      }
    }
  }

  lemma {:induction false} WithoutAllGet(ms: seq<Member>, names: set<string>, name: string)
    requires name !in names
    ensures Get(WithoutAll(ms, names), name) == Get(ms, name)
    decreases |ms|
  {
    if ms != [] {
      WithoutAllGet(ms[1..], names, name);
      var rest := WithoutAll(ms[1..], names);
      assert [] + rest == rest;
      if ms[0].key !in names { assert ([ms[0]] + rest)[1..] == rest && ([ms[0]] + rest)[0] == ms[0]; }
    }
  }

  lemma ThenPropertiesAt(entries: seq<Entry>, props: seq<Member>, resolve: Resolver, i: nat)
    requires i < |entries| && Has(props, entries[i].name)
    ensures
      Member(entries[i].name, resolve(Get(props, entries[i].name).value)) in ThenProperties(entries, props, resolve)
  {
    assert ThenProperties(entries, props, resolve)[i]
      == Member(entries[i].name, resolve(Get(props, entries[i].name).value));
  }

  /** `clauses` has one clause for each group and no other. */
  ghost predicate OnePerGroup(clauses: seq<Clause>, groups: Groups, props: seq<Member>, resolve: Resolver) {
    && (forall k | k in groups.vals :: ClauseOf(k, groups.vals[k], props, resolve) in clauses)
    && (forall c | c in clauses :: exists k :: k in groups.vals && c == ClauseOf(k, groups.vals[k], props, resolve))
  }

  lemma CollectedClauses(fields: seq<FieldInfo>, props: seq<Member>, resolve: Resolver)
    requires DistinctNames(fields)
    ensures var groups := Collect(fields, props);
      && Faithful(groups, fields, props)
      && OnePerGroup(ClausesOf(groups, groups.order, props, resolve), groups, props, resolve)
  {
    var groups := Collect(fields, props);
    GroupsAreFaithful(fields, props);
    assert forall k :: k in groups.order <==> k in groups.vals;
    var clauses := ClausesOf(groups, groups.order, props, resolve);
    hide Collect, ClausesOf, ClauseOf, Stands, Comes;
    forall c ensures c in clauses <==>
        exists k :: k in groups.order && c == ClauseOf(k, groups.vals[k], props, resolve) {
      ClausesAre(groups, groups.order, props, resolve, c);
    }
  }

  lemma FieldsFitIfClausesDo(clauses: seq<Clause>, groups: Groups, fields: seq<FieldInfo>, props: seq<Member>,
      resolve: Resolver, instance: seq<Member>, fits: Fits)
    requires Faithful(groups, fields, props) && OnePerGroup(clauses, groups, props, resolve)
      && PropertiesFit(clauses, instance, fits)
    ensures ShownFit(fields, props, resolve, instance, fits)
  {
    hide Valid, Holds, Shown, TestOf, ThenProperties, ThenRequired, Comes, ClauseOf;
    forall f | f in fields && Collected(f, props) && Shown(MarkerOf(f).value, instance) && Has(instance, f.name)
      ensures fits(resolve(Get(props, f.name).value), Get(instance, f.name).value)
    {
      assert Stands(groups, f);
      FieldInClause(groups, f, props, resolve, instance);
      var c := ClauseOf(KeyOf(MarkerOf(f).value), groups.vals[KeyOf(MarkerOf(f).value)], props, resolve);
      assert c in clauses;
      assert Member(f.name, resolve(Get(props, f.name).value)) in c.properties;
    }
  }

  lemma ClausesFitIfFieldsDo(clauses: seq<Clause>, groups: Groups, fields: seq<FieldInfo>, props: seq<Member>,
      resolve: Resolver, instance: seq<Member>, fits: Fits)
    requires Faithful(groups, fields, props) && OnePerGroup(clauses, groups, props, resolve)
      && ShownFit(fields, props, resolve, instance, fits)
    ensures PropertiesFit(clauses, instance, fits)
  {
    hide Faithful, Holds, Shown, TestOf, ThenProperties, ThenRequired;
    forall c, m | c in clauses && Holds(c.trigger, c.test, instance) && m in c.properties && Has(instance, m.key)
      ensures fits(m.value, Get(instance, m.key).value)
    {
      var k :| k in groups.vals && c == ClauseOf(k, groups.vals[k], props, resolve);
      MemberIsField(fields, groups, k, m, props, resolve, instance);
    }
  }

  /** The clauses that apply fit exactly when the shown fields do. */
  lemma ClausesFitFields(fields: seq<FieldInfo>, props: seq<Member>, resolve: Resolver, instance: seq<Member>,
      fits: Fits)
    requires DistinctNames(fields)
    ensures var groups := Collect(fields, props);
      PropertiesFit(ClausesOf(groups, groups.order, props, resolve), instance, fits) <==>
        ShownFit(fields, props, resolve, instance, fits)
  {
    hide *;
    var groups := Collect(fields, props);
    var clauses := ClausesOf(groups, groups.order, props, resolve);
    CollectedClauses(fields, props, resolve);
    if PropertiesFit(clauses, instance, fits) {
      FieldsFitIfClausesDo(clauses, groups, fields, props, resolve, instance, fits);
    }
    if ShownFit(fields, props, resolve, instance, fits) {
      ClausesFitIfFieldsDo(clauses, groups, fields, props, resolve, instance, fits);
    }
  }

  lemma FieldInClause(groups: Groups, f: FieldInfo, props: seq<Member>, resolve: Resolver, instance: seq<Member>)
    requires Stands(groups, f) && Collected(f, props) && Shown(MarkerOf(f).value, instance)
    ensures var c := ClauseOf(KeyOf(MarkerOf(f).value), groups.vals[KeyOf(MarkerOf(f).value)], props, resolve);
      Holds(c.trigger, c.test, instance) && Member(f.name, resolve(Get(props, f.name).value)) in c.properties
  {
    var entries := groups.vals[KeyOf(MarkerOf(f).value)];
    var i :| 0 <= i < |entries| && entries[i] == Entry(f.name, MarkerOf(f).value.requiredWhenShown);
    ThenPropertiesAt(entries, props, resolve, i);
    TestIsShown(MarkerOf(f).value, instance);
  }

  lemma MemberIsField(fields: seq<FieldInfo>, groups: Groups, k: Key, m: Member, props: seq<Member>, resolve: Resolver,
      instance: seq<Member>)
    requires Faithful(groups, fields, props) && k in groups.vals
    requires m in ThenProperties(groups.vals[k], props, resolve) && Holds(k.trigger, TestOf(k.showWhen), instance)
    ensures exists f ::
      f in fields && Collected(f, props) && Shown(MarkerOf(f).value, instance)
      && m == Member(f.name, resolve(Get(props, f.name).value))
  {
    var entries := groups.vals[k];
    var i :| 0 <= i < |entries| && ThenProperties(entries, props, resolve)[i] == m;
    assert Comes(fields, props, k, entries[i]);
    var f :|
      f in fields && Collected(f, props) && KeyOf(MarkerOf(f).value) == k
      && entries[i] == Entry(f.name, MarkerOf(f).value.requiredWhenShown);
    TestIsShown(MarkerOf(f).value, instance);
    assert m == Member(f.name, resolve(Get(props, f.name).value));
  }

  /** Reading fields alone, the fit of visible ones splits into plain ones and shown ones. */
  lemma VisibleSplits(fields: seq<FieldInfo>, s: Schema, resolve: Resolver, instance: seq<Member>, fits: Fits)
    requires DistinctNames(fields)
    ensures (forall name | VisibleAlone(fields, s, instance, name) && Has(instance, name) ::
              fits(SchemaOf(fields, s, resolve, name), Get(instance, name).value)) <==>
            ShownFit(fields, s.properties, resolve, instance, fits)
            && forall name | Has(s.properties, name) && name !in Moved(fields, s.properties) && Has(instance, name) ::
                 fits(Get(s.properties, name).value, Get(instance, name).value)
  {
    hide Shown, Get;
    var moved := Moved(fields, s.properties);
    forall f, name | f in fields && Collected(f, s.properties) && f.name == name
      ensures name in moved && (VisibleAlone(fields, s, instance, name) <==> Shown(MarkerOf(f).value, instance))
    {
      forall g | g in fields && g.name == name ensures g == f { SameField(fields, f, g); }
    }
  }

  /**
   For every instance: the rewritten schema accepts it exactly when the separate reading does. A closed
   schema looks at its own properties only, so it refuses every instance that has a conditional field.
   */
  lemma AcceptsIsSeparate(fields: seq<FieldInfo>, schema: Schema, resolve: Resolver, instance: seq<Member>, fits: Fits,
      closed: bool)
    requires DistinctNames(fields) && schema.clauses == []
    ensures Accepts(Rewritten(fields, schema, resolve), instance, fits, closed) <==>
            AcceptsAlone(fields, schema, resolve, instance, fits, closed)
  {
    var out := Rewritten(fields, schema, resolve);
    forall name ensures Demanded(out, instance, name) <==> DemandedAlone(fields, schema, instance, name) {
      DemandedIsSeparate(fields, schema, resolve, instance, name);
    }
    ClausesFit(out.clauses, instance, fits);
    VisibleSplits(fields, schema, resolve, instance, fits);
    RewrittenParts(fields, schema, resolve, instance, fits);
    hide Rewritten, DemandedAlone, VisibleAlone, PropertiesFit, ShownFit, ClauseFits, Holds, Get, SomeDemands,
      SchemaOf, DistinctNames;
    assert ((out.required.Some? ==> forall n | n in out.required.value :: Has(instance, n))
            && DemandsMet(out.clauses, instance)) <==>
           forall name | Demanded(out, instance, name) :: Has(instance, name);
  }

  lemma RewrittenParts(fields: seq<FieldInfo>, schema: Schema, resolve: Resolver, instance: seq<Member>, fits: Fits)
    requires DistinctNames(fields) && schema.clauses == []
    ensures var out, moved := Rewritten(fields, schema, resolve), Moved(fields, schema.properties);
      && (forall name :: Has(out.properties, name) <==> Has(schema.properties, name) && name !in moved)
      && (forall name | Has(out.properties, name) :: Get(out.properties, name) == Get(schema.properties, name))
      && out.others == schema.others
      && (PropertiesFit(out.clauses, instance, fits) <==> ShownFit(fields, schema.properties, resolve, instance, fits))
  {
    var props := schema.properties;
    var groups, moved := Collect(fields, props), Moved(fields, props);
    forall f | f in fields && Collected(f, props) ensures groups.order != [] && props != [] {
      EmptyGroups(fields, props, f);
    }
    forall name ensures Has(WithoutAll(props, moved), name) <==> Has(props, name) && name !in moved {
      WithoutAllHas(props, moved, name);
    }
    forall name | name !in moved ensures Get(WithoutAll(props, moved), name) == Get(props, name) {
      WithoutAllGet(props, moved, name);
    }
    ClausesFitFields(fields, props, resolve, instance, fits);
    hide Collect, ClausesOf, WithoutAll, Get, Shown, Holds;
    assert [] + ClausesOf(groups, groups.order, props, resolve) == ClausesOf(groups, groups.order, props, resolve);
  }

  /** So with `additionalProperties: false` at the top, a conditional field is refused even when it is shown. */
  lemma ClosedRefusesShown(fields: seq<FieldInfo>, schema: Schema, resolve: Resolver, instance: seq<Member>,
      fits: Fits, f: FieldInfo)
    requires DistinctNames(fields) && schema.clauses == []
    requires f in fields && Collected(f, schema.properties) && Has(instance, f.name)
    ensures !Accepts(Rewritten(fields, schema, resolve), instance, fits, true)
  {
    AcceptsIsSeparate(fields, schema, resolve, instance, fits, true);
    var m :| m in instance && m.key == f.name;
    assert f.name in Moved(fields, schema.properties);
    hide Rewritten, Accepts;
  }
}
