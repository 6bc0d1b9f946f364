/** Compiling a config-setup JSON schema to Python types, and what those types accept. */
module SetupCompiler {
  import opened InlineRefs
  import opened Json
  import opened SetupSchema
  import opened Wrappers

  /** The keywords the validator looks at. */
  datatype Keywords = Keywords(
    ref: Option<Value>, enum: Option<Value>, const_: Option<Value>, anyOf: Option<Value>, oneOf: Option<Value>,
    typ: Option<Value>, properties: Option<Value>, required: Option<Value>, additional: Option<Value>,
    items: Option<Value>)

  function Read(ms: seq<Member>): (k: Keywords)
    ensures k.anyOf.Some? ==> k.anyOf.value < Obj(ms)
    ensures k.oneOf.Some? ==> k.oneOf.value < Obj(ms)
    ensures k.properties.Some? ==> k.properties.value < Obj(ms)
    ensures k.additional.Some? ==> k.additional.value < Obj(ms)
    ensures k.items.Some? ==> k.items.value < Obj(ms)
  {
    Keywords(Get(ms, "$ref"), Get(ms, "enum"), Get(ms, "const"), Get(ms, "anyOf"), Get(ms, "oneOf"), Get(ms, "type"),
             Get(ms, "properties"), Get(ms, "required"), Get(ms, "additionalProperties"), Get(ms, "items"))
  }

  const NOTHING := Keywords(None, None, None, None, None, None, None, None, None, None)

  datatype JsonType = TString | TInteger | TNumber | TBoolean | TArray | TObject | TNull | TOther

  function TypeNamed(name: string): JsonType {
    if name == "string" then TString
    else if name == "integer" then TInteger
    else if name == "number" then TNumber
    else if name == "boolean" then TBoolean
    else if name == "array" then TArray
    else if name == "object" then TObject
    else if name == "null" then TNull
    else TOther
  }

  predicate IsNull(t: Value) {
    t.Str? && TypeNamed(t.s).TNull?
  }

  /** `reject_control_chars`. */
  predicate NoControl(s: string) {
    forall i | 0 <= i < |s| :: s[i] as int >= 0x20 || s[i] == '\t' || s[i] == '\n' || s[i] == '\r'
  }

  predicate Requires(required: Option<Value>, name: string) {
    required.Some? && required.value.Arr? && Str(name) in required.value.items
  }

  /** `properties`, when it is an object that declares something. */
  predicate Declares(k: Keywords) {
    k.properties.Some? && k.properties.value.Obj? && k.properties.value.members != []
  }

  /**
   The compiled types. Scalars are strict and strings checked for control characters wherever they are
   used; `nullable` adds `None` to an element.
   */
  datatype Py =
    | PyAny
    | PyStr | PyInt | PyFloat | PyBool | PyNone
    | PyLiteral(values: seq<Value>)
    | PyList(element: Option<Typed>)
    | PyDict(value: Option<Typed>)
    | PyModel(fields: seq<Field>, ignoreExtra: bool)

  datatype Typed = Typed(py: Py, nullable: bool)

  datatype Field = Field(name: string, typed: Typed, required: bool)

  /** What the compiled type accepts. */
  predicate Accepts(py: Py, v: Value)
    decreases py, 0
  {
    match py
    case PyAny => true
    case PyStr => v.Str? && NoControl(v.s)
    case PyInt => v.Int?
    case PyFloat => v.Int? || v.Num?
    case PyBool => v.Bool?
    case PyNone => v.Null?
    case PyLiteral(values) => v in values
    case PyList(e) => v.Arr? && (e.Some? ==> forall i | 0 <= i < |v.items| :: Admits(e.value, v.items[i]))
    case PyDict(e) => v.Obj? && (e.Some? ==> forall i | 0 <= i < |v.members| :: Admits(e.value, v.members[i].value))
    case PyModel(fields, ignoreExtra) =>
      v.Obj?
      && (forall i | 0 <= i < |fields| ::
            if Has(v.members, fields[i].name) then Admits(fields[i].typed, Get(v.members, fields[i].name).value)
              else !fields[i].required)
      && (ignoreExtra || forall i | 0 <= i < |v.members| :: Named(fields, v.members[i].key))
  }

  predicate Admits(t: Typed, v: Value)
    decreases t, 1
  {
    Accepts(t.py, v) || (t.nullable && v.Null?)
  }

  predicate Named(fields: seq<Field>, key: string) {
    exists i | 0 <= i < |fields| :: fields[i].name == key
  }

  // ── The compiler ──

  /** `name.isidentifier()`, for ASCII names. */
  predicate Identifier(name: string) {
    name != "" && Letter(name[0]) && forall i | 0 <= i < |name| :: Letter(name[i]) || '0' <= name[i] <= '9'
  }

  predicate Letter(c: char) {
    'a' <= c <= 'z' || 'A' <= c <= 'Z' || c == '_'
  }

  /** `_literal_type`. */
  function LiteralType(k: Keywords): Option<Typed> {
    var values := if k.enum.Some? && k.enum.value.Arr? then k.enum.value.items
                  else if k.const_.Some? then [k.const_.value] else [];
    var usable := Usable(values);
    if usable == [] then None else Some(Typed(PyLiteral(usable), Null in values))
  }

  predicate Hashable(v: Value) {
    v.Str? || v.Int? || v.Bool?
  }

  function Usable(values: seq<Value>): (r: seq<Value>)
    ensures forall v :: v in r <==> v in values && Hashable(v)
  {
    if values == [] then []
    else (if Hashable(values[0]) then [values[0]] else []) + Usable(values[1..])
  }

  /** A union branch that is spelled as the null type. */
  predicate NullBranch(b: Value) {
    b.Obj? && var t := Read(b.members).typ; t.Some? && IsNull(t.value)
  }

  /** The first branch that is an object and not the null type. */
  function FirstBranch(items: seq<Value>): (r: Option<seq<Member>>)
    ensures r.Some? ==> Obj(r.value) in items && !NullBranch(Obj(r.value))
    ensures r.None? ==> forall b | b in items :: b.Obj? ==> NullBranch(b)
  {
    if items == [] then None
    else if items[0].Obj? && !NullBranch(items[0]) then Some(items[0].members)
    else FirstBranch(items[1..])
  }

  /** The single type name left of `type`, and whether it lists null. */
  function TypeOf(typ: Option<Value>): (JsonType, bool) {
    match typ
    case Some(Str(name)) => (TypeNamed(name), false)
    case Some(Arr(names)) => (FirstType(names), exists i | 0 <= i < |names| :: IsNull(names[i]))
    case _ => (TOther, false)
  }

  function FirstType(names: seq<Value>): JsonType {
    if names == [] then TOther
    else if IsNull(names[0]) then FirstType(names[1..])
    else if names[0].Str? then TypeNamed(names[0].s)
    else TOther
  }

  /** `_py_type`: references already being compiled are cut to a bare `dict`. */
  function PyType(ms: seq<Member>, defs: seq<Member>, seen: set<string>): Typed
    decreases Names(defs) - seen, Obj(ms), 2
  {
    var k := Read(ms);
    if k.ref.Some? && k.ref.value.Str? then
      var name := LastSegment(k.ref.value.s);
      var target := Get(defs, name);
      if name in seen then Typed(PyDict(None), false)
      else if target.Some? && target.value.Obj? then
        assert name in Names(defs) - seen && name !in Names(defs) - (seen + {name});
        PyType(target.value.members, defs, seen + {name})
      else Typed(PyAny, false)
    else if LiteralType(k).Some? then LiteralType(k).value
    else if k.anyOf.Some? && k.anyOf.value.Arr? then UnionType(k.anyOf.value.items, defs, seen)
    else if k.oneOf.Some? && k.oneOf.value.Arr? then UnionType(k.oneOf.value.items, defs, seen)
    else
      var (t, nullable) := TypeOf(k.typ);
      Typed(BaseType(t, ms, defs, seen), nullable)
  }

  function UnionType(items: seq<Value>, defs: seq<Member>, seen: set<string>): Typed
    decreases Names(defs) - seen, items, 1
  {
    var nullable := exists i | 0 <= i < |items| :: NullBranch(items[i]);
    var branch := FirstBranch(items);
    if branch.None? then Typed(PyAny, nullable)
    else
      var inner := PyType(branch.value, defs, seen);
      inner.(nullable := nullable || inner.nullable)
  }

  function BaseType(t: JsonType, ms: seq<Member>, defs: seq<Member>, seen: set<string>): Py
    decreases Names(defs) - seen, Obj(ms), 1
  {
    match t
    case TObject =>
      var model := ModelOf(ms, defs, seen);
      var additional := Read(ms).additional;
      if model.Some? then model.value
      else PyDict(if additional.Some? then ElementType(additional.value, defs, seen) else None)
    case TArray =>
      var items := Read(ms).items;
      PyList(if items.Some? then ElementType(items.value, defs, seen) else None)
    case TString => PyStr
    case TInteger => PyInt
    case TNumber => PyFloat
    case TBoolean => PyBool
    case TNull => PyNone
    case TOther => PyAny
  }

  /** `_mapping_type` and `_list_type`: a typed element, unless its schema is missing, empty or says nothing. */
  function ElementType(s: Value, defs: seq<Member>, seen: set<string>): Option<Typed>
    decreases Names(defs) - seen, s, 3
  {
    if !s.Obj? || s.members == [] then None
    else
      var element := PyType(s.members, defs, seen);
      if element.py.PyAny? then None else Some(element)
  }

  /** `_build_model`. */
  function ModelOf(ms: seq<Member>, defs: seq<Member>, seen: set<string>): Option<Py>
    decreases Names(defs) - seen, Obj(ms), 0
  {
    var k := Read(ms);
    if !Declares(k) then None
    else
      var fields := FieldsOf(k.properties.value.members, k.required, defs, seen);
      if fields == [] then None else Some(PyModel(fields, k.additional == Some(Bool(true))))
  }

  /** One field for each property whose name is an identifier. */
  function FieldsOf(props: seq<Member>, required: Option<Value>, defs: seq<Member>, seen: set<string>): (r: seq<Field>)
    ensures forall f | f in r :: Identifier(f.name)
    decreases Names(defs) - seen, props, 0
  {
    if props == [] then []
    else
      var rest := FieldsOf(props[1..], required, defs, seen);
      if !Identifier(props[0].key) then rest
      else [Field(props[0].key, FieldType(props[0].value, defs, seen), Requires(required, props[0].key))] + rest
  }

  function FieldType(prop: Value, defs: seq<Member>, seen: set<string>): Typed
    decreases Names(defs) - seen, prop, 3
  {
    if prop.Obj? then PyType(prop.members, defs, seen) else Typed(PyAny, false)
  }

  /** The loop of `_build_model` over the properties. */
  method BuildModel(ms: seq<Member>, defs: seq<Member>, seen: set<string>) returns (model: Option<Py>)
    ensures model == ModelOf(ms, defs, seen)
  {
    hide FieldType, Identifier;
    var k := Read(ms);
    if !Declares(k) {
      return None;
    }
    var props := k.properties.value.members;
    var fields: seq<Field> := [];
    for i := 0 to |props|
      invariant FieldsOf(props, k.required, defs, seen) == fields + FieldsOf(props[i..], k.required, defs, seen)
    {
      ghost var rest := props[i..];
      assert rest[0] == props[i] && rest[1..] == props[i + 1..];
      if Identifier(props[i].key) {
        fields := fields + [Field(props[i].key, FieldType(props[i].value, defs, seen),
          Requires(k.required, props[i].key))];
      }
    }
    assert props[|props|..] == [] && fields + [] == fields;
    if fields == [] {
      return None;
    }
    return Some(PyModel(fields, k.additional == Some(Bool(true))));
  }

  /** `validate`: a schema without usable properties lets everything through. */
  method Validate(content: seq<Member>, schema: seq<Member>) returns (accepted: bool)
    ensures accepted <==> Valid(content, schema)
  {
    var model := BuildModel(schema, DefsOf(schema), {});
    accepted := model.None? || Accepts(model.value, Obj(content));
  }

  function DefsOf(schema: seq<Member>): seq<Member> {
    match Get(schema, "$defs")
    case Some(Obj(defs)) => defs
    case _ => []
  }

  predicate Valid(content: seq<Member>, schema: seq<Member>) {
    var model := ModelOf(schema, DefsOf(schema), {});
    model.None? || Accepts(model.value, Obj(content))
  }
}
