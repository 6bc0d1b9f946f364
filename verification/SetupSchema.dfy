/**
 The part of JSON Schema a setup's content is checked against, read keyword by keyword as JSON Schema
 Validation 2020-12 does, with closed objects and without control characters in strings.
 */
module SetupSchema {
  import opened InlineRefs
  import opened Json
  import opened Pointers
  import opened Wrappers

  /** No C0 control character but tab, newline and carriage return. */
  predicate Readable(s: string) {
    forall c | c in s :: c >= ' ' || c in ['\t', '\n', '\r']
  }

  /** What a value under `type` allows. */
  predicate NameAllows(name: string, v: Value) {
    || (name == "string" && v.Str? && Readable(v.s))
    || (name == "integer" && v.Int?)
    || (name == "number" && (v.Int? || v.Num?))
    || (name == "boolean" && v.Bool?)
    || (name == "array" && v.Arr?)
    || (name == "object" && v.Obj?)
    || (name == "null" && v.Null?)
  }

  predicate TypeAllows(t: Value, v: Value) {
    match t
    case Str(name) => NameAllows(name, v)
    case Arr(names) => exists i | 0 <= i < |names| :: names[i].Str? && NameAllows(names[i].s, v)
    case _ => false
  }

  // ── The reading ──

  /**
   How references are read. `Deep` follows what they point to, up to a depth; deeper ones allow nothing.
   `Cut` follows the definition named last, but where that is followed already any object is allowed.
   */
  datatype Scope = Deep(depth: nat) | Cut(seen: set<string>)

  function Names(defs: seq<Member>): set<string> {
    set m | m in defs :: m.key
  }

  function Depth(scope: Scope): nat {
    if scope.Deep? then scope.depth else 0
  }

  function Untaken(defs: seq<Member>, scope: Scope): set<string> {
    if scope.Cut? then Names(defs) - scope.seen else {}
  }

  /** The reference allows `v`. */
  predicate Follows(ms: seq<Member>, v: Value, defs: seq<Member>, scope: Scope)
    requires Has(ms, "$ref") && Get(ms, "$ref").value.Str?
    decreases Untaken(defs, scope), Depth(scope), Obj(ms), 0
  {
    var ref := Get(ms, "$ref").value.s;
    match scope
    case Deep(depth) =>
      depth > 0 && Pointed(ref, defs).Some? && ConformsItem(Pointed(ref, defs).value, v, defs, Deep(depth - 1))
    case Cut(seen) =>
      var name := LastSegment(ref);
      if name in seen then v.Obj?
      else
        && Has(defs, name)
        && assert name in Names(defs) && name !in Names(defs) - (seen + {name});
        ConformsItem(Get(defs, name).value, v, defs, Cut(seen + {name}))
  }

  /** Every keyword of the schema allows `v`. */
  predicate Conforms(ms: seq<Member>, v: Value, defs: seq<Member>, scope: Scope)
    decreases Untaken(defs, scope), Depth(scope), Obj(ms), 1
  {
    var ref, enum, const_, items := Get(ms, "$ref"), Get(ms, "enum"), Get(ms, "const"), Get(ms, "items");
    var anyOf, oneOf, typ := Get(ms, "anyOf"), Get(ms, "oneOf"), Get(ms, "type");
    && (ref.Some? && ref.value.Str? ==> Follows(ms, v, defs, scope))
    && (enum.Some? && enum.value.Arr? ==> v in enum.value.items)
    && (const_.Some? ==> v == const_.value)
    && (anyOf.Some? && anyOf.value.Arr? ==>
        exists i | 0 <= i < |anyOf.value.items| :: ConformsItem(anyOf.value.items[i], v, defs, scope))
    && (oneOf.Some? && oneOf.value.Arr? ==>
        exists i | 0 <= i < |oneOf.value.items| ::
          && ConformsItem(oneOf.value.items[i], v, defs, scope)
          && forall j | 0 <= j < |oneOf.value.items| && j != i :: !ConformsItem(oneOf.value.items[j], v, defs, scope))
    && (typ.Some? ==> TypeAllows(typ.value, v))
    && (v.Obj? ==> ConformsMembers(ms, v.members, defs, scope))
    && (v.Arr? && items.Some? ==>
      forall i | 0 <= i < |v.items| :: ConformsItem(items.value, v.items[i], defs, scope))
  }

  /** The object keywords: an object that declares properties is closed unless it opts out. */
  predicate ConformsMembers(ms: seq<Member>, vs: seq<Member>, defs: seq<Member>, scope: Scope)
    decreases Untaken(defs, scope), Depth(scope), Obj(ms), 0
  {
    var properties, required, additional := Get(ms, "properties"), Get(ms, "required"), Get(ms, "additionalProperties");
    var declares := properties.Some? && properties.value.Obj? && properties.value.members != [];
    && (properties.Some? && properties.value.Obj? ==>
        var props := properties.value.members;
        forall i | 0 <= i < |props| && Has(vs, props[i].key) ::
          ConformsItem(props[i].value, Get(vs, props[i].key).value, defs, scope))
    && (required.Some? && required.value.Arr? ==>
        forall n | n in required.value.items && n.Str? :: Has(vs, n.s))
    && (declares && additional != Some(Bool(true)) ==>
        forall i | 0 <= i < |vs| :: Has(properties.value.members, vs[i].key))
    && (!declares && additional.Some? ==>
        forall i | 0 <= i < |vs| :: ConformsItem(additional.value, vs[i].value, defs, scope))
  }

  predicate ConformsItem(s: Value, v: Value, defs: seq<Member>, scope: Scope)
    decreases Untaken(defs, scope), Depth(scope), s, 2
  {
    match s
    case Obj(ms) => Conforms(ms, v, defs, scope)
    case Bool(b) => b
    case _ => false
  }

  /** The definitions of a top-level schema. */
  function Definitions(schema: seq<Member>): seq<Member> {
    match Get(schema, "$defs")
    case Some(Obj(defs)) => defs
    case _ => []
  }

  // ── The schemas the validator can express ──

  const TYPES: seq<string> := ["string", "integer", "number", "boolean", "null", "array", "object"]

  const WORDS: seq<string> := [
    "$ref", "enum", "const", "anyOf", "oneOf", "type", "properties", "required", "additionalProperties", "items"]

  const UNREAD: seq<string> := [
    "allOf", "not", "if", "then", "else", "contains", "prefixItems", "patternProperties", "propertyNames",
    "dependentSchemas", "dependentRequired", "unevaluatedItems", "unevaluatedProperties", "$dynamicRef",
    "minimum", "maximum", "exclusiveMinimum", "exclusiveMaximum", "multipleOf", "minLength", "maxLength",
    "pattern", "minItems", "maxItems", "uniqueItems", "minContains", "maxContains", "minProperties", "maxProperties"]

  /** Of the keywords that assert something, the schema has at most these. */
  predicate Only(ms: seq<Member>, words: seq<string>) {
    && (forall i | 0 <= i < |WORDS| :: WORDS[i] in words || !Has(ms, WORDS[i]))
    && (forall i | 0 <= i < |UNREAD| :: !Has(ms, UNREAD[i]))
  }

  predicate Scalar(v: Value) {
    v.Str? || v.Int? || v.Bool?
  }

  predicate AsciiLetter(c: char) {
    'a' <= c <= 'z' || 'A' <= c <= 'Z'
  }

  /** An ASCII identifier pydantic makes a field of: no leading underscore, nothing in its own `model_` namespace. */
  predicate FieldName(name: string) {
    && name != "" && AsciiLetter(name[0])
    && (forall c | c in name :: AsciiLetter(c) || '0' <= c <= '9' || c == '_')
    && !("model_" <= name)
  }

  /** One type name, perhaps beside null. */
  predicate TypeIs(t: Value, name: string) {
    || t == Str(name)
    || (t.Arr? && name != "null" && Str(name) in t.items && forall x | x in t.items :: x in [Str(name), Str("null")])
  }

  /** `{"type": "null"}` and nothing else that asserts. */
  predicate JustNull(b: Value) {
    b.Obj? && Only(b.members, ["type"]) && Get(b.members, "type") == Some(Str("null"))
  }

  /**
   The fragment: a direct reference to an object definition; an enumeration of scalars; a union of one
   branch and nulls; nothing at all; or one type, with typed items, declared properties or typed values.
   */
  ghost predicate Plain(ms: seq<Member>, defs: seq<Member>)
    decreases Obj(ms), 4
  {
    || PlainRef(ms, defs)
    || PlainEnum(ms)
    || PlainUnion(ms, "anyOf", defs)
    || (PlainUnion(ms, "oneOf", defs) && NoOverlap(Get(ms, "oneOf").value.items))
    || Only(ms, [])
    || PlainTyped(ms, defs)
  }

  ghost predicate PlainRef(ms: seq<Member>, defs: seq<Member>) {
    match Get(ms, "$ref")
    case Some(Str(ref)) =>
      Only(ms, ["$ref"]) && Direct(ref) && Pointed(ref, defs).Some? && Pointed(ref, defs).value.Obj?
    case _ => false
  }

  /** Scalars, perhaps beside null, all of the declared type if there is one; or one scalar constant. */
  ghost predicate PlainEnum(ms: seq<Member>) {
    var enum, const_, typ := Get(ms, "enum"), Get(ms, "const"), Get(ms, "type");
    || (enum.Some? && enum.value.Arr? && Only(ms, ["enum", "type"])
        && (forall x | x in enum.value.items :: (Scalar(x) || x.Null?) && (typ.Some? ==> TypeAllows(typ.value, x)))
        && (exists x | x in enum.value.items :: Scalar(x)))
    || (const_.Some? && Scalar(const_.value) && Only(ms, ["const", "type"])
        && (typ.Some? ==> TypeAllows(typ.value, const_.value)))
  }

  ghost predicate PlainUnion(ms: seq<Member>, word: string, defs: seq<Member>)
    decreases Obj(ms), 3
  {
    var items := Get(ms, word);
    items.Some? && items.value.Arr? && Only(ms, [word]) && exists b :: OneBranch(items.value.items, b, defs)
  }

  /** The branch `b`, which is not just null, and any number of null ones. */
  ghost predicate OneBranch(items: seq<Value>, b: seq<Member>, defs: seq<Member>)
    decreases items, 4
  {
    && Obj(b) in items && !JustNull(Obj(b)) && Plain(b, defs)
    && forall x | x in items :: x == Obj(b) || JustNull(x)
  }

  /** The branch alone, or beside one null branch, with a type name that is not null. */
  ghost predicate NoOverlap(items: seq<Value>) {
    || |items| == 1
    || (|items| == 2 && items[0] != items[1]
        && forall x | x in items && x.Obj? && !JustNull(x) ::
          var t := Get(x.members, "type"); t.Some? && t.value.Str? && t.value.s != "null")
  }

  ghost predicate PlainTyped(ms: seq<Member>, defs: seq<Member>)
    decreases Obj(ms), 3
  {
    var typ := Get(ms, "type");
    typ.Some? &&
    (|| (Only(ms, ["type"])
         && exists name | name in TYPES :: TypeIs(typ.value, name))
     || (Only(ms, ["type", "items"]) && TypeIs(typ.value, "array") && PlainItem(ms, "items", defs))
     || (Only(ms, ["type", "properties", "required", "additionalProperties"]) && TypeIs(typ.value, "object")
         && (PlainProperties(ms, defs) || PlainMap(ms, defs))))
  }

  ghost predicate PlainItem(ms: seq<Member>, word: string, defs: seq<Member>)
    decreases Obj(ms), 1
  {
    var item := Get(ms, word);
    item.Some? && item.value.Obj? && Plain(item.value.members, defs)
  }

  /** Declared properties that become fields, closed or open. */
  ghost predicate PlainProperties(ms: seq<Member>, defs: seq<Member>)
    decreases Obj(ms), 1
  {
    var properties, required, additional := Get(ms, "properties"), Get(ms, "required"), Get(ms, "additionalProperties");
    properties.Some? && properties.value.Obj? &&
    var props := properties.value.members;
    && props != []
    && (forall i | 0 <= i < |props| ::
          FieldName(props[i].key) && props[i].value.Obj? && Plain(props[i].value.members, defs))
    && (required.Some? ==> required.value.Arr? && forall n | n in required.value.items :: n.Str? && Has(props, n.s))
    && (additional.Some? ==> additional.value.Bool?)
  }

  /** A map, with typed values if `additionalProperties` says so. */
  ghost predicate PlainMap(ms: seq<Member>, defs: seq<Member>)
    decreases Obj(ms), 2
  {
    var properties, additional := Get(ms, "properties"), Get(ms, "additionalProperties");
    && (properties.Some? ==> properties.value == Obj([]))
    && !Has(ms, "required")
    && (additional.Some? ==> additional.value == Bool(true) || PlainItem(ms, "additionalProperties", defs))
  }

  ghost predicate AllPlain(defs: seq<Member>) {
    forall n | Has(defs, n) && Get(defs, n).value.Obj? :: Plain(Get(defs, n).value.members, defs)
  }
}
