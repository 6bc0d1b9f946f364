/**
 The compiled types accept what the schema says: exactly on acyclic references, and at least that much
 when the compiler cuts a cycle.
 */
module SetupAgreement {
  import opened InlineRefs
  import opened Json
  import opened Pointers
  import opened SetupCompiler
  import opened SetupSchema
  import opened Wrappers

  // ── The compiler's reading of the keywords is the schema's ──

  lemma ReadIs(ms: seq<Member>)
    ensures var k := Read(ms);
      && k.ref == Get(ms, "$ref") && k.enum == Get(ms, "enum") && k.const_ == Get(ms, "const")
      && k.anyOf == Get(ms, "anyOf") && k.oneOf == Get(ms, "oneOf") && k.typ == Get(ms, "type")
      && k.properties == Get(ms, "properties") && k.required == Get(ms, "required")
      && k.additional == Get(ms, "additionalProperties") && k.items == Get(ms, "items")
  {
    hide Get;
  }

  /** What a type allows. */
  predicate Matches(t: JsonType, v: Value) {
    match t
    case TString => v.Str? && Readable(v.s)
    case TInteger => v.Int?
    case TNumber => v.Int? || v.Num?
    case TBoolean => v.Bool?
    case TArray => v.Arr?
    case TObject => v.Obj?
    case TNull => v.Null?
    case TOther => false
  }

  lemma NamesAgree(name: string, v: Value)
    ensures NameAllows(name, v) <==> Matches(TypeNamed(name), v)
  {
    hide Readable;
  }

  lemma MatchesNull()
    ensures forall v :: Matches(TNull, v) <==> v.Null?
  {
  }

  lemma ReadableIs(s: string)
    ensures Readable(s) <==> NoControl(s)
  {
    if Readable(s) {
      forall i | 0 <= i < |s| ensures s[i] as int >= 0x20 || s[i] == '\t' || s[i] == '\n' || s[i] == '\r' {
        assert s[i] in s;
      }
    }
  }

  // ── The same fragment, in the compiler's terms ──

  /** No asserting keyword outside the ones that are read. */
  predicate InVocabulary(ms: seq<Member>) {
    forall i | 0 <= i < |UNREAD| :: !Has(ms, UNREAD[i])
  }

  /** `{"type": "null"}` and nothing else. */
  predicate JustNull(b: Value) {
    b.Obj? && Read(b.members) == NOTHING.(typ := Some(Str("null")))
  }

  /** A branch with one type name that is not null. */
  predicate Solid(b: seq<Member>) {
    var t := Read(b).typ;
    t.Some? && t.value.Str? && !IsNull(t.value)
  }

  predicate Compilable(ms: seq<Member>, defs: seq<Member>)
    decreases Obj(ms), 2
  {
    var k := Read(ms);
    InVocabulary(ms)
    && if k.ref.Some? then
      k == NOTHING.(ref := k.ref) && k.ref.value.Str? && Direct(k.ref.value.s)
      && var d := Get(defs, LastSegment(k.ref.value.s)); d.Some? && d.value.Obj?
    else if k.enum.Some? || k.const_.Some? then LiteralShape(k)
    else if k.anyOf.Some? then
      k == NOTHING.(anyOf := k.anyOf) && k.anyOf.value.Arr? && UnionShape(k.anyOf.value.items, defs)
    else if k.oneOf.Some? then
      k == NOTHING.(oneOf := k.oneOf) && k.oneOf.value.Arr? && UnionShape(k.oneOf.value.items, defs)
        && OnlyOne(k.oneOf.value.items)
    else TypedShape(ms, defs)
  }

  /** Enumerated scalars, at least one of them not null, all of the declared type if there is one. */
  predicate LiteralShape(k: Keywords)
    requires k.enum.Some? || k.const_.Some?
  {
    k == NOTHING.(enum := k.enum, const_ := k.const_, typ := k.typ)
    && (k.enum.None? || k.const_.None?)
    && (k.enum.Some? ==> k.enum.value.Arr?)
    && var values := if k.enum.Some? then k.enum.value.items else [k.const_.value];
    (forall v | v in values :: Hashable(v) || v.Null?) && (exists v | v in values :: Hashable(v))
    && (k.const_.Some? ==> Hashable(k.const_.value))
    && (k.typ.Some? ==> forall v | v in values :: TypeAllows(k.typ.value, v))
  }

  /** One branch that is not null, and any number of null ones. */
  predicate UnionShape(items: seq<Value>, defs: seq<Member>)
    decreases items
  {
    var b := FirstBranch(items);
    b.Some? && Compilable(b.value, defs) && forall i | 0 <= i < |items| ::
      items[i] == Obj(b.value) || JustNull(items[i])
  }

  /** The branch alone, or beside one null branch that it cannot overlap. */
  predicate OnlyOne(items: seq<Value>) {
    var b := FirstBranch(items);
    |items| == 1 || (|items| == 2 && items[0] != items[1] && b.Some? && Solid(b.value))
  }

  /** One type name, perhaps beside null. */
  predicate SingleType(typ: Value) {
    match typ
    case Str(name) => !TypeNamed(name).TOther?
    case Arr(names) =>
      !FirstType(names).TOther? && forall i | 0 <= i < |names| ::
        names[i].Str? && (IsNull(names[i]) || TypeNamed(names[i].s) == FirstType(names))
    case _ => false
  }

  predicate TypedShape(ms: seq<Member>, defs: seq<Member>)
    decreases Obj(ms), 1
  {
    var k := Read(ms);
    k.ref.None? && k.enum.None? && k.const_.None? && k.anyOf.None? && k.oneOf.None?
    && if k.typ.None? then k == NOTHING
    else
      SingleType(k.typ.value) &&
      match TypeOf(k.typ).0
      case TObject => k.items.None? && ObjectShape(ms, defs)
      case TArray =>
        k == NOTHING.(typ := k.typ, items := k.items)
          && (k.items.Some? ==> k.items.value.Obj? && Compilable(k.items.value.members, defs))
      case _ => k == NOTHING.(typ := k.typ)
  }

  /** An identifier pydantic makes a field of: no leading underscore, nothing in its own `model_` namespace. */
  predicate FieldName(name: string) {
    Identifier(name) && name[0] != '_' && !StartsWith(name, "model_")
  }

  /** Declared properties that become fields, closed or open; or a map with typed values. */
  predicate ObjectShape(ms: seq<Member>, defs: seq<Member>)
    decreases Obj(ms), 0
  {
    var k := Read(ms);
    if Declares(k) then
      var props := k.properties.value.members;
      && (forall i | 0 <= i < |props| ::
        FieldName(props[i].key) && props[i].value.Obj? && Compilable(props[i].value.members, defs))
      && (k.required.Some? ==>
        k.required.value.Arr? && forall n | n in k.required.value.items :: n.Str? && Has(props, n.s))
      && (k.additional.Some? ==> k.additional.value.Bool?)
    else
      && (k.properties.Some? ==> k.properties.value == Obj([])) && k.required.None?
      && (k.additional.Some? ==>
          k.additional.value == Bool(true) || (k.additional.value.Obj? && Compilable(k.additional.value.members, defs)))
  }

  ghost predicate AllCompilable(defs: seq<Member>) {
    forall n | Has(defs, n) && Get(defs, n).value.Obj? :: Compilable(Get(defs, n).value.members, defs)
  }

  // ── The fragment is what the compiler can express ──

  lemma OnlyAt(ms: seq<Member>, words: seq<string>, i: nat)
    requires Only(ms, words) && i < |WORDS|
    ensures WORDS[i] in words || Get(ms, WORDS[i]).None?
  {
  }

  /** A keyword that is not among `words` is not read. */
  lemma OnlyReads(ms: seq<Member>, words: seq<string>)
    requires Only(ms, words)
    ensures InVocabulary(ms)
    ensures var k := Read(ms);
      && ("$ref" in words || k.ref.None?) && ("enum" in words || k.enum.None?) && ("const" in words || k.const_.None?)
      && ("anyOf" in words || k.anyOf.None?) && ("oneOf" in words || k.oneOf.None?) && ("type" in words || k.typ.None?)
      && ("properties" in words || k.properties.None?) && ("required" in words || k.required.None?)
      && ("additionalProperties" in words || k.additional.None?) && ("items" in words || k.items.None?)
  {
    ReadIs(ms);
    OnlyAt(ms, words, 0);
    OnlyAt(ms, words, 1);
    OnlyAt(ms, words, 2);
    OnlyAt(ms, words, 3);
    OnlyAt(ms, words, 4);
    OnlyAt(ms, words, 5);
    OnlyAt(ms, words, 6);
    OnlyAt(ms, words, 7);
    OnlyAt(ms, words, 8);
    OnlyAt(ms, words, 9);
    hide Read, Get;
  }

  lemma RefFits(ms: seq<Member>, defs: seq<Member>)
    requires PlainRef(ms, defs)
    ensures Compilable(ms, defs)
  {
    OnlyReads(ms, ["$ref"]);
    ReadIs(ms);
    DirectNames(Get(ms, "$ref").value.s, defs);
    hide Read, Get, InVocabulary, Only, Pointed, LastSegment, Direct;
  }

  lemma EnumFits(ms: seq<Member>, defs: seq<Member>)
    requires PlainEnum(ms)
    ensures Compilable(ms, defs)
  {
    ReadIs(ms);
    hide Read, Get, InVocabulary, Only, TypeAllows, Compilable, LiteralShape;
    if Has(ms, "enum") && Only(ms, ["enum", "type"]) {
      OnlyReads(ms, ["enum", "type"]);
      ListShape(ms);
    } else {
      OnlyReads(ms, ["const", "type"]);
      ConstShape(ms);
    }
    LiteralFits(ms, defs);
  }

  lemma ListShape(ms: seq<Member>)
    requires var k := Read(ms); k == NOTHING.(enum := k.enum, typ := k.typ) && k.enum.Some? && k.enum.value.Arr?
    requires var k := Read(ms);
      && (forall x | x in k.enum.value.items :: (Scalar(x) || x.Null?) && (k.typ.Some? ==> TypeAllows(k.typ.value, x)))
      && (exists x | x in k.enum.value.items :: Scalar(x))
    ensures LiteralShape(Read(ms))
  {
    hide Read, TypeAllows;
    var x :| x in Read(ms).enum.value.items && Scalar(x);
    assert Hashable(x);
    forall y | y in Read(ms).enum.value.items ensures Hashable(y) || y.Null? { assert Scalar(y) || y.Null?; }
  }

  lemma ConstShape(ms: seq<Member>)
    requires var k := Read(ms);
      k == NOTHING.(const_ := k.const_, typ := k.typ) && k.const_.Some? && Scalar(k.const_.value)
    requires var k := Read(ms); k.typ.Some? ==> TypeAllows(k.typ.value, k.const_.value)
    ensures LiteralShape(Read(ms))
  {
    hide Read, TypeAllows;
    var values := [Read(ms).const_.value];
    assert values[0] in values && Hashable(values[0]);
    forall y | y in values ensures Hashable(y) { assert y == values[0]; }
  }

  lemma LiteralFits(ms: seq<Member>, defs: seq<Member>)
    requires var k := Read(ms); InVocabulary(ms) && k.ref.None? && (k.enum.Some? || k.const_.Some?) && LiteralShape(k)
    ensures Compilable(ms, defs)
  {
    hide LiteralShape, InVocabulary, Read;
  }

  lemma TypeFits(typ: Value, name: string)
    requires TypeIs(typ, name) && name in TYPES
    ensures SingleType(typ) && TypeOf(Some(typ)).0 == TypeNamed(name) && !TypeNamed(name).TOther?
  {
    NamedTypes(name);
    hide TypeNamed;
    if typ.Arr? { FirstFits(typ.items, name); }
  }

  lemma NamedTypes(name: string)
    ensures name in TYPES ==> !TypeNamed(name).TOther?
    ensures TypeNamed(name).TNull? <==> name == "null"
    ensures TypeNamed(name).TObject? <==> name == "object"
    ensures TypeNamed(name).TArray? <==> name == "array"
  {
  }

  lemma {:induction false} FirstFits(names: seq<Value>, name: string)
    requires Str(name) in names && name != "null" && forall x | x in names :: x in [Str(name), Str("null")]
    ensures FirstType(names) == TypeNamed(name)
    ensures forall i | 0 <= i < |names| ::
      names[i].Str? && (IsNull(names[i]) || TypeNamed(names[i].s) == TypeNamed(name))
    decreases |names|
  {
    NamedTypes(name);
    NamedTypes("null");
    hide TypeNamed;
    assert names[0] in names;
    forall i | 0 <= i < |names|
        ensures names[i].Str? && (IsNull(names[i]) || TypeNamed(names[i].s) == TypeNamed(name)) {
      assert names[i] in names;
    }
    if names[0] != Str(name) {
      assert names == [names[0]] + names[1..];
      FirstFits(names[1..], name);
    }
  }

  /** A field name is an identifier. */
  lemma FieldNameIs(name: string)
    requires SetupSchema.FieldName(name)
    ensures FieldName(name)
  {
    assert name[0] != '_';
    forall i | 0 <= i < |name| ensures Letter(name[i]) || '0' <= name[i] <= '9' { assert name[i] in name; }
  }

  lemma TypeReads(ms: seq<Member>)
    requires Only(ms, ["type"])
    ensures InVocabulary(ms) && Read(ms) == NOTHING.(typ := Get(ms, "type"))
  {
    ReadIs(ms);
    hide Read, Only, InVocabulary, Get;
    OnlyReads(ms, ["type"]);
  }

  lemma JustNullIs(b: Value)
    requires SetupSchema.JustNull(b)
    ensures JustNull(b)
  {
    TypeReads(b.members);
    hide Read, Get, InVocabulary, Only;
  }

  lemma EnumIsNotNull(ms: seq<Member>)
    requires PlainEnum(ms)
    ensures Get(ms, "type") != Some(Str("null"))
  {
    hide Get, Only, NameAllows;
    if Get(ms, "type") == Some(Str("null")) {
      forall x ensures NameAllows("null", x) ==> x.Null? { NullAllows(x); }
      assert false;
    }
  }

  lemma NullAllows(x: Value)
    ensures NameAllows("null", x) ==> x.Null?
  {
  }

  /** Without `type` among its words a schema has none. */
  lemma NoType(ms: seq<Member>, words: seq<string>)
    requires Only(ms, words) && "type" !in words
    ensures !Has(ms, "type")
  {
    OnlyAt(ms, words, 5);
  }

  /** Of the fragment only `{"type": "null"}` has the null type. */
  lemma NullIsJust(b: seq<Member>, defs: seq<Member>)
    requires Plain(b, defs) && Get(b, "type") == Some(Str("null"))
    ensures SetupSchema.JustNull(Obj(b))
  {
    hide Get, Only, PlainItem, PlainMap, PlainProperties, PlainEnum;
    if PlainEnum(b) { EnumIsNotNull(b); }
    if Only(b, ["$ref"]) { NoType(b, ["$ref"]); }
    if Only(b, ["anyOf"]) { NoType(b, ["anyOf"]); }
    if Only(b, ["oneOf"]) { NoType(b, ["oneOf"]); }
    if Only(b, []) { NoType(b, []); }
  }

  /** The compiler finds the one branch that is not null. */
  lemma {:induction false} BranchIsFound(items: seq<Value>, b: seq<Member>)
    requires Obj(b) in items && !NullBranch(Obj(b)) && forall x | x in items :: x == Obj(b) || JustNull(x)
    ensures FirstBranch(items) == Some(b)
    decreases |items|
  {
    assert items[0] in items;
    if items[0] != Obj(b) {
      JustNullConforms(items[0], Null, [], Deep(0));
      hide JustNull, NullBranch;
      assert items == [items[0]] + items[1..];
      BranchIsFound(items[1..], b);
    }
  }

  lemma NotNull(b: seq<Member>, defs: seq<Member>)
    requires Plain(b, defs) && !SetupSchema.JustNull(Obj(b))
    ensures !NullBranch(Obj(b))
  {
    ReadIs(b);
    hide Plain, Read, Get, TypeNamed;
    if NullBranch(Obj(b)) {
      NamedTypes(Read(b).typ.value.s);
      NullIsJust(b, defs);
    }
  }

  lemma {:induction false} UnionFits(ms: seq<Member>, word: string, defs: seq<Member>)
    requires word in ["anyOf", "oneOf"] && PlainUnion(ms, word, defs)
    requires word == "oneOf" ==> NoOverlap(Get(ms, "oneOf").value.items)
    ensures Compilable(ms, defs)
    decreases Obj(ms), 0
  {
    var items := Get(ms, word).value.items;
    var b :| OneBranch(items, b, defs);
    BranchFits(items, b, defs);
    hide Only, UnionShape, OnlyOne, Plain, Compilable, NoOverlap, OneBranch;
    if word == "anyOf" {
      AnyReads(ms);
    } else {
      OneReads(ms);
      OverlapFits(items, b);
    }
    UnionIsFit(ms, items, defs);
  }

  lemma AnyReads(ms: seq<Member>)
    requires Only(ms, ["anyOf"])
    ensures InVocabulary(ms) && Read(ms) == NOTHING.(anyOf := Get(ms, "anyOf"))
  {
    ReadIs(ms);
    hide Read, Only, InVocabulary, Get;
    OnlyReads(ms, ["anyOf"]);
  }

  lemma OneReads(ms: seq<Member>)
    requires Only(ms, ["oneOf"])
    ensures InVocabulary(ms) && Read(ms) == NOTHING.(oneOf := Get(ms, "oneOf"))
  {
    ReadIs(ms);
    hide Read, Only, InVocabulary, Get;
    OnlyReads(ms, ["oneOf"]);
  }

  lemma UnionIsFit(ms: seq<Member>, items: seq<Value>, defs: seq<Member>)
    requires InVocabulary(ms) && UnionShape(items, defs)
    requires Read(ms) == NOTHING.(anyOf := Some(Arr(items))) ||
      (Read(ms) == NOTHING.(oneOf := Some(Arr(items))) && OnlyOne(items))
    ensures Compilable(ms, defs)
  {
    hide InVocabulary, UnionShape, OnlyOne, Read;
  }

  lemma {:induction false} BranchFits(items: seq<Value>, b: seq<Member>, defs: seq<Member>)
    requires OneBranch(items, b, defs)
    ensures UnionShape(items, defs) && FirstBranch(items) == Some(b)
    decreases items
  {
    hide Plain, Compilable, SetupSchema.JustNull;
    NotNull(b, defs);
    PlainFits(b, defs);
    forall x | x in items ensures x == Obj(b) || JustNull(x) {
      if x != Obj(b) { JustNullIs(x); }
    }
    BranchIsFound(items, b);
  }

  lemma OverlapFits(items: seq<Value>, b: seq<Member>)
    requires NoOverlap(items) && FirstBranch(items) == Some(b) && Obj(b) in items && !SetupSchema.JustNull(Obj(b))
    ensures OnlyOne(items)
  {
    ReadIs(b);
    hide Read, Get, FirstBranch, TypeNamed, SetupSchema.JustNull;
    if |items| == 2 { NamedTypes(Get(b, "type").value.s); }
  }

  lemma {:induction false} TypedFits(ms: seq<Member>, defs: seq<Member>)
    requires PlainTyped(ms, defs)
    ensures Compilable(ms, defs)
    decreases Obj(ms), 1
  {
    var typ := Get(ms, "type").value;
    if Only(ms, ["type"]) && exists name | name in TYPES :: TypeIs(typ, name) {
      var name :| name in TYPES && TypeIs(typ, name);
      BareTypeFits(ms, name, defs);
    } else if Only(ms, ["type", "items"]) && TypeIs(typ, "array") && PlainItem(ms, "items", defs) {
      PlainFits(Get(ms, "items").value.members, defs);
      ArrayFits(ms, defs);
    } else {
      if PlainProperties(ms, defs) { PropertiesFit(ms, defs); } else { MapFits(ms, defs); }
      ObjectFits(ms, defs);
    }
  }

  lemma TypedIsFit(ms: seq<Member>, defs: seq<Member>)
    requires InVocabulary(ms) && TypedShape(ms, defs)
    ensures Compilable(ms, defs)
  {
    hide InVocabulary, Read, SingleType, TypeOf, ObjectShape;
  }

  lemma BareTypeFits(ms: seq<Member>, name: string, defs: seq<Member>)
    requires Only(ms, ["type"]) && Has(ms, "type") && name in TYPES && TypeIs(Get(ms, "type").value, name)
    ensures Compilable(ms, defs)
  {
    TypeReads(ms);
    TypeFits(Get(ms, "type").value, name);
    hide Read, Get, InVocabulary, Only, SingleType, TypeOf, TypeIs, TypeNamed, Compilable;
    TypedIsFit(ms, defs);
  }

  lemma ArrayReads(ms: seq<Member>)
    requires Only(ms, ["type", "items"])
    ensures InVocabulary(ms) && Read(ms) == NOTHING.(typ := Read(ms).typ, items := Read(ms).items)
  {
    hide Read, Only, InVocabulary;
    OnlyReads(ms, ["type", "items"]);
  }

  lemma ArrayFits(ms: seq<Member>, defs: seq<Member>)
    requires Only(ms, ["type", "items"]) && Has(ms, "type") && TypeIs(Get(ms, "type").value, "array")
    requires Has(ms, "items") && Get(ms, "items").value.Obj? && Compilable(Get(ms, "items").value.members, defs)
    ensures Compilable(ms, defs)
  {
    ArrayReads(ms);
    ReadIs(ms);
    assert TYPES[5] == "array";
    NamedTypes("array");
    hide Read, Get, InVocabulary, Only, SingleType, TypeOf, TypeIs, TypeNamed, Compilable;
    TypeFits(Get(ms, "type").value, "array");
    TypedIsFit(ms, defs);
  }

  lemma ObjectReads(ms: seq<Member>)
    requires Only(ms, ["type", "properties", "required", "additionalProperties"])
    ensures var k := Read(ms);
      && InVocabulary(ms)
      && k == NOTHING.(typ := k.typ, properties := k.properties, required := k.required, additional := k.additional)
  {
    hide Read, Only, InVocabulary;
    OnlyReads(ms, ["type", "properties", "required", "additionalProperties"]);
  }

  lemma ObjectFits(ms: seq<Member>, defs: seq<Member>)
    requires Only(ms, ["type", "properties", "required", "additionalProperties"]) && Has(ms, "type")
    requires TypeIs(Get(ms, "type").value, "object") && ObjectShape(ms, defs)
    ensures Compilable(ms, defs)
  {
    ObjectReads(ms);
    ReadIs(ms);
    assert TYPES[6] == "object";
    NamedTypes("object");
    hide Read, Get, InVocabulary, Only, SingleType, TypeOf, TypeIs, TypeNamed, Compilable, ObjectShape;
    TypeFits(Get(ms, "type").value, "object");
    TypedIsFit(ms, defs);
  }

  lemma {:induction false} PropertiesFit(ms: seq<Member>, defs: seq<Member>)
    requires PlainProperties(ms, defs)
    ensures ObjectShape(ms, defs)
    decreases Obj(ms), 0
  {
    ReadIs(ms);
    var props := Get(ms, "properties").value.members;
    hide Read, Plain, SetupSchema.FieldName, FieldName, Compilable;
    forall i | 0 <= i < |props| ensures FieldName(props[i].key) && Compilable(props[i].value.members, defs) {
      FieldNameIs(props[i].key);
      assert props[i].value < Get(ms, "properties").value;
      PlainFits(props[i].value.members, defs);
    }
    hide Get;
  }

  lemma {:induction false} MapFits(ms: seq<Member>, defs: seq<Member>)
    requires PlainMap(ms, defs)
    ensures ObjectShape(ms, defs)
    decreases Obj(ms), 0
  {
    ReadIs(ms);
    if PlainItem(ms, "additionalProperties", defs) { PlainFits(Get(ms, "additionalProperties").value.members, defs); }
    hide Read, Get, Plain, Compilable;
  }

  /** Every schema of the fragment has the shape the compiler reads. */
  lemma {:induction false} PlainFits(ms: seq<Member>, defs: seq<Member>)
    requires Plain(ms, defs)
    ensures Compilable(ms, defs)
    decreases Obj(ms), 2
  {
    hide Compilable, PlainRef, PlainEnum, OneBranch, PlainTyped, NoOverlap, Only;
    if PlainRef(ms, defs) {
      RefFits(ms, defs);
    } else if PlainEnum(ms) {
      EnumFits(ms, defs);
    } else if PlainUnion(ms, "anyOf", defs) {
      UnionFits(ms, "anyOf", defs);
    } else if PlainUnion(ms, "oneOf", defs) && NoOverlap(Get(ms, "oneOf").value.items) {
      UnionFits(ms, "oneOf", defs);
    } else if Only(ms, []) {
      NothingFits(ms, defs);
    } else {
      TypedFits(ms, defs);
    }
  }

  lemma NothingFits(ms: seq<Member>, defs: seq<Member>)
    requires Only(ms, [])
    ensures Compilable(ms, defs)
  {
    OnlyReads(ms, []);
    hide Read, Get, InVocabulary, Only;
  }

  lemma AllFit(defs: seq<Member>)
    requires AllPlain(defs)
    ensures AllCompilable(defs)
  {
    hide Plain, Compilable;
    forall n | Has(defs, n) && Get(defs, n).value.Obj? ensures Compilable(Get(defs, n).value.members, defs) {
      PlainFits(Get(defs, n).value.members, defs);
    }
  }

  // ── Each shape of schema, one level at a time ──

  /** The scope below a reference to `name`. */
  function Under(scope: Scope, name: string): Scope {
    match scope
    case Deep(depth) => Deep(if depth > 0 then depth - 1 else 0)
    case Cut(seen) => Cut(seen + {name})
  }

  lemma ConformsRef(ms: seq<Member>, v: Value, defs: seq<Member>, scope: Scope)
    requires var k := Read(ms); k.ref.Some? && k == NOTHING.(ref := k.ref) && k.ref.value.Str? && Direct(k.ref.value.s)
    ensures var name := LastSegment(Read(ms).ref.value.s);
      Conforms(ms, v, defs, scope) <==>
        if scope.Cut? && name in scope.seen then v.Obj?
        else
          (scope.Deep? ==> scope.depth > 0) && Has(defs, name)
            && ConformsItem(Get(defs, name).value, v, defs, Under(scope, name))
  {
    ReadIs(ms);
    DirectNames(Read(ms).ref.value.s, defs);
    NothingMembers(ms, v, defs, scope);
    assert Conforms(ms, v, defs, scope) <==> Follows(ms, v, defs, scope) by {
      hide Read, Follows, ConformsItem, ConformsMembers;
    }
    hide Read, LastSegment, ConformsItem, ConformsMembers, Conforms, Get, Pointed, Direct;
  }

  lemma ConformsTyped(ms: seq<Member>, v: Value, defs: seq<Member>, scope: Scope)
    requires var k := Read(ms); k.ref.None? && k.enum.None? && k.const_.None? && k.anyOf.None? && k.oneOf.None?
    ensures var k := Read(ms);
      Conforms(ms, v, defs, scope) <==>
        && (k.typ.Some? ==> TypeAllows(k.typ.value, v))
        && (v.Obj? ==> ConformsMembers(ms, v.members, defs, scope))
        && (v.Arr? && k.items.Some? ==>
          forall i | 0 <= i < |v.items| :: ConformsItem(k.items.value, v.items[i], defs, scope))
  {
    ReadIs(ms);
    hide Read, ConformsItem, ConformsMembers, TypeAllows, Get;
  }

  lemma ConformsAny(ms: seq<Member>, v: Value, defs: seq<Member>, scope: Scope)
    requires var k := Read(ms); k.anyOf.Some? && k == NOTHING.(anyOf := k.anyOf) && k.anyOf.value.Arr?
    ensures var items := Read(ms).anyOf.value.items;
      Conforms(ms, v, defs, scope) <==> exists i | 0 <= i < |items| :: ConformsItem(items[i], v, defs, scope)
  {
    ReadIs(ms);
    NothingMembers(ms, v, defs, scope);
    hide Read, ConformsItem, ConformsMembers, Get;
  }

  lemma ConformsOne(ms: seq<Member>, v: Value, defs: seq<Member>, scope: Scope)
    requires var k := Read(ms); k.oneOf.Some? && k == NOTHING.(oneOf := k.oneOf) && k.oneOf.value.Arr?
    ensures var items := Read(ms).oneOf.value.items;
      Conforms(ms, v, defs, scope) <==> ExactlyOne(items, v, defs, scope)
  {
    ReadIs(ms);
    NothingMembers(ms, v, defs, scope);
    hide Read, ConformsItem, ConformsMembers, Get;
  }

  lemma NothingMembers(ms: seq<Member>, v: Value, defs: seq<Member>, scope: Scope)
    requires var k := Read(ms); k.properties.None? && k.required.None? && k.additional.None?
    ensures v.Obj? ==> ConformsMembers(ms, v.members, defs, scope)
  {
    ReadIs(ms);
    hide Read, ConformsItem, Get;
  }

  /** The compiled literal is the enumeration. */
  lemma LiteralAgrees(ms: seq<Member>, v: Value, defs: seq<Member>, seen: set<string>, scope: Scope)
    requires var k := Read(ms); k.ref.None? && (k.enum.Some? || k.const_.Some?) && LiteralShape(k)
    ensures Conforms(ms, v, defs, scope) <==> Admits(PyType(ms, defs, seen), v)
  {
    LiteralConforms(ms, v, defs, scope);
    LiteralAdmits(ms, v, defs, seen);
    hide Read, Conforms, PyType;
  }

  /** The values an enumeration lists, or the one constant. */
  function Listed(k: Keywords): seq<Value> {
    if k.enum.Some? && k.enum.value.Arr? then k.enum.value.items else if k.const_.Some? then [k.const_.value] else []
  }

  lemma LiteralConforms(ms: seq<Member>, v: Value, defs: seq<Member>, scope: Scope)
    requires var k := Read(ms); k.ref.None? && (k.enum.Some? || k.const_.Some?) && LiteralShape(k)
    ensures Conforms(ms, v, defs, scope) <==> v in Listed(Read(ms))
  {
    ReadIs(ms);
    NothingMembers(ms, v, defs, scope);
    hide Read, Get, ConformsMembers, TypeAllows;
  }

  lemma LiteralAdmits(ms: seq<Member>, v: Value, defs: seq<Member>, seen: set<string>)
    requires var k := Read(ms); k.ref.None? && (k.enum.Some? || k.const_.Some?) && LiteralShape(k)
    ensures Admits(PyType(ms, defs, seen), v) <==> v in Listed(Read(ms))
  {
    var k := Read(ms);
    hide Read, TypeAllows;
    assert LiteralType(k).Some?;
  }

  lemma JustNullConforms(b: Value, v: Value, defs: seq<Member>, scope: Scope)
    requires JustNull(b)
    ensures NullBranch(b) && (ConformsItem(b, v, defs, scope) <==> v.Null?)
  {
    ConformsTyped(b.members, v, defs, scope);
    assert TypeNamed("null").TNull?;
    NothingMembers(b.members, v, defs, scope);
    hide Conforms, ConformsMembers, Read, TypeNamed;
  }

  /** Whether a union has a null branch is what the compiler finds. */
  lemma NullFound(items: seq<Value>, defs: seq<Member>)
    requires UnionShape(items, defs)
    ensures var b := Obj(FirstBranch(items).value);
      && !NullBranch(b) && b in items
      && ((exists i | 0 <= i < |items| :: NullBranch(items[i])) <==> exists i | 0 <= i < |items| :: JustNull(items[i]))
      && (forall i | 0 <= i < |items| :: items[i] == b || JustNull(items[i]))
      && Compilable(FirstBranch(items).value, defs)
  {
    forall i | 0 <= i < |items| && JustNull(items[i]) ensures NullBranch(items[i]) {
      JustNullConforms(items[i], Null, [], Deep(0));
    }
    hide JustNull, NullBranch, Compilable;
  }

  lemma AnyAgrees(items: seq<Value>, v: Value, defs: seq<Member>, scope: Scope)
    requires UnionShape(items, defs)
    ensures (exists i | 0 <= i < |items| :: ConformsItem(items[i], v, defs, scope)) <==>
      Conforms(FirstBranch(items).value, v, defs, scope)
        || ((exists i | 0 <= i < |items| :: NullBranch(items[i])) && v.Null?)
  {
    NullFound(items, defs);
    var b := FirstBranch(items).value;
    BranchItem(b, v, defs, scope);
    hide JustNull, Conforms, ConformsItem, FirstBranch, NullBranch, UnionShape;
    forall i | 0 <= i < |items| && JustNull(items[i]) ensures ConformsItem(items[i], v, defs, scope) <==> v.Null? {
      JustNullConforms(items[i], v, defs, scope);
    }
  }

  lemma SolidRefusesNull(b: seq<Member>, defs: seq<Member>, scope: Scope)
    requires Solid(b)
    ensures !Conforms(b, Null, defs, scope)
  {
    ReadIs(b);
    NamesAgree(Read(b).typ.value.s, Null);
    hide Read, ConformsMembers, ConformsItem, TypeNamed, NameAllows, Get;
  }

  ghost predicate ExactlyOne(items: seq<Value>, v: Value, defs: seq<Member>, scope: Scope) {
    exists i | 0 <= i < |items| ::
      ConformsItem(items[i], v, defs, scope) && forall j | 0 <= j < |items| && j != i ::
        !ConformsItem(items[j], v, defs, scope)
  }

  lemma OneOfOne(items: seq<Value>, v: Value, defs: seq<Member>, scope: Scope)
    requires |items| == 1
    ensures ExactlyOne(items, v, defs, scope) <==> ConformsItem(items[0], v, defs, scope)
  {
    hide ConformsItem;
  }

  lemma OneOfTwo(items: seq<Value>, v: Value, defs: seq<Member>, scope: Scope)
    requires |items| == 2
    ensures ExactlyOne(items, v, defs, scope) <==>
      ConformsItem(items[0], v, defs, scope) != ConformsItem(items[1], v, defs, scope)
  {
    hide ConformsItem;
  }

  lemma OneAgrees(items: seq<Value>, v: Value, defs: seq<Member>, scope: Scope)
    requires UnionShape(items, defs) && OnlyOne(items)
    ensures ExactlyOne(items, v, defs, scope) <==>
      Conforms(FirstBranch(items).value, v, defs, scope)
      || ((exists i | 0 <= i < |items| :: NullBranch(items[i])) && v.Null?)
  {
    hide *;
    NullFound(items, defs);
    OnlyOneParts(items);
    var b := FirstBranch(items).value;
    if |items| == 1 {
      OneOfOne(items, v, defs, scope);
      BranchItem(b, v, defs, scope);
      assert items[0] == Obj(b);
    } else {
      OneBesideNull(items, b, v, defs, scope);
    }
  }

  lemma OnlyOneParts(items: seq<Value>)
    requires OnlyOne(items)
    ensures var b := FirstBranch(items);
      |items| == 1 || (|items| == 2 && items[0] != items[1] && b.Some? && Solid(b.value))
  {
    hide Solid, FirstBranch;
  }

  lemma OneBesideNull(items: seq<Value>, b: seq<Member>, v: Value, defs: seq<Member>, scope: Scope)
    requires |items| == 2 && items[0] != items[1] && Obj(b) in items && Solid(b)
    requires forall i | 0 <= i < |items| :: items[i] == Obj(b) || JustNull(items[i])
    ensures exists i | 0 <= i < |items| :: NullBranch(items[i])
    ensures ExactlyOne(items, v, defs, scope) <==> Conforms(b, v, defs, scope) || v.Null?
  {
    hide *;
    SolidRefusesNull(b, defs, scope);
    BranchItem(b, v, defs, scope);
    OneOfTwo(items, v, defs, scope);
    var other := if items[0] == Obj(b) then items[1] else items[0];
    assert other in items && JustNull(other);
    JustNullConforms(other, v, defs, scope);
  }

  lemma BranchItem(b: seq<Member>, v: Value, defs: seq<Member>, scope: Scope)
    ensures ConformsItem(Obj(b), v, defs, scope) <==> Conforms(b, v, defs, scope)
  {
    hide Conforms;
  }

  /** A single type name beside null, as the compiler splits it. */
  lemma TypeSplits(typ: Value, v: Value)
    requires SingleType(typ)
    ensures var (t, nullable) := TypeOf(Some(typ)); TypeAllows(typ, v) <==> Matches(t, v) || (nullable && v.Null?)
  {
    hide TypeNamed, NameAllows, Matches;
    MatchesNull();
    match typ
    case Str(name) => NamesAgree(name, v);
    case Arr(names) =>
      FirstTypeIn(names);
      forall i | 0 <= i < |names| && names[i].Str?
        ensures NameAllows(names[i].s, v) <==> Matches(TypeNamed(names[i].s), v)
      {
        NamesAgree(names[i].s, v);
      }
      if i :| 0 <= i < |names| && IsNull(names[i]) && v.Null? { assert Matches(TypeNamed(names[i].s), v); }
  }

  lemma {:induction false} FirstTypeIn(names: seq<Value>)
    requires !FirstType(names).TOther?
    ensures exists i ::
      0 <= i < |names| && !IsNull(names[i]) && names[i].Str? && TypeNamed(names[i].s) == FirstType(names)
    decreases |names|
  {
    hide TypeNamed;
    if IsNull(names[0]) {
      FirstTypeIn(names[1..]);
      var i :|
        0 <= i < |names[1..]| && !IsNull(names[1..][i]) && names[1..][i].Str?
        && TypeNamed(names[1..][i].s) == FirstType(names[1..]);
      assert names[i + 1] == names[1..][i];
    }
  }
}
