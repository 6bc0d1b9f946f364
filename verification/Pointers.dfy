/**
 JSON Pointers into a schema's `$defs`, after RFC 6901, and the references that name a definition by its
 last segment, as the code reads them. Percent-encoding is not decoded.
 */
module Pointers {
  import opened InlineRefs
  import opened Json
  import opened Wrappers

  /** The text between the slashes, unescaping aside. */
  function Tokens(s: string): (r: seq<string>)
    ensures r != []
  {
    if s == [] then [[]]
    else
      var rest := Tokens(s[1..]);
      if s[0] == '/' then [[]] + rest else [[s[0]] + rest[0]] + rest[1..]
  }

  /** `~1` stands for a slash and `~0` for a tilde. */
  function Unescaped(token: string): string {
    if token == [] then []
    else if |token| >= 2 && token[0] == '~' && token[1] == '1' then ['/'] + Unescaped(token[2..])
    else if |token| >= 2 && token[0] == '~' && token[1] == '0' then ['~'] + Unescaped(token[2..])
    else [token[0]] + Unescaped(token[1..])
  }

  /** An array index: digits without a leading zero. */
  function Index(token: string): Option<nat> {
    if token == "0" then Some(0)
    else if token == [] || token[0] == '0' || exists i :: 0 <= i < |token| && !('0' <= token[i] <= '9') then None
    else Some(Decimal(token))
  }

  function Decimal(digits: string): nat
    requires forall i | 0 <= i < |digits| :: '0' <= digits[i] <= '9'
  {
    if digits == [] then 0 else 10 * Decimal(digits[..|digits| - 1]) + (digits[|digits| - 1] as int - '0' as int)
  }

  function Walk(v: Value, tokens: seq<string>): Option<Value>
    decreases |tokens|
  {
    if tokens == [] then Some(v)
    else
      var next := match v
        case Obj(ms) => Get(ms, Unescaped(tokens[0]))
        case Arr(items) =>
          var i := Index(tokens[0]);
          if i.Some? && i.value < |items| then Some(items[i.value]) else None
        case _ => None;
      if next.Some? then Walk(next.value, tokens[1..]) else None
  }

  /** What a reference into `$defs` points to. */
  function Pointed(ref: string, defs: seq<Member>): Option<Value> {
    if StartsWith(ref, LOCAL) then Walk(Obj(defs), Tokens(ref[|LOCAL|..])) else None
  }

  /** `#/$defs/<name>`, with nothing in the name that a pointer reads in its own way. */
  predicate Direct(ref: string) {
    StartsWith(ref, LOCAL) && forall i | |LOCAL| <= i < |ref| :: PlainChar(ref[i])
  }

  predicate PlainChar(c: char) {
    c != '/' && c != '~' && c != '%'
  }

  lemma {:induction false} PlainToken(s: string)
    requires forall i | 0 <= i < |s| :: PlainChar(s[i])
    ensures Tokens(s) == [s] && Unescaped(s) == s
    decreases |s|
  {
    if s != [] {
      forall i | 0 <= i < |s[1..]| ensures PlainChar(s[1..][i]) { assert s[1..][i] == s[i + 1]; }
      PlainToken(s[1..]);
      assert PlainChar(s[0]);
      assert s == [s[0]] + s[1..];
    }
  }

  lemma {:induction false} LastOf(s: string, k: nat)
    requires k <= |s| && (forall i | k <= i < |s| :: PlainChar(s[i])) && (k == 0 || s[k - 1] == '/')
    ensures LastSegment(s) == s[k..]
    decreases |s|
  {
    if k < |s| {
      var before := s[..|s| - 1];
      forall i | k <= i < |before| ensures PlainChar(before[i]) { assert before[i] == s[i]; }
      LastOf(before, k);
      assert PlainChar(s[|s| - 1]);
      assert s[k..] == before[k..] + [s[|s| - 1]];
    }
  }

  /** For a direct reference the last segment is what the pointer points to. */
  lemma DirectNames(ref: string, defs: seq<Member>)
    requires Direct(ref)
    ensures LastSegment(ref) == ref[|LOCAL|..] && Pointed(ref, defs) == Get(defs, LastSegment(ref))
  {
    var name := ref[|LOCAL|..];
    forall i | 0 <= i < |name| ensures PlainChar(name[i]) { assert name[i] == ref[i + |LOCAL|]; }
    PlainToken(name);
    assert LOCAL[|LOCAL| - 1] == '/' && ref[|LOCAL| - 1] == LOCAL[|LOCAL| - 1];
    LastOf(ref, |LOCAL|);
    assert ref[..|LOCAL|] + name == ref;
    var tokens := Tokens(name);
    assert tokens == [name] && tokens[1..] == [];
    if Has(defs, name) { assert Walk(Get(defs, name).value, tokens[1..]) == Get(defs, name); }
    assert Walk(Obj(defs), tokens) == Get(defs, name);
  }

  lemma NestedTokens()
    ensures Tokens("A/x") == ["A", "x"] && Unescaped("A") == "A" && Unescaped("x") == "x"
  {
    PlainToken("A");
    PlainToken("x");
    assert "A/x"[1..] == "/x" && "/x"[1..] == "x";
    var rest := Tokens("/x");
    assert rest == [[]] + ["x"];
    assert rest[0] == [] && rest[1..] == ["x"];
    assert "A/x"[0] == 'A' && ['A'] + rest[0] == "A";
    assert Tokens("A/x") == [['A'] + rest[0]] + rest[1..];
  }

  lemma NestedLast()
    ensures LastSegment("#/$defs/A/x") == "x"
  {
    LastOf("#/$defs/A/x", 10);
    assert "#/$defs/A/x"[10..] == "x";
  }

  /** `#/$defs/A/x` points to the member `x` of `A`, and the code takes the definition called `x`. */
  lemma NestedPointer(inner: Value, other: Value)
    ensures var defs := [Member("A", Obj([Member("x", inner)])), Member("x", other)];
      Pointed("#/$defs/A/x", defs) == Some(inner) && LastSegment("#/$defs/A/x") == "x" && Get(defs, "x") == Some(other)
  {
    var defs := [Member("A", Obj([Member("x", inner)])), Member("x", other)];
    assert "#/$defs/A/x"[..8] == LOCAL && "#/$defs/A/x"[8..] == "A/x";
    NestedTokens();
    NestedLast();
    hide Tokens, Unescaped, LastSegment;
    assert ["A", "x"][1..] == ["x"] && ["x"][1..] == [];
    assert Walk(inner, []) == Some(inner);
    assert Walk(Obj([Member("x", inner)]), ["x"]) == Some(inner);
    assert defs[1..] == [Member("x", other)];
    assert Walk(Obj(defs), ["A", "x"]) == Some(inner);
  }
}
