/** The walk that refuses content whose object keys storage would mangle. */
module UnsafeKeys {
  import opened Json
  import opened Sequences
  import opened Wrappers

  const FIRST_PRINTABLE := 0x20
  const LAST_BMP := 0xFFFF

  predicate SafeChar(c: char): (r: bool)
    ensures r <==> c in "\t\n\r" || 32 <= c as int <= 65535
  {
    c as int <= LAST_BMP && (c as int >= FIRST_PRINTABLE || c == '\t' || c == '\n' || c == '\r')
  }

  predicate SafeKey(key: string) {
    forall i | 0 <= i < |key| :: SafeChar(key[i])
  }

  /** Every key of every object, at any depth of objects and arrays, is safe. */
  predicate Safe(v: Value) {
    match v
    case Obj(ms) => forall i | 0 <= i < |ms| :: SafeKey(ms[i].key) && Safe(ms[i].value)
    case Arr(items) => forall i | 0 <= i < |items| :: Safe(items[i])
    case _ => true
  }

  /** A node still to be visited, and the dotted path that led to it. */
  datatype Pending = Pending(path: string, node: Value)

  function Where(path: string, key: string): string {
    if path != "" then path + "." + key else key
  }

  /** `where` is the path of an unsafe key inside `p`. */
  predicate UnsafeAt(p: Pending, where: string)
    decreases p.node
  {
    match p.node
    case Obj(ms) =>
      exists i | 0 <= i < |ms| ::
        (!SafeKey(ms[i].key) && where == Where(p.path, ms[i].key))
          || UnsafeAt(Pending(Where(p.path, ms[i].key), ms[i].value), where)
    case Arr(items) => exists i | 0 <= i < |items| :: UnsafeAt(Pending(p.path, items[i]), where)
    case _ => false
  }

  /** What visiting a node puts on the stack, in order. */
  function Children(p: Pending): seq<Pending> {
    match p.node
    case Obj(ms) => seq(|ms|, i requires 0 <= i < |ms| => Pending(Where(p.path, ms[i].key), ms[i].value))
    case Arr(items) => seq(|items|, i requires 0 <= i < |items| => Pending(p.path, items[i]))
    case _ => []
  }

  predicate OwnKeysSafe(v: Value) {
    v.Obj? ==> forall i | 0 <= i < |v.members| :: SafeKey(v.members[i].key)
  }

  // ── Termination: what is left to visit ──

  function Size(v: Value): nat {
    match v
    case Obj(ms) => 1 + SizeMembers(ms)
    case Arr(items) => 1 + SizeItems(items)
    case _ => 1
  }

  function SizeMembers(ms: seq<Member>): nat {
    if ms == [] then 0 else SizeMembers(ms[..|ms| - 1]) + Size(ms[|ms| - 1].value)
  }

  function SizeItems(items: seq<Value>): nat {
    if items == [] then 0 else SizeItems(items[..|items| - 1]) + Size(items[|items| - 1])
  }

  function Left(stack: seq<Pending>): nat {
    if stack == [] then 0 else Left(stack[..|stack| - 1]) + Size(stack[|stack| - 1].node)
  }

  lemma LeftPush(stack: seq<Pending>, p: Pending)
    ensures Left(stack + [p]) == Left(stack) + Size(p.node)
  {
    assert (stack + [p])[..|stack|] == stack;
  }

  lemma ChildrenPush(path: string, ms: seq<Member>, m: Member, items: seq<Value>, v: Value)
    ensures Children(Pending(path, Obj(ms + [m]))) == Children(Pending(path, Obj(ms)))
      + [Pending(Where(path, m.key), m.value)]
    ensures Children(Pending(path, Arr(items + [v]))) == Children(Pending(path, Arr(items))) + [Pending(path, v)]
  {
    hide Where;
  }

  lemma {:induction false} LeftMembers(rest: seq<Pending>, path: string, ms: seq<Member>)
    ensures Left(rest + Children(Pending(path, Obj(ms)))) == Left(rest) + SizeMembers(ms)
    decreases |ms|
  {
    hide Where, Left, Size, Children;
    if ms == [] {
      NoChildren(rest, path);
    } else {
      var front, m := ms[..|ms| - 1], ms[|ms| - 1];
      assert ms == front + [m];
      var last := Pending(Where(path, m.key), m.value);
      LeftMembers(rest, path, front);
      ChildrenPush(path, front, m, [], Null);
      Associate(rest, Children(Pending(path, Obj(front))), [last]);
      LeftPush(rest + Children(Pending(path, Obj(front))), last);
    }
  }

  lemma NoChildren(rest: seq<Pending>, path: string)
    ensures rest + Children(Pending(path, Obj([]))) == rest && rest + Children(Pending(path, Arr([]))) == rest
  {
  }

  lemma {:induction false} LeftItems(rest: seq<Pending>, path: string, items: seq<Value>)
    ensures Left(rest + Children(Pending(path, Arr(items)))) == Left(rest) + SizeItems(items)
    decreases |items|
  {
    hide Where, Left, Size, Children;
    if items == [] {
      NoChildren(rest, path);
    } else {
      var front, v := items[..|items| - 1], items[|items| - 1];
      assert items == front + [v];
      LeftItems(rest, path, front);
      ChildrenPush(path, [], Member("", Null), front, v);
      Associate(rest, Children(Pending(path, Arr(front))), [Pending(path, v)]);
      LeftPush(rest + Children(Pending(path, Arr(front))), Pending(path, v));
    }
  }

  lemma LessIsLeft(rest: seq<Pending>, p: Pending)
    ensures Left(rest + Children(p)) < Left(rest + [p])
  {
    LeftPush(rest, p);
    match p.node
    case Obj(ms) => LeftMembers(rest, p.path, ms);
    case Arr(items) => LeftItems(rest, p.path, items);
    case _ => assert rest + Children(p) == rest;
  }

  // ── The stack stands for the content ──

  ghost predicate AllSafe(stack: seq<Pending>) {
    forall p | p in stack :: Safe(p.node)
  }

  ghost predicate LeadsIn(stack: seq<Pending>, content: Value) {
    forall p, w | p in stack && UnsafeAt(p, w) :: UnsafeAt(Pending("", content), w)
  }

  lemma ChildrenSafe(p: Pending)
    ensures Safe(p.node) <==> OwnKeysSafe(p.node) && AllSafe(Children(p))
    ensures forall c, w | c in Children(p) && UnsafeAt(c, w) :: UnsafeAt(p, w)
  {
    var cs := Children(p);
    if AllSafe(cs) {
      match p.node
      case Obj(ms) => forall i | 0 <= i < |ms| ensures Safe(ms[i].value) { assert cs[i] in cs; }
      case Arr(items) => forall i | 0 <= i < |items| ensures Safe(items[i]) { assert cs[i] in cs; }
      case _ =>
    }
  }

  lemma FoundUnsafe(path: string, ms: seq<Member>, i: nat)
    requires i < |ms| && !SafeKey(ms[i].key)
    ensures UnsafeAt(Pending(path, Obj(ms)), Where(path, ms[i].key)) && !Safe(Obj(ms))
  {
    assert ms[i] in ms;
  }

  /** The loop over one object: refuses at its first unsafe key, or pushes all its values. */
  method VisitMembers(path: string, ms: seq<Member>, stack: seq<Pending>)
      returns (refused: Option<string>, grown: seq<Pending>)
    ensures refused.None? ==> OwnKeysSafe(Obj(ms)) && grown == stack + Children(Pending(path, Obj(ms)))
    ensures refused.Some? ==> UnsafeAt(Pending(path, Obj(ms)), refused.value) && !Safe(Obj(ms))
  {
    grown := stack;
    for i := 0 to |ms|
      invariant forall j | 0 <= j < i :: SafeKey(ms[j].key)
      invariant grown == stack + Children(Pending(path, Obj(ms)))[..i]
    {
      var path' := Where(path, ms[i].key);
      if !SafeKey(ms[i].key) {
        FoundUnsafe(path, ms, i);
        return Some(path'), grown;
      }
      grown := grown + [Pending(path', ms[i].value)];
    }
    return None, grown;
  }

  /** The worklist; a refusal carries the dotted path of the offending key. */
  method RejectUnsafeKeys(content: Value) returns (refused: Option<string>)
    ensures refused.None? <==> Safe(content)
    ensures refused.Some? ==> UnsafeAt(Pending("", content), refused.value)
  {
    hide Safe, UnsafeAt, Left, Where, SafeKey;
    var stack := [Pending("", content)];
    while stack != []
      invariant Safe(content) <==> AllSafe(stack)
      invariant LeadsIn(stack, content)
      decreases Left(stack)
    {
      ghost var before := stack;
      var p := stack[|stack| - 1];
      stack := stack[..|stack| - 1];
      ghost var rest := stack;
      assert before == rest + [p];
      ChildrenSafe(p);
      match p.node {
        case Obj(ms) =>
          refused, stack := VisitMembers(p.path, ms, stack);
          if refused.Some? {
            return;
          }
        case Arr(items) =>
          stack := stack + Children(p);
        case _ =>
      }
      LessIsLeft(rest, p);
      assert stack == rest + Children(p);
    }
    return None;
  }
}
