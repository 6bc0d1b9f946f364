/** JSON values as the schema code holds them: objects keep their members in order. */
module Json {
  import opened Wrappers

  datatype Value =
    | Null
    | Bool(b: bool)
    | Int(i: int)
    | Num(r: real)
    | Str(s: string)
    | Arr(items: seq<Value>)
    | Obj(members: seq<Member>)

  datatype Member = Member(key: string, value: Value)

  /** `d.get(key)`; a dict has each key once, so the first is the only one. */
  function Get(ms: seq<Member>, key: string): (r: Option<Value>)
    ensures r.Some? ==> exists i :: 0 <= i < |ms| && ms[i] == Member(key, r.value)
    ensures r.None? ==> forall i | 0 <= i < |ms| :: ms[i].key != key
    ensures r.Some? ==> r.value < Obj(ms)
  {
    if ms == [] then None
    else if ms[0].key == key then Some(ms[0].value)
    else
      var r := Get(ms[1..], key);
      assert r.Some? ==> r.value < Obj(ms[1..]);
      r
  }

  predicate Has(ms: seq<Member>, key: string) {
    Get(ms, key).Some?
  }
}
