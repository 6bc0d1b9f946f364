/** A Python dict: a finite map that remembers the order in which its keys were inserted. */
module OrderedDict {

  datatype Dict<K(==), V> = Dict(order: seq<K>, vals: map<K, V>)

  /** The order lists every key exactly once. */
  ghost predicate Valid<K, V>(d: Dict<K, V>) {
    && (forall k | k in d.vals :: k in d.order)
    && (forall k | k in d.order :: k in d.vals)
    && Distinct(d.order)
  }

  ghost predicate Distinct<K>(s: seq<K>) {
    forall i, j :: 0 <= i < j < |s| ==> s[i] != s[j]
  }

  function Empty<K(==), V>(): Dict<K, V> {
    Dict([], map[])
  }

  /** `d[k] = v`: an existing key keeps its position, a new one goes last. */
  function Put<K(==), V>(d: Dict<K, V>, k: K, v: V): Dict<K, V> {
    Dict(if k in d.vals then d.order else d.order + [k], d.vals[k := v])
  }

  /** `d.pop(k, None)`, keeping only the dict. */
  function Pop<K(==), V>(d: Dict<K, V>, k: K): Dict<K, V> {
    if k in d.vals then Dict(Without(d.order, k), d.vals - {k}) else d
  }

  /** The sequence without the first occurrence of `k`. */
  function Without<K(==)>(s: seq<K>, k: K): seq<K> {
    if s == [] then []
    else if s[0] == k then s[1..]
    else [s[0]] + Without(s[1..], k)
  }

  /** Removing a key that occurs at `i` joins what stood before and after it. */
  lemma {:induction false} WithoutAt<K>(s: seq<K>, i: nat)
    requires i < |s| && Distinct(s)
    ensures Without(s, s[i]) == s[..i] + s[i + 1..]
  {
    if i == 0 {
    } else {
      assert s[0] != s[i];
      assert s[1..][i - 1] == s[i];
      WithoutAt(s[1..], i - 1);
      assert s[..i] + s[i + 1..] == [s[0]] + (s[1..][..i - 1] + s[1..][i..]);
    }
  }

  lemma PutValid<K, V>(d: Dict<K, V>, k: K, v: V)
    requires Valid(d)
    ensures Valid(Put(d, k, v))
  {
    var r := Put(d, k, v);
    if k !in d.vals {
      assert r.order[|d.order|] == k;
      forall x ensures x in r.vals <==> x in r.order {
        if x in d.order { assert x in r.order; }
      }
    }
  }

  /** Removal takes out the key and nothing else. */
  lemma {:induction false} WithoutMembers<K>(s: seq<K>, k: K)
    requires Distinct(s)
    ensures Distinct(Without(s, k))
    ensures forall x | x in s :: x == k || x in Without(s, k)
    ensures forall x | x in Without(s, k) :: x in s && x != k
    ensures k in s ==> |Without(s, k)| == |s| - 1
  {
    if s != [] {
      var t := s[1..];
      assert s == [s[0]] + t;
      if s[0] == k {
        assert forall x | x in t :: x != k;
      } else {
        assert Distinct(t);
        WithoutMembers(t, k);
        assert s[0] !in t;
      }
    }
  }

  lemma PopValid<K, V>(d: Dict<K, V>, k: K)
    requires Valid(d)
    ensures Valid(Pop(d, k))
    ensures Pop(d, k).vals == d.vals - {k}
    ensures k in d.vals ==> |Pop(d, k).order| == |d.order| - 1
  {
    WithoutMembers(d.order, k);
  }

  /** Popping the newest key only shortens the order. */
  lemma PopLast<K, V>(d: Dict<K, V>)
    requires Valid(d) && d.order != []
    ensures d.order[|d.order| - 1] in d.vals
    ensures Pop(d, d.order[|d.order| - 1]).order == d.order[..|d.order| - 1]
  {
    WithoutAt(d.order, |d.order| - 1);
  }
}
