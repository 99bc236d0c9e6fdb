/**
 * Python dictionaries with string keys, as the backend uses them: an
 * association list in insertion order. Assigning to an existing key keeps the
 * key's position and replaces its value; `del` removes the entry; iteration
 * follows insertion order.
 */
module Dicts {
  import opened Wrappers

  type Dict<V> = seq<(string, V)>

  function Keys<V>(d: Dict<V>): (ks: seq<string>)
    ensures |ks| == |d|
    ensures forall i :: 0 <= i < |d| ==> ks[i] == d[i].0
  {
    seq(|d|, i requires 0 <= i < |d| => d[i].0)
  }

  function Values<V>(d: Dict<V>): (vs: seq<V>)
    ensures |vs| == |d|
    ensures forall i :: 0 <= i < |d| ==> vs[i] == d[i].1
  {
    seq(|d|, i requires 0 <= i < |d| => d[i].1)
  }

  /** No key occurs twice: what every real dictionary satisfies. */
  predicate Distinct<V>(d: Dict<V>)
  {
    forall i, j :: 0 <= i < j < |d| ==> d[i].0 != d[j].0
  }

  /** `k in d`. */
  predicate HasKey<V>(d: Dict<V>, k: string)
  {
    k in Keys(d)
  }

  /** `d.get(k)`. */
  function Get<V>(d: Dict<V>, k: string): Option<V>
  {
    if d == [] then None
    else if d[0].0 == k then Some(d[0].1)
    else Get(d[1..], k)
  }

  /** `d[k] = v`. */
  function Put<V>(d: Dict<V>, k: string, v: V): Dict<V>
  {
    if d == [] then [(k, v)]
    else if d[0].0 == k then [(k, v)] + d[1..]
    else [d[0]] + Put(d[1..], k, v)
  }

  /** `del d[k]` for a present key; the identity for an absent one. */
  function Remove<V>(d: Dict<V>, k: string): Dict<V>
  {
    if d == [] then []
    else if d[0].0 == k then Remove(d[1..], k)
    else [d[0]] + Remove(d[1..], k)
  }

  lemma HasKeyCons<V>(d: Dict<V>, k: string)
    requires d != []
    ensures HasKey(d, k) <==> d[0].0 == k || HasKey(d[1..], k)
  {
    assert Keys(d) == [d[0].0] + Keys(d[1..]);
  }

  /** `get` finds exactly the keys that are present, and what it finds is stored under that key. */
  lemma {:induction false} GetFound<V>(d: Dict<V>, k: string)
    ensures Get(d, k).Some? <==> HasKey(d, k)
    ensures Get(d, k).Some? ==> (k, Get(d, k).value) in d
  {
    if d != [] {
      HasKeyCons(d, k);
      if d[0].0 != k {
        GetFound(d[1..], k);
      }
    }
  }

  /** Lookup finds the first entry with the key, whatever follows it. */
  lemma {:induction false} GetFirst<V>(d: Dict<V>, i: int, k: string)
    requires 0 <= i < |d| && d[i].0 == k
    requires forall j :: 0 <= j < i ==> d[j].0 != k
    ensures Get(d, k) == Some(d[i].1)
  {
    if i > 0 {
      GetFirst(d[1..], i - 1, k);
    }
  }

  /** In a dictionary without repeated keys, looking up the key at position i yields the value there. */
  lemma {:induction false} GetAt<V>(d: Dict<V>, i: int)
    requires Distinct(d) && 0 <= i < |d|
    ensures Get(d, d[i].0) == Some(d[i].1)
  {
    if i > 0 {
      assert d[0].0 != d[i].0;
      assert d[1..][i - 1] == d[i];
      GetAt(d[1..], i - 1);
    }
  }

  /** Assignment: the key now maps to the new value and every other key keeps its lookup. */
  lemma {:induction false} PutGet<V>(d: Dict<V>, k: string, v: V, j: string)
    ensures Get(Put(d, k, v), j) == if j == k then Some(v) else Get(d, j)
  {
    if d != [] && d[0].0 != k {
      PutGet(d[1..], k, v, j);
    }
  }

  /** Assignment to a new key appends; to a present key it keeps the key order. */
  lemma {:induction false} PutShape<V>(d: Dict<V>, k: string, v: V)
    ensures !HasKey(d, k) ==> Put(d, k, v) == d + [(k, v)]
    ensures HasKey(d, k) ==> Keys(Put(d, k, v)) == Keys(d)
    ensures HasKey(Put(d, k, v), k)
  {
    if d == [] {
      assert Keys(Put(d, k, v)) == [k];
    } else {
      HasKeyCons(d, k);
      var r := Put(d, k, v);
      HasKeyCons(r, k);
      if d[0].0 != k {
        PutShape(d[1..], k, v);
        assert r[1..] == Put(d[1..], k, v);
        if HasKey(d, k) {
          assert Keys(r) == [d[0].0] + Keys(Put(d[1..], k, v));
          assert Keys(d) == [d[0].0] + Keys(d[1..]);
        }
      } else {
        assert Keys(r) == [k] + Keys(d[1..]);
        assert Keys(d) == [k] + Keys(d[1..]);
      }
    }
  }

  /** Distinctness depends on the keys alone. */
  lemma SameKeysDistinct<V>(d: Dict<V>, e: Dict<V>)
    requires Keys(d) == Keys(e) && Distinct(d)
    ensures Distinct(e)
  {
    forall i, j | 0 <= i < j < |e|
      ensures e[i].0 != e[j].0
    {
      assert Keys(d)[i] == Keys(e)[i] && Keys(d)[j] == Keys(e)[j];
    }
  }

  /** Assignment keeps keys distinct. */
  lemma {:induction false} PutDistinct<V>(d: Dict<V>, k: string, v: V)
    requires Distinct(d)
    ensures Distinct(Put(d, k, v))
  {
    if d != [] && d[0].0 != k {
      assert Distinct(d[1..]);
      PutDistinct(d[1..], k, v);
      var rest := Put(d[1..], k, v);
      forall i | 0 <= i < |rest| ensures rest[i].0 != d[0].0 {
        assert rest[i].0 in Keys(rest);
        PutKeys(d[1..], k, v);
        assert rest[i].0 == k || rest[i].0 in Keys(d[1..]);
        if rest[i].0 != k {
          var m :| 0 <= m < |d[1..]| && Keys(d[1..])[m] == rest[i].0;
          assert d[m + 1].0 == rest[i].0;
        }
      }
    }
  }

  lemma {:induction false} PutKeys<V>(d: Dict<V>, k: string, v: V)
    ensures forall j :: j in Keys(Put(d, k, v)) ==> j == k || j in Keys(d)
  {
    PutShape(d, k, v);
    if !HasKey(d, k) {
      assert Keys(Put(d, k, v)) == Keys(d) + [k];
    }
  }

  /** Assigning to the key at position i replaces that entry in place. */
  /** Every entry of `d[k] = v` is the new pair or an entry of `d`. */
  lemma {:induction false} PutEntries<V>(d: Dict<V>, k: string, v: V)
    ensures forall e :: e in Put(d, k, v) ==> e == (k, v) || e in d
  {
    if d != [] && d[0].0 != k {
      PutEntries(d[1..], k, v);
    }
  }

  lemma {:induction false} PutAt<V>(d: Dict<V>, i: int, v: V)
    requires Distinct(d) && 0 <= i < |d|
    ensures Put(d, d[i].0, v) == d[i := (d[i].0, v)]
  {
    if i > 0 {
      assert Distinct(d[1..]);
      assert d[0].0 != d[i].0;
      PutAt(d[1..], i - 1, v);
      assert d[1..][i - 1] == d[i];
      assert d[1..][i - 1 := (d[i].0, v)] == d[i := (d[i].0, v)][1..];
    }
  }

  /** Deletion: the key is gone, every other key keeps its lookup, and an absent key changes nothing. */
  lemma {:induction false} RemoveGet<V>(d: Dict<V>, k: string, j: string)
    ensures Get(Remove(d, k), j) == if j == k then None else Get(d, j)
    ensures !HasKey(Remove(d, k), k)
    ensures !HasKey(d, k) ==> Remove(d, k) == d
  {
    if d != [] {
      HasKeyCons(d, k);
      RemoveGet(d[1..], k, j);
      var r := Remove(d, k);
      if d[0].0 != k {
        HasKeyCons(r, k);
        assert r[1..] == Remove(d[1..], k);
      }
    }
  }

  /** Deletion keeps the surviving entries in their order: it is the filter of the other keys. */
  lemma {:induction false} RemoveFilters<V>(d: Dict<V>, k: string)
    ensures Remove(d, k) == Without(d, k)
  {
    if d != [] {
      RemoveFilters(d[1..], k);
      assert d == [d[0]] + d[1..];
      WithoutCons(d[0], d[1..], k);
    }
  }

  /** The sub-list of entries whose key is not k, in order (a comprehension `[e for e in d if e[0] != k]`). */
  function Without<V>(d: Dict<V>, k: string): Dict<V>
  {
    if d == [] then [] else Without(d[..|d| - 1], k) + (if d[|d| - 1].0 == k then [] else [d[|d| - 1]])
  }

  lemma {:induction false} WithoutCons<V>(e: (string, V), d: Dict<V>, k: string)
    ensures Without([e] + d, k) == (if e.0 == k then [] else [e]) + Without(d, k)
    decreases |d|
  {
    if d != [] {
      assert ([e] + d)[..|[e] + d| - 1] == [e] + d[..|d| - 1];
      WithoutCons(e, d[..|d| - 1], k);
    }
  }

  /** Deletion keeps keys distinct and removes exactly one entry when the key was present. */
  lemma {:induction false} RemoveDistinct<V>(d: Dict<V>, k: string)
    requires Distinct(d)
    ensures Distinct(Remove(d, k))
    ensures HasKey(d, k) ==> |Remove(d, k)| == |d| - 1
  {
    if d != [] {
      assert Distinct(d[1..]);
      RemoveDistinct(d[1..], k);
      HasKeyCons(d, k);
      if d[0].0 == k {
        RemoveGet(d[1..], k, k);
      } else {
        var rest := Remove(d[1..], k);
        forall i | 0 <= i < |rest| ensures rest[i].0 != d[0].0 {
          RemoveSub(d[1..], k);
          assert rest[i] in d[1..];
        }
      }
    }
  }

  lemma {:induction false} RemoveSub<V>(d: Dict<V>, k: string)
    ensures forall e :: e in Remove(d, k) ==> e in d
  {
    if d != [] {
      RemoveSub(d[1..], k);
    }
  }
}
