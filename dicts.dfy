/** Python's insertion-ordered `dict`, as a sequence of (key, value) entries.
    A dict built by the operations below never holds a key twice; assigning to a key that is
    already present replaces its value and keeps its position, a new key goes to the end. */
module Dicts {
  import opened Wrappers

  type Dict<K, V> = seq<(K, V)>

  function Keys<K, V>(d: Dict<K, V>): (ks: seq<K>)
    ensures |ks| == |d| && forall i :: 0 <= i < |d| ==> ks[i] == d[i].0
  {
    seq(|d|, i requires 0 <= i < |d| => d[i].0)
  }

  function Values<K, V>(d: Dict<K, V>): (vs: seq<V>)
    ensures |vs| == |d| && forall i :: 0 <= i < |d| ==> vs[i] == d[i].1
  {
    seq(|d|, i requires 0 <= i < |d| => d[i].1)
  }

  predicate HasKey<K(==), V>(d: Dict<K, V>, k: K)
  {
    exists i :: 0 <= i < |d| && d[i].0 == k
  }

  /** No key occurs twice. */
  predicate Distinct<K(==)>(ks: seq<K>)
  {
    forall i, j :: 0 <= i < j < |ks| ==> ks[i] != ks[j]
  }

  /** The elements of `ks`, each once, in order of first occurrence (how a dict's keys or a set
      built by successive insertions come out). */
  function Dedup<K(==,!new)>(ks: seq<K>): (r: seq<K>)
    ensures Distinct(r)
    ensures forall k :: k in r <==> k in ks
  {
    if ks == [] then []
    else
      var rest := Dedup(ks[..|ks| - 1]);
      var last := ks[|ks| - 1];
      assert ks == ks[..|ks| - 1] + [last];
      if last in rest then rest else rest + [last]
  }

  /** `d.get(k)`: the value stored under `k`, or None. */
  function Get<K(==), V>(d: Dict<K, V>, k: K): (r: Option<V>)
    ensures r.Some? <==> HasKey(d, k)
    ensures r.Some? ==> exists i :: 0 <= i < |d| && d[i] == (k, r.value)
  {
    if d == [] then None
    else if d[0].0 == k then Some(d[0].1)
    else Get(d[1..], k)
  }

  /** `d.get(k, default)`. */
  function GetOr<K(==), V>(d: Dict<K, V>, k: K, default: V): V
  {
    match Get(d, k)
    case Some(v) => v
    case None => default
  }

  /** `d[k] = v`. */
  function Put<K(==), V>(d: Dict<K, V>, k: K, v: V): (r: Dict<K, V>)
    ensures HasKey(d, k) ==> |r| == |d| && Keys(r) == Keys(d)
    ensures !HasKey(d, k) ==> r == d + [(k, v)]
  {
    if d == [] then [(k, v)]
    else if d[0].0 == k then [(k, v)] + d[1..]
    else [d[0]] + Put(d[1..], k, v)
  }

  /** `dict(pairs)`, `d.update(pairs)` and a dict comprehension: assign the pairs in order. */
  function PutAll<K(==), V>(d: Dict<K, V>, pairs: seq<(K, V)>): Dict<K, V>
    decreases |pairs|
  {
    if pairs == [] then d
    else PutAll(Put(d, pairs[0].0, pairs[0].1), pairs[1..])
  }

  /** `dict(pairs)`. */
  function FromPairs<K(==), V>(pairs: seq<(K, V)>): Dict<K, V>
  {
    PutAll([], pairs)
  }

  lemma {:induction false} GetPut<K, V>(d: Dict<K, V>, k: K, v: V, k': K)
    ensures Get(Put(d, k, v), k') == if k' == k then Some(v) else Get(d, k')
  {
    if d != [] && d[0].0 != k {
      GetPut(d[1..], k, v, k');
    }
  }

  /** Assigning twice to the same key keeps only the second value. */
  lemma {:induction false} PutPut<K, V>(d: Dict<K, V>, k: K, v1: V, v2: V)
    ensures Put(Put(d, k, v1), k, v2) == Put(d, k, v2)
  {
    if d != [] && d[0].0 != k {
      PutPut(d[1..], k, v1, v2);
    }
  }

  lemma HasKeyIffInKeys<K, V>(d: Dict<K, V>, k: K)
    ensures HasKey(d, k) <==> k in Keys(d)
  {
    if k in Keys(d) {
      var i :| 0 <= i < |d| && Keys(d)[i] == k;
      assert d[i].0 == k;
    }
  }

  lemma KeysMembership<K, V>(d: Dict<K, V>)
    ensures forall k :: HasKey(d, k) <==> k in Keys(d)
  {
    forall k ensures HasKey(d, k) <==> k in Keys(d) {
      HasKeyIffInKeys(d, k);
    }
  }

  /** In a dict whose keys are distinct, the key of an entry finds that entry. */
  lemma {:induction false} GetDistinct<K, V>(d: Dict<K, V>, i: nat)
    requires Distinct(Keys(d)) && i < |d|
    ensures Get(d, d[i].0) == Some(d[i].1)
  {
    if i > 0 {
      assert d[0].0 == Keys(d)[0] != Keys(d)[i] == d[i].0;
      assert Keys(d[1..]) == Keys(d)[1..];
      GetDistinct(d[1..], i - 1);
    }
  }

  /** `dict(zip(ks, vs))` for distinct keys, or the entries of a dict comprehension. */
  function Zip<K, V>(ks: seq<K>, vs: seq<V>): (d: Dict<K, V>)
    requires |ks| == |vs|
    ensures Keys(d) == ks && Values(d) == vs
  {
    seq(|ks|, i requires 0 <= i < |ks| => (ks[i], vs[i]))
  }

  lemma ZipKeysValues<K, V>(d: Dict<K, V>)
    ensures Zip(Keys(d), Values(d)) == d
  {
  }

  /** Removing duplicates from a sequence that has none leaves it as it is. */
  lemma {:induction false} DedupDistinct<K(!new)>(ks: seq<K>)
    requires Distinct(ks)
    ensures Dedup(ks) == ks
  {
    if ks != [] {
      DedupDistinct(ks[..|ks| - 1]);
    }
  }

  /** Appending elements already present changes nothing once duplicates are removed. */
  lemma {:induction false} DedupAbsorbs<K(!new)>(ks: seq<K>, ys: seq<K>)
    requires forall y :: y in ys ==> y in Dedup(ks)
    ensures Dedup(ks + ys) == Dedup(ks)
  {
    if ys != [] {
      var front := ys[..|ys| - 1];
      assert (ks + ys)[..|ks + ys| - 1] == ks + front;
      DedupAbsorbs(ks, front);
    } else {
      assert ks + ys == ks;
    }
  }

  lemma {:induction false} PutPreservesDistinct<K, V>(d: Dict<K, V>, k: K, v: V)
    requires Distinct(Keys(d))
    ensures Distinct(Keys(Put(d, k, v)))
  {
    if !HasKey(d, k) {
      assert Keys(Put(d, k, v)) == Keys(d) + [k];
    }
  }

  /** Assigning the same pairs in order from a prefix: the last extends the result by one step. */
  lemma {:induction false} PutAllSnoc<K, V>(d: Dict<K, V>, pairs: seq<(K, V)>, p: (K, V))
    ensures PutAll(d, pairs + [p]) == Put(PutAll(d, pairs), p.0, p.1)
    decreases |pairs|
  {
    if pairs == [] {
      assert pairs + [p] == [p];
    } else {
      assert (pairs + [p])[1..] == pairs[1..] + [p];
      PutAllSnoc(Put(d, pairs[0].0, pairs[0].1), pairs[1..], p);
    }
  }

  /** `dict(pairs)` of pairs with distinct keys is those pairs, in order. */
  lemma {:induction false} FromPairsDistinct<K, V>(pairs: seq<(K, V)>)
    requires Distinct(Keys(pairs))
    ensures FromPairs(pairs) == pairs
  {
    if pairs != [] {
      var front, last := pairs[..|pairs| - 1], pairs[|pairs| - 1];
      assert pairs == front + [last];
      assert Keys(front) == Keys(pairs)[..|pairs| - 1];
      FromPairsDistinct(front);
      PutAllSnoc([], front, last);
      forall i | 0 <= i < |front|
        ensures front[i].0 != last.0
      {
        assert Keys(pairs)[i] != Keys(pairs)[|pairs| - 1];
      }
    }
  }

  /** After `dict(pairs)` a key holds the value of its LAST pair; a key of no pair keeps its old value. */
  lemma {:induction false} GetPutAll<K, V>(d: Dict<K, V>, pairs: seq<(K, V)>, k: K)
    ensures Get(PutAll(d, pairs), k) ==
      if HasKey(pairs, k) then Some(pairs[LastIndexOf(pairs, k)].1) else Get(d, k)
    decreases |pairs|
  {
    if pairs != [] {
      GetPutAll(Put(d, pairs[0].0, pairs[0].1), pairs[1..], k);
      GetPut(d, pairs[0].0, pairs[0].1, k);
      assert forall j :: 0 < j < |pairs| ==> pairs[j] == pairs[1..][j - 1];
      if HasKey(pairs[1..], k) {
        var i :| 0 <= i < |pairs[1..]| && pairs[1..][i].0 == k;
        assert pairs[i + 1].0 == k;
      }
    }
  }

  /** The index of the last pair whose key is `k`. */
  function LastIndexOf<K(==), V>(pairs: seq<(K, V)>, k: K): (i: nat)
    requires HasKey(pairs, k)
    ensures i < |pairs| && pairs[i].0 == k
    ensures forall j :: i < j < |pairs| ==> pairs[j].0 != k
  {
    if HasKey(pairs[1..], k) then 1 + LastIndexOf(pairs[1..], k)
    else
      assert forall j :: 0 < j < |pairs| ==> pairs[j] == pairs[1..][j - 1];
      0
  }

  /** `dict(pairs)` and `d.update(pairs)` keep the keys distinct. */
  lemma {:induction false} PutAllDistinct<K, V>(d: Dict<K, V>, pairs: seq<(K, V)>)
    requires Distinct(Keys(d))
    ensures Distinct(Keys(PutAll(d, pairs)))
    decreases |pairs|
  {
    if pairs != [] {
      PutPreservesDistinct(d, pairs[0].0, pairs[0].1);
      PutAllDistinct(Put(d, pairs[0].0, pairs[0].1), pairs[1..]);
    }
  }

  /** Every pair after `d[k] = v` was in `d` or is the new one. */
  lemma {:induction false} PutFrom<K, V>(d: Dict<K, V>, k: K, v: V)
    ensures forall p :: p in Put(d, k, v) ==> p in d || p == (k, v)
  {
    if d != [] && d[0].0 != k {
      PutFrom(d[1..], k, v);
    }
  }

  /** Every pair after `d.update(pairs)` was in `d` or among the pairs. */
  lemma {:induction false} PutAllFrom<K, V>(d: Dict<K, V>, pairs: seq<(K, V)>)
    ensures forall p :: p in PutAll(d, pairs) ==> p in d || p in pairs
    decreases |pairs|
  {
    if pairs != [] {
      PutFrom(d, pairs[0].0, pairs[0].1);
      PutAllFrom(Put(d, pairs[0].0, pairs[0].1), pairs[1..]);
    }
  }

  /** `d.update(pairs)` with pairs whose keys are distinct: a key of the pairs takes its value
      there, any other key keeps its old value. */
  lemma GetPutAllDistinct<K, V>(d: Dict<K, V>, pairs: seq<(K, V)>, k: K)
    requires Distinct(Keys(pairs))
    ensures Get(PutAll(d, pairs), k) == if HasKey(pairs, k) then Get(pairs, k) else Get(d, k)
  {
    GetPutAll(d, pairs, k);
    if HasKey(pairs, k) {
      GetDistinct(pairs, LastIndexOf(pairs, k));
    }
  }

  /** In a dict whose keys are distinct, assigning to the key of an entry replaces that entry
      where it stands. */
  lemma {:induction false} PutAt<K, V>(d: Dict<K, V>, i: nat, v: V)
    requires Distinct(Keys(d)) && i < |d|
    ensures Put(d, d[i].0, v) == d[i := (d[i].0, v)]
  {
    var k := d[i].0;
    if i == 0 {
      assert d[0 := (k, v)] == [(k, v)] + d[1..];
    } else {
      assert Keys(d)[0] != Keys(d)[i];
      DistinctKeysTail(d);
      PutAt(d[1..], i - 1, v);
      assert Put(d, k, v) == [d[0]] + Put(d[1..], k, v);
      assert d[i := (k, v)] == [d[0]] + d[1..][i - 1 := (k, v)];
    }
  }

  lemma DistinctKeysTail<K, V>(d: Dict<K, V>)
    requires Distinct(Keys(d)) && d != []
    ensures Distinct(Keys(d[1..]))
  {
    forall a, b | 0 <= a < b < |d| - 1
      ensures Keys(d[1..])[a] != Keys(d[1..])[b]
    {
      assert Keys(d)[a + 1] != Keys(d)[b + 1];
    }
  }

  lemma DistinctTail<K>(ks: seq<K>)
    requires Distinct(ks) && ks != []
    ensures Distinct(ks[1..])
  {
    forall a, b | 0 <= a < b < |ks| - 1
      ensures ks[1..][a] != ks[1..][b]
    {
      assert ks[1..][a] == ks[a + 1] && ks[1..][b] == ks[b + 1];
    }
  }
}
