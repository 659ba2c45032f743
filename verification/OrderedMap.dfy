/**
 Insertion-ordered maps: `serde_json::Map` (built with `preserve_order`), a Python `dict` and
 a JavaScript object. Inserting under a key already present replaces its value where it stands.
 */
module OrderedMap {
  import opened Wrappers

  type Entries<K, V> = seq<(K, V)>

  function Keys<K, V>(m: Entries<K, V>): (ks: seq<K>)
    ensures |ks| == |m| && forall i :: 0 <= i < |m| ==> ks[i] == m[i].0
  {
    seq(|m|, i requires 0 <= i < |m| => m[i].0)
  }

  ghost predicate Distinct<K(!new)>(ks: seq<K>) {
    forall i, j :: 0 <= i < j < |ks| ==> ks[i] != ks[j]
  }

  /** The position of a key, or the number of entries when it is absent. */
  function Find<K(==), V>(m: Entries<K, V>, k: K): (i: nat)
    ensures i <= |m| && (i < |m| ==> m[i].0 == k)
    ensures forall j :: 0 <= j < i ==> m[j].0 != k
  {
    if m == [] || m[0].0 == k then 0 else 1 + Find(m[1..], k)
  }

  function Insert<K(==), V>(m: Entries<K, V>, k: K, v: V): Entries<K, V> {
    var i := Find(m, k);
    if i < |m| then m[i := (k, v)] else m + [(k, v)]
  }

  /** Inserts the pairs one after the other. */
  function InsertAll<K(==), V>(m: Entries<K, V>, pairs: Entries<K, V>): Entries<K, V>
    decreases |pairs|
  {
    if pairs == [] then m else InsertAll(Insert(m, pairs[0].0, pairs[0].1), pairs[1..])
  }

  /** The keys in the order of their first occurrence, each once. */
  function FirstSeen<K(==)>(ks: seq<K>): seq<K>
    decreases |ks|
  {
    if ks == [] then []
    else
      var (front, last) := (ks[..|ks| - 1], ks[|ks| - 1]);
      if last in front then FirstSeen(front) else FirstSeen(front) + [last]
  }

  /** The value of the last pair that binds a key. */
  function LastBinding<K(==), V>(pairs: Entries<K, V>, k: K): Option<V>
    decreases |pairs|
  {
    if pairs == [] then None
    else if pairs[|pairs| - 1].0 == k then Some(pairs[|pairs| - 1].1)
    else LastBinding(pairs[..|pairs| - 1], k)
  }

  // ----- What insertion does -----

  lemma InsertKeys<K(!new), V(!new)>(m: Entries<K, V>, k: K, v: V)
    ensures Keys(Insert(m, k, v)) == if k in Keys(m) then Keys(m) else Keys(m) + [k]
    ensures Distinct(Keys(m)) ==> Distinct(Keys(Insert(m, k, v)))
  {
    var i := Find(m, k);
    if k in Keys(m) {
      var j :| 0 <= j < |m| && Keys(m)[j] == k;
      assert i <= j;
    }
  }

  /** Inserting pairs whose keys are all new and distinct appends them. */
  lemma {:induction false} InsertAllFresh<K(!new), V(!new)>(m: Entries<K, V>, pairs: Entries<K, V>)
    requires Distinct(Keys(m + pairs))
    ensures InsertAll(m, pairs) == m + pairs
    decreases |pairs|
  {
    if pairs == [] {
      assert m + pairs == m;
    } else {
      var (k, v) := pairs[0];
      assert Keys(m + pairs)[|m|] == k;
      assert forall i :: 0 <= i < |m| ==> Keys(m + pairs)[i] == m[i].0;
      assert Insert(m, k, v) == m + [(k, v)];
      assert (m + [(k, v)]) + pairs[1..] == m + pairs;
      InsertAllFresh(m + [(k, v)], pairs[1..]);
    }
  }

  lemma {:induction false} InsertAllLast<K(!new), V(!new)>(m: Entries<K, V>, pairs: Entries<K, V>)
    requires pairs != []
    ensures var (k, v) := pairs[|pairs| - 1];
            InsertAll(m, pairs) == Insert(InsertAll(m, pairs[..|pairs| - 1]), k, v)
    decreases |pairs|
  {
    if |pairs| > 1 {
      var (k, v) := pairs[0];
      assert pairs[1..][..|pairs| - 2] == pairs[..|pairs| - 1][1..];
      InsertAllLast(Insert(m, k, v), pairs[1..]);
    }
  }

  lemma {:induction false} FirstSeenKeys<K(!new)>(ks: seq<K>)
    ensures Distinct(FirstSeen(ks)) && |FirstSeen(ks)| <= |ks|
    ensures forall k :: k in FirstSeen(ks) <==> k in ks
    ensures |FirstSeen(ks)| == |ks| <==> Distinct(ks)
    ensures Distinct(ks) ==> FirstSeen(ks) == ks
    decreases |ks|
  {
    if ks != [] {
      var (front, last) := (ks[..|ks| - 1], ks[|ks| - 1]);
      assert ks == front + [last];
      FirstSeenKeys(front);
      if last in front {
        var i :| 0 <= i < |front| && front[i] == last;
        assert ks[i] == ks[|ks| - 1];
      }
    }
  }

  lemma InsertMembers<K(!new), V(!new)>(m: Entries<K, V>, k: K, v: V, e: (K, V))
    requires Distinct(Keys(m)) && e in Insert(m, k, v)
    ensures if e.0 == k then e == (k, v) else e in m
  {
    var i, r := Find(m, k), Insert(m, k, v);
    var j :| 0 <= j < |r| && r[j] == e;
    assert forall a :: 0 <= a < |m| ==> Keys(m)[a] == m[a].0;
  }

  /** Inserting pairs into an empty map: each key where it first occurred, with the value it was given last. */
  lemma {:induction false} InsertAllMeaning<K(!new), V(!new)>(pairs: Entries<K, V>)
    ensures Keys(InsertAll([], pairs)) == FirstSeen(Keys(pairs))
    ensures forall e :: e in InsertAll([], pairs) ==> LastBinding(pairs, e.0) == Some(e.1)
    decreases |pairs|
  {
    if pairs != [] {
      var (k, v) := pairs[|pairs| - 1];
      var front := pairs[..|pairs| - 1];
      hide Insert, InsertAll, FirstSeen;
      var m := InsertAll([], front);
      InsertAllMeaning(front);
      InsertAllLast([], pairs);
      assert InsertAll([], pairs) == Insert(m, k, v);
      FirstSeenKeys(Keys(front));
      forall e | e in Insert(m, k, v) ensures LastBinding(pairs, e.0) == Some(e.1) {
        InsertMembers(m, k, v, e);
      }
      hide LastBinding;
      InsertKeys(m, k, v);
      assert Keys(pairs)[..|pairs| - 1] == Keys(front);
      LastSeen(Keys(pairs));
    }
  }

  lemma {:induction false} LastSeen<K(!new)>(ks: seq<K>)
    requires ks != []
    ensures var (front, last) := (ks[..|ks| - 1], ks[|ks| - 1]);
            FirstSeen(ks) == if last in FirstSeen(front) then FirstSeen(front) else FirstSeen(front) + [last]
  {
    FirstSeenKeys(ks[..|ks| - 1]);
  }

  /** Exactly the distinctness of the keys decides whether every pair survives. */
  lemma InsertAllConserves<K(!new), V(!new)>(pairs: Entries<K, V>)
    ensures |InsertAll([], pairs)| == |pairs| <==> Distinct(Keys(pairs))
    ensures Distinct(Keys(pairs)) ==> InsertAll([], pairs) == pairs
  {
    hide InsertAll, FirstSeen, LastBinding;
    InsertAllMeaning(pairs);
    FirstSeenKeys(Keys(pairs));
    assert |Keys(InsertAll([], pairs))| == |InsertAll([], pairs)|;
    if Distinct(Keys(pairs)) {
      assert [] + pairs == pairs;
      InsertAllFresh([], pairs);
    }
  }
}
