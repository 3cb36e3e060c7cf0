/** Insertion-ordered Python dicts built by the program itself (parameter
    dicts, the merged FISH parameter list, the per-step data dict): a
    sequence of (key, value) pairs. `d[k] = v` keeps an existing key at its
    position and appends a new one; `dict(pairs)` and a dict comprehension
    are successive assignments. */
module Dicts {
  import opened Json
  import opened Text

  type Dict<V> = seq<(string, V)>

  function Keys<V>(d: Dict<V>): seq<string>
  {
    seq(|d|, i requires 0 <= i < |d| => d[i].0)
  }

  function KeySet<V>(d: Dict<V>): set<string>
  {
    set i | 0 <= i < |d| :: d[i].0
  }

  predicate DistinctKeys<V>(d: Dict<V>)
  {
    forall i, j :: 0 <= i < j < |d| ==> d[i].0 != d[j].0
  }

  /** Position of key `k`, or -1. */
  function IndexOf<V>(d: Dict<V>, k: string): (r: int)
    ensures r == -1 <==> k !in KeySet(d)
    ensures r != -1 ==> 0 <= r < |d| && d[r].0 == k
    ensures r != -1 ==> forall j :: 0 <= j < r ==> d[j].0 != k
  {
    if d == [] then -1
    else if d[0].0 == k then 0
    else
      var r := IndexOf(d[1..], k);
      assert KeySet(d) == {d[0].0} + KeySet(d[1..]) by {
        forall x ensures x in KeySet(d) <==> x in {d[0].0} + KeySet(d[1..]) {
          if x in KeySet(d) {
            var i :| 0 <= i < |d| && d[i].0 == x;
            if i > 0 { assert d[1..][i - 1].0 == x; }
          }
          if x in KeySet(d[1..]) {
            var i :| 0 <= i < |d[1..]| && d[1..][i].0 == x;
            assert d[i + 1].0 == x;
          }
        }
      }
      if r == -1 then -1 else r + 1
  }

  /** `d.get(k)`. */
  function Get<V>(d: Dict<V>, k: string): (r: Option<V>)
    ensures r.Some? <==> k in KeySet(d)
  {
    var i := IndexOf(d, k);
    if i == -1 then None else Some(d[i].1)
  }

  lemma GetAt<V>(d: Dict<V>, i: nat)
    requires DistinctKeys(d) && i < |d|
    ensures Get(d, d[i].0) == Some(d[i].1)
  {
    var j := IndexOf(d, d[i].0);
    assert j != -1 by { assert d[i].0 in KeySet(d); }
  }

  lemma KeysMatchKeySet<V>(d: Dict<V>)
    ensures forall x :: x in Keys(d) <==> x in KeySet(d)
  {
    forall x ensures x in Keys(d) <==> x in KeySet(d) {
      if x in Keys(d) { var j :| 0 <= j < |d| && Keys(d)[j] == x; assert d[j].0 == x; }
      if x in KeySet(d) { var j :| 0 <= j < |d| && d[j].0 == x; assert Keys(d)[j] == x; }
    }
  }

  lemma SetNew<V>(d: Dict<V>, k: string, v: V)
    requires k !in KeySet(d)
    ensures DistinctKeys(d) ==> DistinctKeys(d + [(k, v)])
    ensures Keys(d + [(k, v)]) == Keys(d) + [k]
    ensures KeySet(d + [(k, v)]) == KeySet(d) + {k}
    ensures Get(d + [(k, v)], k) == Some(v)
    ensures forall k' :: k' != k ==> Get(d + [(k, v)], k') == Get(d, k')
  {
    var r := d + [(k, v)];
    KeysMatchKeySet(d);
    KeysMatchKeySet(r);
    assert Keys(r) == Keys(d) + [k];
    forall k' | k' != k ensures Get(r, k') == Get(d, k') {
      var a, b := IndexOf(r, k'), IndexOf(d, k');
      if b != -1 { assert r[b].0 == k'; }
      if a != -1 { assert a < |d| && d[a].0 == k'; }
    }
    var i := IndexOf(r, k);
    assert r[|d|].0 == k;
    forall j | 0 <= j < |d| ensures r[j].0 != k { assert d[j].0 in KeySet(d); }
  }

  lemma SetExisting<V>(d: Dict<V>, i: nat, k: string, v: V)
    requires i < |d| && d[i].0 == k
    requires forall j :: 0 <= j < i ==> d[j].0 != k
    ensures DistinctKeys(d) ==> DistinctKeys(d[i := (k, v)])
    ensures Keys(d[i := (k, v)]) == Keys(d)
    ensures KeySet(d[i := (k, v)]) == KeySet(d)
    ensures Get(d[i := (k, v)], k) == Some(v)
    ensures forall k' :: k' != k ==> Get(d[i := (k, v)], k') == Get(d, k')
  {
    var r := d[i := (k, v)];
    assert Keys(r) == Keys(d);
    KeysMatchKeySet(d);
    KeysMatchKeySet(r);
    forall k' | k' != k ensures Get(r, k') == Get(d, k') {
      var a, b := IndexOf(r, k'), IndexOf(d, k');
      if b != -1 { assert r[b].0 == k'; }
      if a != -1 { assert d[a].0 == k'; }
    }
    var j := IndexOf(r, k);
    assert r[i].0 == k;
    assert forall j' :: 0 <= j' < i ==> r[j'].0 != k;
  }

  /** `d[k] = v`. */
  function Set<V>(d: Dict<V>, k: string, v: V): (r: Dict<V>)
    ensures DistinctKeys(d) ==> DistinctKeys(r)
    ensures k in KeySet(d) ==> Keys(r) == Keys(d)
    ensures k !in KeySet(d) ==> Keys(r) == Keys(d) + [k]
    ensures KeySet(r) == KeySet(d) + {k}
    ensures Get(r, k) == Some(v)
    ensures forall k' :: k' != k ==> Get(r, k') == Get(d, k')
  {
    var i := IndexOf(d, k);
    if i == -1 then
      SetNew(d, k, v);
      d + [(k, v)]
    else
      SetExisting(d, i, k, v);
      assert k in KeySet(d);
      d[i := (k, v)]
  }

  /** Assigning a key the dict does not hold appends it. */
  lemma SetAppends<V>(d: Dict<V>, k: string, v: V)
    requires k !in KeySet(d)
    ensures Set(d, k, v) == d + [(k, v)]
  {
  }

  /** The keys of `more` that are not yet in `ks`, appended in order of first
      appearance. */
  function Extend(ks: seq<string>, more: seq<string>): seq<string>
  {
    if more == [] then ks
    else
      var r := Extend(ks, more[..|more| - 1]);
      if more[|more| - 1] in r then r else r + [more[|more| - 1]]
  }

  /** The value last given to `k` in `pairs`. */
  function LastGet<V>(pairs: seq<(string, V)>, k: string): Option<V>
  {
    if pairs == [] then None
    else if pairs[|pairs| - 1].0 == k then Some(pairs[|pairs| - 1].1)
    else LastGet(pairs[..|pairs| - 1], k)
  }

  /** In a dict whose keys are distinct, the last value given to a key is
      its only value. */
  lemma {:induction false} LastGetIsGet<V>(d: Dict<V>, k: string)
    requires DistinctKeys(d)
    ensures LastGet(d, k) == Get(d, k)
    decreases |d|
  {
    if d != [] {
      var n := |d|;
      var prev := d[..n - 1];
      assert d == prev + [d[n - 1]];
      assert DistinctKeys(prev);
      if d[n - 1].0 == k {
        GetAt(d, n - 1);
      } else {
        LastGetIsGet(prev, k);
        assert d[n - 1].0 !in KeySet(prev) by {
          forall j | 0 <= j < |prev| ensures prev[j].0 != d[n - 1].0 {
            assert prev[j] == d[j];
          }
        }
        SetNew(prev, d[n - 1].0, d[n - 1].1);
      }
    }
  }

  /** Extending a key list keeps it as a prefix. */
  lemma {:induction false} ExtendPrefix(ks: seq<string>, more: seq<string>)
    ensures |Extend(ks, more)| >= |ks| && Extend(ks, more)[..|ks|] == ks
    decreases |more|
  {
    if more != [] {
      ExtendPrefix(ks, more[..|more| - 1]);
    }
  }

  /** `for k, v in pairs: d[k] = v`. The existing keys keep their order, new
      keys follow in order of first appearance, and every key ends with the
      value last assigned to it. */
  function Assign<V>(d: Dict<V>, pairs: seq<(string, V)>): (r: Dict<V>)
    ensures DistinctKeys(d) ==> DistinctKeys(r)
    ensures Keys(r) == Extend(Keys(d), Keys(pairs))
    ensures KeySet(r) == KeySet(d) + KeySet(pairs)
    ensures forall k :: Get(r, k) == if LastGet(pairs, k).Some? then LastGet(pairs, k) else Get(d, k)
  {
    if pairs == [] then d
    else
      var n := |pairs|;
      var prev := Assign(d, pairs[..n - 1]);
      assert Keys(pairs[..n - 1]) == Keys(pairs)[..n - 1];
      assert KeySet(pairs) == KeySet(pairs[..n - 1]) + {pairs[n - 1].0} by {
        forall x | x in KeySet(pairs) ensures x in KeySet(pairs[..n - 1]) + {pairs[n - 1].0} {
          var j :| 0 <= j < n && pairs[j].0 == x;
          if j < n - 1 { assert pairs[..n - 1][j].0 == x; }
        }
      }
      KeysMatchKeySet(prev);
      Set(prev, pairs[n - 1].0, pairs[n - 1].1)
  }

  /** Extending by keys that are distinct and new keeps all of them, in order. */
  lemma {:induction false} ExtendDistinct(ks: seq<string>)
    requires forall a, b :: 0 <= a < b < |ks| ==> ks[a] != ks[b]
    ensures Extend([], ks) == ks
  {
    if ks != [] {
      var n := |ks|;
      ExtendDistinct(ks[..n - 1]);
      var init := ks[..n - 1];
      assert ks[n - 1] !in init by {
        forall j | 0 <= j < |init| ensures init[j] != ks[n - 1] {
          assert init[j] == ks[j];
        }
      }
      assert ks == ks[..n - 1] + [ks[n - 1]];
    }
  }

  /** `dict(pairs)`, and `{k: v for ...}`. */
  function FromPairs<V>(pairs: seq<(string, V)>): (r: Dict<V>)
    ensures DistinctKeys(r)
  {
    Assign([], pairs)
  }

  /** Pairs with distinct keys already are the dict they build. */
  lemma FromDistinctPairs<V>(pairs: seq<(string, V)>)
    requires DistinctKeys(pairs)
    ensures Keys(FromPairs(pairs)) == Keys(pairs)
    ensures forall i :: 0 <= i < |pairs| ==> Get(FromPairs(pairs), pairs[i].0) == Some(pairs[i].1)
  {
    var empty: Dict<V> := [];
    assert Keys(empty) == [];
    ExtendDistinct(Keys(pairs));
    forall i | 0 <= i < |pairs| ensures Get(FromPairs(pairs), pairs[i].0) == Some(pairs[i].1) {
      LastGetIsGet(pairs, pairs[i].0);
      GetAt(pairs, i);
    }
  }

  /** The keys in increasing code-point order with their values: the order in
      which `json.dumps(sort_keys=True)` and `sorted(d.items())` present a dict
      whose keys are distinct. */
  function Canonical<V>(d: Dict<V>): (c: Dict<V>)
    ensures StrictlySorted(Keys(c))
    ensures KeySet(c) == KeySet(d)
    ensures forall k :: Get(c, k) == Get(d, k)
  {
    var ks := SortedSet(KeySet(d));
    SortedSetSorted(KeySet(d));
    var c := seq(|ks|, i requires 0 <= i < |ks| => (ks[i], Get(d, ks[i]).value));
    assert Keys(c) == ks;
    assert KeySet(c) == KeySet(d) by {
      forall x ensures x in KeySet(c) <==> x in KeySet(d) {
        if x in KeySet(d) { assert x in ks; var i :| 0 <= i < |ks| && ks[i] == x; assert c[i].0 == x; }
      }
    }
    assert DistinctKeys(c) by {
      forall i, j | 0 <= i < j < |c| ensures c[i].0 != c[j].0 {
        LessIrreflexive(ks[i]);
      }
    }
    forall k ensures Get(c, k) == Get(d, k) {
      if k in KeySet(c) {
        var i :| 0 <= i < |c| && c[i].0 == k;
        GetAt(c, i);
      }
    }
    c
  }

  /** A dict whose keys are distinct is determined by its (key, value) pairs. */
  lemma GetDeterminedByPairs<V>(d: Dict<V>, e: Dict<V>, k: string)
    requires DistinctKeys(d) && DistinctKeys(e)
    requires forall p :: p in d <==> p in e
    ensures Get(d, k) == Get(e, k)
  {
    if k in KeySet(e) {
      var j :| 0 <= j < |e| && e[j].0 == k;
      assert e[j] in d;
      var i :| 0 <= i < |d| && d[i] == e[j];
      GetAt(d, i);
      GetAt(e, j);
    }
    if k in KeySet(d) {
      var i :| 0 <= i < |d| && d[i].0 == k;
      assert d[i] in e;
    }
  }

  /** The canonical form depends only on the dict's (key, value) pairs, never
      on the order in which the keys were inserted. */
  lemma {:induction false} CanonicalIgnoresOrder<V>(d: Dict<V>, e: Dict<V>)
    requires DistinctKeys(d) && DistinctKeys(e)
    requires forall p :: p in d <==> p in e
    ensures Canonical(d) == Canonical(e)
  {
    forall k ensures Get(d, k) == Get(e, k) { GetDeterminedByPairs(d, e, k); }
    assert KeySet(d) == KeySet(e) by {
      forall k ensures k in KeySet(d) <==> k in KeySet(e) { assert Get(d, k) == Get(e, k); }
    }
  }

  /** The dict as the map `json` sees. */
  function ToMap<V>(d: Dict<V>): (m: map<string, V>)
    ensures m.Keys == KeySet(d)
    ensures forall k :: k in m ==> Get(d, k) == Some(m[k])
  {
    map k | k in KeySet(d) :: Get(d, k).value
  }

  /** Two dicts with the same (key, value) pairs are the same map, whatever
      order their keys were inserted in. */
  lemma ToMapIgnoresOrder<V>(d: Dict<V>, e: Dict<V>)
    requires DistinctKeys(d) && DistinctKeys(e)
    requires forall p :: p in d <==> p in e
    ensures ToMap(d) == ToMap(e)
  {
    forall k ensures Get(d, k) == Get(e, k) { GetDeterminedByPairs(d, e, k); }
    assert KeySet(d) == KeySet(e) by {
      forall k ensures k in KeySet(d) <==> k in KeySet(e) { assert Get(d, k) == Get(e, k); }
    }
  }

  function MapValues<V, W>(d: Dict<V>, f: V -> W): (r: Dict<W>)
    ensures |r| == |d|
    ensures forall i :: 0 <= i < |d| ==> r[i] == (d[i].0, f(d[i].1))
  {
    seq(|d|, i requires 0 <= i < |d| => (d[i].0, f(d[i].1)))
  }

  /** Mapping the values keeps the keys and maps what each key reads. */
  lemma MapValuesGet<V, W>(d: Dict<V>, f: V -> W, k: string)
    ensures KeySet(MapValues(d, f)) == KeySet(d)
    ensures Get(MapValues(d, f), k) == if Get(d, k).Some? then Some(f(Get(d, k).value)) else None
  {
    var r := MapValues(d, f);
    forall x ensures x in KeySet(r) <==> x in KeySet(d) {
      if x in KeySet(d) { var i :| 0 <= i < |d| && d[i].0 == x; assert r[i].0 == x; }
      if x in KeySet(r) { var i :| 0 <= i < |r| && r[i].0 == x; assert d[i].0 == x; }
    }
    var i, j := IndexOf(d, k), IndexOf(r, k);
  }
}
