/**
 * A JavaScript plain object used as a dictionary (`Record<string, T>`), as an ordered
 * list of entries. Assigning `o[k] = v` (or spreading `{...o, [k]: v}`) overwrites the
 * entry for `k` where it stands, or appends a new entry when `k` is absent, so
 * `Object.keys` keeps first-insertion order.
 */
module Records {
  import opened Options

  /** `o[k]`, or None when `k` is not a key of `o`. */
  function Get<K(==, !new), V>(r: seq<(K, V)>, k: K): Option<V>
  {
    if |r| == 0 then None
    else if r[0].0 == k then Some(r[0].1)
    else Get(r[1..], k)
  }

  predicate HasKey<K(==, !new), V>(r: seq<(K, V)>, k: K)
  {
    Get(r, k).Some?
  }

  /** No key appears in two entries, as in every JavaScript object. */
  predicate DistinctKeys<K(==, !new), V>(r: seq<(K, V)>)
  {
    |r| == 0 || (!HasKey(r[1..], r[0].0) && DistinctKeys(r[1..]))
  }

  /** A key is present exactly when some entry carries it. */
  lemma {:induction false} HasKeyIffEntry<K(!new), V>(r: seq<(K, V)>, k: K)
    ensures HasKey(r, k) <==> exists i :: 0 <= i < |r| && r[i].0 == k
  {
    if |r| > 0 && r[0].0 != k {
      HasKeyIffEntry(r[1..], k);
      if HasKey(r, k) {
        var i :| 0 <= i < |r[1..]| && r[1..][i].0 == k;
        assert r[i + 1].0 == k;
      } else {
        forall i | 0 <= i < |r|
          ensures r[i].0 != k
        {
          if i > 0 {
            assert r[i] == r[1..][i - 1];
          }
        }
      }
    }
  }

  /** The keys of an object, as a set. */
  function KeySet<K, V>(r: seq<(K, V)>): set<K>
  {
    set i | 0 <= i < |r| :: r[i].0
  }

  /** `Object.keys(o).length`: an object has one key per entry. */
  lemma {:induction false} KeyCountIsLength<K(!new), V>(r: seq<(K, V)>)
    requires DistinctKeys(r)
    ensures |KeySet(r)| == |r|
  {
    if |r| > 0 {
      KeyCountIsLength(r[1..]);
      HasKeyIffEntry(r[1..], r[0].0);
      assert KeySet(r) == {r[0].0} + KeySet(r[1..]);
      assert r[0].0 !in KeySet(r[1..]);
    }
  }

  /** `{...o, [k]: v}`: afterwards `k` maps to `v`, every other key keeps its value,
      and the key order is that of `o`, with `k` at the end when it is new. */
  function Set<K(==, !new), V>(r: seq<(K, V)>, k: K, v: V): (r': seq<(K, V)>)
    ensures Get(r', k) == Some(v)
    ensures forall k' :: k' != k ==> Get(r', k') == Get(r, k')
    ensures DistinctKeys(r) ==> DistinctKeys(r')
    ensures HasKey(r, k) ==> |r'| == |r| && forall i :: 0 <= i < |r| ==> r'[i].0 == r[i].0
    ensures !HasKey(r, k) ==> r' == r + [(k, v)]
  {
    if |r| == 0 then [(k, v)]
    else if r[0].0 == k then [(k, v)] + r[1..]
    else [r[0]] + Set(r[1..], k, v)
  }

  /** Entry `i` of `pairs` is the last one that writes its key. */
  predicate IsLastWrite<K(==, !new), V>(pairs: seq<(K, V)>, i: int)
    requires 0 <= i < |pairs|
  {
    forall j :: i < j < |pairs| ==> pairs[j].0 != pairs[i].0
  }

  /** Keys of `r` are the keys written by some entry of `pairs`. */
  ghost predicate KeysFrom<K(!new), V>(r: seq<(K, V)>, pairs: seq<(K, V)>)
  {
    forall k :: HasKey(r, k) <==> exists i :: 0 <= i < |pairs| && pairs[i].0 == k
  }

  /** Every key of `pairs` holds the value of its last write in `r`. */
  ghost predicate LastWritesWin<K(!new), V>(r: seq<(K, V)>, pairs: seq<(K, V)>)
  {
    forall i :: 0 <= i < |pairs| && IsLastWrite(pairs, i) ==> Get(r, pairs[i].0) == Some(pairs[i].1)
  }

  /** Assigning one more pair keeps the key set equal to the keys written so far. */
  lemma KeysFromStep<K(!new), V>(pairs: seq<(K, V)>, prev: seq<(K, V)>)
    requires |pairs| > 0
    requires KeysFrom(prev, pairs[..|pairs| - 1])
    ensures KeysFrom(Set(prev, pairs[|pairs| - 1].0, pairs[|pairs| - 1].1), pairs)
  {
    var init := pairs[..|pairs| - 1];
    var last := pairs[|pairs| - 1];
    var r := Set(prev, last.0, last.1);
    forall k
      ensures HasKey(r, k) <==> exists i :: 0 <= i < |pairs| && pairs[i].0 == k
    {
      if k == last.0 {
        assert HasKey(r, k);
        assert pairs[|pairs| - 1].0 == k;
      } else {
        assert Get(r, k) == Get(prev, k);
        if HasKey(prev, k) {
          var i :| 0 <= i < |init| && init[i].0 == k;
          assert pairs[i].0 == k;
        }
        if exists i :: 0 <= i < |pairs| && pairs[i].0 == k {
          var i :| 0 <= i < |pairs| && pairs[i].0 == k;
          assert init[i].0 == k;
        }
      }
    }
  }

  /** Assigning one more pair keeps every key at the value of its last write. */
  lemma LastWritesWinStep<K(!new), V>(pairs: seq<(K, V)>, prev: seq<(K, V)>)
    requires |pairs| > 0
    requires LastWritesWin(prev, pairs[..|pairs| - 1])
    ensures LastWritesWin(Set(prev, pairs[|pairs| - 1].0, pairs[|pairs| - 1].1), pairs)
  {
    var init := pairs[..|pairs| - 1];
    var last := pairs[|pairs| - 1];
    var r := Set(prev, last.0, last.1);
    forall i | 0 <= i < |pairs| && IsLastWrite(pairs, i)
      ensures Get(r, pairs[i].0) == Some(pairs[i].1)
    {
      if i < |pairs| - 1 {
        assert pairs[i] == init[i];
        assert pairs[|pairs| - 1].0 != pairs[i].0;
        assert IsLastWrite(init, i);
        assert Get(r, pairs[i].0) == Get(prev, pairs[i].0);
      }
    }
  }

  /** The object built by assigning every pair in order, as
      `pairs.forEach(([k, v]) => o[k] = v)` does starting from `{}`: its keys are the
      keys that occur in `pairs`, and each maps to the value of its last write. */
  function FromPairs<K(==, !new), V>(pairs: seq<(K, V)>): (r: seq<(K, V)>)
    ensures DistinctKeys(r)
    ensures forall k :: HasKey(r, k) <==> exists i :: 0 <= i < |pairs| && pairs[i].0 == k
    ensures forall i :: 0 <= i < |pairs| && IsLastWrite(pairs, i) ==> Get(r, pairs[i].0) == Some(pairs[i].1)
    decreases |pairs|
  {
    if |pairs| == 0 then []
    else
      var prev := FromPairs(pairs[..|pairs| - 1]);
      KeysFromStep(pairs, prev);
      LastWritesWinStep(pairs, prev);
      Set(prev, pairs[|pairs| - 1].0, pairs[|pairs| - 1].1)
  }
}
