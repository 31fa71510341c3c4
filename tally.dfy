/**
 * Counting by key, as a Python `defaultdict(int)` or a `dict.get(key, 0) + 1` does it:
 * a missing key reads as zero, and every increment adds the key if it was absent.
 */
module Tally {

  /** `counts[key]` of a `defaultdict(int)`: zero for a missing key. */
  function Count<K>(counts: map<K, nat>, key: K): nat
  {
    if key in counts then counts[key] else 0
  }

  /** `counts[key] += 1` where a missing key starts at zero. */
  function Inc<K>(counts: map<K, nat>, key: K): map<K, nat>
  {
    counts[key := Count(counts, key) + 1]
  }

  /** An increment adds one to `key`'s count, adding the key if it was absent, and changes no other key. */
  lemma IncEffect<K>(counts: map<K, nat>, key: K)
    ensures var r := Inc(counts, key);
      && key in r && r[key] == Count(counts, key) + 1
      && r.Keys == counts.Keys + {key}
      && forall k :: k in counts && k != key ==> r[k] == counts[k]
  {
  }

  /** The counts obtained by incrementing once for each key of `ks`, from the empty map, in order. */
  function TallyOf<K>(ks: seq<K>): map<K, nat>
  {
    if ks == [] then map[] else Inc(TallyOf(ks[..|ks| - 1]), ks[|ks| - 1])
  }

  /** Some key of a non-empty map. */
  ghost function Pick<K>(m: map<K, nat>): K
    requires m != map[]
  {
    var k :| k in m; k
  }

  /** The sum of all values of a map. */
  ghost function MapSum<K>(m: map<K, nat>): nat
    decreases |m|
  {
    if m == map[] then 0
    else
      var k := Pick(m);
      assert |m - {k}| < |m| by { assert (m - {k}).Keys == m.Keys - {k}; }
      m[k] + MapSum(m - {k})
  }

  /** The sum does not depend on which key is taken out first. */
  lemma {:induction false} MapSumRemove<K>(m: map<K, nat>, k: K)
    requires k in m
    ensures MapSum(m) == m[k] + MapSum(m - {k})
    decreases |m|
  {
    var j := Pick(m);
    if j != k {
      assert (m - {j}).Keys == m.Keys - {j};
      assert (m - {k}).Keys == m.Keys - {k};
      MapSumRemove(m - {j}, k);
      MapSumRemove(m - {k}, j);
      assert m - {j} - {k} == m - {k} - {j};
    }
  }

  /** One increment adds exactly one to the sum of all counts. */
  lemma MapSumInc<K>(m: map<K, nat>, key: K)
    ensures MapSum(Inc(m, key)) == MapSum(m) + 1
  {
    var r := Inc(m, key);
    MapSumRemove(r, key);
    if key in m {
      MapSumRemove(m, key);
      assert r - {key} == m - {key};
    } else {
      assert r - {key} == m;
    }
  }

  /**
   * The tally of `ks` holds exactly the keys that occur in `ks`, each with its
   * number of occurrences (at least one), and its counts add up to `|ks|`.
   */
  lemma {:induction false} TallyOfCounts<K>(ks: seq<K>)
    ensures forall k :: k in TallyOf(ks) <==> k in ks
    ensures forall k :: k in TallyOf(ks) ==> TallyOf(ks)[k] == multiset(ks)[k] >= 1
    ensures MapSum(TallyOf(ks)) == |ks|
  {
    if ks != [] {
      var init, last := ks[..|ks| - 1], ks[|ks| - 1];
      assert ks == init + [last];
      TallyOfCounts(init);
      MapSumInc(TallyOf(init), last);
      IncEffect(TallyOf(init), last);
      forall k ensures k in TallyOf(ks) <==> k in ks {
        assert k in ks <==> k in init || k == last;
      }
    }
  }
}
