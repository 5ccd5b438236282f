/**
 * The insertion-ordered map of the Java platform (java.util.LinkedHashMap) as a value:
 * the sequence of its entries in iteration order. `put` on a key already present replaces
 * the value and keeps the key's position; `put` on a new key appends the entry.
 */
module LinkedMaps {
  import opened Wrappers
  import opened Sequences

  type LinkedMap<K, V> = seq<(K, V)>

  /** The keys of a map (or of a list of insertion requests), in order. */
  function Keys<K, V>(m: seq<(K, V)>): seq<K> {
    seq(|m|, i requires 0 <= i < |m| => m[i].0)
  }

  /** The keys of `a + b` are the keys of `a`, then those of `b`. */
  lemma KeysAppend<K, V>(a: seq<(K, V)>, b: seq<(K, V)>)
    ensures Keys(a + b) == Keys(a) + Keys(b)
  {
  }

  /** `map.get(k)`: the value of the entry for `k`, or null. */
  function Get<K(==,!new), V>(m: LinkedMap<K, V>, k: K): (r: Option<V>)
    ensures r.None? <==> k !in Keys(m)
    ensures r.Some? ==> (k, r.value) in m
  {
    if k in Keys(m) then
      var i := IndexOf(Keys(m), k);
      assert m[i].0 == Keys(m)[i];
      Some(m[i].1)
    else None
  }

  /** `map.put(k, v)`: an entry for `k` has its value replaced where it stands; otherwise the entry is appended. */
  function Put<K(==,!new), V>(m: LinkedMap<K, V>, k: K, v: V): (r: LinkedMap<K, V>)
    ensures Keys(r) == if k in Keys(m) then Keys(m) else Keys(m) + [k]
    ensures Get(r, k) == Some(v)
    ensures Distinct(Keys(m)) ==> Distinct(Keys(r))
  {
    if k in Keys(m) then
      var i := IndexOf(Keys(m), k);
      var r := m[i := (k, v)];
      assert Keys(r) == Keys(m) by {
        forall j | 0 <= j < |m| ensures Keys(r)[j] == Keys(m)[j] {
        }
      }
      r
    else
      var r := m + [(k, v)];
      assert Keys(r) == Keys(m) + [k];
      r
  }

  /** `put` leaves every other key's value alone. */
  lemma PutOthers<K(!new), V>(m: LinkedMap<K, V>, k: K, v: V, k': K)
    requires k' != k
    ensures Get(Put(m, k, v), k') == Get(m, k')
  {
    var r := Put(m, k, v);
    if k' in Keys(m) {
      var j := IndexOf(Keys(m), k');
      if k in Keys(m) {
        assert Keys(r) == Keys(m);
        assert j != IndexOf(Keys(m), k);
      } else {
        assert Keys(r) == Keys(m) + [k];
        IndexOfPrefix(Keys(m), Keys(r), k');
      }
    }
  }

  /** The value of the LAST request in `ps` under key `k`, or null when none names `k`. */
  function LastValue<K(==,!new), V>(ps: seq<(K, V)>, k: K): (r: Option<V>)
    ensures r.None? <==> k !in Keys(ps)
    ensures r.Some? ==> exists i :: 0 <= i < |ps| && ps[i] == (k, r.value) && forall j :: i < j < |ps| ==> ps[j].0 != k
  {
    if ps == [] then None
    else
      var p := ps[..|ps| - 1];
      assert Keys(ps) == Keys(p) + [ps[|ps| - 1].0];
      if ps[|ps| - 1].0 == k then Some(ps[|ps| - 1].1) else LastValue(p, k)
  }

  /** `m` is what a LinkedHashMap holds after the puts `ps` into an empty map: keys in first-insertion order, each with the value put last. */
  ghost predicate Reflects<K(!new), V>(m: LinkedMap<K, V>, ps: seq<(K, V)>) {
    Keys(m) == Dedup(Keys(ps)) && forall k :: Get(m, k) == LastValue(ps, k)
  }

  /** One more `put` keeps a map in step with its list of puts. */
  lemma PutStep<K(!new), V>(m: LinkedMap<K, V>, ps: seq<(K, V)>, k: K, v: V)
    requires Reflects(m, ps)
    ensures Reflects(Put(m, k, v), ps + [(k, v)])
  {
    assert Keys(ps + [(k, v)]) == Keys(ps) + [k];
    DedupSnoc(Keys(ps), k);
    assert (ps + [(k, v)])[..|ps|] == ps;
    forall k' | k' != k ensures Get(Put(m, k, v), k') == LastValue(ps + [(k, v)], k') {
      PutOthers(m, k, v, k');
    }
  }

  /** Putting every request of `ps`, in order, into an empty LinkedHashMap. */
  function FromEntries<K(==,!new), V>(ps: seq<(K, V)>): LinkedMap<K, V> {
    if ps == [] then [] else Put(FromEntries(ps[..|ps| - 1]), ps[|ps| - 1].0, ps[|ps| - 1].1)
  }

  /** When no key is put twice, the map holds exactly the requests, in order. */
  lemma {:induction false} FromEntriesOfDistinct<K(!new), V>(ps: seq<(K, V)>)
    requires Distinct(Keys(ps))
    ensures FromEntries(ps) == ps
  {
    if ps != [] {
      var p := ps[..|ps| - 1];
      var last := ps[|ps| - 1];
      assert ps == p + [last];
      assert Keys(ps) == Keys(p) + [last.0];
      assert Keys(ps)[..|ps| - 1] == Keys(p);
      FromEntriesOfDistinct(p);
      assert last.0 !in Keys(p) by {
        assert Keys(ps)[|ps| - 1] == last.0;
      }
    }
  }

  /** The map built from a list of puts is in step with it: first-put order, last-put values. */
  lemma {:induction false} FromEntriesReflects<K(!new), V>(ps: seq<(K, V)>)
    ensures Reflects(FromEntries(ps), ps)
  {
    if ps != [] {
      var p := ps[..|ps| - 1];
      var last := ps[|ps| - 1];
      assert ps == p + [last];
      FromEntriesReflects(p);
      assert Keys(ps) == Keys(p) + [last.0];
      PutStep(FromEntries(p), p, last.0, last.1);
    }
  }

  /** One more request is one more `put`. */
  lemma FromEntriesSnoc<K(!new), V>(ps: seq<(K, V)>, k: K, v: V)
    ensures FromEntries(ps + [(k, v)]) == Put(FromEntries(ps), k, v)
  {
    assert (ps + [(k, v)])[..|ps|] == ps;
  }

  /** A later put under the same key wins: the requests of `b` override those of `a`. */
  lemma {:induction false} LastValueAppend<K(!new), V>(a: seq<(K, V)>, b: seq<(K, V)>, k: K)
    ensures LastValue(a + b, k) == if LastValue(b, k).Some? then LastValue(b, k) else LastValue(a, k)
  {
    if b == [] {
      assert a + b == a;
    } else {
      var p := b[..|b| - 1];
      LastValueAppend(a, p, k);
      assert (a + b)[..|a + b| - 1] == a + p;
    }
  }

  /** In a map with distinct keys, the entry at a position is what `get` finds under its key. */
  lemma GetAt<K(!new), V>(m: LinkedMap<K, V>, i: nat)
    requires Distinct(Keys(m)) && i < |m|
    ensures Get(m, m[i].0) == Some(m[i].1)
  {
    assert Keys(m)[i] == m[i].0;
  }
}
