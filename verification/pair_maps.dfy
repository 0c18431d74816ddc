/**
 * Maps built by `put`ting key/value pairs in stream order, and sequences of
 * pairs that enumerate a map (the order in which a HashMap happens to be
 * iterated when it is written).
 */
module PairMaps {

  /** The map after putting every pair in order: a later pair overwrites an earlier one. */
  function PairsToMap<K, V>(ps: seq<(K, V)>): (m: map<K, V>)
    ensures forall i :: 0 <= i < |ps| ==> ps[i].0 in m
    ensures forall k :: k in m ==> exists i :: 0 <= i < |ps| && ps[i] == (k, m[k])
  {
    if |ps| == 0 then map[]
    else
      var m := PairsToMap(ps[..|ps| - 1]);
      assert forall i :: 0 <= i < |ps| - 1 ==> ps[..|ps| - 1][i] == ps[i];
      m[ps[|ps| - 1].0 := ps[|ps| - 1].1]
  }

  /** Putting one more pair after `ps` updates the map of `ps` with it. */
  lemma PairsToMapSnoc<K, V>(ps: seq<(K, V)>, p: (K, V))
    ensures PairsToMap(ps + [p]) == PairsToMap(ps)[p.0 := p.1]
  {
    assert (ps + [p])[..|ps|] == ps;
  }

  /** `ps` lists every binding of `m` whose key is in `done`, each exactly once. */
  ghost predicate EnumeratesPart<K, V>(ps: seq<(K, V)>, m: map<K, V>, done: set<K>)
  {
    && done <= m.Keys
    && |ps| == |done|
    && (forall i, j :: 0 <= i < j < |ps| ==> ps[i].0 != ps[j].0)
    && (forall i :: 0 <= i < |ps| ==> ps[i].0 in done && m[ps[i].0] == ps[i].1)
    && (forall k :: k in done ==> exists i :: 0 <= i < |ps| && ps[i].0 == k)
  }

  /** `ps` lists every binding of `m` exactly once. */
  ghost predicate Enumerates<K, V>(ps: seq<(K, V)>, m: map<K, V>)
  {
    EnumeratesPart(ps, m, m.Keys)
  }

  /** An enumeration has one pair per key. */
  lemma EnumeratesLength<K, V>(ps: seq<(K, V)>, m: map<K, V>)
    requires Enumerates(ps, m)
    ensures |ps| == |m|
  {
  }

  /** Listing one more binding, of a key not listed yet, extends the enumeration. */
  lemma EnumeratesStep<K, V>(ps: seq<(K, V)>, m: map<K, V>, done: set<K>, k: K)
    requires EnumeratesPart(ps, m, done)
    requires k in m && k !in done
    ensures EnumeratesPart(ps + [(k, m[k])], m, done + {k})
  {
    var qs := ps + [(k, m[k])];
    forall k' | k' in done + {k} ensures exists i :: 0 <= i < |qs| && qs[i].0 == k' {
      if k' == k {
        assert qs[|ps|].0 == k';
      } else {
        var i :| 0 <= i < |ps| && ps[i].0 == k';
        assert qs[i] == ps[i];
      }
    }
  }

  /** One more key taken from those not yet iterated over. */
  lemma EnumeratesNext<K, V>(ps: seq<(K, V)>, m: map<K, V>, remaining: set<K>, k: K)
    requires remaining <= m.Keys
    requires EnumeratesPart(ps, m, m.Keys - remaining)
    requires k in remaining
    ensures EnumeratesPart(ps + [(k, m[k])], m, m.Keys - (remaining - {k}))
  {
    EnumeratesStep(ps, m, m.Keys - remaining, k);
    assert m.Keys - remaining + {k} == m.Keys - (remaining - {k});
  }

  /** Nothing left to iterate over: every binding has been listed. */
  lemma EnumeratesAll<K, V>(ps: seq<(K, V)>, m: map<K, V>, remaining: set<K>)
    requires EnumeratesPart(ps, m, m.Keys - remaining)
    requires remaining == {}
    ensures Enumerates(ps, m)
  {
    assert m.Keys - remaining == m.Keys;
  }

  /** Last write wins: the value kept for a key is that of its last pair. */
  lemma {:induction false} LastWins<K, V>(ps: seq<(K, V)>, i: nat)
    requires i < |ps|
    requires forall j :: i < j < |ps| ==> ps[j].0 != ps[i].0
    ensures PairsToMap(ps)[ps[i].0] == ps[i].1
  {
    if i < |ps| - 1 {
      var init := ps[..|ps| - 1];
      assert init[i] == ps[i];
      forall j | i < j < |init| ensures init[j].0 != init[i].0 {
        assert init[j] == ps[j];
      }
      LastWins(init, i);
    }
  }

  /** Putting the pairs of an enumeration of `m` rebuilds `m`. */
  lemma EnumeratedMap<K, V>(ps: seq<(K, V)>, m: map<K, V>)
    requires Enumerates(ps, m)
    ensures PairsToMap(ps) == m
  {
    var r := PairsToMap(ps);
    forall k | k in m ensures k in r && r[k] == m[k] {
      var i :| 0 <= i < |ps| && ps[i].0 == k;
      LastWins(ps, i);
    }
    forall k | k in r ensures k in m {
      var i :| 0 <= i < |ps| && ps[i] == (k, r[k]);
    }
  }

  /** The keys of an enumeration of `m`, paired with the values of a map with the same keys, enumerate that map. */
  lemma EnumeratesRekeyed<K, V, W>(ps: seq<(K, V)>, m: map<K, V>, qs: seq<(K, W)>, n: map<K, W>)
    requires Enumerates(ps, m)
    requires n.Keys == m.Keys
    requires |qs| == |ps|
    requires forall i :: 0 <= i < |ps| ==> qs[i] == (ps[i].0, n[ps[i].0])
    ensures Enumerates(qs, n)
  {
    forall k | k in n.Keys ensures exists i :: 0 <= i < |qs| && qs[i].0 == k {
      var i :| 0 <= i < |ps| && ps[i].0 == k;
      assert qs[i].0 == k;
    }
  }
}
