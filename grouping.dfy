/**
 * Grouping in insertion order, as JavaScript's `Map` and `Set` do it: the
 * routes that list models (apps/worker/src/routes/models.ts,
 * apps/worker/src/routes/public.ts) push each entry onto the array kept
 * under its key and read the keys back in the order they were first set;
 * the admin channel listing (apps/worker/src/routes/channels.ts) collects
 * model ids into a `Set`.
 *
 * A `Map` is modelled as its key order (a sequence without repeats) and a
 * Dafny `map` from key to the array held under it.
 */
module Grouping {

  predicate Distinct<K(==,!new)>(s: seq<K>) {
    forall i, j :: 0 <= i < j < |s| ==> s[i] != s[j]
  }

  /** The elements of `xs`, each once, in the order in which each first appears. */
  function Dedup<K(==,!new)>(xs: seq<K>): (r: seq<K>)
    ensures Distinct(r)
    ensures forall x :: x in r <==> x in xs
    decreases |xs|
  {
    if xs == [] then []
    else
      var d := Dedup(xs[..|xs| - 1]);
      var x := xs[|xs| - 1];
      assert xs == xs[..|xs| - 1] + [x];
      if x in d then d else d + [x]
  }

  /** The position of the first occurrence of `x` in `xs`. */
  function FirstIndex<K(==,!new)>(xs: seq<K>, x: K): (r: nat)
    requires x in xs
    ensures r < |xs| && xs[r] == x && x !in xs[..r]
  {
    if xs[0] == x then 0
    else
      var k := FirstIndex(xs[1..], x);
      assert xs[..k + 1] == [xs[0]] + xs[1..][..k];
      k + 1
  }

  /** A first occurrence is unique. */
  lemma {:induction false} FirstIndexIs<K(!new)>(xs: seq<K>, x: K, k: nat)
    requires k < |xs| && xs[k] == x && x !in xs[..k]
    ensures FirstIndex(xs, x) == k
  {
    if k > 0 {
      assert xs[..k][0] == xs[0];
      assert xs[1..][..k - 1] == xs[1..k];
      assert forall y :: y in xs[1..k] ==> y in xs[..k];
      FirstIndexIs(xs[1..], x, k - 1);
    }
  }

  /** Appending never moves the first occurrence of an element already present. */
  lemma FirstIndexOfPrefix<K(!new)>(p: seq<K>, ys: seq<K>, x: K)
    requires x in p
    ensures FirstIndex(p + ys, x) == FirstIndex(p, x)
  {
    var k := FirstIndex(p, x);
    assert (p + ys)[..k] == p[..k];
    FirstIndexIs(p + ys, x, k);
  }

  /** The keys of `Dedup(xs)` come in the order of their first appearance in `xs`. */
  lemma {:induction false} DedupInFirstAppearanceOrder<K(!new)>(xs: seq<K>, i: nat, j: nat)
    requires i < j < |Dedup(xs)|
    ensures FirstIndex(xs, Dedup(xs)[i]) < FirstIndex(xs, Dedup(xs)[j])
    decreases |xs|
  {
    var p := xs[..|xs| - 1];
    var x := xs[|xs| - 1];
    var d := Dedup(p);
    assert xs == p + [x];
    if x in d || j < |d| {
      DedupInFirstAppearanceOrder(p, i, j);
      FirstIndexOfPrefix(p, [x], d[i]);
      FirstIndexOfPrefix(p, [x], d[j]);
    } else {
      assert Dedup(xs)[j] == x;
      assert xs[..|xs| - 1] == p;
      FirstIndexIs(xs, x, |xs| - 1);
      FirstIndexOfPrefix(p, [x], d[i]);
    }
  }

  function KeysOf<K(==,!new), V(!new)>(pairs: seq<(K, V)>): (r: seq<K>)
    ensures |r| == |pairs|
    ensures forall i :: 0 <= i < |pairs| ==> r[i] == pairs[i].0
  {
    seq(|pairs|, i requires 0 <= i < |pairs| => pairs[i].0)
  }

  /** The values paired with `k`, in the order of `pairs`. */
  function ValuesOf<K(==,!new), V(!new)>(pairs: seq<(K, V)>, k: K): (r: seq<V>)
    ensures |r| <= |pairs|
    ensures r == [] <==> k !in KeysOf(pairs)
    ensures forall v :: v in r ==> (k, v) in pairs
    ensures forall i :: 0 <= i < |pairs| && pairs[i].0 == k ==> pairs[i].1 in r
    decreases |pairs|
  {
    if pairs == [] then []
    else
      var p := pairs[..|pairs| - 1];
      var last := pairs[|pairs| - 1];
      assert pairs == p + [last];
      assert KeysOf(pairs) == KeysOf(p) + [last.0];
      ValuesOf(p, k) + (if last.0 == k then [last.1] else [])
  }

  lemma ValuesOfSnoc<K(!new), V(!new)>(p: seq<(K, V)>, kv: (K, V), k: K)
    ensures ValuesOf(p + [kv], k) == ValuesOf(p, k) + (if kv.0 == k then [kv.1] else [])
  {
    assert (p + [kv])[..|p|] == p;
  }

  lemma KeysOfSnoc<K(!new), V(!new)>(p: seq<(K, V)>, kv: (K, V))
    ensures KeysOf(p + [kv]) == KeysOf(p) + [kv.0]
  {
  }

  lemma DedupSnoc<K(!new)>(xs: seq<K>, x: K)
    ensures Dedup(xs + [x]) == if x in Dedup(xs) then Dedup(xs) else Dedup(xs) + [x]
  {
    assert (xs + [x])[..|xs|] == xs;
  }

  /**
   * The `Map` loop of the listing routes: for each pair, fetch the array
   * under its key (a new one on first sight), push the value and set it back.
   */
  method GroupInOrder<K(==,!new), V(!new)>(pairs: seq<(K, V)>) returns (keys: seq<K>, groups: map<K, seq<V>>)
    ensures keys == Dedup(KeysOf(pairs))
    ensures forall k :: k in groups <==> k in keys
    ensures forall k :: k in groups ==> groups[k] == ValuesOf(pairs, k)
  {
    keys := [];
    groups := map[];
    for i := 0 to |pairs|
      invariant keys == Dedup(KeysOf(pairs[..i]))
      invariant forall k :: k in groups <==> k in keys
      invariant forall k :: k in groups ==> groups[k] == ValuesOf(pairs[..i], k)
    {
      var k := pairs[i].0;
      assert pairs[..i + 1] == pairs[..i] + [pairs[i]];
      KeysOfSnoc(pairs[..i], pairs[i]);
      DedupSnoc(KeysOf(pairs[..i]), k);
      forall k' | k' in groups || k' == k {
        ValuesOfSnoc(pairs[..i], pairs[i], k');
      }
      var existing := if k in groups then groups[k] else [];
      groups := groups[k := existing + [pairs[i].1]];
      if k !in keys {
        keys := keys + [k];
      }
    }
    assert pairs[..|pairs|] == pairs;
  }

  /** The number of values held under the keys `ks`. */
  function Held<K(==,!new), V(!new)>(pairs: seq<(K, V)>, ks: seq<K>): nat
    decreases |ks|
  {
    if ks == [] then 0 else Held(pairs, ks[..|ks| - 1]) + |ValuesOf(pairs, ks[|ks| - 1])|
  }

  /** One more pair adds one value under its own key and none under any other. */
  lemma {:induction false} HeldAfterPair<K(!new), V(!new)>(p: seq<(K, V)>, kv: (K, V), ks: seq<K>)
    requires Distinct(ks)
    ensures Held(p + [kv], ks) == Held(p, ks) + (if kv.0 in ks then 1 else 0)
    decreases |ks|
  {
    if ks != [] {
      var init := ks[..|ks| - 1];
      var x := ks[|ks| - 1];
      assert ks == init + [x];
      assert (p + [kv])[..|p + [kv]| - 1] == p;
      HeldAfterPair(p, kv, init);
    }
  }

  /** Every pair lands under exactly one key: the arrays together hold `|pairs|` values. */
  lemma {:induction false} GroupedTotal<K(!new), V(!new)>(pairs: seq<(K, V)>)
    ensures Held(pairs, Dedup(KeysOf(pairs))) == |pairs|
    decreases |pairs|
  {
    if pairs != [] {
      var p := pairs[..|pairs| - 1];
      var kv := pairs[|pairs| - 1];
      assert pairs == p + [kv];
      assert KeysOf(pairs) == KeysOf(p) + [kv.0];
      GroupedTotal(p);
      var d := Dedup(KeysOf(p));
      HeldAfterPair(p, kv, d);
      if kv.0 !in d {
        assert (d + [kv.0])[..|d|] == d;
        assert ValuesOf(pairs, kv.0) == ValuesOf(p, kv.0) + [kv.1];
      }
    }
  }

  /** `Array.from(map.entries())` after the grouping loop: each key with its array, in key order. */
  function Entries<K(==,!new), V(!new)>(pairs: seq<(K, V)>): seq<(K, seq<V>)>
  {
    var keys := Dedup(KeysOf(pairs));
    seq(|keys|, i requires 0 <= i < |keys| => (keys[i], ValuesOf(pairs, keys[i])))
  }

  /** The grouping loop followed by reading the entries back in insertion order. */
  method GroupEntries<K(==,!new), V(!new)>(pairs: seq<(K, V)>) returns (entries: seq<(K, seq<V>)>)
    ensures entries == Entries(pairs)
  {
    var keys, groups := GroupInOrder(pairs);
    entries := seq(|keys|, i requires 0 <= i < |keys| => (keys[i], groups[keys[i]]));
  }

  /**
   * Every key occurs in exactly one entry, the keys are those of the pairs,
   * and they come in the order of their first appearance.
   */
  lemma EntriesKeys<K(!new), V(!new)>(pairs: seq<(K, V)>)
    ensures forall i, j :: 0 <= i < j < |Entries(pairs)| ==> Entries(pairs)[i].0 != Entries(pairs)[j].0
    ensures forall k :: k in KeysOf(pairs) <==> exists i :: 0 <= i < |Entries(pairs)| && Entries(pairs)[i].0 == k
    ensures forall i, j :: 0 <= i < j < |Entries(pairs)| ==>
      FirstIndex(KeysOf(pairs), Entries(pairs)[i].0) < FirstIndex(KeysOf(pairs), Entries(pairs)[j].0)
  {
    var keys := Dedup(KeysOf(pairs));
    forall k | k in KeysOf(pairs)
      ensures exists i :: 0 <= i < |Entries(pairs)| && Entries(pairs)[i].0 == k
    {
      var i :| 0 <= i < |keys| && keys[i] == k;
      assert Entries(pairs)[i].0 == k;
    }
    forall i, j | 0 <= i < j < |Entries(pairs)|
      ensures FirstIndex(KeysOf(pairs), Entries(pairs)[i].0) < FirstIndex(KeysOf(pairs), Entries(pairs)[j].0)
    {
      DedupInFirstAppearanceOrder(KeysOf(pairs), i, j);
    }
  }

  /** Each pair's value is in the array of the entry for its key, which holds only that key's values, in order. */
  lemma EntriesHoldEachPair<K(!new), V(!new)>(pairs: seq<(K, V)>, n: nat)
    requires n < |pairs|
    ensures exists i :: 0 <= i < |Entries(pairs)| && Entries(pairs)[i].0 == pairs[n].0
                        && pairs[n].1 in Entries(pairs)[i].1
  {
    var keys := Dedup(KeysOf(pairs));
    assert KeysOf(pairs)[n] == pairs[n].0;
    assert pairs[n].0 in keys;
    var i :| 0 <= i < |keys| && keys[i] == pairs[n].0;
    assert Entries(pairs)[i].0 == pairs[n].0;
  }

  /** The number of values across the entries. */
  function TotalValues<K, V>(entries: seq<(K, seq<V>)>): nat
  {
    if entries == [] then 0 else TotalValues(entries[..|entries| - 1]) + |entries[|entries| - 1].1|
  }

  lemma {:induction false} TotalValuesHeld<K(!new), V(!new)>(pairs: seq<(K, V)>, ks: seq<K>)
    ensures TotalValues(seq(|ks|, i requires 0 <= i < |ks| => (ks[i], ValuesOf(pairs, ks[i])))) == Held(pairs, ks)
    decreases |ks|
  {
    if ks != [] {
      var es := seq(|ks|, i requires 0 <= i < |ks| => (ks[i], ValuesOf(pairs, ks[i])));
      var init := ks[..|ks| - 1];
      assert es[..|es| - 1] == seq(|init|, i requires 0 <= i < |init| => (init[i], ValuesOf(pairs, init[i])));
      TotalValuesHeld(pairs, init);
    }
  }

  /** Each pair is pushed exactly once: the entries hold `|pairs|` values in all. */
  lemma EntriesTotal<K(!new), V(!new)>(pairs: seq<(K, V)>)
    ensures TotalValues(Entries(pairs)) == |pairs|
  {
    TotalValuesHeld(pairs, Dedup(KeysOf(pairs)));
    GroupedTotal(pairs);
  }
}
