/** Lists: their ends, and their contents up to order. */
module Sequences {

  /** The last `n` of a list. */
  function Last<T>(xs: seq<T>, n: nat): seq<T> {
    if |xs| <= n then xs else xs[|xs| - n..]
  }

  /** Trimming as a list grows keeps what trimming the whole list at the end would. */
  lemma LastOfLast<T>(xs: seq<T>, ys: seq<T>, n: nat)
    ensures Last(Last(xs, n) + ys, n) == Last(xs + ys, n)
  {
  }

  /** Appending one and dropping the oldest when there are too many keeps the last `n`. */
  lemma LastPush<T>(xs: seq<T>, x: T, n: nat)
    ensures var kept := Last(xs, n) + [x];
      (if |kept| > n then kept[1..] else kept) == Last(xs + [x], n)
  {
  }

  /** A map's values in the order of a list of its keys. */
  function ValuesAt<K, V>(m: map<K, V>, ks: seq<K>): seq<V>
    requires forall k :: k in ks ==> k in m
  {
    seq(|ks|, i requires 0 <= i < |ks| => assert ks[i] in ks; m[ks[i]])
  }

  lemma MultisetWithout<T>(xs: seq<T>, i: nat)
    requires i < |xs|
    ensures multiset(xs) == multiset(xs[..i] + xs[i + 1..]) + multiset{xs[i]}
    ensures multiset(xs[..i] + xs[i + 1..]) == multiset(xs) - multiset{xs[i]}
  {
    assert xs == xs[..i] + ([xs[i]] + xs[i + 1..]);
  }

  lemma ValuesWithout<K, V>(m: map<K, V>, ks: seq<K>, i: nat)
    requires (forall k :: k in ks ==> k in m) && i < |ks|
    ensures forall k :: k in ks[..i] + ks[i + 1..] ==> k in m
    ensures ks[i] in m
    ensures multiset(ValuesAt(m, ks)) == multiset(ValuesAt(m, ks[..i] + ks[i + 1..])) + multiset{m[ks[i]]}
  {
    var vs := ValuesAt(m, ks);
    MultisetWithout(vs, i);
    assert ValuesAt(m, ks[..i] + ks[i + 1..]) == vs[..i] + vs[i + 1..];
  }

  /** What is left of two orders of one list when the first of the one is taken out of both. */
  lemma RestReordered<T>(xs: seq<T>, ys: seq<T>, i: nat)
    requires multiset(xs) == multiset(ys) && xs != [] && i < |ys| && ys[i] == xs[0]
    ensures multiset(xs[..0] + xs[1..]) == multiset(ys[..i] + ys[i + 1..])
  {
    MultisetWithout(xs, 0);
    MultisetWithout(ys, i);
  }

  /** The same keys in another order give the same values in another order. */
  lemma {:induction false} ValuesReordered<K, V>(m: map<K, V>, ks: seq<K>, ks': seq<K>)
    requires (forall k :: k in ks ==> k in m) && (forall k :: k in ks' ==> k in m)
    requires multiset(ks) == multiset(ks')
    ensures multiset(ValuesAt(m, ks)) == multiset(ValuesAt(m, ks'))
    decreases |ks|
  {
    if ks == [] {
      assert |ks'| == |multiset(ks')| == 0;
    } else {
      assert ks[0] in multiset(ks');
      var i :| 0 <= i < |ks'| && ks'[i] == ks[0];
      RestReordered(ks, ks', i);
      ValuesWithout(m, ks, 0);
      ValuesWithout(m, ks', i);
      ValuesReordered(m, ks[..0] + ks[1..], ks'[..i] + ks'[i + 1..]);
    }
  }
}
