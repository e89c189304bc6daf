/** Sums over finite maps (in no particular order) and over sequences. */
module Sums {

  /** The sum of a map's values, taken in any order. */
  ghost function Sum<K>(m: map<K, real>): real
    decreases |m|
  {
    if m == map[] then 0.0 else
      var k :| k in m;
      m[k] + Sum(m - {k})
  }

  /** Any key may be taken out first, so the order of summation does not matter. */
  lemma {:induction false} SumPick<K>(m: map<K, real>, k: K)
    requires k in m
    ensures Sum(m) == m[k] + Sum(m - {k})
    decreases |m|
  {
    var j :| j in m && Sum(m) == m[j] + Sum(m - {j});
    if j != k {
      SumPick(m - {j}, k);
      SumPick(m - {k}, j);
      assert m - {j} - {k} == m - {k} - {j};
    }
  }

  /** The value a map holds for a key, 0 when it holds none (Go's zero value). */
  function Get<K>(m: map<K, real>, k: K): real {
    if k in m then m[k] else 0.0
  }

  /** Writing one key moves the sum by the change at that key. */
  lemma SumUpdate<K>(m: map<K, real>, k: K, v: real)
    ensures Sum(m[k := v]) == Sum(m) - Get(m, k) + v
  {
    SumPick(m[k := v], k);
    assert m[k := v] - {k} == m - {k};
    if k in m {
      SumPick(m, k);
    } else {
      assert m - {k} == m;
    }
  }

  lemma SumOne<K>(m: map<K, real>, k: K)
    requires m.Keys == {k}
    ensures Sum(m) == m[k]
  {
    SumPick(m, k);
    assert m - {k} == map[];
  }

  lemma SumTwo<K>(m: map<K, real>, k: K, l: K)
    requires m.Keys == {k, l} && k != l
    ensures Sum(m) == m[k] + m[l]
  {
    SumPick(m, k);
    assert (m - {k}).Keys == {l};
    SumOne(m - {k}, l);
  }

  lemma {:induction false} SumBound<K>(m: map<K, real>)
    requires forall k :: k in m ==> m[k] >= 0.0
    ensures Sum(m) >= 0.0
    ensures forall k :: k in m ==> m[k] <= Sum(m)
    decreases |m|
  {
    forall k | k in m
      ensures 0.0 <= m[k] <= Sum(m)
    {
      SumPick(m, k);
      SumBound(m - {k});
    }
    if k :| k in m {
      assert 0.0 <= m[k] <= Sum(m);
    }
  }

  /** When one map's values are, key by key, those another map holds under distinct keys `w`, the
      other map's sum is larger by what it holds elsewhere. */
  lemma {:induction false} SumThrough<J, K>(f: map<J, real>, g: map<K, real>, w: map<J, K>)
    requires f.Keys == w.Keys && forall j :: j in w ==> w[j] in g && f[j] == g[w[j]]
    requires forall i, j :: i in w && j in w && i != j ==> w[i] != w[j]
    ensures Sum(g) == Sum(f) + Sum(g - w.Values)
    decreases |f|
  {
    if f == map[] {
      assert w == map[] && g - w.Values == g;
    } else {
      var j :| j in f;
      SumPick(f, j);
      SumPick(g, w[j]);
      SumThrough(f - {j}, g - {w[j]}, w - {j});
      WithoutValue(g, w, j);
    }
  }

  lemma WithoutValue<J, K>(g: map<K, real>, w: map<J, K>, j: J)
    requires j in w
    ensures g - {w[j]} - (w - {j}).Values == g - w.Values
  {
    assert forall v :: v in w.Values <==> v in (w - {j}).Values || v == w[j] by {
      forall v | v in w.Values
        ensures v in (w - {j}).Values || v == w[j]
      {
        var i :| i in w && w[i] == v;
        if i != j {
          assert (w - {j})[i] == v;
        }
      }
    }
  }

  /** The sum of a sequence of reals. */
  function SumSeq(xs: seq<real>): real {
    if xs == [] then 0.0 else xs[0] + SumSeq(xs[1..])
  }

  lemma {:induction false} SumSeqNonNegative(xs: seq<real>)
    requires forall i :: 0 <= i < |xs| ==> xs[i] >= 0.0
    ensures SumSeq(xs) >= 0.0
  {
    if xs != [] {
      SumSeqNonNegative(xs[1..]);
    }
  }

  lemma {:induction false} SumSeqSnoc(xs: seq<real>, x: real)
    ensures SumSeq(xs + [x]) == SumSeq(xs) + x
  {
    if xs != [] {
      assert (xs + [x])[1..] == xs[1..] + [x];
      SumSeqSnoc(xs[1..], x);
    }
  }

  /** The sum of a sequence of integers. */
  function Total(xs: seq<int>): int {
    if xs == [] then 0 else xs[0] + Total(xs[1..])
  }

  lemma {:induction false} TotalUpdate(xs: seq<int>, i: nat, v: int)
    requires i < |xs|
    ensures Total(xs[i := v]) == Total(xs) - xs[i] + v
  {
    if i == 0 {
      assert xs[0 := v][1..] == xs[1..];
    } else {
      TotalUpdate(xs[1..], i - 1, v);
      assert xs[i := v][1..] == xs[1..][i - 1 := v];
    }
  }

  lemma {:induction false} TotalConcat(xs: seq<int>, ys: seq<int>)
    ensures Total(xs + ys) == Total(xs) + Total(ys)
  {
    if xs == [] {
      assert xs + ys == ys;
    } else {
      assert (xs + ys)[1..] == xs[1..] + ys;
      TotalConcat(xs[1..], ys);
    }
  }

  lemma {:induction false} TotalBound(xs: seq<int>)
    requires forall i :: 0 <= i < |xs| ==> xs[i] >= 0
    ensures Total(xs) >= 0
    ensures forall i :: 0 <= i < |xs| ==> xs[i] <= Total(xs)
  {
    if xs != [] {
      TotalBound(xs[1..]);
      forall i | 0 <= i < |xs|
        ensures xs[i] <= Total(xs)
      {
        if i > 0 {
          assert xs[i] == xs[1..][i - 1];
        }
      }
    }
  }
}
