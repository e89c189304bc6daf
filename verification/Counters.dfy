/** The hash-map elements the eBPF programs keep per cgroup, and their handlers as atomic steps. */
module Counters {
  import opened Words

  /** `max_entries` of cpu_cycles_map, disk_map and network_map. */
  const CAPACITY := 10240

  /** The widest element, of disk_map or network_map, has six 64-bit fields. */
  const FIELDS := 6

  type Field = f: nat | f < FIELDS

  type Values = s: seq<U64> | |s| == FIELDS witness [0, 0, 0, 0, 0, 0]

  const ZERO: Values := [0, 0, 0, 0, 0, 0]

  /** One `__sync_fetch_and_add` on a field of the element. */
  datatype Bump = Bump(field: Field, amount: U64)

  /** One run of a handler: the cgroup it charges and the additions it makes. */
  datatype Sample = Sample(key: U64, bumps: seq<Bump>)

  function Bumped(values: Values, b: Bump): Values {
    values[b.field := Add64(values[b.field], b.amount)]
  }

  function BumpedAll(values: Values, bumps: seq<Bump>): Values
    decreases |bumps|
  {
    if bumps == [] then values else BumpedAll(Bumped(values, bumps[0]), bumps[1..])
  }

  lemma BumpCons(values: Values, b: Bump, bumps: seq<Bump>)
    ensures BumpedAll(values, [b] + bumps) == BumpedAll(Bumped(values, b), bumps)
  {
  }

  lemma BumpTwo(values: Values, a: Bump, b: Bump)
    ensures BumpedAll(values, [a, b]) == Bumped(Bumped(values, a), b)
  {
    assert [a, b] == [a] + ([b] + []);
    BumpCons(values, a, [b] + []);
    BumpCons(Bumped(values, a), b, []);
  }

  lemma BumpThree(values: Values, a: Bump, b: Bump, c: Bump)
    ensures BumpedAll(values, [a, b, c]) == Bumped(Bumped(Bumped(values, a), b), c)
  {
    assert [a, b, c] == [a] + [b, c];
    BumpCons(values, a, [b, c]);
    BumpTwo(Bumped(values, a), b, c);
  }

  /** A map of a program's own structs, seen as elements. */
  function RowsOf<T>(m: map<U64, T>, row: T -> Values): map<U64, Values> {
    map k | k in m :: row(m[k])
  }

  lemma RowsWrite<T>(m: map<U64, T>, row: T -> Values, k: U64, t: T)
    ensures RowsOf(m, row).Keys == m.Keys && |RowsOf(m, row)| == |m|
    ensures RowsOf(m[k := t], row) == RowsOf(m, row)[k := row(t)]
  {
    assert RowsOf(m, row).Keys == m.Keys;
    assert |RowsOf(m, row)| == |RowsOf(m, row).Keys| == |m.Keys|;
  }

  /** Writing one key leaves the others alone. */
  lemma RestKept<V>(m: map<U64, V>, k: U64, v: V)
    ensures m[k := v] - {k} == m - {k}
  {
  }

  /** A handler as one atomic step on the map: it finds the element or creates it, and adds. */
  function Handle(view: map<U64, Values>, sample: Sample): map<U64, Values> {
    if sample.key in view then view[sample.key := BumpedAll(view[sample.key], sample.bumps)]
    else if |view| < CAPACITY then view[sample.key := BumpedAll(ZERO, sample.bumps)]
    else view
  }

  /** A whole run of atomic handlers, from an empty map. */
  function HandleAll(samples: seq<Sample>): map<U64, Values> {
    if samples == [] then map[] else Handle(HandleAll(samples[..|samples| - 1]), samples[|samples| - 1])
  }

  /** What a list of additions adds to one field. */
  function Amount(bumps: seq<Bump>, f: Field): nat {
    if bumps == [] then 0
    else (if bumps[0].field == f then bumps[0].amount else 0) + Amount(bumps[1..], f)
  }

  /** What a list of handler runs should add to one field of one cgroup. */
  function Charged(samples: seq<Sample>, k: U64, f: Field): nat {
    if samples == [] then 0
    else (if samples[0].key == k then Amount(samples[0].bumps, f) else 0) + Charged(samples[1..], k, f)
  }

  lemma {:induction false} ChargedSnoc(samples: seq<Sample>, x: Sample, k: U64, f: Field)
    ensures Charged(samples + [x], k, f) == Charged(samples, k, f) + (if x.key == k then Amount(x.bumps, f) else 0)
  {
    if samples != [] {
      assert (samples + [x])[1..] == samples[1..] + [x];
      ChargedSnoc(samples[1..], x, k, f);
    }
  }

  /** A list of additions moves each field by its amount, modulo 2^64. */
  lemma {:induction false} BumpedAllWraps(values: Values, bumps: seq<Bump>, f: Field, sum: nat)
    requires values[f] == sum % TWO64
    ensures BumpedAll(values, bumps)[f] == (sum + Amount(bumps, f)) % TWO64
    decreases |bumps|
  {
    if bumps != [] {
      var b := bumps[0];
      WrapAdd(sum, b.amount);
      BumpedAllWraps(Bumped(values, b), bumps[1..], f, if b.field == f then sum + b.amount else sum);
    }
  }

  /** All or nothing: a cgroup the map holds has every one of its samples counted, to the last unit
      modulo 2^64; one it does not hold was never sampled, or came when the map was full for good. */
  lemma {:induction false} Ledger(samples: seq<Sample>, k: U64, f: Field)
    ensures |HandleAll(samples)| <= 10240
    ensures k in HandleAll(samples) ==> HandleAll(samples)[k][f] == Charged(samples, k, f) % TWO64
    ensures k !in HandleAll(samples) && |HandleAll(samples)| < 10240 ==>
              forall i :: 0 <= i < |samples| ==> samples[i].key != k
    decreases |samples|
  {
    if samples != [] {
      var front, last := samples[..|samples| - 1], samples[|samples| - 1];
      assert samples == front + [last];
      Ledger(front, k, f);
      ChargedSnoc(front, last, k, f);
      var view := HandleAll(front);
      if last.key == k {
        if k in view {
          BumpedAllWraps(view[k], last.bumps, f, Charged(front, k, f));
        } else if |view| < CAPACITY {
          NeverCharged(front, k, f);
          BumpedAllWraps(ZERO, last.bumps, f, 0);
        }
      }
    }
  }

  lemma {:induction false} NeverCharged(samples: seq<Sample>, k: U64, f: Field)
    requires forall i :: 0 <= i < |samples| ==> samples[i].key != k
    ensures Charged(samples, k, f) == 0
  {
    if samples != [] {
      NeverCharged(samples[1..], k, f);
    }
  }

  /** An element, once created, stays; a full map admits no other cgroup. */
  lemma {:induction false} FirstComeFirstServed(samples: seq<Sample>, more: seq<Sample>)
    ensures HandleAll(samples).Keys <= HandleAll(samples + more).Keys
    ensures |HandleAll(samples)| >= CAPACITY ==> HandleAll(samples + more).Keys == HandleAll(samples).Keys
    decreases |more|
  {
    if more == [] {
      assert samples + more == samples;
    } else {
      var front := more[..|more| - 1];
      FirstComeFirstServed(samples, front);
      assert (samples + more)[..|samples + more| - 1] == samples + front;
      var before, after := HandleAll(samples), HandleAll(samples + front);
      if |before| >= CAPACITY {
        assert |after| == |after.Keys| == |before.Keys| == |before|;
        assert HandleAll(samples + more).Keys == after.Keys;
      }
    }
  }
}
