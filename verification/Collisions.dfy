/** internal/aggregator/aggregator.go: what becomes of cgroups that share one pod key.

    The pod map has one entry per `namespace/pod` key, so of the cgroups with one key the last one
    priced takes the entry.  When that loses money, and when it makes the iteration order matter. */
module Collisions {
  import opened Aggregator
  import opened Collector
  import opened Enricher
  import opened Pricing
  import opened Sums
  import opened Words
  import opened Wrappers

  /** Two cgroups with one pod key between them. */
  ghost predicate Share(raw: map<U64, Metrics>, ids: map<U64, Identity>, g: U64, h: U64) {
    g in Resolved(raw, ids) && h in Resolved(raw, ids) && g != h && KeyOf(ids[g]) == KeyOf(ids[h])
  }

  function Cost(raw: map<U64, Metrics>, ids: map<U64, Identity>, prices: Prices, now: int, g: U64): PodCost
    requires g in Resolved(raw, ids)
  {
    CostOf(raw[g], ids[g], prices, now)
  }

  ghost predicate AllPositive(raw: map<U64, Metrics>, ids: map<U64, Identity>, prices: Prices, now: int) {
    forall g :: g in Resolved(raw, ids) ==> Cost(raw, ids, prices, now, g).totalCost > 0.0
  }

  lemma {:induction false} SumOfZeros<K>(m: map<K, real>)
    requires forall k :: k in m ==> m[k] == 0.0
    ensures Sum(m) == 0.0
    decreases |m|
  {
    if k :| k in m {
      SumPick(m, k);
      SumOfZeros(m - {k});
    }
  }

  /** A cgroup whose key went to another is lost from the total. */
  lemma LoserIsLost(costs: map<string, PodCost>, winner: map<string, U64>, raw: map<U64, Metrics>,
                    ids: map<U64, Identity>, prices: Prices, now: int, g: U64)
    requires IsPodMap(costs, winner, raw, ids, prices, now) && g in Resolved(raw, ids) && winner[KeyOf(ids[g])] != g
    requires forall h :: h in Resolved(raw, ids) ==> Cost(raw, ids, prices, now, h).totalCost >= 0.0
    ensures Sum(Totals(costs)) + Cost(raw, ids, prices, now, g).totalCost <= Sum(CgroupTotals(raw, ids, prices, now))
  {
    OverwrittenIsLost(costs, winner, raw, ids, prices, now);
    var lost := CgroupTotals(raw, ids, prices, now) - winner.Values;
    assert g !in winner.Values;
    assert g in lost;
    SumBound(lost);
  }

  /** Of two cgroups that share a key at least one is lost. */
  lemma OneIsLost(costs: map<string, PodCost>, winner: map<string, U64>, raw: map<U64, Metrics>,
                  ids: map<U64, Identity>, prices: Prices, now: int, g: U64, h: U64)
    requires IsPodMap(costs, winner, raw, ids, prices, now) && Share(raw, ids, g, h)
    requires forall h :: h in Resolved(raw, ids) ==> Cost(raw, ids, prices, now, h).totalCost >= 0.0
    ensures var (x, y) := (Cost(raw, ids, prices, now, g).totalCost, Cost(raw, ids, prices, now, h).totalCost);
      Sum(Totals(costs)) + (if x <= y then x else y) <= Sum(CgroupTotals(raw, ids, prices, now))
  {
    LoserIsLost(costs, winner, raw, ids, prices, now, if winner[KeyOf(ids[g])] != g then g else h);
  }

  // ---------- when nothing is lost ----------

  /** When every resolved cgroup costs something, a pod map carries the whole of it exactly when no two
      resolved cgroups have one key. */
  lemma CompleteIffDistinct(costs: map<string, PodCost>, winner: map<string, U64>, raw: map<U64, Metrics>,
                            ids: map<U64, Identity>, prices: Prices, now: int)
    requires IsPodMap(costs, winner, raw, ids, prices, now) && AllPositive(raw, ids, prices, now)
    ensures Sum(Totals(costs)) == Sum(CgroupTotals(raw, ids, prices, now)) <==> DistinctKeys(raw, ids)
  {
    if DistinctKeys(raw, ids) {
      DistinctKeysLoseNothing(costs, winner, costs, winner, raw, ids, prices, now);
    } else {
      var g, h :| g in Resolved(raw, ids) && h in Resolved(raw, ids) && KeyOf(ids[g]) == KeyOf(ids[h]) && g != h;
      OneIsLost(costs, winner, raw, ids, prices, now, g, h);
    }
  }

  // ---------- orders ----------

  /** Some order visits any set of cgroups. */
  lemma {:induction false} Listing(s: set<U64>) returns (order: seq<U64>)
    ensures Visits(order, s)
  {
    if s == {} {
      order := [];
    } else {
      var g :| g in s;
      var front := Listing(s - {g});
      assert Visits(front, s - {g});
      VisitsOneMore(front, s, {g}, g);
      order := front + [g];
      assert s - ({g} - {g}) == s;
    }
  }

  /** An order that prices a given cgroup last, and so lets it win its key. */
  lemma OrderEndingWith(raw: map<U64, Metrics>, ids: map<U64, Identity>, prices: Prices, now: int, g: U64)
    returns (order: seq<U64>)
    requires g in Resolved(raw, ids)
    ensures Visits(order, raw.Keys)
    ensures var costs := PricedIn(order, raw, ids, prices, now);
      KeyOf(ids[g]) in costs && costs[KeyOf(ids[g])] == Cost(raw, ids, prices, now, g)
    ensures KeyOf(ids[g]) in WinnersIn(order, ids) && WinnersIn(order, ids)[KeyOf(ids[g])] == g
  {
    var front := Listing(raw.Keys - {g});
    VisitsOneMore(front, raw.Keys, {g}, g);
    assert raw.Keys - ({g} - {g}) == raw.Keys;
    order := front + [g];
    assert order[..|order| - 1] == front;
  }

  /** In any order a key holds the cost of its cgroup that comes last. */
  lemma {:induction false} LastWins(order: seq<U64>, raw: map<U64, Metrics>, ids: map<U64, Identity>, prices: Prices,
                                    now: int, i: nat)
    requires (forall g :: g in order ==> g in raw) && i < |order| && order[i] in ids
    requires forall j :: i < j < |order| && order[j] in ids ==> KeyOf(ids[order[j]]) != KeyOf(ids[order[i]])
    ensures var costs := PricedIn(order, raw, ids, prices, now);
      KeyOf(ids[order[i]]) in costs && costs[KeyOf(ids[order[i]])] == CostOf(raw[order[i]], ids[order[i]], prices, now)
    decreases |order|
  {
    if i < |order| - 1 {
      var front := order[..|order| - 1];
      assert front[i] == order[i];
      LastWins(front, raw, ids, prices, now, i);
    }
  }

  lemma VisitsBoth(losers: seq<U64>, winners: seq<U64>, all: set<U64>, won: set<U64>)
    requires Visits(losers, all - won) && Visits(winners, won) && won <= all
    ensures Visits(losers + winners, all)
  {
    var order := losers + winners;
    forall i, j | 0 <= i < j < |order|
      ensures order[i] != order[j]
    {
      if i < |losers| <= j {
        assert losers[i] in losers && winners[j - |losers|] in winners;
      }
    }
  }

  /** Every pod map is the outcome of an order: one that prices the winners last. */
  lemma PodMapHasOrder(costs: map<string, PodCost>, winner: map<string, U64>, raw: map<U64, Metrics>,
                       ids: map<U64, Identity>, prices: Prices, now: int)
    returns (order: seq<U64>)
    requires IsPodMap(costs, winner, raw, ids, prices, now)
    ensures Visits(order, raw.Keys) && PricedIn(order, raw, ids, prices, now) == costs
  {
    var losers := Listing(raw.Keys - winner.Values);
    var winners := Listing(winner.Values);
    WinnersAreCgroups(costs, winner, raw, ids, prices, now);
    VisitsBoth(losers, winners, raw.Keys, winner.Values);
    order := losers + winners;
    SameKeys(order, costs, winner, raw, ids, prices, now);
    forall k | k in costs
      ensures k in PricedIn(order, raw, ids, prices, now) && PricedIn(order, raw, ids, prices, now)[k] == costs[k]
    {
      WinnerHolds(losers, winners, winner, raw, ids, prices, now, k);
    }
  }

  lemma WinnersAreCgroups(costs: map<string, PodCost>, winner: map<string, U64>, raw: map<U64, Metrics>,
                          ids: map<U64, Identity>, prices: Prices, now: int)
    requires IsPodMap(costs, winner, raw, ids, prices, now)
    ensures winner.Values <= raw.Keys
  {
  }

  lemma SameKeys(order: seq<U64>, costs: map<string, PodCost>, winner: map<string, U64>, raw: map<U64, Metrics>,
                 ids: map<U64, Identity>, prices: Prices, now: int)
    requires IsPodMap(costs, winner, raw, ids, prices, now) && Visits(order, raw.Keys)
    ensures PricedIn(order, raw, ids, prices, now).Keys == costs.Keys
  {
    OrderMakesPodMap(order, raw, ids, prices, now);
    PodMapKeys(costs, winner, raw, ids, prices, now);
    PodMapKeys(PricedIn(order, raw, ids, prices, now), WinnersIn(order, ids), raw, ids, prices, now);
  }

  lemma WinnerHolds(losers: seq<U64>, winners: seq<U64>, winner: map<string, U64>, raw: map<U64, Metrics>,
                    ids: map<U64, Identity>, prices: Prices, now: int, k: string)
    requires Visits(winners, winner.Values) && k in winner && forall g :: g in losers + winners ==> g in raw
    requires forall k :: k in winner ==> winner[k] in Resolved(raw, ids) && KeyOf(ids[winner[k]]) == k
    ensures var costs := PricedIn(losers + winners, raw, ids, prices, now);
      k in costs && costs[k] == Cost(raw, ids, prices, now, winner[k])
  {
    var order := losers + winners;
    assert winner[k] in winners;
    var r :| 0 <= r < |winners| && winners[r] == winner[k];
    var i := |losers| + r;
    forall j | i < j < |order| && order[j] in ids
      ensures KeyOf(ids[order[j]]) != k
    {
      assert order[j] == winners[j - |losers|];
      assert winners[j - |losers|] in winner.Values;
      var l :| l in winner && winner[l] == order[j];
    }
    LastWins(order, raw, ids, prices, now, i);
  }

  // ---------- when no order loses money ----------

  /** Whatever the iteration order, the total is that of all resolved cgroups. */
  ghost predicate NeverLoses(raw: map<U64, Metrics>, ids: map<U64, Identity>, prices: Prices, now: int) {
    forall order :: Visits(order, raw.Keys) ==>
      Sum(Totals(PricedIn(order, raw, ids, prices, now))) == Sum(CgroupTotals(raw, ids, prices, now))
  }

  ghost predicate SharersFree(raw: map<U64, Metrics>, ids: map<U64, Identity>, prices: Prices, now: int) {
    forall g, h :: Share(raw, ids, g, h) ==> Cost(raw, ids, prices, now, g).totalCost == 0.0
  }

  /** With non-negative prices no iteration order loses money exactly when the cgroups that share a key
      with another cost nothing. */
  lemma NeverLosesIff(raw: map<U64, Metrics>, ids: map<U64, Identity>, prices: Prices, now: int)
    requires prices.NonNegative()
    ensures NeverLoses(raw, ids, prices, now) <==> SharersFree(raw, ids, prices, now)
  {
    if NeverLoses(raw, ids, prices, now) {
      forall g, h | Share(raw, ids, g, h)
        ensures Cost(raw, ids, prices, now, g).totalCost == 0.0
      {
        LoserIsFree(raw, ids, prices, now, g, h);
      }
    }
    if SharersFree(raw, ids, prices, now) {
      forall order | Visits(order, raw.Keys)
        ensures Sum(Totals(PricedIn(order, raw, ids, prices, now))) == Sum(CgroupTotals(raw, ids, prices, now))
      {
        OrderMakesPodMap(order, raw, ids, prices, now);
        FreeLosers(PricedIn(order, raw, ids, prices, now), WinnersIn(order, ids), raw, ids, prices, now);
      }
    }
  }

  /** In the order that ends with the other sharer, this one is lost. */
  lemma LoserIsFree(raw: map<U64, Metrics>, ids: map<U64, Identity>, prices: Prices, now: int, g: U64, h: U64)
    requires prices.NonNegative() && NeverLoses(raw, ids, prices, now) && Share(raw, ids, g, h)
    ensures Cost(raw, ids, prices, now, g).totalCost == 0.0
  {
    forall g | g in Resolved(raw, ids)
      ensures Cost(raw, ids, prices, now, g).totalCost >= 0.0
    {
      CostsNonNegative(raw[g], ids[g], prices, now);
    }
    var order := OrderEndingWith(raw, ids, prices, now, h);
    OrderMakesPodMap(order, raw, ids, prices, now);
    LoserIsLost(PricedIn(order, raw, ids, prices, now), WinnersIn(order, ids), raw, ids, prices, now, g);
  }

  lemma FreeLosers(costs: map<string, PodCost>, winner: map<string, U64>, raw: map<U64, Metrics>,
                   ids: map<U64, Identity>, prices: Prices, now: int)
    requires IsPodMap(costs, winner, raw, ids, prices, now) && SharersFree(raw, ids, prices, now)
    ensures Sum(Totals(costs)) == Sum(CgroupTotals(raw, ids, prices, now))
  {
    OverwrittenIsLost(costs, winner, raw, ids, prices, now);
    var lost := CgroupTotals(raw, ids, prices, now) - winner.Values;
    forall g | g in lost
      ensures lost[g] == 0.0
    {
      var w := winner[KeyOf(ids[g])];
      assert w in winner.Values;
      assert Share(raw, ids, g, w);
    }
    SumOfZeros(lost);
  }

  // ---------- when the iteration order does not matter ----------

  /** Every iteration order makes one and the same pod map. */
  ghost predicate OneOutcome(raw: map<U64, Metrics>, ids: map<U64, Identity>, prices: Prices, now: int) {
    forall order, order' :: Visits(order, raw.Keys) && Visits(order', raw.Keys) ==>
      PricedIn(order, raw, ids, prices, now) == PricedIn(order', raw, ids, prices, now)
  }

  ghost predicate SharersAlike(raw: map<U64, Metrics>, ids: map<U64, Identity>, prices: Prices, now: int) {
    forall g, h :: Share(raw, ids, g, h) ==> Cost(raw, ids, prices, now, g) == Cost(raw, ids, prices, now, h)
  }

  /** The iteration order never matters exactly when cgroups that share a key are costed alike. */
  lemma OneOutcomeIff(raw: map<U64, Metrics>, ids: map<U64, Identity>, prices: Prices, now: int)
    ensures OneOutcome(raw, ids, prices, now) <==> SharersAlike(raw, ids, prices, now)
  {
    if OneOutcome(raw, ids, prices, now) {
      forall g, h | Share(raw, ids, g, h)
        ensures Cost(raw, ids, prices, now, g) == Cost(raw, ids, prices, now, h)
      {
        EitherMayWin(raw, ids, prices, now, g, h);
      }
    }
    if SharersAlike(raw, ids, prices, now) {
      forall order, order' | Visits(order, raw.Keys) && Visits(order', raw.Keys)
        ensures PricedIn(order, raw, ids, prices, now) == PricedIn(order', raw, ids, prices, now)
      {
        OrderMakesPodMap(order, raw, ids, prices, now);
        OrderMakesPodMap(order', raw, ids, prices, now);
        AlikeIsSame(PricedIn(order, raw, ids, prices, now), WinnersIn(order, ids),
                    PricedIn(order', raw, ids, prices, now), WinnersIn(order', ids), raw, ids, prices, now);
      }
    }
  }

  lemma EitherMayWin(raw: map<U64, Metrics>, ids: map<U64, Identity>, prices: Prices, now: int, g: U64, h: U64)
    requires OneOutcome(raw, ids, prices, now) && Share(raw, ids, g, h)
    ensures Cost(raw, ids, prices, now, g) == Cost(raw, ids, prices, now, h)
  {
    var order := OrderEndingWith(raw, ids, prices, now, g);
    var order' := OrderEndingWith(raw, ids, prices, now, h);
    assert PricedIn(order, raw, ids, prices, now) == PricedIn(order', raw, ids, prices, now);
  }

  lemma AlikeIsSame(costs: map<string, PodCost>, winner: map<string, U64>,
                    costs': map<string, PodCost>, winner': map<string, U64>, raw: map<U64, Metrics>,
                    ids: map<U64, Identity>, prices: Prices, now: int)
    requires IsPodMap(costs, winner, raw, ids, prices, now) && IsPodMap(costs', winner', raw, ids, prices, now)
    requires SharersAlike(raw, ids, prices, now)
    ensures costs == costs'
  {
    PodMapKeys(costs, winner, raw, ids, prices, now);
    PodMapKeys(costs', winner', raw, ids, prices, now);
    forall k | k in costs
      ensures costs[k] == costs'[k]
    {
      var w, w' := winner[k], winner'[k];
      assert w == w' || Share(raw, ids, w, w');
    }
  }

  /** With distinct keys a collection has one result: whichever order the cgroups are priced in, and
      whichever the pods are grouped in, the snapshot is the same up to the order of its lists, and it
      carries the cost of every resolved cgroup. */
  lemma DistinctKeysOneSnapshot(raw: map<U64, Metrics>, ids: map<U64, Identity>, prices: Prices, now: int,
                                order: seq<U64>, order': seq<U64>, keys: seq<string>, keys': seq<string>, team: string)
    requires DistinctKeys(raw, ids) && Visits(order, raw.Keys) && Visits(order', raw.Keys)
    requires Enumerates(keys, PricedIn(order, raw, ids, prices, now))
    requires Enumerates(keys', PricedIn(order', raw, ids, prices, now))
    ensures var s := Grouped(now, ByKey(PricedIn(order, raw, ids, prices, now), keys));
      var s' := Grouped(now, ByKey(PricedIn(order', raw, ids, prices, now), keys'));
      && s.total == s'.total == Sum(CgroupTotals(raw, ids, prices, now))
      && multiset(s.podCosts) == multiset(s'.podCosts)
      && (team in s.teamCosts <==> team in s'.teamCosts)
      && (team in s.teamCosts ==>
            && s.teamCosts[team].(pods := []) == s'.teamCosts[team].(pods := [])
            && multiset(s.teamCosts[team].pods) == multiset(s'.teamCosts[team].pods))
  {
    OrderMakesPodMap(order, raw, ids, prices, now);
    OrderMakesPodMap(order', raw, ids, prices, now);
    DistinctKeysLoseNothing(PricedIn(order, raw, ids, prices, now), WinnersIn(order, ids),
                            PricedIn(order', raw, ids, prices, now), WinnersIn(order', ids), raw, ids, prices, now);
    IterationOrderImmaterial(PricedIn(order, raw, ids, prices, now), keys, keys', now, team);
  }

  // ---------- pods with several containers ----------

  lemma {:induction false} RecordOf(pod: Pod, ids: seq<string>, a: string)
    requires a in ids && ShortId(a) != ""
    ensures Record(IdentityOf(pod), ShortId(a)) in RecordsOf(pod, ids)
    decreases |ids|
  {
    var front, last := ids[..|ids| - 1], ids[|ids| - 1];
    assert ids == front + [last];
    if a != last {
      RecordOf(pod, front, a);
    }
  }

  lemma {:induction false} ListedRecord(pods: seq<Pod>, pod: Pod, a: string)
    requires pod in pods && a in pod.containerIds && ShortId(a) != ""
    ensures Record(IdentityOf(pod), ShortId(a)) in Listed(pods)
    decreases |pods|
  {
    var front, last := pods[..|pods| - 1], pods[|pods| - 1];
    assert pods == front + [last];
    if pod == last {
      RecordOf(pod, pod.containerIds, a);
    } else {
      ListedRecord(front, pod, a);
    }
  }

  /** The cgroup of a container of this pod, and of no other pod's. */
  ghost predicate OwnCgroup(pods: seq<Pod>, resolve: Resolver, pod: Pod, a: string, g: U64) {
    && pod in pods && a in pod.containerIds && ShortId(a) != "" && resolve(ShortId(a)) == Some(g)
    && forall r :: r in Listed(pods) && resolve(r.containerId) == Some(g) ==> r.identity == IdentityOf(pod)
  }

  lemma OwnIdentity(pods: seq<Pod>, resolve: Resolver, pod: Pod, a: string, g: U64)
    requires OwnCgroup(pods, resolve, pod, a, g)
    ensures var ids := SyncedIdentities(Listed(pods), resolve);
      g in ids && ids[g] == IdentityOf(pod)
  {
    var rs := Listed(pods);
    ListedRecord(pods, pod, a);
    var i :| 0 <= i < |rs| && rs[i] == Record(IdentityOf(pod), ShortId(a));
    assert resolve(rs[i].containerId) == Some(g);
    MapsAgree(rs, resolve, g);
  }

  /** Two containers of one pod, in cgroups of their own, always share a key; whatever the iteration
      order, the snapshot is short by at least the cheaper of the two. */
  lemma ContainersOfOnePodCollide(pods: seq<Pod>, resolve: Resolver, pod: Pod, a: string, b: string, g: U64, h: U64,
                                  raw: map<U64, Metrics>, prices: Prices, now: int,
                                  costs: map<string, PodCost>, winner: map<string, U64>)
    requires OwnCgroup(pods, resolve, pod, a, g) && OwnCgroup(pods, resolve, pod, b, h) && g != h
    requires g in raw && h in raw && prices.NonNegative()
    requires IsPodMap(costs, winner, raw, SyncedIdentities(Listed(pods), resolve), prices, now)
    ensures var ids := SyncedIdentities(Listed(pods), resolve);
      && Share(raw, ids, g, h)
      && var (x, y) := (Cost(raw, ids, prices, now, g).totalCost, Cost(raw, ids, prices, now, h).totalCost);
         && Sum(Totals(costs)) + (if x <= y then x else y) <= Sum(CgroupTotals(raw, ids, prices, now))
         && (x > 0.0 && y > 0.0 ==> Sum(Totals(costs)) < Sum(CgroupTotals(raw, ids, prices, now)))
  {
    var ids := SyncedIdentities(Listed(pods), resolve);
    OwnIdentity(pods, resolve, pod, a, g);
    OwnIdentity(pods, resolve, pod, b, h);
    forall k | k in Resolved(raw, ids)
      ensures Cost(raw, ids, prices, now, k).totalCost >= 0.0
    {
      CostsNonNegative(raw[k], ids[k], prices, now);
    }
    OneIsLost(costs, winner, raw, ids, prices, now, g, h);
  }

  lemma TotalOfTwo(raw: map<U64, Metrics>, ids: map<U64, Identity>, prices: Prices, now: int, g: U64, h: U64)
    requires Resolved(raw, ids) == {g, h} && g != h
    ensures Sum(CgroupTotals(raw, ids, prices, now)) ==
            Cost(raw, ids, prices, now, g).totalCost + Cost(raw, ids, prices, now, h).totalCost
  {
    SumTwo(CgroupTotals(raw, ids, prices, now), g, h);
  }

  /** When two cgroups are all there is and they share a key, just one of them is reported. */
  lemma OneOfTwo(costs: map<string, PodCost>, winner: map<string, U64>, raw: map<U64, Metrics>,
                 ids: map<U64, Identity>, prices: Prices, now: int, g: U64, h: U64)
    returns (w: U64)
    requires IsPodMap(costs, winner, raw, ids, prices, now) && Share(raw, ids, g, h) && Resolved(raw, ids) == {g, h}
    ensures w in {g, h} && Sum(Totals(costs)) == Cost(raw, ids, prices, now, w).totalCost
  {
    var key := KeyOf(ids[g]);
    OneKey(raw, ids, g, h);
    PodMapKeys(costs, winner, raw, ids, prices, now);
    SumOne(Totals(costs), key);
    w := winner[key];
  }

  lemma OneKey(raw: map<U64, Metrics>, ids: map<U64, Identity>, g: U64, h: U64)
    requires Share(raw, ids, g, h) && Resolved(raw, ids) == {g, h}
    ensures PodKeys(raw, ids) == {KeyOf(ids[g])}
  {
  }

  /** At an input: a pod of two containers, each with a dollar of disk reads; every collection reports
      one dollar of the two. */
  lemma TwoContainersOneDollar(costs: map<string, PodCost>, winner: map<string, U64>, now: int)
    requires IsPodMap(costs, winner, TwoDollars(), TwoOfOne(), DiskOnly(), now)
    ensures Sum(Totals(costs)) == 1.0
    ensures Sum(CgroupTotals(TwoDollars(), TwoOfOne(), DiskOnly(), now)) == 2.0
  {
    BothResolve();
    OneDollarLeft(costs, winner, TwoOfOne(), now);
  }

  lemma OneDollarLeft(costs: map<string, PodCost>, winner: map<string, U64>, ids: map<U64, Identity>, now: int)
    requires ids == map[1 := IdentityOf(TwoContainers()), 2 := IdentityOf(TwoContainers())]
    requires IsPodMap(costs, winner, TwoDollars(), ids, DiskOnly(), now)
    ensures Sum(Totals(costs)) == 1.0 && Sum(CgroupTotals(TwoDollars(), ids, DiskOnly(), now)) == 2.0
  {
    var raw := TwoDollars();
    ADollarEach(raw[1], ids[1], now);
    ADollarEach(raw[2], ids[2], now);
    TotalOfTwo(raw, ids, DiskOnly(), now, 1, 2);
    var w := OneOfTwo(costs, winner, raw, ids, DiskOnly(), now, 1, 2);
  }

  /** At an input where the order matters: the same pod, one container with a dollar of disk reads and the
      other with two.  Priced first to last it costs two dollars, last to first one. */
  lemma OrderMatters(now: int)
    ensures Visits([1, 2], OneAndTwo().Keys) && Visits([2, 1], OneAndTwo().Keys)
    ensures Sum(Totals(PricedIn([1, 2], OneAndTwo(), TwoOfOne(), DiskOnly(), now))) == 2.0
    ensures Sum(Totals(PricedIn([2, 1], OneAndTwo(), TwoOfOne(), DiskOnly(), now))) == 1.0
    ensures !OneOutcome(OneAndTwo(), TwoOfOne(), DiskOnly(), now)
  {
    var raw, ids := OneAndTwo(), TwoOfOne();
    BothResolve();
    ADollarEach(raw[1], ids[1], now);
    TwoDollarsIn(raw[2], ids[2], now);
    SecondOfTwo(raw, ids, DiskOnly(), now, 1, 2);
    SecondOfTwo(raw, ids, DiskOnly(), now, 2, 1);
    assert PricedIn([1, 2], raw, ids, DiskOnly(), now) != PricedIn([2, 1], raw, ids, DiskOnly(), now);
  }

  function OneAndTwo(): map<U64, Metrics> {
    map[1 := Metrics(1, NOTHING.(readIops := 1_000_000), 0, 0), 2 := Metrics(2, NOTHING.(readIops := 2_000_000), 0, 0)]
  }

  /** Of two cgroups with one key the one priced second is reported. */
  lemma SecondOfTwo(raw: map<U64, Metrics>, ids: map<U64, Identity>, prices: Prices, now: int, g: U64, h: U64)
    requires raw.Keys == {g, h} && Share(raw, ids, g, h)
    ensures Visits([g, h], raw.Keys)
    ensures Sum(Totals(PricedIn([g, h], raw, ids, prices, now))) == Cost(raw, ids, prices, now, h).totalCost
  {
    var key := KeyOf(ids[h]);
    assert [g, h][..1] == [g] && [g][..0] == [];
    assert PricedIn([g], raw, ids, prices, now) == map[key := Cost(raw, ids, prices, now, g)];
    assert PricedIn([g, h], raw, ids, prices, now) == map[key := Cost(raw, ids, prices, now, h)];
    SumOne(Totals(PricedIn([g, h], raw, ids, prices, now)), key);
  }

  function TwoContainers(): Pod {
    Pod("web", "shop", "node", map[], ["a", "b"])
  }

  function AOneBTwo(id: string): Option<U64> {
    if id == "a" then Some(1) else if id == "b" then Some(2) else None
  }

  /** What a sync over that pod makes the two cgroups resolve to. */
  function TwoOfOne(): map<U64, Identity> {
    SyncedIdentities(Listed([TwoContainers()]), AOneBTwo)
  }

  function TwoDollars(): map<U64, Metrics> {
    map[1 := Metrics(1, NOTHING.(readIops := 1_000_000), 0, 0), 2 := Metrics(2, NOTHING.(readIops := 1_000_000), 0, 0)]
  }

  function DiskOnly(): Prices {
    Prices(0.0, 0.0, 0.0, 0.0, 1.0, 0.0)
  }

  lemma ADollarEach(m: Metrics, id: Identity, now: int)
    requires m.usage == NOTHING.(readIops := 1_000_000) && m.memoryBytesAvg == 0
    ensures CostOf(m, id, DiskOnly(), now).totalCost == 1.0
  {
    UnitCosts(DiskOnly());
  }

  lemma TwoDollarsIn(m: Metrics, id: Identity, now: int)
    requires m.usage == NOTHING.(readIops := 2_000_000) && m.memoryBytesAvg == 0
    ensures CostOf(m, id, DiskOnly(), now).totalCost == 2.0
  {
    UnitCosts(DiskOnly());
    DiskAdds(m.usage, NOTHING.(readIops := 1_000_000), NOTHING.(readIops := 1_000_000), DiskOnly());
  }

  lemma BothResolve()
    ensures TwoOfOne() == map[1 := IdentityOf(TwoContainers()), 2 := IdentityOf(TwoContainers())]
  {
    var id := IdentityOf(TwoContainers());
    BothListed();
    TwoRecords(Record(id, "a"), Record(id, "b"));
  }

  lemma BothListed()
    ensures var id := IdentityOf(TwoContainers()); Listed([TwoContainers()]) == [Record(id, "a"), Record(id, "b")]
  {
    var pod := TwoContainers();
    OneLetter("a");
    OneLetter("b");
    RecordsSnoc(pod, [], "a");
    RecordsSnoc(pod, ["a"], "b");
    assert [] + ["a"] == ["a"] && ["a"] + ["b"] == ["a", "b"];
    assert [pod][..0] == [];
  }

  lemma TwoRecords(ra: Record, rb: Record)
    requires ra.containerId == "a" && rb.containerId == "b"
    ensures SyncedIdentities([ra, rb], AOneBTwo) == map[1 := ra.identity, 2 := rb.identity]
  {
    assert [ra, rb][..1] == [ra] && [ra][..0] == [];
    assert ByCgroup([ra], AOneBTwo) == map[1 := 0];
    assert ByCgroup([ra, rb], AOneBTwo) == map[1 := 0, 2 := 1];
  }

  lemma OneLetter(id: string)
    requires |id| == 1 && id[0] != ':'
    ensures ShortId(id) == id
  {
    assert "" + id == id;
    ShortIdIgnoresRuntime(id, "");
  }
}
