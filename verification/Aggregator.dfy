/** internal/aggregator/aggregator.go: pod costs, team totals and the snapshot history. */
module Aggregator {
  import opened Collector
  import opened Enricher
  import opened Pricing
  import opened Sequences
  import opened Sums
  import opened Words
  import opened Wrappers

  datatype TeamCost = TeamCost(team: string, totalCost: real, podCount: nat, wastedCost: real, pods: seq<PodCost>)

  datatype Snapshot = Snapshot(
    timestamp: int, podCosts: seq<PodCost>, teamCosts: map<string, TeamCost>, total: real)

  function KeyOf(id: Identity): string {
    id.namespace + "/" + id.podName
  }

  function FirstSlash(s: string): nat {
    if s == "" || s[0] == '/' then 0 else 1 + FirstSlash(s[1..])
  }

  lemma {:induction false} SlashAfterNamespace(namespace: string, podName: string)
    requires '/' !in namespace
    ensures FirstSlash(namespace + "/" + podName) == |namespace|
  {
    if namespace != "" {
      SlashAfterNamespace(namespace[1..], podName);
      assert (namespace + "/" + podName)[1..] == namespace[1..] + "/" + podName;
    }
  }

  /** Namespaces without a slash make the key injective. */
  lemma KeyIsInjective(a: Identity, b: Identity)
    requires '/' !in a.namespace && '/' !in b.namespace && KeyOf(a) == KeyOf(b)
    ensures a.namespace == b.namespace && a.podName == b.podName
  {
    SlashAfterNamespace(a.namespace, a.podName);
    SlashAfterNamespace(b.namespace, b.podName);
    var n := |a.namespace|;
    assert KeyOf(a)[..n] == a.namespace && KeyOf(b)[..n] == b.namespace;
    assert KeyOf(a)[n + 1..] == a.podName && KeyOf(b)[n + 1..] == b.podName;
  }

  // ---------- the pod map ----------

  /** The cgroups that belong to a pod. */
  function Resolved(raw: map<U64, Metrics>, ids: map<U64, Identity>): set<U64> {
    raw.Keys * ids.Keys
  }

  function PodKeys(raw: map<U64, Metrics>, ids: map<U64, Identity>): set<string> {
    set g | g in Resolved(raw, ids) :: KeyOf(ids[g])
  }

  /** `winner` names, for each pod key, the cgroup whose cost the key ends up with. */
  ghost predicate IsPodMap(costs: map<string, PodCost>, winner: map<string, U64>, raw: map<U64, Metrics>,
                           ids: map<U64, Identity>, prices: Prices, now: int) {
    && costs.Keys == winner.Keys
    && (forall g :: g in Resolved(raw, ids) ==> KeyOf(ids[g]) in costs)
    && (forall k :: k in winner ==>
          && winner[k] in Resolved(raw, ids) && KeyOf(ids[winner[k]]) == k
          && costs[k] == CostOf(raw[winner[k]], ids[winner[k]], prices, now))
  }

  function Totals(costs: map<string, PodCost>): map<string, real> {
    map k | k in costs :: costs[k].totalCost
  }

  /** What each resolved cgroup costs. */
  function CgroupTotals(raw: map<U64, Metrics>, ids: map<U64, Identity>, prices: Prices, now: int): map<U64, real> {
    map g | g in Resolved(raw, ids) :: CostOf(raw[g], ids[g], prices, now).totalCost
  }

  ghost predicate DistinctKeys(raw: map<U64, Metrics>, ids: map<U64, Identity>) {
    forall g, h :: g in Resolved(raw, ids) && h in Resolved(raw, ids) && KeyOf(ids[g]) == KeyOf(ids[h]) ==> g == h
  }

  /** One cgroup's cost survives per pod key; the pods' total is short of the cgroups' total by exactly
      what was overwritten. */
  lemma OverwrittenIsLost(costs: map<string, PodCost>, winner: map<string, U64>, raw: map<U64, Metrics>,
                          ids: map<U64, Identity>, prices: Prices, now: int)
    requires IsPodMap(costs, winner, raw, ids, prices, now)
    ensures Sum(CgroupTotals(raw, ids, prices, now)) ==
            Sum(Totals(costs)) + Sum(CgroupTotals(raw, ids, prices, now) - winner.Values)
    ensures prices.NonNegative() ==> Sum(Totals(costs)) <= Sum(CgroupTotals(raw, ids, prices, now))
  {
    SumThrough(Totals(costs), CgroupTotals(raw, ids, prices, now), winner);
    if prices.NonNegative() {
      forall g | g in Resolved(raw, ids)
        ensures CostOf(raw[g], ids[g], prices, now).totalCost >= 0.0
      {
        CostsNonNegative(raw[g], ids[g], prices, now);
      }
      SumBound(CgroupTotals(raw, ids, prices, now) - winner.Values);
    }
  }

  /** With distinct keys the iteration order is immaterial and nothing is lost. */
  lemma DistinctKeysLoseNothing(costs: map<string, PodCost>, winner: map<string, U64>,
                                costs': map<string, PodCost>, winner': map<string, U64>, raw: map<U64, Metrics>,
                                ids: map<U64, Identity>, prices: Prices, now: int)
    requires DistinctKeys(raw, ids)
    requires IsPodMap(costs, winner, raw, ids, prices, now) && IsPodMap(costs', winner', raw, ids, prices, now)
    ensures costs == costs'
    ensures Sum(Totals(costs)) == Sum(CgroupTotals(raw, ids, prices, now))
  {
    SameCosts(costs, winner, costs', winner', raw, ids, prices, now);
    SameCosts(costs', winner', costs, winner, raw, ids, prices, now);
    DistinctKeysTotal(costs, winner, raw, ids, prices, now);
  }

  lemma DistinctKeysTotal(costs: map<string, PodCost>, winner: map<string, U64>, raw: map<U64, Metrics>,
                          ids: map<U64, Identity>, prices: Prices, now: int)
    requires DistinctKeys(raw, ids) && IsPodMap(costs, winner, raw, ids, prices, now)
    ensures Sum(Totals(costs)) == Sum(CgroupTotals(raw, ids, prices, now))
  {
    AllWin(costs, winner, raw, ids, prices, now);
    OverwrittenIsLost(costs, winner, raw, ids, prices, now);
    assert CgroupTotals(raw, ids, prices, now) - winner.Values == map[];
  }

  lemma SameCosts(costs: map<string, PodCost>, winner: map<string, U64>,
                  costs': map<string, PodCost>, winner': map<string, U64>, raw: map<U64, Metrics>,
                  ids: map<U64, Identity>, prices: Prices, now: int)
    requires DistinctKeys(raw, ids)
    requires IsPodMap(costs, winner, raw, ids, prices, now) && IsPodMap(costs', winner', raw, ids, prices, now)
    ensures forall k :: k in costs ==> k in costs' && costs[k] == costs'[k]
  {
  }

  lemma AllWin(costs: map<string, PodCost>, winner: map<string, U64>, raw: map<U64, Metrics>,
               ids: map<U64, Identity>, prices: Prices, now: int)
    requires DistinctKeys(raw, ids) && IsPodMap(costs, winner, raw, ids, prices, now)
    ensures Resolved(raw, ids) <= winner.Values
  {
  }

  // ---------- resolving while syncs go on ----------

  function Answer(ids: map<U64, Identity>, g: U64): Option<Identity> {
    if g in ids then Some(ids[g]) else None
  }

  /** The cgroup's answer is the one given after some number of the syncs. */
  ghost predicate AnsweredFor(ids: map<U64, Identity>, g: U64, start: map<U64, Identity>, syncs: seq<Sync>) {
    exists n :: 0 <= n <= |syncs| && Answer(ids, g) == Answer(ViewAt(start, syncs, n), g)
  }

  ghost predicate Answered(ids: map<U64, Identity>, cgroups: set<U64>, start: map<U64, Identity>, syncs: seq<Sync>) {
    ids.Keys <= cgroups && forall g :: g in cgroups ==> AnsweredFor(ids, g, start, syncs)
  }

  lemma AnsweredAlike(ids: map<U64, Identity>, ids': map<U64, Identity>, g: U64, start: map<U64, Identity>,
                      syncs: seq<Sync>)
    requires AnsweredFor(ids, g, start, syncs) && Answer(ids, g) == Answer(ids', g)
    ensures AnsweredFor(ids', g, start, syncs)
  {
  }

  lemma AnsweredOneMore(ids: map<U64, Identity>, all: set<U64>, todo: set<U64>, start: map<U64, Identity>,
                        syncs: seq<Sync>, n: nat, g: U64)
    requires Answered(ids, all - todo, start, syncs) && g in all && g in todo && n <= |syncs|
    ensures var view := ViewAt(start, syncs, n);
      Answered(if g in view then ids[g := view[g]] else ids, all - (todo - {g}), start, syncs)
  {
    var view := ViewAt(start, syncs, n);
    var ids' := if g in view then ids[g := view[g]] else ids;
    forall h | h in all - (todo - {g})
      ensures AnsweredFor(ids', h, start, syncs)
    {
      if h == g {
        assert Answer(ids', g) == Answer(view, g);
      } else {
        AnsweredAlike(ids, ids', h, start, syncs);
      }
    }
  }

  /** Without a sync in between, the answers are those of the one map. */
  lemma AnsweredAtOnce(ids: map<U64, Identity>, raw: map<U64, Metrics>, start: map<U64, Identity>)
    requires Answered(ids, raw.Keys, start, [])
    ensures Resolved(raw, ids) == Resolved(raw, start)
    ensures forall g :: g in Resolved(raw, ids) ==> ids[g] == start[g]
  {
    forall g | g in raw.Keys
      ensures Answer(ids, g) == Answer(start, g)
    {
      var syncs: seq<Sync> := [];
      assert AnsweredFor(ids, g, start, syncs);
      var n :| 0 <= n <= |syncs| && Answer(ids, g) == Answer(ViewAt(start, syncs, n), g);
    }
  }

  lemma PodMapKeys(costs: map<string, PodCost>, winner: map<string, U64>, raw: map<U64, Metrics>,
                   ids: map<U64, Identity>, prices: Prices, now: int)
    requires IsPodMap(costs, winner, raw, ids, prices, now)
    ensures costs.Keys == PodKeys(raw, ids)
  {
    assert forall k :: k in costs.Keys ==> k in PodKeys(raw, ids) by {
      forall k | k in costs.Keys
        ensures k in PodKeys(raw, ids)
      {
        assert KeyOf(ids[winner[k]]) == k;
      }
    }
  }

  // ---------- the pod map as the outcome of an order ----------

  /** `order` lists the cgroups, each once. */
  ghost predicate Visits(order: seq<U64>, cgroups: set<U64>) {
    && (forall g :: g in order <==> g in cgroups)
    && (forall i, j :: 0 <= i < j < |order| ==> order[i] != order[j])
  }

  /** The pod map after pricing cgroups in this order: one of no pod is passed over, and any other takes
      its key over from whoever held it. */
  function PricedIn(order: seq<U64>, raw: map<U64, Metrics>, ids: map<U64, Identity>, prices: Prices, now: int)
    : map<string, PodCost>
    requires forall g :: g in order ==> g in raw
  {
    if order == [] then map[]
    else
      var front, g := PricedIn(order[..|order| - 1], raw, ids, prices, now), order[|order| - 1];
      if g in ids then front[KeyOf(ids[g]) := CostOf(raw[g], ids[g], prices, now)] else front
  }

  /** Whose cost each key then holds. */
  function WinnersIn(order: seq<U64>, ids: map<U64, Identity>): map<string, U64> {
    if order == [] then map[]
    else
      var front, g := WinnersIn(order[..|order| - 1], ids), order[|order| - 1];
      if g in ids then front[KeyOf(ids[g]) := g] else front
  }

  /** As IsPodMap, as far as the order has got. */
  ghost predicate PricedSoFar(order: seq<U64>, costs: map<string, PodCost>, winner: map<string, U64>,
                              raw: map<U64, Metrics>, ids: map<U64, Identity>, prices: Prices, now: int)
  {
    && costs.Keys == winner.Keys
    && (forall g :: g in order && g in ids ==> KeyOf(ids[g]) in costs)
    && (forall k :: k in winner ==>
          && winner[k] in order && winner[k] in Resolved(raw, ids) && KeyOf(ids[winner[k]]) == k
          && costs[k] == CostOf(raw[winner[k]], ids[winner[k]], prices, now))
  }

  lemma {:induction false} PricedIsRight(order: seq<U64>, raw: map<U64, Metrics>, ids: map<U64, Identity>,
                                         prices: Prices, now: int)
    requires forall g :: g in order ==> g in raw
    ensures PricedSoFar(order, PricedIn(order, raw, ids, prices, now), WinnersIn(order, ids), raw, ids, prices, now)
    decreases |order|
  {
    if order != [] {
      var front, g := order[..|order| - 1], order[|order| - 1];
      assert order == front + [g];
      PricedIsRight(front, raw, ids, prices, now);
      if g in ids {
        RightOneMore(front, PricedIn(front, raw, ids, prices, now), WinnersIn(front, ids), raw, ids, prices, now, g);
      }
    }
  }

  lemma RightOneMore(front: seq<U64>, costs: map<string, PodCost>, winner: map<string, U64>,
                     raw: map<U64, Metrics>, ids: map<U64, Identity>, prices: Prices, now: int, g: U64)
    requires PricedSoFar(front, costs, winner, raw, ids, prices, now) && g in raw && g in ids
    ensures PricedSoFar(front + [g], costs[KeyOf(ids[g]) := CostOf(raw[g], ids[g], prices, now)],
                        winner[KeyOf(ids[g]) := g], raw, ids, prices, now)
  {
  }

  /** Every order that visits all cgroups makes a pod map. */
  lemma OrderMakesPodMap(order: seq<U64>, raw: map<U64, Metrics>, ids: map<U64, Identity>, prices: Prices, now: int)
    requires Visits(order, raw.Keys)
    ensures IsPodMap(PricedIn(order, raw, ids, prices, now), WinnersIn(order, ids), raw, ids, prices, now)
  {
    PricedIsRight(order, raw, ids, prices, now);
  }

  /** An answer for a cgroup not yet visited does not change what was priced before. */
  lemma {:induction false} PricedFrame(order: seq<U64>, raw: map<U64, Metrics>, ids: map<U64, Identity>,
                                       prices: Prices, now: int, g: U64, id: Identity)
    requires g !in order && forall h :: h in order ==> h in raw
    ensures PricedIn(order, raw, ids[g := id], prices, now) == PricedIn(order, raw, ids, prices, now)
    decreases |order|
  {
    if order != [] {
      PricedFrame(order[..|order| - 1], raw, ids, prices, now, g, id);
    }
  }

  lemma VisitsOneMore(order: seq<U64>, all: set<U64>, todo: set<U64>, g: U64)
    requires Visits(order, all - todo) && g in all && g in todo
    ensures Visits(order + [g], all - (todo - {g}))
  {
    assert forall h :: h in order + [g] <==> h in order || h == g;
  }

  /** One turn of the pricing loop. */
  lemma PricedOneMore(order: seq<U64>, raw: map<U64, Metrics>, ids: map<U64, Identity>, view: map<U64, Identity>,
                      prices: Prices, now: int, g: U64)
    requires g in raw && g !in ids && g !in order && forall h :: h in order ==> h in raw
    ensures forall h :: h in order + [g] ==> h in raw
    ensures var ids' := if g in view then ids[g := view[g]] else ids;
      var costs := PricedIn(order, raw, ids, prices, now);
      PricedIn(order + [g], raw, ids', prices, now) ==
      if g in view then costs[KeyOf(view[g]) := CostOf(raw[g], view[g], prices, now)] else costs
  {
    assert (order + [g])[..|order + [g]| - 1] == order;
    if g in view {
      PricedFrame(order, raw, ids, prices, now, g, view[g]);
    }
  }

  // ---------- the snapshot ----------

  /** One turn of the grouping loop. */
  function WithPod(s: Snapshot, c: PodCost): Snapshot {
    var t := c.identity.team;
    var tc := if t in s.teamCosts then s.teamCosts[t] else TeamCost(t, 0.0, 0, 0.0, []);
    Snapshot(s.timestamp, s.podCosts + [c],
             s.teamCosts[t := TeamCost(t, tc.totalCost + c.totalCost, tc.podCount + 1,
                                       tc.wastedCost + c.wastedDollars, tc.pods + [c])],
             s.total + c.totalCost)
  }

  function Grouped(now: int, pods: seq<PodCost>): Snapshot {
    if pods == [] then Snapshot(now, [], map[], 0.0) else WithPod(Grouped(now, pods[..|pods| - 1]), pods[|pods| - 1])
  }

  lemma GroupedSnoc(now: int, pods: seq<PodCost>, c: PodCost)
    ensures Grouped(now, pods + [c]) == WithPod(Grouped(now, pods), c)
  {
  }

  datatype Money = Cpu | Memory | Network | Disk | Whole | Waste

  function Dollars(c: PodCost, col: Money): real {
    match col
    case Cpu => c.cpuCost
    case Memory => c.memoryCost
    case Network => c.networkCost
    case Disk => c.diskCost
    case Whole => c.totalCost
    case Waste => c.wastedDollars
  }

  function SumOf(pods: seq<PodCost>, col: Money): real {
    if pods == [] then 0.0 else SumOf(pods[..|pods| - 1], col) + Dollars(pods[|pods| - 1], col)
  }

  lemma SumSnoc(xs: seq<PodCost>, x: PodCost, col: Money)
    ensures SumOf(xs + [x], col) == SumOf(xs, col) + Dollars(x, col)
  {
  }

  lemma {:induction false} SumIs(pods: seq<PodCost>, col: Money, xs: seq<real>)
    requires |xs| == |pods| && forall i :: 0 <= i < |pods| ==> xs[i] == Dollars(pods[i], col)
    ensures SumOf(pods, col) == SumSeq(xs)
    decreases |pods|
  {
    if pods != [] {
      var front, last := xs[..|xs| - 1], xs[|xs| - 1];
      SumIs(pods[..|pods| - 1], col, front);
      SumSeqSnoc(front, last);
      assert front + [last] == xs;
    }
  }

  /** Each column is summed from the field of its own name. */
  lemma ColumnsAre(pods: seq<PodCost>)
    ensures SumOf(pods, Cpu) == SumSeq(seq(|pods|, i requires 0 <= i < |pods| => pods[i].cpuCost))
    ensures SumOf(pods, Memory) == SumSeq(seq(|pods|, i requires 0 <= i < |pods| => pods[i].memoryCost))
    ensures SumOf(pods, Network) == SumSeq(seq(|pods|, i requires 0 <= i < |pods| => pods[i].networkCost))
    ensures SumOf(pods, Disk) == SumSeq(seq(|pods|, i requires 0 <= i < |pods| => pods[i].diskCost))
    ensures SumOf(pods, Whole) == SumSeq(seq(|pods|, i requires 0 <= i < |pods| => pods[i].totalCost))
    ensures SumOf(pods, Waste) == SumSeq(seq(|pods|, i requires 0 <= i < |pods| => pods[i].wastedDollars))
  {
    SumIs(pods, Cpu, seq(|pods|, i requires 0 <= i < |pods| => pods[i].cpuCost));
    SumIs(pods, Memory, seq(|pods|, i requires 0 <= i < |pods| => pods[i].memoryCost));
    SumIs(pods, Network, seq(|pods|, i requires 0 <= i < |pods| => pods[i].networkCost));
    SumIs(pods, Disk, seq(|pods|, i requires 0 <= i < |pods| => pods[i].diskCost));
    SumIs(pods, Whole, seq(|pods|, i requires 0 <= i < |pods| => pods[i].totalCost));
    SumIs(pods, Waste, seq(|pods|, i requires 0 <= i < |pods| => pods[i].wastedDollars));
  }

  /** The pods of a team, in order. */
  function OfTeam(pods: seq<PodCost>, team: string): seq<PodCost> {
    if pods == [] then []
    else
      var front, last := OfTeam(pods[..|pods| - 1], team), pods[|pods| - 1];
      if last.identity.team == team then front + [last] else front
  }

  function TeamTotals(s: Snapshot, col: Money): map<string, real> {
    map t | t in s.teamCosts :: if col == Waste then s.teamCosts[t].wastedCost else s.teamCosts[t].totalCost
  }

  function PodCounts(s: Snapshot): map<string, real> {
    map t | t in s.teamCosts :: s.teamCosts[t].podCount as real
  }

  lemma OfTeamSnoc(pods: seq<PodCost>, c: PodCost, team: string)
    ensures OfTeam(pods + [c], team) == OfTeam(pods, team) + if c.identity.team == team then [c] else []
  {
  }

  function EntryFor(team: string, own: seq<PodCost>): TeamCost {
    TeamCost(team, SumOf(own, Whole), |own|, SumOf(own, Waste), own)
  }

  /** What it means for a snapshot to hold a team's pods. */
  ghost predicate HoldsTeam(s: Snapshot, team: string, own: seq<PodCost>) {
    && (team in s.teamCosts <==> own != [])
    && (team in s.teamCosts ==> s.teamCosts[team] == EntryFor(team, own))
  }

  lemma WithOwnPod(s: Snapshot, c: PodCost, own: seq<PodCost>)
    requires HoldsTeam(s, c.identity.team, own)
    ensures HoldsTeam(WithPod(s, c), c.identity.team, own + [c])
  {
    SumSnoc(own, c, Whole);
    SumSnoc(own, c, Waste);
    assert own + [c] != [];
  }

  lemma WithOtherPod(s: Snapshot, c: PodCost, team: string, own: seq<PodCost>)
    requires HoldsTeam(s, team, own) && c.identity.team != team
    ensures HoldsTeam(WithPod(s, c), team, own)
  {
  }

  lemma {:induction false} GroupedHolds(now: int, pods: seq<PodCost>, team: string)
    ensures HoldsTeam(Grouped(now, pods), team, OfTeam(pods, team))
    decreases |pods|
  {
    if pods != [] {
      var front, last := pods[..|pods| - 1], pods[|pods| - 1];
      GroupedHolds(now, front, team);
      assert pods == front + [last];
      GroupedSnoc(now, front, last);
      OfTeamSnoc(front, last, team);
      HoldsOneMore(Grouped(now, front), last, team, OfTeam(front, team));
    }
  }

  lemma HoldsOneMore(s: Snapshot, c: PodCost, team: string, own: seq<PodCost>)
    requires HoldsTeam(s, team, own)
    ensures HoldsTeam(WithPod(s, c), team, own + if c.identity.team == team then [c] else [])
  {
    if c.identity.team == team {
      WithOwnPod(s, c, own);
    } else {
      WithOtherPod(s, c, team, own);
      assert own + [] == own;
    }
  }

  lemma {:induction false} GroupedPods(now: int, pods: seq<PodCost>)
    ensures var s := Grouped(now, pods); s.podCosts == pods && s.timestamp == now && s.total == SumOf(pods, Whole)
    decreases |pods|
  {
    if pods != [] {
      GroupedPods(now, pods[..|pods| - 1]);
    }
  }

  /** Every team's entry is made of exactly the pods of that team, and there is no other entry. */
  lemma TeamsHoldTheirPods(now: int, pods: seq<PodCost>, team: string)
    ensures var s, own := Grouped(now, pods), OfTeam(pods, team);
      && s.podCosts == pods && s.timestamp == now && s.total == SumOf(pods, Whole)
      && (team in s.teamCosts <==> own != [])
      && (team in s.teamCosts ==> s.teamCosts[team] == EntryFor(team, own))
  {
    GroupedPods(now, pods);
    GroupedHolds(now, pods, team);
  }

  lemma SumAdd(m: map<string, real>, m': map<string, real>, t: string, v: real)
    requires m' == m[t := Get(m, t) + v]
    ensures Sum(m') == Sum(m) + v
  {
    SumUpdate(m, t, Get(m, t) + v);
  }

  lemma TotalsWithPod(s: Snapshot, c: PodCost)
    ensures Sum(TeamTotals(WithPod(s, c), Whole)) == Sum(TeamTotals(s, Whole)) + c.totalCost
  {
    SumAdd(TeamTotals(s, Whole), TeamTotals(WithPod(s, c), Whole), c.identity.team, c.totalCost);
  }

  lemma WasteWithPod(s: Snapshot, c: PodCost)
    ensures Sum(TeamTotals(WithPod(s, c), Waste)) == Sum(TeamTotals(s, Waste)) + c.wastedDollars
  {
    SumAdd(TeamTotals(s, Waste), TeamTotals(WithPod(s, c), Waste), c.identity.team, c.wastedDollars);
  }

  lemma CountWithPod(s: Snapshot, c: PodCost)
    ensures Sum(PodCounts(WithPod(s, c))) == Sum(PodCounts(s)) + 1.0
  {
    SumAdd(PodCounts(s), PodCounts(WithPod(s, c)), c.identity.team, 1.0);
  }

  /** The teams partition the snapshot: their totals, waste and pod counts add up to the pods'. */
  lemma {:induction false} TeamsPartition(now: int, pods: seq<PodCost>)
    ensures var s := Grouped(now, pods);
      && Sum(TeamTotals(s, Whole)) == SumOf(pods, Whole) == s.total
      && Sum(TeamTotals(s, Waste)) == SumOf(pods, Waste)
      && Sum(PodCounts(s)) == |pods| as real
    decreases |pods|
  {
    var s := Grouped(now, pods);
    if pods != [] {
      var front, last := pods[..|pods| - 1], pods[|pods| - 1];
      TeamsPartition(now, front);
      assert pods == front + [last];
      GroupedSnoc(now, front, last);
      SumSnoc(front, last, Whole);
      SumSnoc(front, last, Waste);
      TotalsWithPod(Grouped(now, front), last);
      WasteWithPod(Grouped(now, front), last);
      CountWithPod(Grouped(now, front), last);
    } else {
      assert TeamTotals(s, Whole) == map[] && TeamTotals(s, Waste) == map[] && PodCounts(s) == map[];
    }
  }

  /** Each pod's total is its four resource costs. */
  ghost predicate Itemized(pods: seq<PodCost>) {
    forall i :: 0 <= i < |pods| ==>
      pods[i].totalCost == pods[i].cpuCost + pods[i].memoryCost + pods[i].networkCost + pods[i].diskCost
  }

  lemma {:induction false} ColumnsAddUp(pods: seq<PodCost>)
    requires Itemized(pods)
    ensures SumOf(pods, Whole) == SumOf(pods, Cpu) + SumOf(pods, Memory) + SumOf(pods, Network) + SumOf(pods, Disk)
    decreases |pods|
  {
    if pods != [] {
      ColumnsAddUp(pods[..|pods| - 1]);
    }
  }

  // ---------- the order of iteration ----------

  function ByKey(costs: map<string, PodCost>, keys: seq<string>): seq<PodCost>
    requires forall k :: k in keys ==> k in costs
  {
    ValuesAt(costs, keys)
  }

  /** `keys` lists the map's keys, each once, in some order. */
  ghost predicate Enumerates(keys: seq<string>, costs: map<string, PodCost>) {
    && (forall k :: k in keys <==> k in costs)
    && (forall i, j :: 0 <= i < j < |keys| ==> keys[i] != keys[j])
  }

  function Column(costs: map<string, PodCost>, col: Money): map<string, real> {
    map k | k in costs :: Dollars(costs[k], col)
  }

  lemma ColumnPick(costs: map<string, PodCost>, k: string, col: Money)
    requires k in costs
    ensures Sum(Column(costs, col)) == Sum(Column(costs - {k}, col)) + Dollars(costs[k], col)
  {
    SumPick(Column(costs, col), k);
    assert Column(costs, col) - {k} == Column(costs - {k}, col);
  }

  lemma EnumeratesFront(costs: map<string, PodCost>, keys: seq<string>)
    requires Enumerates(keys, costs) && keys != []
    ensures var front, last := keys[..|keys| - 1], keys[|keys| - 1];
      && last in costs && Enumerates(front, costs - {last})
      && ByKey(costs, keys) == ByKey(costs - {last}, front) + [costs[last]]
  {
  }

  lemma {:induction false} SumByKey(costs: map<string, PodCost>, keys: seq<string>, col: Money)
    requires Enumerates(keys, costs)
    ensures SumOf(ByKey(costs, keys), col) == Sum(Column(costs, col))
    decreases |keys|
  {
    if keys == [] {
      assert Column(costs, col) == map[];
    } else {
      var front, last := keys[..|keys| - 1], keys[|keys| - 1];
      EnumeratesFront(costs, keys);
      SumByKey(costs - {last}, front, col);
      SumSnoc(ByKey(costs - {last}, front), costs[last], col);
      ColumnPick(costs, last, col);
    }
  }

  lemma TotalByKey(costs: map<string, PodCost>, keys: seq<string>)
    requires Enumerates(keys, costs)
    ensures SumOf(ByKey(costs, keys), Whole) == Sum(Totals(costs))
  {
    SumByKey(costs, keys, Whole);
    assert Totals(costs) == Column(costs, Whole);
  }

  lemma {:induction false} SumConcat(xs: seq<PodCost>, ys: seq<PodCost>, col: Money)
    ensures SumOf(xs + ys, col) == SumOf(xs, col) + SumOf(ys, col)
    decreases |ys|
  {
    if ys == [] {
      assert xs + ys == xs;
    } else {
      assert (xs + ys)[..|xs + ys| - 1] == xs + ys[..|ys| - 1];
      SumConcat(xs, ys[..|ys| - 1], col);
    }
  }

  lemma SumWithout(ys: seq<PodCost>, i: nat, col: Money)
    requires i < |ys|
    ensures SumOf(ys, col) == SumOf(ys[..i] + ys[i + 1..], col) + Dollars(ys[i], col)
  {
    assert ys == ys[..i] + ([ys[i]] + ys[i + 1..]);
    SumConcat(ys[..i], [ys[i]] + ys[i + 1..], col);
    SumConcat([ys[i]], ys[i + 1..], col);
    SumConcat(ys[..i], ys[i + 1..], col);
    assert SumOf([ys[i]], col) == SumOf([], col) + Dollars(ys[i], col);
  }

  lemma {:induction false} SumReordered(xs: seq<PodCost>, ys: seq<PodCost>, col: Money)
    requires multiset(xs) == multiset(ys)
    ensures SumOf(xs, col) == SumOf(ys, col)
    decreases |xs|
  {
    if xs == [] {
      assert |ys| == |multiset(ys)| == 0;
    } else {
      assert xs[0] in multiset(ys);
      var i :| 0 <= i < |ys| && ys[i] == xs[0];
      SumWithout(xs, 0, col);
      SumWithout(ys, i, col);
      RestReordered(xs, ys, i);
      SumReordered(xs[..0] + xs[1..], ys[..i] + ys[i + 1..], col);
    }
  }

  lemma {:induction false} OfTeamCount(xs: seq<PodCost>, team: string, c: PodCost)
    ensures multiset(OfTeam(xs, team))[c] == if c.identity.team == team then multiset(xs)[c] else 0
    decreases |xs|
  {
    if xs != [] {
      var front, last := xs[..|xs| - 1], xs[|xs| - 1];
      assert xs == front + [last];
      OfTeamCount(front, team, c);
    }
  }

  lemma OfTeamReordered(xs: seq<PodCost>, ys: seq<PodCost>, team: string)
    requires multiset(xs) == multiset(ys)
    ensures multiset(OfTeam(xs, team)) == multiset(OfTeam(ys, team))
  {
    forall c
      ensures multiset(OfTeam(xs, team))[c] == multiset(OfTeam(ys, team))[c]
    {
      OfTeamCount(xs, team, c);
      OfTeamCount(ys, team, c);
    }
  }

  /** Snapshots of the same pods in another order differ in nothing but the order of their lists. */
  lemma SnapshotReordered(now: int, xs: seq<PodCost>, ys: seq<PodCost>, team: string)
    requires multiset(xs) == multiset(ys)
    ensures var s, s' := Grouped(now, xs), Grouped(now, ys);
      && s.total == s'.total && multiset(s.podCosts) == multiset(s'.podCosts)
      && (team in s.teamCosts <==> team in s'.teamCosts)
      && (team in s.teamCosts ==>
            && s.teamCosts[team].(pods := []) == s'.teamCosts[team].(pods := [])
            && multiset(s.teamCosts[team].pods) == multiset(s'.teamCosts[team].pods))
  {
    TeamsHoldTheirPods(now, xs, team);
    TeamsHoldTheirPods(now, ys, team);
    SumReordered(xs, ys, Whole);
    OfTeamReordered(xs, ys, team);
    var own, own' := OfTeam(xs, team), OfTeam(ys, team);
    SumReordered(own, own', Whole);
    SumReordered(own, own', Waste);
    assert |own| == |multiset(own)| == |multiset(own')| == |own'|;
  }

  lemma KeyCount(costs: map<string, PodCost>, keys: seq<string>, k: string)
    requires Enumerates(keys, costs)
    ensures multiset(keys)[k] == if k in costs then 1 else 0
  {
    if k in costs {
      var i :| 0 <= i < |keys| && keys[i] == k;
      MultisetWithout(keys, i);
      assert k !in keys[..i] + keys[i + 1..];
      assert k !in multiset(keys[..i] + keys[i + 1..]);
    } else {
      assert k !in multiset(keys);
    }
  }

  /** Whichever order the pod map is walked in, the snapshot is the same up to the order of its lists. */
  lemma IterationOrderImmaterial(costs: map<string, PodCost>, keys: seq<string>, keys': seq<string>, now: int,
                                 team: string)
    requires Enumerates(keys, costs) && Enumerates(keys', costs)
    ensures var s, s' := Grouped(now, ByKey(costs, keys)), Grouped(now, ByKey(costs, keys'));
      && s.total == s'.total == Sum(Totals(costs)) && multiset(s.podCosts) == multiset(s'.podCosts)
      && (team in s.teamCosts <==> team in s'.teamCosts)
      && (team in s.teamCosts ==>
            && s.teamCosts[team].(pods := []) == s'.teamCosts[team].(pods := [])
            && multiset(s.teamCosts[team].pods) == multiset(s'.teamCosts[team].pods))
  {
    forall k
      ensures multiset(keys)[k] == multiset(keys')[k]
    {
      KeyCount(costs, keys, k);
      KeyCount(costs, keys', k);
    }
    ValuesReordered(costs, keys, keys');
    SnapshotReordered(now, ByKey(costs, keys), ByKey(costs, keys'), team);
    TeamsHoldTheirPods(now, ByKey(costs, keys), team);
    TotalByKey(costs, keys);
  }

  lemma EnumeratesOneMore(costs: map<string, PodCost>, keys: seq<string>, todo: set<string>, k: string)
    requires Enumerates(keys, costs - todo) && k in todo && k in costs
    ensures Enumerates(keys + [k], costs - (todo - {k}))
    ensures ByKey(costs, keys + [k]) == ByKey(costs, keys) + [costs[k]]
  {
    var keys', todo' := keys + [k], todo - {k};
    forall j
      ensures j in keys' <==> j in costs - todo'
    {
      assert j in keys' <==> j in keys || j == k;
      assert j in costs - todo' <==> j in costs - todo || j == k;
    }
    assert forall i :: 0 <= i < |keys| ==> keys'[i] == keys[i] && keys[i] in costs - todo;
    assert forall i :: 0 <= i < |keys| ==> ByKey(costs, keys')[i] == ByKey(costs, keys)[i];
  }

  // ---------- the aggregator ----------

  const KEPT := 5760

  /** The snapshots strictly after a time, in order. */
  function Since(snaps: seq<Snapshot>, cutoff: int): seq<Snapshot> {
    if snaps == [] then []
    else
      var front, last := Since(snaps[..|snaps| - 1], cutoff), snaps[|snaps| - 1];
      if last.timestamp > cutoff then front + [last] else front
  }

  /** A snapshot is in the answer as often as in the list if it is from after the cutoff, and not otherwise. */
  lemma {:induction false} SinceHas(snaps: seq<Snapshot>, cutoff: int, s: Snapshot)
    ensures multiset(Since(snaps, cutoff))[s] == if s.timestamp > cutoff then multiset(snaps)[s] else 0
    decreases |snaps|
  {
    if snaps != [] {
      var front, last := snaps[..|snaps| - 1], snaps[|snaps| - 1];
      assert snaps == front + [last];
      SinceHas(front, cutoff, s);
    }
  }

  class Aggregator {
    var podCosts: map<string, PodCost>
    var history: seq<Snapshot>

    /** Every snapshot ever collected. */
    ghost var log: seq<Snapshot>

    /** The history is the end of the log, and the pod map holds the pods of the latest snapshot. */
    ghost predicate Valid()
      reads this
    {
      && history == Last(log, KEPT)
      && (log == [] ==> podCosts == map[])
      && (log != [] ==>
            exists keys :: Enumerates(keys, podCosts) && log[|log| - 1].podCosts == ByKey(podCosts, keys))
    }

    constructor ()
      ensures Valid() && log == []
    {
      podCosts, history, log := map[], [], [];
    }

    /** The body of the first loop: each quantity is its counter in another unit, nothing rounded away. */
    method PriceCgroup(metrics: RawMetrics, identity: Identity, prices: Prices, now: int) returns (cost: PodCost)
      ensures cost == CostOf(metrics.Value(), identity, prices, now)
      ensures Recovers(cost, metrics.Value())
      ensures cost.identity == identity && cost.periodEnd == now && cost.periodStart == now - 15_000_000_000
    {
      var cpuB := metrics.cpuCycles as real / 1_000_000_000.0;
      var memGbHours := metrics.memoryBytesAvg as real / GB * WINDOW_HOURS;
      var egressGb := metrics.networkEgressBytes as real / GB;
      var crossAzGb := metrics.networkCrossAzBytes as real / GB;
      var internetGb := metrics.networkInternetBytes as real / GB;
      var readMiops := metrics.diskReadIops as real / 1_000_000.0;
      var writeMiops := metrics.diskWriteIops as real / 1_000_000.0;

      var cpuCost := cpuB * prices.cpuPerBillionCyclesHour * WINDOW_HOURS;
      var memCost := memGbHours * prices.memoryPerGbHour;
      var netCost := internetGb * prices.internetEgressPerGb + crossAzGb * prices.crossAzPerGb;
      var diskCost := readMiops * prices.diskReadPerMiops + writeMiops * prices.diskWritePerMiops;
      var util, wasted := 0.0, 0.0;
      if metrics.cpuRequestedMillis > 0 {
        var actualMillis := cpuB * 1000.0;
        util := actualMillis / metrics.cpuRequestedMillis as real * 100.0;
        wasted := wasted + cpuCost * (1.0 - util / 100.0);
      }
      cost := PodCost(identity, now - WINDOW_NS, now, cpuB, memGbHours, egressGb, crossAzGb, internetGb,
                      readMiops, writeMiops, cpuCost, memCost, netCost, diskCost,
                      cpuCost + memCost + netCost + diskCost, util, wasted);
      QuantitiesRecoverCounters(metrics.Value(), identity, prices, now);
    }

    /** The first loop: a cost for every cgroup that belongs to a pod, whichever order they come in.
        Each cgroup is resolved under the enricher's own lock, so any of the `syncs` may get in between
        two cgroups; `ids` collects the answers given. */
    method PriceCgroups(rawMetrics: map<U64, RawMetrics>, enricher: Enricher, syncs: seq<Sync>, prices: Prices,
                        now: int)
      returns (newCosts: map<string, PodCost>, ghost order: seq<U64>, ghost ids: map<U64, Identity>)
      modifies enricher
      ensures Answered(ids, old(ValuesOf(rawMetrics)).Keys, old(enricher.Identities()), syncs)
      ensures Visits(order, old(ValuesOf(rawMetrics)).Keys)
      ensures newCosts == PricedIn(order, old(ValuesOf(rawMetrics)), ids, prices, now)
    {
      newCosts, order, ids := map[], [], map[];
      ghost var raw, start := ValuesOf(rawMetrics), enricher.Identities();
      var todo, next := rawMetrics.Keys, 0;
      assert todo == raw.Keys;
      while todo != {}
        invariant next <= |syncs| && enricher.Identities() == ViewAt(start, syncs, next)
        invariant todo <= raw.Keys && Answered(ids, raw.Keys - todo, start, syncs)
        invariant Visits(order, raw.Keys - todo) && newCosts == PricedIn(order, raw, ids, prices, now)
        decreases |todo|
      {
        var cgroup :| cgroup in todo;
        var pod;
        pod, next := enricher.ResolveAmid(cgroup, syncs, next, start);
        AnsweredOneMore(ids, raw.Keys, todo, start, syncs, next, cgroup);
        VisitsOneMore(order, raw.Keys, todo, cgroup);
        PricedOneMore(order, raw, ids, ViewAt(start, syncs, next), prices, now, cgroup);
        order, todo := order + [cgroup], todo - {cgroup};
        if pod == null {
          continue;
        }
        var key := KeyOf(pod.identity);
        var cost := PriceCgroup(rawMetrics[cgroup], pod.identity, prices, now);
        newCosts := newCosts[key := cost];
        ids := ids[cgroup := pod.identity];
      }
      assert raw.Keys - {} == raw.Keys;
    }

    /** One turn of the second loop. */
    method AddPodCost(snap: Snapshot, cost: PodCost) returns (snap': Snapshot)
      requires cost.identity.team in snap.teamCosts ==> snap.teamCosts[cost.identity.team].team == cost.identity.team
      ensures snap' == WithPod(snap, cost)
    {
      snap' := snap.(podCosts := snap.podCosts + [cost], total := snap.total + cost.totalCost);
      var team := cost.identity.team;
      if team !in snap'.teamCosts {
        snap' := snap'.(teamCosts := snap'.teamCosts[team := TeamCost(team, 0.0, 0, 0.0, [])]);
      }
      var tc := snap'.teamCosts[team];
      tc := tc.(totalCost := tc.totalCost + cost.totalCost);
      tc := tc.(wastedCost := tc.wastedCost + cost.wastedDollars);
      tc := tc.(podCount := tc.podCount + 1);
      tc := tc.(pods := tc.pods + [cost]);
      snap' := snap'.(teamCosts := snap'.teamCosts[team := tc]);
    }

    /** The second loop: the pods, in whichever order they come, grouped by team. */
    method BuildSnapshot(newCosts: map<string, PodCost>, now: int) returns (snap: Snapshot, ghost keys: seq<string>)
      ensures Enumerates(keys, newCosts) && snap == Grouped(now, ByKey(newCosts, keys))
      ensures snap.total == Sum(Totals(newCosts)) == Sum(TeamTotals(snap, Whole))
    {
      snap, keys := Snapshot(now, [], map[], 0.0), [];
      var todo := newCosts.Keys;
      while todo != {}
        invariant todo <= newCosts.Keys && Enumerates(keys, newCosts - todo)
        invariant snap == Grouped(now, ByKey(newCosts, keys))
        decreases |todo|
      {
        var k :| k in todo;
        ghost var pods := ByKey(newCosts, keys);
        TeamsHoldTheirPods(now, pods, newCosts[k].identity.team);
        snap := AddPodCost(snap, newCosts[k]);
        GroupedSnoc(now, pods, newCosts[k]);
        EnumeratesOneMore(newCosts, keys, todo, k);
        keys := keys + [k];
        todo := todo - {k};
      }
      assert newCosts - {} == newCosts;
      TotalByKey(newCosts, keys);
      TeamsPartition(now, ByKey(newCosts, keys));
    }

    /** The measurements as they are now, copied and priced. */
    method PriceLatest(collectors: Manager, enricher: Enricher, syncs: seq<Sync>, prices: Prices, now: int)
      returns (newCosts: map<string, PodCost>, ghost order: seq<U64>, ghost ids: map<U64, Identity>)
      requires collectors.Valid()
      modifies enricher
      ensures Answered(ids, old(collectors.Contents()).Keys, old(enricher.Identities()), syncs)
      ensures Visits(order, old(collectors.Contents()).Keys)
      ensures newCosts == PricedIn(order, old(collectors.Contents()), ids, prices, now)
    {
      ghost var raw := collectors.Contents();
      var rawMetrics := collectors.Snapshot();
      assert ValuesOf(rawMetrics) == raw;
      newCosts, order, ids := PriceCgroups(rawMetrics, enricher, syncs, prices, now);
    }

    /** One collection: price, group, publish, and trim the history. */
    method Collect(collectors: Manager, enricher: Enricher, syncs: seq<Sync>, prices: Prices, now: int)
      returns (ghost order: seq<U64>, ghost ids: map<U64, Identity>, ghost keys: seq<string>)
      requires Valid() && collectors.Valid()
      modifies this, enricher
      ensures Valid()
      ensures Answered(ids, old(collectors.Contents()).Keys, old(enricher.Identities()), syncs)
      ensures Visits(order, old(collectors.Contents()).Keys)
      ensures podCosts == PricedIn(order, old(collectors.Contents()), ids, prices, now)
      ensures Enumerates(keys, podCosts) && log == old(log) + [Grouped(now, ByKey(podCosts, keys))]
    {
      var newCosts, snap;
      newCosts, order, ids := PriceLatest(collectors, enricher, syncs, prices, now);
      snap, keys := BuildSnapshot(newCosts, now);
      Publish(newCosts, snap, keys, now);
    }

    /** The locked section of a collection. */
    method Publish(newCosts: map<string, PodCost>, snap: Snapshot, ghost keys: seq<string>, ghost now: int)
      requires Valid() && Enumerates(keys, newCosts) && snap == Grouped(now, ByKey(newCosts, keys))
      modifies this
      ensures Valid() && podCosts == newCosts && log == old(log) + [snap]
      ensures |history| == (if |log| <= 5760 then |log| else 5760) && history[|history| - 1] == snap
    {
      TeamsHoldTheirPods(now, ByKey(newCosts, keys), "");
      LastPush(log, snap, KEPT);
      podCosts := newCosts;
      history := history + [snap];
      if |history| > KEPT {
        history := history[1..];
      }
      log := log + [snap];
      assert log[|log| - 1].podCosts == ByKey(podCosts, keys);
    }

    method LatestSnapshot(now: int) returns (snap: Snapshot)
      requires Valid()
      ensures snap == if log == [] then Snapshot(now, [], map[], 0.0) else log[|log| - 1]
    {
      if |history| == 0 {
        return Snapshot(now, [], map[], 0.0);
      }
      return history[|history| - 1];
    }

    method History(since: int, now: int) returns (result: seq<Snapshot>)
      requires Valid()
      ensures result == Since(history, now - since)
      ensures Spaced(log) && since <= DAY && (log != [] ==> log[|log| - 1].timestamp <= now) ==>
                result == Since(log, now - since)
    {
      var cutoff := now - since;
      result := [];
      for i := 0 to |history|
        invariant result == Since(history[..i], cutoff)
      {
        if history[i].timestamp > cutoff {
          result := result + [history[i]];
        }
        assert history[..i + 1][..i] == history[..i];
      }
      assert history[..|history|] == history;
      if Spaced(log) && since <= DAY && (log != [] ==> log[|log| - 1].timestamp <= now) {
        DayIsKept(log, since, now);
      }
    }

    /** The pods under 20 % utilisation, each once, in whichever order they come. */
    method WasteReport() returns (wasted: seq<PodCost>, ghost keys: seq<string>)
      ensures forall i, j :: 0 <= i < j < |keys| ==> keys[i] != keys[j]
      ensures forall k :: k in keys <==> k in podCosts && 0.0 < podCosts[k].cpuUtilizationPct < 20.0
      ensures wasted == ByKey(podCosts, keys)
      ensures forall c :: c in wasted <==> c in podCosts.Values && 0.0 < c.cpuUtilizationPct < 20.0
    {
      wasted, keys := [], [];
      var todo := podCosts.Keys;
      while todo != {}
        invariant todo <= podCosts.Keys
        invariant forall i, j :: 0 <= i < j < |keys| ==> keys[i] != keys[j]
        invariant forall k :: k in keys <==> k in podCosts && k !in todo && 0.0 < podCosts[k].cpuUtilizationPct < 20.0
        invariant wasted == ByKey(podCosts, keys)
        decreases |todo|
      {
        var k :| k in todo;
        todo := todo - {k};
        var cost := podCosts[k];
        if 0.0 < cost.cpuUtilizationPct < 20.0 {
          wasted := wasted + [cost];
          keys := keys + [k];
        }
      }
      AllListed(podCosts, keys);
    }
  }

  lemma AllListed(costs: map<string, PodCost>, keys: seq<string>)
    requires forall k :: k in keys <==> k in costs && 0.0 < costs[k].cpuUtilizationPct < 20.0
    ensures forall c :: c in ByKey(costs, keys) <==> c in costs.Values && 0.0 < c.cpuUtilizationPct < 20.0
  {
    forall c | c in costs.Values && 0.0 < c.cpuUtilizationPct < 20.0
      ensures c in ByKey(costs, keys)
    {
      var k :| k in costs && costs[k] == c;
      var i :| 0 <= i < |keys| && keys[i] == k;
      assert ByKey(costs, keys)[i] == c;
    }
    forall c | c in ByKey(costs, keys)
      ensures c in costs.Values && 0.0 < c.cpuUtilizationPct < 20.0
    {
      var i :| 0 <= i < |keys| && ByKey(costs, keys)[i] == c;
      assert keys[i] in keys;
    }
  }

  // ---------- what the capped history can still answer ----------

  const SECOND := 1_000_000_000
  const DAY := 86_400 * SECOND

  ghost predicate Ordered(log: seq<Snapshot>) {
    forall i, j :: 0 <= i < j < |log| ==> log[i].timestamp <= log[j].timestamp
  }

  /** Collections come at least 15 seconds apart. */
  ghost predicate Spaced(log: seq<Snapshot>) {
    forall i :: 0 < i < |log| ==> log[i].timestamp - log[i - 1].timestamp >= 15 * SECOND
  }

  lemma {:induction false} SinceConcat(xs: seq<Snapshot>, ys: seq<Snapshot>, cutoff: int)
    ensures Since(xs + ys, cutoff) == Since(xs, cutoff) + Since(ys, cutoff)
    decreases |ys|
  {
    if ys == [] {
      assert xs + ys == xs;
    } else {
      assert (xs + ys)[..|xs + ys| - 1] == xs + ys[..|ys| - 1];
      SinceConcat(xs, ys[..|ys| - 1], cutoff);
    }
  }

  lemma {:induction false} SinceEmptyIff(xs: seq<Snapshot>, cutoff: int)
    requires Ordered(xs)
    ensures Since(xs, cutoff) == [] <==> xs == [] || xs[|xs| - 1].timestamp <= cutoff
    decreases |xs|
  {
    if xs != [] {
      SinceEmptyIff(xs[..|xs| - 1], cutoff);
    }
  }

  /** A history query answers as it would over the whole log exactly when the youngest snapshot
      dropped, if any, is not younger than the cutoff. */
  lemma HistoryExactIff(log: seq<Snapshot>, cutoff: int)
    requires Ordered(log)
    ensures Since(Last(log, KEPT), cutoff) == Since(log, cutoff) <==>
            |log| <= KEPT || log[|log| - KEPT - 1].timestamp <= cutoff
  {
    if |log| > KEPT {
      var dropped, kept := log[..|log| - KEPT], log[|log| - KEPT..];
      assert log == dropped + kept;
      SinceConcat(dropped, kept, cutoff);
      SinceEmptyIff(dropped, cutoff);
    }
  }

  lemma {:induction false} SpacedApart(log: seq<Snapshot>, i: nat, j: nat)
    requires Spaced(log) && i <= j < |log|
    ensures log[j].timestamp - log[i].timestamp >= (j - i) * 15 * SECOND
    decreases j - i
  {
    if i < j {
      SpacedApart(log, i, j - 1);
    }
  }

  /** The cap loses nothing for a day: with collections at least 15 s apart, any window of up to 24
      hours, asked for at any time from the last snapshot on, is answered in full. */
  lemma DayIsKept(log: seq<Snapshot>, since: int, now: int)
    requires Spaced(log) && since <= DAY && (log != [] ==> log[|log| - 1].timestamp <= now)
    ensures Since(Last(log, KEPT), now - since) == Since(log, now - since)
  {
    forall i, j | 0 <= i < j < |log|
      ensures log[i].timestamp <= log[j].timestamp
    {
      SpacedApart(log, i, j);
    }
    HistoryExactIff(log, now - since);
    if |log| > KEPT {
      SpacedApart(log, |log| - KEPT - 1, |log| - 1);
    }
  }

  lemma LastSnoc(xs: seq<Snapshot>, x: Snapshot, n: nat)
    requires n <= |xs|
    ensures Last(xs + [x], n + 1) == Last(xs, n) + [x]
  {
  }

  /** The answer is a contiguous end of the list. */
  lemma {:induction false} SinceIsSuffix(xs: seq<Snapshot>, cutoff: int)
    requires Ordered(xs)
    ensures Since(xs, cutoff) == Last(xs, |Since(xs, cutoff)|)
    decreases |xs|
  {
    if xs != [] {
      var front, last := xs[..|xs| - 1], xs[|xs| - 1];
      if last.timestamp > cutoff {
        SinceIsSuffix(front, cutoff);
        SinceShort(front, cutoff);
        LastSnoc(front, last, |Since(front, cutoff)|);
        assert xs == front + [last];
      } else {
        SinceEmptyIff(xs, cutoff);
      }
    }
  }

  lemma {:induction false} SinceShort(xs: seq<Snapshot>, cutoff: int)
    ensures |Since(xs, cutoff)| <= |xs|
    decreases |xs|
  {
    if xs != [] {
      SinceShort(xs[..|xs| - 1], cutoff);
    }
  }

  /** Every pod in the waste report wastes more than four fifths of its CPU cost. */
  lemma WasteReportIsWaste(m: Metrics, id: Identity, prices: Prices, now: int)
    requires prices.NonNegative()
    requires 0.0 < CostOf(m, id, prices, now).cpuUtilizationPct < 20.0
    ensures var c := CostOf(m, id, prices, now);
      c.wastedDollars >= 0.8 * c.cpuCost && (c.cpuCost > 0.0 ==> c.wastedDollars > 0.8 * c.cpuCost)
  {
    var c := CostOf(m, id, prices, now);
    UsageCostsNonNegative(m.usage, prices);
    var idle := 1.0 - c.cpuUtilizationPct / 100.0;
    assert idle > 0.8 && c.wastedDollars == c.cpuCost * idle;
    if c.cpuCost > 0.0 {
      assert c.cpuCost * idle > c.cpuCost * 0.8;
    }
  }
}
