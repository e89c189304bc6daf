/** internal/aggregator/aggregator.go and internal/enricher/k8s.go together: whose costs a collection
    reports, and which team is charged for them. */
module Attribution {
  import opened Aggregator
  import opened Collector
  import opened Enricher
  import opened Pricing
  import opened Sums
  import opened Words

  // ---------- whose cost a pod key holds ----------

  /** A key holds a cost exactly when some cgroup visited has that key, and then it is that of the cgroup
      visited last among them. */
  lemma {:induction false} WinnerIsLast(order: seq<U64>, ids: map<U64, Identity>, k: string)
    ensures k in WinnersIn(order, ids) <==>
            exists i :: 0 <= i < |order| && order[i] in ids && KeyOf(ids[order[i]]) == k
    ensures k in WinnersIn(order, ids) ==>
              exists i :: LastWith(order, ids, k, i) && order[i] == WinnersIn(order, ids)[k]
    decreases |order|
  {
    if order != [] {
      var front, g := order[..|order| - 1], order[|order| - 1];
      WinnerIsLast(front, ids, k);
      assert forall i :: 0 <= i < |front| ==> front[i] == order[i];
      if g in ids && KeyOf(ids[g]) == k {
        assert LastWith(order, ids, k, |order| - 1);
      } else if k in WinnersIn(front, ids) {
        var i :| LastWith(front, ids, k, i) && front[i] == WinnersIn(front, ids)[k];
        assert LastWith(order, ids, k, i);
      }
    }
  }

  /** Place `i` of the order holds the last cgroup with this key. */
  ghost predicate LastWith(order: seq<U64>, ids: map<U64, Identity>, k: string, i: int) {
    && 0 <= i < |order| && order[i] in ids && KeyOf(ids[order[i]]) == k
    && forall j :: i < j < |order| && order[j] in ids ==> KeyOf(ids[order[j]]) != k
  }

  /** Whatever the order, each cost carries the identity of the cgroup it is the cost of, and stands under
      the key of that identity. */
  lemma CostNamesItsPod(order: seq<U64>, raw: map<U64, Metrics>, ids: map<U64, Identity>, prices: Prices, now: int,
                        k: string)
    requires (forall g :: g in order ==> g in raw) && k in PricedIn(order, raw, ids, prices, now)
    ensures k in WinnersIn(order, ids) && WinnersIn(order, ids)[k] in order && WinnersIn(order, ids)[k] in ids
    ensures var c, winner := PricedIn(order, raw, ids, prices, now)[k], WinnersIn(order, ids)[k];
      && c.identity == ids[winner] && c.identity.namespace + "/" + c.identity.podName == k
      && c.periodEnd == now && c.cpuCyclesBillion * 1_000_000_000.0 == raw[winner].usage.cycles as real
  {
    PricedIsRight(order, raw, ids, prices, now);
    var winner := WinnersIn(order, ids)[k];
    QuantitiesRecoverCounters(raw[winner], ids[winner], prices, now);
  }

  // ---------- which team is charged ----------

  /** Of the cgroups that won a key, those whose pod is of the team. */
  function ChargedTo(winner: map<string, U64>, ids: map<U64, Identity>, team: string): set<U64> {
    set g | g in winner.Values && g in ids && ids[g].team == team
  }

  /** What each of them is charged. */
  function ChargesTo(winner: map<string, U64>, raw: map<U64, Metrics>, ids: map<U64, Identity>, prices: Prices,
                     now: int, team: string, col: Money): map<U64, real>
  {
    map g | g in ChargedTo(winner, ids, team) && g in raw && g in ids ::
      Dollars(CostOf(raw[g], ids[g], prices, now), col)
  }

  /** The costs under a team, by key. */
  function TeamColumn(costs: map<string, PodCost>, team: string, col: Money): map<string, real> {
    map k | k in costs && costs[k].identity.team == team :: Dollars(costs[k], col)
  }

  lemma TeamColumnPick(costs: map<string, PodCost>, k: string, team: string, col: Money)
    requires k in costs
    ensures Sum(TeamColumn(costs, team, col)) ==
            Sum(TeamColumn(costs - {k}, team, col))
            + if costs[k].identity.team == team then Dollars(costs[k], col) else 0.0
  {
    if costs[k].identity.team == team {
      SumPick(TeamColumn(costs, team, col), k);
      assert TeamColumn(costs, team, col) - {k} == TeamColumn(costs - {k}, team, col);
    } else {
      assert TeamColumn(costs, team, col) == TeamColumn(costs - {k}, team, col);
    }
  }

  lemma {:induction false} OfTeamSums(costs: map<string, PodCost>, keys: seq<string>, team: string, col: Money)
    requires Enumerates(keys, costs)
    ensures SumOf(OfTeam(ByKey(costs, keys), team), col) == Sum(TeamColumn(costs, team, col))
    ensures |OfTeam(ByKey(costs, keys), team)| == |TeamColumn(costs, team, col)|
    decreases |keys|
  {
    if keys == [] {
      assert TeamColumn(costs, team, col) == map[];
    } else {
      var front, last := keys[..|keys| - 1], keys[|keys| - 1];
      EnumeratesFront(costs, keys);
      OfTeamSums(costs - {last}, front, team, col);
      var pods, c := ByKey(costs - {last}, front), costs[last];
      OfTeamSnoc(pods, c, team);
      SumSnoc(OfTeam(pods, team), c, col);
      TeamColumnPick(costs, last, team, col);
      TeamColumnSize(costs, last, team, col);
      assert OfTeam(pods, team) + [] == OfTeam(pods, team);
    }
  }

  lemma TeamColumnSize(costs: map<string, PodCost>, k: string, team: string, col: Money)
    requires k in costs
    ensures |TeamColumn(costs, team, col)| ==
            |TeamColumn(costs - {k}, team, col)| + if costs[k].identity.team == team then 1 else 0
  {
    var all, rest := TeamColumn(costs, team, col), TeamColumn(costs - {k}, team, col);
    if costs[k].identity.team == team {
      assert all == rest[k := all[k]];
    } else {
      assert all == rest;
    }
  }

  /** The keys the team's cgroups won, with the winners. */
  function Own(winner: map<string, U64>, ids: map<U64, Identity>, team: string): map<string, U64> {
    map k | k in winner && winner[k] in ids && ids[winner[k]].team == team :: winner[k]
  }

  /** The keys a team's cgroups won are those of its costs. */
  lemma OwnKeys(costs: map<string, PodCost>, winner: map<string, U64>, raw: map<U64, Metrics>,
                ids: map<U64, Identity>, prices: Prices, now: int, team: string, col: Money)
    requires IsPodMap(costs, winner, raw, ids, prices, now)
    ensures TeamColumn(costs, team, col).Keys == Own(winner, ids, team).Keys
    ensures forall k :: k in Own(winner, ids, team) ==>
              && winner[k] in raw && winner[k] in ids
              && TeamColumn(costs, team, col)[k] == Dollars(CostOf(raw[winner[k]], ids[winner[k]], prices, now), col)
  {
    assert forall k :: k in winner ==> costs[k].identity == ids[winner[k]];
  }

  lemma OwnCovers(winner: map<string, U64>, ids: map<U64, Identity>, team: string)
    ensures Own(winner, ids, team).Values == ChargedTo(winner, ids, team)
  {
    var own := Own(winner, ids, team);
    forall g | g in ChargedTo(winner, ids, team)
      ensures g in own.Values
    {
      var k :| k in winner && winner[k] == g;
      assert own[k] == g;
    }
  }

  lemma WonByPods(winner: map<string, U64>, raw: map<U64, Metrics>, ids: map<U64, Identity>, prices: Prices,
                  now: int, team: string, col: Money)
    requires forall k :: k in winner ==> winner[k] in raw && winner[k] in ids && KeyOf(ids[winner[k]]) == k
    ensures ChargesTo(winner, raw, ids, prices, now, team, col).Keys == ChargedTo(winner, ids, team)
    ensures forall i, j :: i in winner && j in winner && i != j ==> winner[i] != winner[j]
  {
  }

  lemma TeamColumnByCgroup(costs: map<string, PodCost>, winner: map<string, U64>, raw: map<U64, Metrics>,
                           ids: map<U64, Identity>, prices: Prices, now: int, team: string, col: Money)
    requires IsPodMap(costs, winner, raw, ids, prices, now)
    ensures var column := TeamColumn(costs, team, col);
      && Sum(column) == Sum(ChargesTo(winner, raw, ids, prices, now, team, col))
      && |column| == |ChargedTo(winner, ids, team)|
  {
    var own, charges := Own(winner, ids, team), ChargesTo(winner, raw, ids, prices, now, team, col);
    var column := TeamColumn(costs, team, col);
    OwnKeys(costs, winner, raw, ids, prices, now, team, col);
    OwnCovers(winner, ids, team);
    WonByPods(winner, raw, ids, prices, now, team, col);
    SumThrough(column, charges, own);
    assert charges - own.Values == map[];
    Matching(own, charges.Keys);
    assert |column| == |column.Keys| == |own.Keys| == |own|;
  }

  lemma {:induction false} Matching(w: map<string, U64>, gs: set<U64>)
    requires w.Values == gs && forall i, j :: i in w && j in w && i != j ==> w[i] != w[j]
    ensures |w| == |gs|
    decreases |w|
  {
    if k :| k in w {
      var rest := w - {k};
      assert rest.Values == gs - {w[k]} by {
        forall g | g in gs - {w[k]}
          ensures g in rest.Values
        {
          var j :| j in w && w[j] == g;
          assert rest[j] == g;
        }
      }
      Matching(rest, gs - {w[k]});
    } else {
      assert gs == {};
    }
  }

  /** A collected snapshot has an entry for exactly the teams of the cgroups that won their keys, and an
      entry's total, waste and count are those of its cgroups. */
  lemma TeamsAreCharged(order: seq<U64>, raw: map<U64, Metrics>, ids: map<U64, Identity>, prices: Prices, now: int,
                        keys: seq<string>, team: string)
    requires Visits(order, raw.Keys) && Enumerates(keys, PricedIn(order, raw, ids, prices, now))
    ensures var s, winner := Grouped(now, ByKey(PricedIn(order, raw, ids, prices, now), keys)), WinnersIn(order, ids);
      && (team in s.teamCosts <==> exists g :: g in winner.Values && g in ids && ids[g].team == team)
      && (team in s.teamCosts ==>
            var tc := s.teamCosts[team];
            && tc.team == team && tc.podCount == |ChargedTo(winner, ids, team)|
            && tc.totalCost == Sum(ChargesTo(winner, raw, ids, prices, now, team, Whole))
            && tc.wastedCost == Sum(ChargesTo(winner, raw, ids, prices, now, team, Waste)))
  {
    var costs, winner := PricedIn(order, raw, ids, prices, now), WinnersIn(order, ids);
    OrderMakesPodMap(order, raw, ids, prices, now);
    TeamsHoldTheirPods(now, ByKey(costs, keys), team);
    OfTeamSums(costs, keys, team, Whole);
    OfTeamSums(costs, keys, team, Waste);
    TeamColumnByCgroup(costs, winner, raw, ids, prices, now, team, Whole);
    TeamColumnByCgroup(costs, winner, raw, ids, prices, now, team, Waste);
    SomeoneCharged(winner, ids, team);
  }

  lemma SomeoneCharged(winner: map<string, U64>, ids: map<U64, Identity>, team: string)
    ensures |ChargedTo(winner, ids, team)| != 0 <==> exists g :: g in winner.Values && g in ids && ids[g].team == team
  {
    if g :| g in winner.Values && g in ids && ids[g].team == team {
      assert g in ChargedTo(winner, ids, team);
    } else {
      assert ChargedTo(winner, ids, team) == {};
    }
  }
}
