/** internal/exporter/api.go: the regroupings of a snapshot that the REST API answers with. */
module Reports {
  import opened Aggregator
  import opened Collector
  import opened Enricher
  import opened Pricing
  import opened Sums
  import opened Words

  /** The pods of a namespace, in order. */
  function InNamespace(pods: seq<PodCost>, namespace: string): seq<PodCost> {
    if pods == [] then []
    else
      var front, last := InNamespace(pods[..|pods| - 1], namespace), pods[|pods| - 1];
      if last.identity.namespace == namespace then front + [last] else front
  }

  lemma InNamespaceSnoc(pods: seq<PodCost>, c: PodCost, namespace: string)
    ensures InNamespace(pods + [c], namespace) ==
            InNamespace(pods, namespace) + if c.identity.namespace == namespace then [c] else []
  {
    assert (pods + [c])[..|pods|] == pods;
  }

  lemma {:induction false} InNamespaceCount(pods: seq<PodCost>, namespace: string, c: PodCost)
    ensures multiset(InNamespace(pods, namespace))[c] ==
            if c.identity.namespace == namespace then multiset(pods)[c] else 0
    decreases |pods|
  {
    if pods != [] {
      var front, last := pods[..|pods| - 1], pods[|pods| - 1];
      assert pods == front + [last];
      InNamespaceCount(front, namespace, c);
    }
  }

  function NamespaceCosts(pods: seq<PodCost>): map<string, real> {
    if pods == [] then map[]
    else
      var front, last := NamespaceCosts(pods[..|pods| - 1]), pods[|pods| - 1];
      front[last.identity.namespace := Get(front, last.identity.namespace) + last.totalCost]
  }

  /** handleByNamespace */
  method ByNamespace(snap: Snapshot) returns (nsCosts: map<string, real>)
    ensures nsCosts == NamespaceCosts(snap.podCosts)
  {
    nsCosts := map[];
    var pods := snap.podCosts;
    for i := 0 to |pods|
      invariant nsCosts == NamespaceCosts(pods[..i])
    {
      var p := pods[i];
      nsCosts := nsCosts[p.identity.namespace := Get(nsCosts, p.identity.namespace) + p.totalCost];
      assert pods[..i + 1][..i] == pods[..i];
    }
    assert pods[..|pods|] == pods;
  }

  /** A namespace's figure is the cost of exactly its pods, and one without pods has none. */
  lemma {:induction false} NamespaceHoldsItsPods(pods: seq<PodCost>, namespace: string)
    ensures namespace in NamespaceCosts(pods) <==> InNamespace(pods, namespace) != []
    ensures Get(NamespaceCosts(pods), namespace) == SumOf(InNamespace(pods, namespace), Whole)
    decreases |pods|
  {
    if pods != [] {
      var front, last := pods[..|pods| - 1], pods[|pods| - 1];
      NamespaceHoldsItsPods(front, namespace);
      SumSnoc(InNamespace(front, namespace), last, Whole);
    }
  }

  /** The namespaces' figures add up to the snapshot's total. */
  lemma {:induction false} NamespacesMakeTotal(now: int, pods: seq<PodCost>)
    ensures Sum(NamespaceCosts(pods)) == Grouped(now, pods).total
    decreases |pods|
  {
    if pods != [] {
      var front, last := pods[..|pods| - 1], pods[|pods| - 1];
      var ns := last.identity.namespace;
      NamespacesMakeTotal(now, front);
      SumUpdate(NamespaceCosts(front), ns, Get(NamespaceCosts(front), ns) + last.totalCost);
    }
  }

  datatype TeamEntry = TeamEntry(
    team: string, totalCost: real, wastedCost: real, podCount: nat,
    cpuCost: real, memCost: real, netCost: real, diskCost: real)

  /** A team's row: its figures, and its pods' costs by resource. */
  function EntryOf(tc: TeamCost): TeamEntry {
    TeamEntry(tc.team, tc.totalCost, tc.wastedCost, tc.podCount,
              SumOf(tc.pods, Cpu), SumOf(tc.pods, Memory), SumOf(tc.pods, Network), SumOf(tc.pods, Disk))
  }

  /** Each column of a row is the sum of its own resource's costs over the pods. */
  lemma RowColumns(tc: TeamCost)
    ensures var e, pods := EntryOf(tc), tc.pods;
      && e.cpuCost == SumSeq(seq(|pods|, i requires 0 <= i < |pods| => pods[i].cpuCost))
      && e.memCost == SumSeq(seq(|pods|, i requires 0 <= i < |pods| => pods[i].memoryCost))
      && e.netCost == SumSeq(seq(|pods|, i requires 0 <= i < |pods| => pods[i].networkCost))
      && e.diskCost == SumSeq(seq(|pods|, i requires 0 <= i < |pods| => pods[i].diskCost))
  {
    ColumnsAre(tc.pods);
  }

  /** The row for one team. */
  method TeamRow(tc: TeamCost) returns (e: TeamEntry)
    ensures e == EntryOf(tc)
    ensures e.team == tc.team && e.totalCost == tc.totalCost
    ensures e.wastedCost == tc.wastedCost && e.podCount == tc.podCount
  {
    var cpu, mem, net, disk := 0.0, 0.0, 0.0, 0.0;
    for i := 0 to |tc.pods|
      invariant cpu == SumOf(tc.pods[..i], Cpu) && mem == SumOf(tc.pods[..i], Memory)
      invariant net == SumOf(tc.pods[..i], Network) && disk == SumOf(tc.pods[..i], Disk)
    {
      var p := tc.pods[i];
      assert tc.pods[..i + 1][..i] == tc.pods[..i];
      cpu := cpu + p.cpuCost;
      mem := mem + p.memoryCost;
      net := net + p.networkCost;
      disk := disk + p.diskCost;
    }
    assert tc.pods[..|tc.pods|] == tc.pods;
    return TeamEntry(tc.team, tc.totalCost, tc.wastedCost, tc.podCount, cpu, mem, net, disk);
  }

  lemma OneMoreVisited(all: set<string>, todo: set<string>, t: string)
    requires t in all && t in todo
    ensures |all - (todo - {t})| == |all - todo| + 1
  {
    assert all - (todo - {t}) == (all - todo) + {t};
  }

  /** The rows are one per team of the snapshot, in some order. */
  method ByTeam(snap: Snapshot) returns (rows: seq<TeamEntry>, ghost order: seq<string>)
    ensures |rows| == |order| == |snap.teamCosts| && (forall t :: t in order <==> t in snap.teamCosts)
    ensures forall i, j :: 0 <= i < j < |order| ==> order[i] != order[j]
    ensures forall i :: 0 <= i < |rows| ==> rows[i] == EntryOf(snap.teamCosts[order[i]])
  {
    rows, order := [], [];
    var todo := snap.teamCosts.Keys;
    while todo != {}
      invariant todo <= snap.teamCosts.Keys && |rows| == |order| == |snap.teamCosts.Keys - todo|
      invariant forall t :: t in order <==> t in snap.teamCosts && t !in todo
      invariant forall i, j :: 0 <= i < j < |order| ==> order[i] != order[j]
      invariant forall i :: 0 <= i < |rows| ==>
                  order[i] in snap.teamCosts && rows[i] == EntryOf(snap.teamCosts[order[i]])
      decreases |todo|
    {
      var team :| team in todo;
      OneMoreVisited(snap.teamCosts.Keys, todo, team);
      todo := todo - {team};
      var row := TeamRow(snap.teamCosts[team]);
      rows, order := rows + [row], order + [team];
    }
  }

  /** The pods that pass both filters; an empty filter passes all. */
  method ByPod(snap: Snapshot, namespace: string, team: string) returns (pods: seq<PodCost>)
    ensures namespace == "" && team == "" ==> pods == snap.podCosts
    ensures namespace != "" && team == "" ==> pods == InNamespace(snap.podCosts, namespace)
    ensures namespace == "" && team != "" ==> pods == OfTeam(snap.podCosts, team)
    ensures namespace != "" && team != "" ==> pods == InNamespace(OfTeam(snap.podCosts, team), namespace)
    ensures forall p :: multiset(pods)[p] ==
                        if (namespace == "" || p.identity.namespace == namespace)
                           && (team == "" || p.identity.team == team)
                        then multiset(snap.podCosts)[p] else 0
  {
    pods := [];
    var all := snap.podCosts;
    for i := 0 to |all|
      invariant pods == Filtered(all[..i], namespace, team)
    {
      var p := all[i];
      assert all[..i + 1][..i] == all[..i];
      if namespace != "" && p.identity.namespace != namespace {
        continue;
      }
      if team != "" && p.identity.team != team {
        continue;
      }
      pods := pods + [p];
    }
    assert all[..|all|] == all;
    FilteredMeans(all, namespace, team);
    forall p
      ensures multiset(pods)[p] == if Passes(p, namespace, team) then multiset(all)[p] else 0
    {
      OfTeamCount(all, team, p);
      InNamespaceCount(if team == "" then all else OfTeam(all, team), namespace, p);
    }
  }

  predicate Passes(p: PodCost, namespace: string, team: string) {
    (namespace == "" || p.identity.namespace == namespace) && (team == "" || p.identity.team == team)
  }

  function Filtered(all: seq<PodCost>, namespace: string, team: string): seq<PodCost> {
    if all == [] then []
    else
      var front, last := Filtered(all[..|all| - 1], namespace, team), all[|all| - 1];
      if (namespace != "" && last.identity.namespace != namespace) || (team != "" && last.identity.team != team)
      then front else front + [last]
  }

  lemma {:induction false} FilteredMeans(all: seq<PodCost>, namespace: string, team: string)
    ensures Filtered(all, namespace, team) ==
            var ofTeam := if team == "" then all else OfTeam(all, team);
            if namespace == "" then ofTeam else InNamespace(ofTeam, namespace)
    decreases |all|
  {
    if all != [] {
      var front, last := all[..|all| - 1], all[|all| - 1];
      FilteredMeans(front, namespace, team);
      assert front + [last] == all;
      OfTeamSnoc(front, last, team);
      InNamespaceSnoc(if team == "" then front else OfTeam(front, team), last, namespace);
    }
  }

  // ---------- the reports agree with one another ----------

  lemma CollectedIsItemized(costs: map<string, PodCost>, winner: map<string, U64>, raw: map<U64, Metrics>,
                            ids: map<U64, Identity>, prices: Prices, now: int, keys: seq<string>)
    requires IsPodMap(costs, winner, raw, ids, prices, now) && Enumerates(keys, costs)
    ensures Itemized(ByKey(costs, keys))
  {
  }

  lemma {:induction false} OfTeamItemized(pods: seq<PodCost>, team: string)
    requires Itemized(pods)
    ensures Itemized(OfTeam(pods, team))
    decreases |pods|
  {
    if pods != [] {
      OfTeamItemized(pods[..|pods| - 1], team);
    }
  }

  /** For a snapshot of itemized pods: a team's row, its four columns, its drill-down by pod and the
      alarm's figure for it are all the same number. */
  lemma TeamFiguresAgree(now: int, pods: seq<PodCost>, team: string)
    requires Itemized(pods) && team in Grouped(now, pods).teamCosts
    ensures FiguresAgree(Grouped(now, pods), team)
  {
    TeamsHoldTheirPods(now, pods, team);
    OfTeamItemized(pods, team);
    ColumnsAddUp(OfTeam(pods, team));
  }

  ghost predicate FiguresAgree(s: Snapshot, team: string)
    requires team in s.teamCosts
  {
    var tc := s.teamCosts[team];
    && tc.pods == OfTeam(s.podCosts, team) && tc.podCount == |tc.pods|
    && tc.totalCost == SumOf(OfTeam(s.podCosts, team), Whole) == TeamTotals(s, Whole)[team]
    && tc.totalCost == SumOf(tc.pods, Cpu) + SumOf(tc.pods, Memory) + SumOf(tc.pods, Network) + SumOf(tc.pods, Disk)
  }

  /** So it is for every snapshot a collection publishes, whatever the orders and the syncs in between. */
  lemma CollectedFiguresAgree(order: seq<U64>, raw: map<U64, Metrics>, ids: map<U64, Identity>, prices: Prices,
                              now: int, keys: seq<string>, team: string)
    requires Visits(order, raw.Keys) && Enumerates(keys, PricedIn(order, raw, ids, prices, now))
    requires team in Grouped(now, ByKey(PricedIn(order, raw, ids, prices, now), keys)).teamCosts
    ensures FiguresAgree(Grouped(now, ByKey(PricedIn(order, raw, ids, prices, now), keys)), team)
  {
    var costs := PricedIn(order, raw, ids, prices, now);
    OrderMakesPodMap(order, raw, ids, prices, now);
    CollectedIsItemized(costs, WinnersIn(order, ids), raw, ids, prices, now, keys);
    TeamFiguresAgree(now, ByKey(costs, keys), team);
  }

  /** No collected snapshot has costs without a team: they are under "unknown" at least. */
  lemma NoNamelessTeam(order: seq<U64>, raw: map<U64, Metrics>, ids: map<U64, Identity>, prices: Prices, now: int,
                       keys: seq<string>, start: map<U64, Identity>, syncs: seq<Sync>)
    requires Named(start) && Answered(ids, raw.Keys, start, syncs) && Visits(order, raw.Keys)
    requires Enumerates(keys, PricedIn(order, raw, ids, prices, now))
    ensures "" !in Grouped(now, ByKey(PricedIn(order, raw, ids, prices, now), keys)).teamCosts
  {
    var costs := PricedIn(order, raw, ids, prices, now);
    AnswersNamed(ids, raw.Keys, start, syncs);
    OrderMakesPodMap(order, raw, ids, prices, now);
    forall i | 0 <= i < |keys|
      ensures ByKey(costs, keys)[i].identity.team != ""
    {
      assert keys[i] in keys && keys[i] in WinnersIn(order, ids);
    }
    NoneOfTeam(ByKey(costs, keys), "");
    TeamsHoldTheirPods(now, ByKey(costs, keys), "");
  }

  lemma AnswersNamed(ids: map<U64, Identity>, cgroups: set<U64>, start: map<U64, Identity>, syncs: seq<Sync>)
    requires Named(start) && Answered(ids, cgroups, start, syncs)
    ensures Named(ids)
  {
    forall g | g in ids
      ensures ids[g].team != ""
    {
      assert AnsweredFor(ids, g, start, syncs);
      var n :| 0 <= n <= |syncs| && Answer(ids, g) == Answer(ViewAt(start, syncs, n), g);
      ViewsNamed(start, syncs, n);
    }
  }

  lemma {:induction false} NoneOfTeam(pods: seq<PodCost>, team: string)
    requires forall i :: 0 <= i < |pods| ==> pods[i].identity.team != team
    ensures OfTeam(pods, team) == []
    decreases |pods|
  {
    if pods != [] {
      NoneOfTeam(pods[..|pods| - 1], team);
    }
  }
}
