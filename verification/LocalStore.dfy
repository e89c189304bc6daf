/** cmd/local/main.go, the store: totals, history, baselines and two-level alerts. */
module LocalStore {
  import opened Baselines
  import opened Reals
  import opened Sequences
  import opened Simulator
  import opened Sums

  const KEEP: real := 0.92
  const CRITICAL_FACTOR: real := 2.5
  const WARNING_FACTOR: real := 1.5
  const HISTORY_KEPT: nat := 480
  const ALERTS_KEPT: nat := 50

  datatype Level = Critical | Warning

  /** An alert with the numbers its message prints. */
  datatype Alert = Alert(time: int, team: string, level: Level, pct: real, cost: real)

  datatype HistoryPoint = HistoryPoint(time: int, total: real, teams: map<string, real>)

  /** What a metric list costs, per team and in all. */
  function TeamCosts(ms: seq<PodMetrics>): map<string, real> {
    if ms == [] then map[]
    else
      var front, last := TeamCosts(ms[..|ms| - 1]), ms[|ms| - 1];
      front[last.team := Get(front, last.team) + last.totalCost]
  }

  function TotalCost(ms: seq<PodMetrics>): real {
    if ms == [] then 0.0 else TotalCost(ms[..|ms| - 1]) + ms[|ms| - 1].totalCost
  }

  /** The teams' costs add up to the total. */
  lemma {:induction false} TeamsMakeTotal(ms: seq<PodMetrics>)
    ensures Sum(TeamCosts(ms)) == TotalCost(ms)
    decreases |ms|
  {
    if ms != [] {
      var front, last := ms[..|ms| - 1], ms[|ms| - 1];
      TeamsMakeTotal(front);
      SumUpdate(TeamCosts(front), last.team, Get(TeamCosts(front), last.team) + last.totalCost);
    }
  }

  /** A team's figure is the cost of exactly its pods, and one without pods has none. */
  lemma {:induction false} TeamHoldsItsPods(ms: seq<PodMetrics>, team: string)
    ensures team in TeamCosts(ms) <==> OfTeam(ms, team) != []
    ensures Get(TeamCosts(ms), team) == TotalCost(OfTeam(ms, team))
    decreases |ms|
  {
    if ms != [] {
      var front, last := ms[..|ms| - 1], ms[|ms| - 1];
      TeamHoldsItsPods(front, team);
      TotalSnoc(OfTeam(front, team), last);
    }
  }

  lemma TotalSnoc(ms: seq<PodMetrics>, m: PodMetrics)
    ensures TotalCost(ms + [m]) == TotalCost(ms) + m.totalCost
  {
  }

  /** A total is the sum of the pods' total costs. */
  lemma {:induction false} TotalIs(ms: seq<PodMetrics>)
    ensures TotalCost(ms) == SumSeq(seq(|ms|, i requires 0 <= i < |ms| => ms[i].totalCost))
    decreases |ms|
  {
    var xs := seq(|ms|, i requires 0 <= i < |ms| => ms[i].totalCost);
    if ms != [] {
      var front, last := ms[..|ms| - 1], ms[|ms| - 1];
      TotalIs(front);
      SumSeqSnoc(xs[..|ms| - 1], last.totalCost);
      assert xs == xs[..|ms| - 1] + [last.totalCost];
      assert xs[..|ms| - 1] == seq(|front|, i requires 0 <= i < |front| => front[i].totalCost);
    }
  }

  predicate IsAlerting(base: map<string, real>, costs: map<string, real>, t: string) {
    Alarmed(WARNING_FACTOR, base, costs, t)
  }

  /** The alert a team raises when it raises one. */
  function AlertFor(now: int, team: string, base: real, cost: real): Alert
    requires base != 0.0
  {
    Alert(now, team, if cost > base * CRITICAL_FACTOR then Critical else Warning, (cost - base) / base * 100.0, cost)
  }

  /** What an alert says, on its own fields. */
  lemma AlertSays(now: int, team: string, base: real, cost: real)
    requires base != 0.0
    ensures var a := AlertFor(now, team, base, cost);
      && a.time == now && a.team == team && a.cost == cost && a.pct * base == (cost - base) * 100.0
      && (a.level == Critical <==> cost > 2.5 * base)
  {
    var share := (cost - base) / base;
    assert share * base == cost - base;
    assert share * 100.0 * base == (share * base) * 100.0;
  }

  /** The alerts of one update: one for every alerting team. */
  ghost predicate Raises(raised: seq<Alert>, now: int, base: map<string, real>, costs: map<string, real>) {
    && (forall i, j :: 0 <= i < j < |raised| ==> raised[i].team != raised[j].team)
    && (forall a :: a in raised ==>
          IsAlerting(base, costs, a.team) && a == AlertFor(now, a.team, base[a.team], costs[a.team]))
    && (forall t :: IsAlerting(base, costs, t) ==> exists a :: a in raised && a.team == t)
  }

  /** The alerts of an update that visits the teams in a given order. */
  function AlertsIn(now: int, base: map<string, real>, costs: map<string, real>, order: seq<string>): seq<Alert> {
    if order == [] then []
    else
      var front, t := AlertsIn(now, base, costs, order[..|order| - 1]), order[|order| - 1];
      if IsAlerting(base, costs, t) then front + [AlertFor(now, t, base[t], costs[t])] else front
  }

  lemma AlertsSnoc(now: int, base: map<string, real>, costs: map<string, real>, order: seq<string>, t: string)
    ensures AlertsIn(now, base, costs, order + [t]) ==
            AlertsIn(now, base, costs, order)
            + if IsAlerting(base, costs, t) then [AlertFor(now, t, base[t], costs[t])] else []
  {
  }

  lemma {:induction false} AlertsOfOrder(now: int, base: map<string, real>, costs: map<string, real>,
                                         order: seq<string>)
    requires forall i, j :: 0 <= i < j < |order| ==> order[i] != order[j]
    ensures var alerts := AlertsIn(now, base, costs, order);
      && (forall i, j :: 0 <= i < j < |alerts| ==> alerts[i].team != alerts[j].team)
      && (forall a :: a in alerts ==>
            && a.team in order && IsAlerting(base, costs, a.team)
            && a == AlertFor(now, a.team, base[a.team], costs[a.team]))
      && (forall t :: t in order && IsAlerting(base, costs, t) ==> AlertFor(now, t, base[t], costs[t]) in alerts)
    decreases |order|
  {
    if order != [] {
      var front, last := order[..|order| - 1], order[|order| - 1];
      assert order == front + [last];
      AlertsOfOrder(now, base, costs, front);
      assert last !in front;
    }
  }

  lemma AlertsAreRaised(now: int, base: map<string, real>, costs: map<string, real>, order: seq<string>)
    requires Lists(order, costs.Keys)
    ensures Raises(AlertsIn(now, base, costs, order), now, base, costs)
  {
    AlertsOfOrder(now, base, costs, order);
    forall t | IsAlerting(base, costs, t)
      ensures exists a :: a in AlertsIn(now, base, costs, order) && a.team == t
    {
      assert AlertFor(now, t, base[t], costs[t]) in AlertsIn(now, base, costs, order);
    }
  }

  /** In plain numbers: a team has an alert exactly if it had a positive baseline and costs more than half as
      much again, and it is critical exactly if it costs more than two and a half times as much. */
  lemma RaisesSay(raised: seq<Alert>, now: int, base: map<string, real>, costs: map<string, real>)
    requires Raises(raised, now, base, costs)
    ensures forall a :: a in raised ==>
              && a.team in costs && a.team in base && a.time == now && a.cost == costs[a.team]
              && a.cost > 1.5 * base[a.team] > 0.0 && a.pct * base[a.team] == (a.cost - base[a.team]) * 100.0
              && (a.level == Critical <==> a.cost > 2.5 * base[a.team])
    ensures forall t :: t in costs && t in base && costs[t] > 1.5 * base[t] > 0.0 ==>
              exists a :: a in raised && a.team == t
  {
    forall a | a in raised
      ensures a.team in costs && a.team in base && a.time == now && a.cost == costs[a.team]
      ensures a.cost > 1.5 * base[a.team] > 0.0 && a.pct * base[a.team] == (a.cost - base[a.team]) * 100.0
      ensures a.level == Critical <==> a.cost > 2.5 * base[a.team]
    {
      assert IsAlerting(base, costs, a.team);
      AlertSays(now, a.team, base[a.team], costs[a.team]);
    }
    forall t | t in costs && t in base && costs[t] > 1.5 * base[t] > 0.0
      ensures exists a :: a in raised && a.team == t
    {
      assert IsAlerting(base, costs, t);
    }
  }

  // ---------- alerts counted over runs ----------

  /** How many of a list of alerts are for a team, critical ones only if asked. */
  function Raised(alerts: seq<Alert>, team: string, critical: bool): nat {
    if alerts == [] then 0
    else
      (if alerts[0].team == team && (critical ==> alerts[0].level == Critical) then 1 else 0)
      + Raised(alerts[1..], team, critical)
  }

  lemma {:induction false} RaisedConcat(xs: seq<Alert>, ys: seq<Alert>, team: string, critical: bool)
    ensures Raised(xs + ys, team, critical) == Raised(xs, team, critical) + Raised(ys, team, critical)
  {
    if xs == [] {
      assert xs + ys == ys;
    } else {
      assert (xs + ys)[1..] == xs[1..] + ys;
      RaisedConcat(xs[1..], ys, team, critical);
    }
  }

  lemma {:induction false} RaisedNone(alerts: seq<Alert>, team: string, critical: bool)
    requires forall i :: 0 <= i < |alerts| ==> alerts[i].team != team
    ensures Raised(alerts, team, critical) == 0
  {
    if alerts != [] {
      RaisedNone(alerts[1..], team, critical);
    }
  }

  lemma RaisedOne(alerts: seq<Alert>, i: nat, team: string, critical: bool)
    requires i < |alerts| && alerts[i].team == team
    requires forall j :: 0 <= j < |alerts| && j != i ==> alerts[j].team != team
    ensures Raised(alerts, team, critical) == if critical ==> alerts[i].level == Critical then 1 else 0
  {
    assert alerts == alerts[..i] + ([alerts[i]] + alerts[i + 1..]);
    RaisedConcat(alerts[..i], [alerts[i]] + alerts[i + 1..], team, critical);
    RaisedConcat([alerts[i]], alerts[i + 1..], team, critical);
    RaisedNone(alerts[..i], team, critical);
    RaisedNone(alerts[i + 1..], team, critical);
    assert Raised([alerts[i]], team, critical) == if critical ==> alerts[i].level == Critical then 1 else 0;
  }

  function FactorOf(critical: bool): real {
    if critical then CRITICAL_FACTOR else WARNING_FACTOR
  }

  /** One update raises one alert for a team that crosses the threshold, and none for any other. */
  lemma RaisedByUpdate(raised: seq<Alert>, now: int, base: map<string, real>, costs: map<string, real>,
                       team: string, critical: bool)
    requires Raises(raised, now, base, costs)
    ensures Raised(raised, team, critical) == if Alarmed(FactorOf(critical), base, costs, team) then 1 else 0
  {
    CriticalIsAlerting(base, costs, team);
    if IsAlerting(base, costs, team) {
      var a :| a in raised && a.team == team;
      var i :| 0 <= i < |raised| && raised[i] == a;
      RaisedOne(raised, i, team, critical);
    } else {
      forall i | 0 <= i < |raised|
        ensures raised[i].team != team
      {
        assert raised[i] in raised;
      }
      RaisedNone(raised, team, critical);
    }
  }

  lemma CriticalIsAlerting(base: map<string, real>, costs: map<string, real>, team: string)
    ensures Alarmed(CRITICAL_FACTOR, base, costs, team) ==> IsAlerting(base, costs, team)
  {
    if Alarmed(CRITICAL_FACTOR, base, costs, team) {
      MulOrder(WARNING_FACTOR, CRITICAL_FACTOR, base[team]);
    }
  }

  /** The alerts ever raised are, team by team and level by level, those the run of costs calls for. */
  ghost predicate Tallies(all: seq<Alert>, run: seq<map<string, real>>) {
    forall team, critical :: Raised(all, team, critical) == RunAlarms(KEEP, FactorOf(critical), run, team)
  }

  lemma TalliesOneMore(all: seq<Alert>, run: seq<map<string, real>>, raised: seq<Alert>, now: int,
                       costs: map<string, real>)
    requires Tallies(all, run) && Raises(raised, now, BaselinesAfter(KEEP, run), costs)
    ensures Tallies(all + raised, run + [costs])
    ensures BaselinesAfter(KEEP, run + [costs]) == Observed(KEEP, BaselinesAfter(KEEP, run), costs)
  {
    assert (run + [costs])[..|run + [costs]| - 1] == run;
    forall team, critical
      ensures Raised(all + raised, team, critical) == RunAlarms(KEEP, FactorOf(critical), run + [costs], team)
    {
      RaisedConcat(all, raised, team, critical);
      RaisedByUpdate(raised, now, BaselinesAfter(KEEP, run), costs, team, critical);
    }
  }

  // ---------- alerts in the order they were raised ----------

  ghost predicate RaisedBy(raised: seq<Alert>, base: map<string, real>, costs: map<string, real>) {
    exists now :: Raises(raised, now, base, costs)
  }

  /** Batch by batch, the alerts the updates of a run raised. */
  ghost predicate Recorded(batches: seq<seq<Alert>>, run: seq<map<string, real>>) {
    && |batches| == |run|
    && forall i :: 0 <= i < |run| ==> RaisedBy(batches[i], BaselinesAfter(KEEP, run[..i]), run[i])
  }

  function Flat(batches: seq<seq<Alert>>): seq<Alert> {
    if batches == [] then [] else Flat(batches[..|batches| - 1]) + batches[|batches| - 1]
  }

  lemma RecordedOneMore(batches: seq<seq<Alert>>, run: seq<map<string, real>>, raised: seq<Alert>, now: int,
                        costs: map<string, real>)
    requires Recorded(batches, run) && Raises(raised, now, BaselinesAfter(KEEP, run), costs)
    ensures Recorded(batches + [raised], run + [costs]) && Flat(batches + [raised]) == Flat(batches) + raised
  {
    var batches', run' := batches + [raised], run + [costs];
    assert batches'[..|batches'| - 1] == batches;
    forall i | 0 <= i < |run'|
      ensures RaisedBy(batches'[i], BaselinesAfter(KEEP, run'[..i]), run'[i])
    {
      if i < |run| {
        assert run'[..i] == run[..i];
      } else {
        assert run'[..i] == run;
      }
    }
  }

  /** The batch and the place in it that a place in the flat list belongs to. */
  lemma {:induction false} Place(batches: seq<seq<Alert>>, p: nat) returns (i: nat, r: nat)
    requires p < |Flat(batches)|
    ensures i < |batches| && r < |batches[i]| && Flat(batches)[p] == batches[i][r]
    ensures p == |Flat(batches[..i])| + r
    decreases |batches|
  {
    var front := batches[..|batches| - 1];
    if p < |Flat(front)| {
      i, r := Place(front, p);
      assert front[..i] == batches[..i];
    } else {
      i, r := |front|, p - |Flat(front)|;
    }
  }

  /** Later batches lie later in the flat list. */
  lemma {:induction false} BatchesInOrder(batches: seq<seq<Alert>>, i: nat, j: nat)
    requires i < j <= |batches|
    ensures |Flat(batches[..i])| + |batches[i]| <= |Flat(batches[..j])|
    decreases j - i
  {
    assert batches[..j][..j - 1] == batches[..j - 1];
    if i < j - 1 {
      BatchesInOrder(batches, i, j - 1);
    }
  }

  /** What an alert says about the moment it was raised. */
  lemma AlertMeans(batches: seq<seq<Alert>>, run: seq<map<string, real>>, i: nat, r: nat)
    requires Recorded(batches, run) && i < |batches| && r < |batches[i]|
    ensures var base, costs, a := BaselinesAfter(KEEP, run[..i]), run[i], batches[i][r];
      && IsAlerting(base, costs, a.team)
      && (a.level == Critical <==> Fires(CRITICAL_FACTOR, base[a.team], costs[a.team]))
    ensures forall s :: 0 <= s < |batches[i]| && s != r ==> batches[i][s].team != batches[i][r].team
  {
    var base := BaselinesAfter(KEEP, run[..i]);
    assert RaisedBy(batches[i], base, run[i]);
    var now :| Raises(batches[i], now, base, run[i]);
    assert batches[i][r] in batches[i];
  }

  /** Once a team's cost has settled, no critical alert for it follows a warning, wherever the two stand in
      the list of all alerts and whatever was raised for other teams in between. */
  lemma NoCriticalAfterWarning(batches: seq<seq<Alert>>, before: seq<map<string, real>>,
                               settled: seq<map<string, real>>, team: string, c: real, p: nat, q: nat)
    requires Recorded(batches, before + settled) && SettledAt(settled, team, c) && c > 0.0
    requires |Flat(batches[..|before|])| <= p < q < |Flat(batches)|
    requires Flat(batches)[p].team == team && Flat(batches)[q].team == team && Flat(batches)[p].level == Warning
    ensures Flat(batches)[q].level == Warning
  {
    var run := before + settled;
    var i, r := Place(batches, p);
    var j, t := Place(batches, q);
    AlertMeans(batches, run, i, r);
    AlertMeans(batches, run, j, t);
    LaterPlace(batches, p, q, |before|, i, r, j, t);
    WarningThenNoCritical(before, settled, team, c, i, j);
  }

  lemma LaterPlace(batches: seq<seq<Alert>>, p: nat, q: nat, n: nat, i: nat, r: nat, j: nat, t: nat)
    requires n <= |batches| && |Flat(batches[..n])| <= p < q
    requires i < |batches| && r < |batches[i]| && p == |Flat(batches[..i])| + r
    requires j < |batches| && t < |batches[j]| && q == |Flat(batches[..j])| + t
    requires forall s :: 0 <= s < |batches[i]| && s != r ==> batches[i][s].team != batches[i][r].team
    requires batches[i][r].team == batches[j][t].team
    ensures n <= i < j
  {
    if i < n {
      BatchesInOrder(batches, i, n);
    }
    if j < i {
      BatchesInOrder(batches, j, i);
    }
  }

  /** A team that only warns at one moment of the settled run is never critical at a later one. */
  lemma WarningThenNoCritical(before: seq<map<string, real>>, settled: seq<map<string, real>>, team: string, c: real,
                              i: nat, j: nat)
    requires SettledAt(settled, team, c) && c > 0.0 && |before| <= i < j < |before + settled|
    requires var run := before + settled;
      && IsAlerting(BaselinesAfter(KEEP, run[..i]), run[i], team)
      && !Fires(CRITICAL_FACTOR, BaselinesAfter(KEEP, run[..i])[team], run[i][team])
      && IsAlerting(BaselinesAfter(KEEP, run[..j]), run[j], team)
    ensures var run := before + settled;
      !Fires(CRITICAL_FACTOR, BaselinesAfter(KEEP, run[..j])[team], run[j][team])
  {
    var run := before + settled;
    var later := run[i..j];
    assert run[..j] == run[..i] + later;
    assert forall k :: 0 <= k < |later| ==> later[k] == settled[i - |before| + k];
    assert run[i] == settled[i - |before|] && run[j] == settled[j - |before|];
    var b := BaselinesAfter(KEEP, run[..i])[team];
    var n := SettlingRun(KEEP, CRITICAL_FACTOR, run[..i], later, team, c);
    if Fires(CRITICAL_FACTOR, Settling(KEEP, b, c, n), c) {
      CriticalsComeFirst(b, c, 0, n);
    }
  }

  /** Baselines and alerts are those a run of team costs calls for. */
  ghost predicate OfRun(run: seq<map<string, real>>, batches: seq<seq<Alert>>, baselines: map<string, real>) {
    baselines == BaselinesAfter(KEEP, run) && Tallies(Flat(batches), run) && Recorded(batches, run)
  }

  lemma OfRunOneMore(run: seq<map<string, real>>, batches: seq<seq<Alert>>, baselines: map<string, real>,
                     raised: seq<Alert>, now: int, costs: map<string, real>)
    requires OfRun(run, batches, baselines) && Raises(raised, now, baselines, costs)
    ensures OfRun(run + [costs], batches + [raised], Observed(KEEP, baselines, costs))
    ensures Flat(batches + [raised]) == Flat(batches) + raised
  {
    TalliesOneMore(Flat(batches), run, raised, now, costs);
    RecordedOneMore(batches, run, raised, now, costs);
  }

  class Store {
    var latest: seq<PodMetrics>
    var history: seq<HistoryPoint>
    var baselines: map<string, real>
    var alerts: seq<Alert>

    /** The team costs and the history point of every update, and the alerts raised, update by update. */
    ghost var run: seq<map<string, real>>
    ghost var allPoints: seq<HistoryPoint>
    ghost var batches: seq<seq<Alert>>

    /** The store keeps the last 480 points and the last 50 alerts of all there ever were, and the
        baselines and alerts are those of its run. */
    ghost predicate Valid()
      reads this
    {
      && history == Last(allPoints, HISTORY_KEPT) && alerts == Last(Flat(batches), ALERTS_KEPT)
      && OfRun(run, batches, baselines)
    }

    constructor ()
      ensures Valid() && latest == [] && run == [] && allPoints == [] && batches == []
    {
      latest, history, baselines, alerts := [], [], map[], [];
      run, allPoints, batches := [], [], [];
    }

    method Update(metrics: seq<PodMetrics>, now: int) returns (ghost raised: seq<Alert>)
      requires Valid()
      modifies this
      ensures Valid() && latest == metrics
      ensures |history| == (if |allPoints| <= 480 then |allPoints| else 480) && |alerts| <= 50
      ensures run == old(run) + [TeamCosts(metrics)]
      ensures allPoints == old(allPoints) + [HistoryPoint(now, TotalCost(metrics), TeamCosts(metrics))]
      ensures Raises(raised, now, old(baselines), TeamCosts(metrics))
      ensures batches == old(batches) + [raised] && Flat(batches) == Flat(old(batches)) + raised
      ensures forall a :: a in raised ==>
                && a.team in TeamCosts(metrics) && a.team in old(baselines)
                && a.time == now && a.cost == TeamCosts(metrics)[a.team] && a.cost > 1.5 * old(baselines)[a.team] > 0.0
                && (a.level == Critical <==> a.cost > 2.5 * old(baselines)[a.team])
      ensures forall t :: t in TeamCosts(metrics) && t in old(baselines)
                          && TeamCosts(metrics)[t] > 1.5 * old(baselines)[t] > 0.0 ==>
                exists a :: a in raised && a.team == t
    {
      latest := metrics;
      var teamTotals, total := SumTeams(metrics);
      Remember(HistoryPoint(now, total, teamTotals));
      raised := Check(teamTotals, now);
      RaisesSay(raised, now, old(baselines), TeamCosts(metrics));
    }

    /** The alerts' part of Update. */
    method Check(teamTotals: map<string, real>, now: int) returns (ghost raised: seq<Alert>)
      requires OfRun(run, batches, baselines) && alerts == Last(Flat(batches), ALERTS_KEPT)
      modifies this`baselines, this`alerts, this`run, this`batches
      ensures OfRun(run, batches, baselines) && alerts == Last(Flat(batches), ALERTS_KEPT)
      ensures run == old(run) + [teamTotals] && Raises(raised, now, old(baselines), teamTotals)
      ensures batches == old(batches) + [raised] && Flat(batches) == Flat(old(batches)) + raised
    {
      raised := CheckBaselines(teamTotals, now);
      TrimAlerts();
      OfRunOneMore(run, batches, old(baselines), raised, now, teamTotals);
      LastOfLast(Flat(batches), raised, ALERTS_KEPT);
      run, batches := run + [teamTotals], batches + [raised];
    }

    /** The end of Update. */
    method TrimAlerts()
      modifies this`alerts
      ensures alerts == Last(old(alerts), ALERTS_KEPT)
    {
      if |alerts| > 50 {
        alerts := alerts[|alerts| - 50..];
      }
    }

    /** The history's part of Update. */
    method Remember(point: HistoryPoint)
      requires history == Last(allPoints, HISTORY_KEPT)
      modifies this`history, this`allPoints
      ensures allPoints == old(allPoints) + [point] && history == Last(allPoints, HISTORY_KEPT)
    {
      LastPush(allPoints, point, HISTORY_KEPT);
      history := history + [point];
      if |history| > 480 {
        history := history[1..];
      }
      allPoints := allPoints + [point];
    }

    /** The first loop of Update. */
    method SumTeams(metrics: seq<PodMetrics>) returns (teamTotals: map<string, real>, total: real)
      ensures teamTotals == TeamCosts(metrics) && total == TotalCost(metrics)
    {
      teamTotals, total := map[], 0.0;
      for i := 0 to |metrics|
        invariant teamTotals == TeamCosts(metrics[..i]) && total == TotalCost(metrics[..i])
      {
        var m := metrics[i];
        teamTotals := teamTotals[m.team := Get(teamTotals, m.team) + m.totalCost];
        total := total + m.totalCost;
        assert metrics[..i + 1][..i] == metrics[..i];
      }
      assert metrics[..|metrics|] == metrics;
    }

    /** One turn of the second loop. */
    method CheckTeam(team: string, cost: real, now: int) returns (ghost raised: seq<Alert>)
      modifies this`baselines, this`alerts
      ensures baselines == old(baselines)[team :=
                if team in old(baselines) then Next(KEEP, old(baselines)[team], cost) else cost]
      ensures alerts == old(alerts) + raised
      ensures raised == if team in old(baselines) && Fires(WARNING_FACTOR, old(baselines)[team], cost)
                        then [AlertFor(now, team, old(baselines)[team], cost)] else []
      ensures baselines[team] == if team in old(baselines) then 0.92 * old(baselines)[team] + 0.08 * cost else cost
      ensures raised != [] <==> team in old(baselines) && cost > 1.5 * old(baselines)[team] > 0.0
    {
      raised := [];
      if team !in baselines {
        baselines := baselines[team := cost];
        return;
      }
      var base := baselines[team];
      if base > 0.0 && cost > base * 2.5 {
        var pct := (cost - base) / base * 100.0;
        raised := [Alert(now, team, Critical, pct, cost)];
        alerts := alerts + [Alert(now, team, Critical, pct, cost)];
        MulOrder(1.5, 2.5, base);
      } else if base > 0.0 && cost > base * 1.5 {
        var pct := (cost - base) / base * 100.0;
        raised := [Alert(now, team, Warning, pct, cost)];
        alerts := alerts + [Alert(now, team, Warning, pct, cost)];
      }
      baselines := baselines[team := base * 0.92 + cost * 0.08];
    }

    /** The second loop of Update: the teams, in whichever order they come. */
    method CheckBaselines(teamTotals: map<string, real>, now: int) returns (ghost raised: seq<Alert>)
      modifies this`baselines, this`alerts
      ensures baselines == Observed(KEEP, old(baselines), teamTotals)
      ensures Raises(raised, now, old(baselines), teamTotals) && alerts == old(alerts) + raised
    {
      raised := [];
      ghost var was, kept := baselines, alerts;
      ghost var order: seq<string> := [];
      var todo := teamTotals.Keys;
      while todo != {}
        invariant todo <= teamTotals.Keys && Lists(order, teamTotals.Keys - todo)
        invariant baselines == Sweep(KEEP, was, teamTotals, order)
        invariant raised == AlertsIn(now, was, teamTotals, order) && alerts == kept + raised
        decreases |todo|
      {
        var team :| team in todo;
        SweepAt(KEEP, was, teamTotals, order, team);
        SweepSnoc(KEEP, was, teamTotals, order, team);
        AlertsSnoc(now, was, teamTotals, order, team);
        ListsOneMore(order, teamTotals.Keys, todo, team);
        ghost var more := CheckTeam(team, teamTotals[team], now);
        assert kept + raised + more == kept + (raised + more);
        raised, order := raised + more, order + [team];
        todo := todo - {team};
      }
      assert teamTotals.Keys - {} == teamTotals.Keys;
      SweepIsObserved(KEEP, was, teamTotals, order);
      AlertsAreRaised(now, was, teamTotals, order);
    }

    /** alertsHandler: the youngest 50 of all alerts ever raised, newest first. */
    method NewestFirst() returns (rev: array<Alert>)
      requires Valid()
      ensures fresh(rev) && rev.Length == if |Flat(batches)| <= 50 then |Flat(batches)| else 50
      ensures forall i :: 0 <= i < rev.Length ==> rev[i] == Flat(batches)[|Flat(batches)| - 1 - i]
    {
      rev := new Alert[|alerts|];
      for i := 0 to |alerts|
        invariant forall j :: 0 <= j < i ==> rev[|alerts| - 1 - j] == alerts[j]
      {
        rev[|alerts| - 1 - i] := alerts[i];
      }
      assert forall i :: 0 <= i < |alerts| ==> rev[i] == rev[|alerts| - 1 - (|alerts| - 1 - i)];
    }
  }

  // ---------- a cost that settles ----------

  lemma Powers()
    ensures CRITICAL_FACTOR * Pow(KEEP, 7) <= CRITICAL_FACTOR - 1.0
    ensures WARNING_FACTOR * Pow(KEEP, 14) <= WARNING_FACTOR - 1.0
    ensures Pow(KEEP, 6) >= 0.606 && Pow(KEEP, 13) >= 0.338
  {
  }

  /** After any history of non-negative costs, a team that settles at any positive cost raises at most
      seven more critical alerts and at most fourteen more alerts in all. */
  lemma SevenCriticalFourteenInAll(before: seq<map<string, real>>, settled: seq<map<string, real>>,
                                   team: string, c: real)
    requires NonNegative(before, team) && SettledAt(settled, team, c) && c > 0.0
    ensures RunAlarms(KEEP, CRITICAL_FACTOR, before + settled, team)
            <= RunAlarms(KEEP, CRITICAL_FACTOR, before, team) + 7
    ensures RunAlarms(KEEP, WARNING_FACTOR, before + settled, team)
            <= RunAlarms(KEEP, WARNING_FACTOR, before, team) + 14
  {
    Powers();
    BurstBounded(KEEP, CRITICAL_FACTOR, 7, before, settled, team, c);
    BurstBounded(KEEP, WARNING_FACTOR, 14, before, settled, team, c);
  }

  /** Both bounds are reached when the cost jumps a hundredfold. */
  lemma SevenAndFourteenOccur()
    ensures Alarms(KEEP, CRITICAL_FACTOR, 1.0, 100.0, 7) == 7 && Alarms(KEEP, WARNING_FACTOR, 1.0, 100.0, 14) == 14
  {
    Powers();
    MulOrder(0.606, Pow(KEEP, 6), 100.0 - 1.0);
    MulOrder(0.338, Pow(KEEP, 13), 100.0 - 1.0);
    AlarmsAll(KEEP, CRITICAL_FACTOR, 1.0, 100.0, 7);
    AlarmsAll(KEEP, WARNING_FACTOR, 1.0, 100.0, 14);
  }

  /** While the cost stays settled every critical alert comes before every mere warning. */
  lemma CriticalsComeFirst(b: real, c: real, warning: nat, critical: nat)
    requires b >= 0.0 && c > 0.0
    requires Fires(WARNING_FACTOR, Settling(KEEP, b, c, warning), c)
    requires !Fires(CRITICAL_FACTOR, Settling(KEEP, b, c, warning), c)
    requires Fires(CRITICAL_FACTOR, Settling(KEEP, b, c, critical), c)
    ensures critical < warning
  {
    var w := Settling(KEEP, b, c, warning);
    MulOrder(1.0, WARNING_FACTOR, w);
    if b > c {
      SettlingFalls(b, c, warning);
    } else if warning <= critical {
      SettlingRises(KEEP, b, c, warning, critical);
      MulOrder(w, Settling(KEEP, b, c, critical), CRITICAL_FACTOR);
    }
  }

  lemma SettlingFalls(b: real, c: real, n: nat)
    requires b > c
    ensures Settling(KEEP, b, c, n) >= c
  {
  }

  /** A team whose costs never spread beyond a factor of 1.5 is never reported. */
  lemma WithinHalfAgainNeverAlerts(run: seq<map<string, real>>, team: string, lo: real, hi: real)
    requires Within(Seen(run, team), lo, hi) && hi <= 1.5 * lo
    ensures RunAlarms(KEEP, WARNING_FACTOR, run, team) == 0
  {
    SteadyTeamNeverAlarms(KEEP, WARNING_FACTOR, run, team, lo, hi);
  }
}
