/** internal/exporter/slack.go: the cost-spike alarm. */
module Slack {
  import opened Aggregator
  import opened Baselines

  const KEEP: real := 0.9
  const FACTOR: real := 2.0

  /** The numbers of one alert message. */
  datatype SpikeAlert = SpikeAlert(team: string, cost: real, pct: real, baseline: real)

  function AlertFor(team: string, cost: real, baseline: real): SpikeAlert
    requires baseline != 0.0
  {
    SpikeAlert(team, cost, (cost - baseline) / baseline * 100.0, baseline)
  }

  /** What an alert says, on its own fields: the cost, the baseline, and by how many percent of the baseline
      the cost is above it. */
  lemma AlertSays(team: string, cost: real, baseline: real)
    requires baseline != 0.0
    ensures var a := AlertFor(team, cost, baseline);
      a.team == team && a.cost == cost && a.baseline == baseline && a.pct * baseline == (cost - baseline) * 100.0
  {
    var share := (cost - baseline) / baseline;
    assert share * baseline == cost - baseline;
    assert share * 100.0 * baseline == (share * baseline) * 100.0;
  }

  /** The alerts of one pass: one for every team above twice its baseline. */
  ghost predicate Reports(alerts: seq<SpikeAlert>, base: map<string, real>, costs: map<string, real>) {
    && (forall i, j :: 0 <= i < j < |alerts| ==> alerts[i].team != alerts[j].team)
    && (forall a :: a in alerts ==>
          Alarmed(FACTOR, base, costs, a.team) && a == AlertFor(a.team, costs[a.team], base[a.team]))
    && (forall t :: Alarmed(FACTOR, base, costs, t) ==> exists a :: a in alerts && a.team == t)
  }

  /** The alerts of a pass that visits the teams in a given order. */
  function AlertsIn(base: map<string, real>, costs: map<string, real>, order: seq<string>): seq<SpikeAlert> {
    if order == [] then []
    else
      var front, t := AlertsIn(base, costs, order[..|order| - 1]), order[|order| - 1];
      if Alarmed(FACTOR, base, costs, t) then front + [AlertFor(t, costs[t], base[t])] else front
  }

  lemma AlertsSnoc(base: map<string, real>, costs: map<string, real>, order: seq<string>, t: string)
    ensures AlertsIn(base, costs, order + [t]) ==
            AlertsIn(base, costs, order)
            + if Alarmed(FACTOR, base, costs, t) then [AlertFor(t, costs[t], base[t])] else []
  {
  }

  lemma {:induction false} AlertsOfOrder(base: map<string, real>, costs: map<string, real>, order: seq<string>)
    requires forall i, j :: 0 <= i < j < |order| ==> order[i] != order[j]
    ensures var alerts := AlertsIn(base, costs, order);
      && (forall i, j :: 0 <= i < j < |alerts| ==> alerts[i].team != alerts[j].team)
      && (forall a :: a in alerts ==>
            && a.team in order && Alarmed(FACTOR, base, costs, a.team)
            && a == AlertFor(a.team, costs[a.team], base[a.team]))
      && (forall t :: t in order && Alarmed(FACTOR, base, costs, t) ==> AlertFor(t, costs[t], base[t]) in alerts)
    decreases |order|
  {
    if order != [] {
      var front, last := order[..|order| - 1], order[|order| - 1];
      assert order == front + [last];
      AlertsOfOrder(base, costs, front);
      assert last !in front;
    }
  }

  lemma AlertsAreReports(base: map<string, real>, costs: map<string, real>, order: seq<string>)
    requires Lists(order, costs.Keys)
    ensures Reports(AlertsIn(base, costs, order), base, costs)
  {
    AlertsOfOrder(base, costs, order);
    forall t | Alarmed(FACTOR, base, costs, t)
      ensures exists a :: a in AlertsIn(base, costs, order) && a.team == t
    {
      assert AlertFor(t, costs[t], base[t]) in AlertsIn(base, costs, order);
    }
  }

  /** In plain numbers: a team has an alert exactly if it had a positive baseline and costs more than twice as
      much, and the alert shows that cost and that baseline. */
  lemma ReportsSay(alerts: seq<SpikeAlert>, base: map<string, real>, costs: map<string, real>)
    requires Reports(alerts, base, costs)
    ensures forall a :: a in alerts ==>
              && a.team in costs && a.team in base && a.cost == costs[a.team] && a.baseline == base[a.team]
              && a.baseline > 0.0 && a.cost > 2.0 * a.baseline && a.pct * a.baseline == (a.cost - a.baseline) * 100.0
    ensures forall t :: t in costs && t in base && base[t] > 0.0 && costs[t] > 2.0 * base[t] ==>
              exists a :: a in alerts && a.team == t
  {
    forall a | a in alerts
      ensures a.team in costs && a.team in base && base[a.team] > 0.0
      ensures a.cost == costs[a.team] && a.baseline == base[a.team] && a.cost > 2.0 * a.baseline
      ensures a.pct * a.baseline == (a.cost - a.baseline) * 100.0
    {
      assert Alarmed(FACTOR, base, costs, a.team);
      AlertSays(a.team, costs[a.team], base[a.team]);
    }
    forall t | t in costs && t in base && base[t] > 0.0 && costs[t] > 2.0 * base[t]
      ensures exists a :: a in alerts && a.team == t
    {
      assert Alarmed(FACTOR, base, costs, t);
    }
  }

  // ---------- alerts counted over runs ----------

  /** How many of a list of alerts are for a team. */
  function Sent(alerts: seq<SpikeAlert>, team: string): nat {
    if alerts == [] then 0 else (if alerts[0].team == team then 1 else 0) + Sent(alerts[1..], team)
  }

  lemma {:induction false} SentConcat(xs: seq<SpikeAlert>, ys: seq<SpikeAlert>, team: string)
    ensures Sent(xs + ys, team) == Sent(xs, team) + Sent(ys, team)
  {
    if xs == [] {
      assert xs + ys == ys;
    } else {
      assert (xs + ys)[1..] == xs[1..] + ys;
      SentConcat(xs[1..], ys, team);
    }
  }

  /** Alerts of different teams: at most one is for a given team. */
  lemma {:induction false} SentOnce(alerts: seq<SpikeAlert>, team: string)
    requires forall i, j :: 0 <= i < j < |alerts| ==> alerts[i].team != alerts[j].team
    ensures Sent(alerts, team) == if exists a :: a in alerts && a.team == team then 1 else 0
  {
    if alerts != [] {
      var rest := alerts[1..];
      assert alerts == [alerts[0]] + rest;
      SentOnce(rest, team);
    }
  }

  lemma SentInPass(alerts: seq<SpikeAlert>, base: map<string, real>, costs: map<string, real>, team: string)
    requires Reports(alerts, base, costs)
    ensures Sent(alerts, team) == if Alarmed(FACTOR, base, costs, team) then 1 else 0
  {
    SentOnce(alerts, team);
  }

  /** The alerts ever sent are, team by team, those the run of costs calls for. */
  ghost predicate Tallies(all: seq<SpikeAlert>, run: seq<map<string, real>>) {
    forall team :: Sent(all, team) == RunAlarms(KEEP, FACTOR, run, team)
  }

  lemma TalliesOneMore(all: seq<SpikeAlert>, run: seq<map<string, real>>, alerts: seq<SpikeAlert>,
                       costs: map<string, real>)
    requires Tallies(all, run) && Reports(alerts, BaselinesAfter(KEEP, run), costs)
    ensures Tallies(all + alerts, run + [costs])
    ensures BaselinesAfter(KEEP, run + [costs]) == Observed(KEEP, BaselinesAfter(KEEP, run), costs)
  {
    assert (run + [costs])[..|run + [costs]| - 1] == run;
    forall team
      ensures Sent(all + alerts, team) == RunAlarms(KEEP, FACTOR, run + [costs], team)
    {
      SentConcat(all, alerts, team);
      SentInPass(alerts, BaselinesAfter(KEEP, run), costs, team);
    }
  }

  class SlackExporter {
    var teamBaselines: map<string, real>

    /** The team costs of every pass, and every alert sent. */
    ghost var run: seq<map<string, real>>
    ghost var sent: seq<SpikeAlert>

    /** The baselines and the alerts are those of the run. */
    ghost predicate Valid()
      reads this
    {
      teamBaselines == BaselinesAfter(KEEP, run) && Tallies(sent, run)
    }

    constructor ()
      ensures Valid() && run == [] && sent == []
    {
      teamBaselines, run, sent := map[], [], [];
    }

    /** One turn of the loop. */
    method CheckTeam(team: string, cost: real) returns (alerts: seq<SpikeAlert>)
      modifies this`teamBaselines
      ensures teamBaselines == old(teamBaselines)[team :=
                if team in old(teamBaselines) then Next(KEEP, old(teamBaselines)[team], cost) else cost]
      ensures alerts == if team in old(teamBaselines) && Fires(FACTOR, old(teamBaselines)[team], cost)
                        then [AlertFor(team, cost, old(teamBaselines)[team])] else []
      ensures teamBaselines[team] ==
              if team in old(teamBaselines) then 0.9 * old(teamBaselines)[team] + 0.1 * cost else cost
      ensures alerts != [] <==> team in old(teamBaselines) && cost > 2.0 * old(teamBaselines)[team] > 0.0
    {
      alerts := [];
      if team !in teamBaselines {
        teamBaselines := teamBaselines[team := cost];
        return;
      }
      var baseline := teamBaselines[team];
      if baseline > 0.0 && cost > baseline * 2.0 {
        var pct := (cost - baseline) / baseline * 100.0;
        alerts := [SpikeAlert(team, cost, pct, baseline)];
      }
      teamBaselines := teamBaselines[team := baseline * 0.9 + cost * 0.1];
    }

    /** One pass over the latest snapshot's teams, in whichever order they come. */
    method CheckAnomalies(snap: Snapshot) returns (alerts: seq<SpikeAlert>)
      requires Valid()
      modifies this
      ensures Valid() && run == old(run) + [TeamTotals(snap, Whole)] && sent == old(sent) + alerts
      ensures teamBaselines == Observed(KEEP, old(teamBaselines), TeamTotals(snap, Whole))
      ensures Reports(alerts, old(teamBaselines), TeamTotals(snap, Whole))
      ensures forall a :: a in alerts ==>
                && a.team in snap.teamCosts && a.team in old(teamBaselines)
                && a.cost == snap.teamCosts[a.team].totalCost && a.baseline == old(teamBaselines)[a.team]
                && a.cost > 2.0 * a.baseline > 0.0 && a.pct * a.baseline == (a.cost - a.baseline) * 100.0
      ensures forall t :: t in snap.teamCosts && t in old(teamBaselines)
                          && snap.teamCosts[t].totalCost > 2.0 * old(teamBaselines)[t] > 0.0 ==>
                exists a :: a in alerts && a.team == t
    {
      alerts := CheckTeams(snap);
      ReportsSay(alerts, old(teamBaselines), TeamTotals(snap, Whole));
      ghost var costs := TeamTotals(snap, Whole);
      TalliesOneMore(sent, run, alerts, costs);
      run, sent := run + [costs], sent + alerts;
    }

    /** The loop. */
    method CheckTeams(snap: Snapshot) returns (alerts: seq<SpikeAlert>)
      modifies this`teamBaselines
      ensures teamBaselines == Observed(KEEP, old(teamBaselines), TeamTotals(snap, Whole))
      ensures Reports(alerts, old(teamBaselines), TeamTotals(snap, Whole))
    {
      alerts := [];
      ghost var was, costs := teamBaselines, TeamTotals(snap, Whole);
      ghost var order: seq<string> := [];
      var todo := snap.teamCosts.Keys;
      while todo != {}
        invariant todo <= costs.Keys == snap.teamCosts.Keys && Lists(order, costs.Keys - todo)
        invariant teamBaselines == Sweep(KEEP, was, costs, order) && alerts == AlertsIn(was, costs, order)
        decreases |todo|
      {
        var team :| team in todo;
        SweepAt(KEEP, was, costs, order, team);
        SweepSnoc(KEEP, was, costs, order, team);
        AlertsSnoc(was, costs, order, team);
        ListsOneMore(order, costs.Keys, todo, team);
        var more := CheckTeam(team, snap.teamCosts[team].totalCost);
        alerts, order := alerts + more, order + [team];
        todo := todo - {team};
      }
      assert costs.Keys - {} == costs.Keys;
      SweepIsObserved(KEEP, was, costs, order);
      AlertsAreReports(was, costs, order);
    }
  }

  lemma PowersOfNineTenths()
    ensures Pow(KEEP, 6) == 0.531441 && Pow(KEEP, 7) == 0.4782969
  {
    assert Pow(KEEP, 2) == 0.81;
    assert Pow(KEEP, 4) == KEEP * (KEEP * Pow(KEEP, 2)) == 0.6561;
    assert Pow(KEEP, 6) == KEEP * (KEEP * Pow(KEEP, 4));
  }

  /** After any history of non-negative costs, a team that settles at any positive cost raises at most
      seven more alerts, ever. */
  lemma SevenAlertsAtMost(before: seq<map<string, real>>, settled: seq<map<string, real>>, team: string, c: real)
    requires NonNegative(before, team) && SettledAt(settled, team, c) && c > 0.0
    ensures RunAlarms(KEEP, FACTOR, before + settled, team) <= RunAlarms(KEEP, FACTOR, before, team) + 7
  {
    PowersOfNineTenths();
    BurstBounded(KEEP, FACTOR, 7, before, settled, team, c);
  }

  /** All seven do come when the cost jumps a hundredfold. */
  lemma SevenAlertsOccur()
    ensures Alarms(KEEP, FACTOR, 1.0, 100.0, 7) == 7
  {
    PowersOfNineTenths();
    assert FACTOR * (0.531441 * (100.0 - 1.0)) > (FACTOR - 1.0) * 100.0;
    AlarmsAll(KEEP, FACTOR, 1.0, 100.0, 7);
  }

  /** A team whose costs never spread beyond a factor of two is never reported. */
  lemma WithinTwiceNeverAlerts(run: seq<map<string, real>>, team: string, lo: real, hi: real)
    requires Within(Seen(run, team), lo, hi) && hi <= 2.0 * lo
    ensures RunAlarms(KEEP, FACTOR, run, team) == 0
  {
    SteadyTeamNeverAlarms(KEEP, FACTOR, run, team, lo, hi);
  }
}
