/** The exponential moving average both alarms keep per team, and what it bounds.

    internal/exporter/slack.go keeps nine tenths of the old baseline and alerts above twice the baseline;
    cmd/local/main.go keeps 0.92 and has two thresholds, 2.5 and 1.5. */
module Baselines {
  import opened Reals

  function Next(keep: real, baseline: real, cost: real): real {
    baseline * keep + cost * (1.0 - keep)
  }

  predicate Fires(factor: real, baseline: real, cost: real) {
    baseline > 0.0 && cost > baseline * factor
  }

  /** The baseline that starts at `b` after the costs `cs`. */
  function Follow(keep: real, b: real, cs: seq<real>): real {
    if cs == [] then b else Next(keep, Follow(keep, b, cs[..|cs| - 1]), cs[|cs| - 1])
  }

  function Pow(x: real, n: nat): real {
    if n == 0 then 1.0 else x * Pow(x, n - 1)
  }

  /** The weighted sum in which each later cost counts `1 / keep` times as much as the one before. */
  function Weighted(keep: real, cs: seq<real>): real {
    if cs == [] then 0.0 else (1.0 - keep) * Pow(keep, |cs| - 1) * cs[0] + Weighted(keep, cs[1..])
  }

  lemma {:induction false} WeightedSnoc(keep: real, cs: seq<real>, c: real)
    ensures Weighted(keep, cs + [c]) == keep * Weighted(keep, cs) + (1.0 - keep) * c
  {
    if cs == [] {
      assert [c][1..] == [];
      assert Weighted(keep, [] + [c]) == (1.0 - keep) * Pow(keep, 0) * c + Weighted(keep, []);
    } else {
      assert (cs + [c])[1..] == cs[1..] + [c];
      WeightedSnoc(keep, cs[1..], c);
      var w, p, x := 1.0 - keep, Pow(keep, |cs| - 1), cs[0];
      assert Pow(keep, |cs|) == keep * p;
      assert w * (keep * p) * x == keep * (w * p * x);
    }
  }

  /** A start faded once per later cost, and the later costs weighted by their age. */
  function Faded(keep: real, b: real, cs: seq<real>): real {
    Pow(keep, |cs|) * b + Weighted(keep, cs)
  }

  /** One more observation. */
  lemma FadedSnoc(keep: real, b: real, cs: seq<real>, c: real)
    ensures Faded(keep, b, cs + [c]) == Next(keep, Faded(keep, b, cs), c)
  {
    WeightedSnoc(keep, cs, c);
    FadeAll(keep, Pow(keep, |cs|), Pow(keep, |cs + [c]|), b, Weighted(keep, cs), c);
  }

  lemma FadeAll(keep: real, p: real, q: real, b: real, w: real, c: real)
    requires q == keep * p
    ensures q * b + (keep * w + (1.0 - keep) * c) == Next(keep, p * b + w, c)
  {
  }

  /** The running baseline is the faded start plus the age-weighted costs. */
  lemma {:induction false} FollowClosedForm(keep: real, b: real, cs: seq<real>)
    ensures Follow(keep, b, cs) == Faded(keep, b, cs)
    decreases |cs|
  {
    if cs != [] {
      var front, c := cs[..|cs| - 1], cs[|cs| - 1];
      FollowClosedForm(keep, b, front);
      FadedSnoc(keep, b, front, c);
      assert cs == front + [c];
    }
  }

  ghost predicate Within(cs: seq<real>, lo: real, hi: real) {
    forall i :: 0 <= i < |cs| ==> lo <= cs[i] <= hi
  }

  lemma NextWithin(keep: real, b: real, c: real, lo: real, hi: real)
    requires 0.0 <= keep <= 1.0 && lo <= b <= hi && lo <= c <= hi
    ensures lo <= Next(keep, b, c) <= hi
  {
    MulNonNegative(b - lo, keep);
    MulNonNegative(c - lo, 1.0 - keep);
    MulNonNegative(hi - b, keep);
    MulNonNegative(hi - c, 1.0 - keep);
    assert Next(keep, b, c) - lo == (b - lo) * keep + (c - lo) * (1.0 - keep);
    assert hi - Next(keep, b, c) == (hi - b) * keep + (hi - c) * (1.0 - keep);
  }

  lemma {:induction false} FollowWithin(keep: real, b: real, cs: seq<real>, lo: real, hi: real)
    requires 0.0 <= keep <= 1.0 && lo <= b <= hi && Within(cs, lo, hi)
    ensures lo <= Follow(keep, b, cs) <= hi
    decreases |cs|
  {
    if cs != [] {
      FollowWithin(keep, b, cs[..|cs| - 1], lo, hi);
      NextWithin(keep, Follow(keep, b, cs[..|cs| - 1]), cs[|cs| - 1], lo, hi);
    }
  }

  // ---------- a cost that settles ----------

  /** The baseline after `n` observations of the one cost `c`. */
  function Settling(keep: real, b: real, c: real, n: nat): real {
    if n == 0 then b else Next(keep, Settling(keep, b, c, n - 1), c)
  }

  /** The distance to the new level shrinks geometrically. */
  lemma GapShrinks(keep: real, b: real, c: real, n: nat)
    ensures c - Settling(keep, b, c, n) == Pow(keep, n) * (c - b)
  {
    GapIs(keep, b, c, c - b, n);
  }

  lemma {:induction false} GapIs(keep: real, b: real, c: real, d: real, n: nat)
    requires d == c - b
    ensures Settling(keep, b, c, n) == c - Pow(keep, n) * d
  {
    if n > 0 {
      GapIs(keep, b, c, d, n - 1);
      GapStep(keep, c, Pow(keep, n - 1), Pow(keep, n), d);
    }
  }

  lemma GapStep(keep: real, c: real, p: real, q: real, d: real)
    requires q == keep * p
    ensures Next(keep, c - p * d, c) == c - q * d
  {
    var gap := p * d;
    assert Next(keep, c - gap, c) == c - keep * gap;
    assert keep * (p * d) == keep * p * d;
  }

  lemma {:induction false} PowInUnit(keep: real, n: nat)
    requires 0.0 <= keep <= 1.0
    ensures 0.0 <= Pow(keep, n) <= 1.0
  {
    if n > 0 {
      PowInUnit(keep, n - 1);
      var p := Pow(keep, n - 1);
      assert Pow(keep, n) == keep * p;
      MulNonNegative(keep, p);
      MulOrder(keep, 1.0, p);
    }
  }

  lemma {:induction false} PowShrinks(keep: real, m: nat, n: nat)
    requires 0.0 <= keep <= 1.0 && m <= n
    ensures Pow(keep, n) <= Pow(keep, m)
    decreases n - m
  {
    if m < n {
      PowShrinks(keep, m, n - 1);
      PowInUnit(keep, n - 1);
      MulOrder(keep, 1.0, Pow(keep, n - 1));
    }
  }

  /** The n-th observation alarms exactly while the remaining gap exceeds a fixed share of the cost. */
  lemma FiresIffGapIsWide(keep: real, factor: real, b: real, c: real, n: nat)
    requires factor > 0.0
    ensures Fires(factor, Settling(keep, b, c, n), c) <==>
            Settling(keep, b, c, n) > 0.0 && factor * (Pow(keep, n) * (c - b)) > (factor - 1.0) * c
  {
    GapShrinks(keep, b, c, n);
    var s, g := Settling(keep, b, c, n), Pow(keep, n) * (c - b);
    assert s * factor == factor * c - factor * g;
  }

  /** From the m-th observation on, when the geometric gap has shrunk below the threshold's share, no
      observation alarms, whatever baseline the team came with. */
  lemma QuietAfter(keep: real, factor: real, b: real, c: real, m: nat, n: nat)
    requires 0.0 <= keep <= 1.0 && factor >= 1.0 && b >= 0.0 && c > 0.0 && m <= n
    requires factor * Pow(keep, m) <= factor - 1.0
    ensures !Fires(factor, Settling(keep, b, c, n), c)
  {
    FiresIffGapIsWide(keep, factor, b, c, n);
    PowShrinks(keep, m, n);
    PowInUnit(keep, n);
    GapNarrow(factor, Pow(keep, m), Pow(keep, n), c - b, c);
  }

  lemma GapNarrow(factor: real, p: real, q: real, d: real, c: real)
    requires factor >= 1.0 && 0.0 <= q <= p && d <= c && c > 0.0 && factor * p <= factor - 1.0
    ensures factor * (q * d) <= (factor - 1.0) * c
  {
    MulOrder(d, c, q);
    MulOrder(q, p, c);
    assert q * d <= p * c;
    MulOrder(q * d, p * c, factor);
    MulOrder(factor * p, factor - 1.0, c);
    assert p * c * factor == factor * p * c;
  }

  /** Alarms among the first `n` observations of a settled cost. */
  function Alarms(keep: real, factor: real, b: real, c: real, n: nat): nat {
    if n == 0 then 0
    else Alarms(keep, factor, b, c, n - 1) + if Fires(factor, Settling(keep, b, c, n - 1), c) then 1 else 0
  }

  lemma {:induction false} AlarmsBounded(keep: real, factor: real, b: real, c: real, m: nat, n: nat)
    requires 0.0 <= keep <= 1.0 && factor >= 1.0 && b >= 0.0 && c > 0.0
    requires factor * Pow(keep, m) <= factor - 1.0
    ensures Alarms(keep, factor, b, c, n) <= m
    ensures Alarms(keep, factor, b, c, n) <= n
    decreases n
  {
    if n > 0 {
      AlarmsBounded(keep, factor, b, c, m, n - 1);
      if n > m {
        QuietAfter(keep, factor, b, c, m, n - 1);
      }
    }
  }

  /** Every one of the first `n` observations alarms while the gap after the last of them is wide. */
  lemma {:induction false} AlarmsAll(keep: real, factor: real, b: real, c: real, n: nat)
    requires 0.0 <= keep <= 1.0 && factor >= 1.0 && 0.0 < b <= c && n > 0
    requires factor * (Pow(keep, n - 1) * (c - b)) > (factor - 1.0) * c
    ensures Alarms(keep, factor, b, c, n) == n
    decreases n
  {
    LastFires(keep, factor, b, c, n - 1);
    if n > 1 {
      StillWide(keep, factor, b, c, n - 1);
      AlarmsAll(keep, factor, b, c, n - 1);
    }
  }

  lemma LastFires(keep: real, factor: real, b: real, c: real, n: nat)
    requires 0.0 <= keep <= 1.0 && factor >= 1.0 && 0.0 < b <= c
    requires factor * (Pow(keep, n) * (c - b)) > (factor - 1.0) * c
    ensures Fires(factor, Settling(keep, b, c, n), c)
  {
    FiresIffGapIsWide(keep, factor, b, c, n);
    SettlingRises(keep, b, c, 0, n);
  }

  lemma StillWide(keep: real, factor: real, b: real, c: real, n: nat)
    requires 0.0 <= keep <= 1.0 && factor >= 1.0 && b <= c && n > 0
    requires factor * (Pow(keep, n) * (c - b)) > (factor - 1.0) * c
    ensures factor * (Pow(keep, n - 1) * (c - b)) > (factor - 1.0) * c
  {
    WiderBefore(keep, factor, c - b, n);
  }

  lemma WiderBefore(keep: real, factor: real, d: real, n: nat)
    requires 0.0 <= keep <= 1.0 && factor >= 1.0 && d >= 0.0 && n > 0
    ensures factor * (Pow(keep, n) * d) <= factor * (Pow(keep, n - 1) * d)
  {
    PowShrinks(keep, n - 1, n);
    var p, q := Pow(keep, n), Pow(keep, n - 1);
    MulOrder(p, q, d);
    MulOrder(p * d, q * d, factor);
  }

  /** A baseline below the settled cost only rises. */
  lemma {:induction false} SettlingRises(keep: real, b: real, c: real, m: nat, n: nat)
    requires 0.0 <= keep <= 1.0 && b <= c && m <= n
    ensures Settling(keep, b, c, m) <= Settling(keep, b, c, n) <= c
    decreases n
  {
    if m < n {
      SettlingRises(keep, b, c, m, n - 1);
      var s := Settling(keep, b, c, n - 1);
      NextWithin(keep, s, c, s, c);
    } else if n > 0 {
      SettlingRises(keep, b, c, n - 1, n - 1);
      var s := Settling(keep, b, c, n - 1);
      NextWithin(keep, s, c, s, c);
    }
  }

  // ---------- runs over snapshots ----------

  /** What one snapshot does to all the baselines: a team new to it starts at its cost, a team absent
      from it keeps its baseline. */
  function Observed(keep: real, base: map<string, real>, costs: map<string, real>): map<string, real> {
    map t | t in base.Keys + costs.Keys ::
      if t !in costs then base[t] else if t in base then Next(keep, base[t], costs[t]) else costs[t]
  }

  /** `order` lists the teams, each once. */
  ghost predicate Lists(order: seq<string>, teams: set<string>) {
    && (forall t :: t in order <==> t in teams)
    && (forall i, j :: 0 <= i < j < |order| ==> order[i] != order[j])
  }

  lemma ListsOneMore(order: seq<string>, all: set<string>, todo: set<string>, team: string)
    requires Lists(order, all - todo) && team in todo && team in all
    ensures Lists(order + [team], all - (todo - {team}))
  {
  }

  /** The baselines after visiting the snapshot's teams one by one in a given order. */
  function Sweep(keep: real, base: map<string, real>, costs: map<string, real>, order: seq<string>): map<string, real>
    requires forall t :: t in order ==> t in costs
  {
    if order == [] then base
    else
      var front, t := Sweep(keep, base, costs, order[..|order| - 1]), order[|order| - 1];
      front[t := if t in front then Next(keep, front[t], costs[t]) else costs[t]]
  }

  lemma SweepSnoc(keep: real, base: map<string, real>, costs: map<string, real>, order: seq<string>, t: string)
    requires t in costs && forall x :: x in order ==> x in costs
    ensures forall x :: x in order + [t] ==> x in costs
    ensures var front := Sweep(keep, base, costs, order);
      Sweep(keep, base, costs, order + [t]) ==
      front[t := if t in front then Next(keep, front[t], costs[t]) else costs[t]]
  {
  }

  /** Whatever the order, each team visited once: the sweep leaves the other teams' baselines alone. */
  lemma {:induction false} SweepAt(keep: real, base: map<string, real>, costs: map<string, real>,
                                   order: seq<string>, t: string)
    requires forall x :: x in order ==> x in costs
    requires forall i, j :: 0 <= i < j < |order| ==> order[i] != order[j]
    ensures t in Sweep(keep, base, costs, order) <==> t in base || t in order
    ensures t in Sweep(keep, base, costs, order) ==>
              Sweep(keep, base, costs, order)[t] ==
              if t !in order then base[t] else if t in base then Next(keep, base[t], costs[t]) else costs[t]
    decreases |order|
  {
    if order != [] {
      var front, last := order[..|order| - 1], order[|order| - 1];
      assert order == front + [last];
      SweepAt(keep, base, costs, front, t);
      assert last !in front;
    }
  }

  lemma SweepIsObserved(keep: real, base: map<string, real>, costs: map<string, real>, order: seq<string>)
    requires Lists(order, costs.Keys)
    ensures Sweep(keep, base, costs, order) == Observed(keep, base, costs)
  {
    var swept, observed := Sweep(keep, base, costs, order), Observed(keep, base, costs);
    forall t: string
      ensures t in swept <==> t in observed
      ensures t in swept ==> swept[t] == observed[t]
    {
      SweepAt(keep, base, costs, order, t);
    }
  }

  function BaselinesAfter(keep: real, run: seq<map<string, real>>): map<string, real> {
    if run == [] then map[] else Observed(keep, BaselinesAfter(keep, run[..|run| - 1]), run[|run| - 1])
  }

  /** The costs of a team in the snapshots it appears in. */
  function Seen(run: seq<map<string, real>>, team: string): seq<real> {
    if run == [] then []
    else
      var front, last := Seen(run[..|run| - 1], team), run[|run| - 1];
      if team in last then front + [last[team]] else front
  }

  predicate Alarmed(factor: real, base: map<string, real>, costs: map<string, real>, team: string) {
    team in costs && team in base && Fires(factor, base[team], costs[team])
  }

  function RunAlarms(keep: real, factor: real, run: seq<map<string, real>>, team: string): nat {
    if run == [] then 0
    else
      var front, last := run[..|run| - 1], run[|run| - 1];
      RunAlarms(keep, factor, front, team)
      + if Alarmed(factor, BaselinesAfter(keep, front), last, team) then 1 else 0
  }

  /** A team has a baseline once seen, and it is the average of what was seen of that team alone. */
  lemma {:induction false} BaselineFollowsSeen(keep: real, run: seq<map<string, real>>, team: string)
    ensures team in BaselinesAfter(keep, run) <==> Seen(run, team) != []
    ensures team in BaselinesAfter(keep, run) ==>
              BaselinesAfter(keep, run)[team] == Follow(keep, Seen(run, team)[0], Seen(run, team)[1..])
    decreases |run|
  {
    if run != [] {
      var front, last := run[..|run| - 1], run[|run| - 1];
      BaselineFollowsSeen(keep, front, team);
      if team in last {
        var before, now := Seen(front, team), Seen(run, team);
        if before == [] {
          assert now[1..] == [];
        } else {
          assert now[1..] == before[1..] + [last[team]];
          assert now[1..][..|now[1..]| - 1] == before[1..];
        }
      }
    }
  }

  /** For every run the baseline is the weighted closed form of the team's observed costs, and it lies
      between the least and the greatest of them. */
  lemma BaselineIsWeightedMean(keep: real, run: seq<map<string, real>>, team: string, lo: real, hi: real)
    requires 0.0 <= keep <= 1.0 && Seen(run, team) != [] && Within(Seen(run, team), lo, hi)
    ensures team in BaselinesAfter(keep, run)
    ensures BaselinesAfter(keep, run)[team] == Faded(keep, Seen(run, team)[0], Seen(run, team)[1..])
    ensures lo <= BaselinesAfter(keep, run)[team] <= hi
  {
    BaselineFollowsSeen(keep, run, team);
    FollowClosedForm(keep, Seen(run, team)[0], Seen(run, team)[1..]);
    FollowIsMean(keep, Seen(run, team), lo, hi);
  }

  lemma FollowIsMean(keep: real, cs: seq<real>, lo: real, hi: real)
    requires 0.0 <= keep <= 1.0 && cs != [] && Within(cs, lo, hi)
    ensures lo <= Follow(keep, cs[0], cs[1..]) <= hi
  {
    WithinTail(cs, lo, hi);
    FollowWithin(keep, cs[0], cs[1..], lo, hi);
  }

  lemma NeverAbove(factor: real, lo: real, hi: real, b: real, c: real)
    requires factor > 0.0 && hi <= factor * lo && lo <= b && c <= hi
    ensures !Fires(factor, b, c)
  {
  }

  lemma WithinTail(cs: seq<real>, lo: real, hi: real)
    requires cs != [] && Within(cs, lo, hi)
    ensures lo <= cs[0] <= hi && Within(cs[1..], lo, hi)
  {
  }

  /** A team whose greatest cost is at most `factor` times its least never alarms. */
  lemma {:induction false} SteadyTeamNeverAlarms(keep: real, factor: real, run: seq<map<string, real>>, team: string,
                                                 lo: real, hi: real)
    requires 0.0 <= keep <= 1.0 && factor > 0.0 && hi <= factor * lo && Within(Seen(run, team), lo, hi)
    ensures RunAlarms(keep, factor, run, team) == 0
    decreases |run|
  {
    if run != [] {
      var front, last := run[..|run| - 1], run[|run| - 1];
      var before, now := Seen(front, team), Seen(run, team);
      assert forall i :: 0 <= i < |before| ==> before[i] == now[i];
      SteadyTeamNeverAlarms(keep, factor, front, team, lo, hi);
      if team in last && team in BaselinesAfter(keep, front) {
        BaselineFollowsSeen(keep, front, team);
        FollowIsMean(keep, before, lo, hi);
        assert last[team] == now[|now| - 1] <= hi;
        NeverAbove(factor, lo, hi, BaselinesAfter(keep, front)[team], last[team]);
      }
    }
  }

  /** From here on the team costs `c` whenever it appears. */
  ghost predicate SettledAt(settled: seq<map<string, real>>, team: string, c: real) {
    forall i :: 0 <= i < |settled| && team in settled[i] ==> settled[i][team] == c
  }

  /** A settled team's baseline and alarms after any history are those of its last baseline. */
  lemma {:induction false} SettlingRun(keep: real, factor: real, before: seq<map<string, real>>,
                                       settled: seq<map<string, real>>, team: string, c: real)
    returns (n: nat)
    requires SettledAt(settled, team, c) && team in BaselinesAfter(keep, before)
    ensures var b := BaselinesAfter(keep, before)[team];
      && team in BaselinesAfter(keep, before + settled)
      && BaselinesAfter(keep, before + settled)[team] == Settling(keep, b, c, n)
      && RunAlarms(keep, factor, before + settled, team)
         == RunAlarms(keep, factor, before, team) + Alarms(keep, factor, b, c, n)
    decreases |settled|
  {
    if settled == [] {
      assert before + settled == before;
      n := 0;
    } else {
      var front, last := settled[..|settled| - 1], settled[|settled| - 1];
      assert (before + settled)[..|before + settled| - 1] == before + front;
      n := SettlingRun(keep, factor, before, front, team, c);
      if team in last {
        n := n + 1;
      }
    }
  }

  /** A team first seen at its settled cost starts there, and never alarms. */
  lemma {:induction false} NewTeamRun(keep: real, factor: real, before: seq<map<string, real>>,
                                      settled: seq<map<string, real>>, team: string, c: real)
    requires SettledAt(settled, team, c) && team !in BaselinesAfter(keep, before) && factor >= 1.0 && c > 0.0
    ensures team in BaselinesAfter(keep, before + settled) ==> BaselinesAfter(keep, before + settled)[team] == c
    ensures RunAlarms(keep, factor, before + settled, team) == RunAlarms(keep, factor, before, team)
    decreases |settled|
  {
    if settled == [] {
      assert before + settled == before;
    } else {
      var front, last := settled[..|settled| - 1], settled[|settled| - 1];
      assert (before + settled)[..|before + settled| - 1] == before + front;
      NewTeamRun(keep, factor, before, front, team, c);
      assert team in last ==> last[team] == c;
      assert c * factor >= c && c * keep + c * (1.0 - keep) == c;
    }
  }

  ghost predicate NonNegative(run: seq<map<string, real>>, team: string) {
    forall i :: 0 <= i < |run| && team in run[i] ==> run[i][team] >= 0.0
  }

  lemma {:induction false} BaselineNonNegative(keep: real, run: seq<map<string, real>>, team: string)
    requires 0.0 <= keep <= 1.0 && NonNegative(run, team)
    ensures team in BaselinesAfter(keep, run) ==> BaselinesAfter(keep, run)[team] >= 0.0
    decreases |run|
  {
    if run != [] {
      var front, last := run[..|run| - 1], run[|run| - 1];
      BaselineNonNegative(keep, front, team);
      if team in last && team in BaselinesAfter(keep, front) {
        var b, c := BaselinesAfter(keep, front)[team], last[team];
        MulNonNegative(b, keep);
        MulNonNegative(c, 1.0 - keep);
      }
    }
  }

  /** After any history of non-negative costs, a team that settles at any positive cost raises at most
      `m` more alarms, ever, absences included. */
  lemma BurstBounded(keep: real, factor: real, m: nat, before: seq<map<string, real>>,
                     settled: seq<map<string, real>>, team: string, c: real)
    requires 0.0 <= keep <= 1.0 && factor >= 1.0 && factor * Pow(keep, m) <= factor - 1.0
    requires NonNegative(before, team) && SettledAt(settled, team, c) && c > 0.0
    ensures RunAlarms(keep, factor, before + settled, team) <= RunAlarms(keep, factor, before, team) + m
  {
    if team in BaselinesAfter(keep, before) {
      BaselineNonNegative(keep, before, team);
      var n := SettlingRun(keep, factor, before, settled, team, c);
      AlarmsBounded(keep, factor, BaselinesAfter(keep, before)[team], c, m, n);
    } else {
      NewTeamRun(keep, factor, before, settled, team, c);
    }
  }
}
