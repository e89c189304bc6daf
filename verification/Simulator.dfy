/** cmd/local/main.go: simulated pod metrics and the reports computed from them. */
module Simulator {
  import opened Reals
  import opened Sums

  // ---------- rounding ----------

  /** `math.Round`: to the nearest integer, halves away from zero. */
  function Round(x: real): int {
    if x >= 0.0 then (x + 0.5).Floor else -((-x + 0.5).Floor)
  }

  /** `round(v, decimals)` with `p` the power of ten. */
  function RoundTo(v: real, p: real): real
    requires p != 0.0
  {
    Round(v * p) as real / p
  }

  const MICRO: real := 1_000_000.0

  lemma RoundIsNear(x: real)
    ensures -0.5 <= Round(x) as real - x <= 0.5
  {
  }

  /** Halves go away from zero on both sides of it. */
  lemma RoundIsOdd(x: real)
    ensures Round(-x) == -Round(x)
    ensures x >= 0.0 ==> Round(x) as real <= x + 0.5 < Round(x) as real + 1.0
  {
  }

  /** Rounding below a whole number means lying below the half before it. */
  lemma RoundBelow(x: real, n: int)
    requires n > 0
    ensures Round(x) < n <==> x < n as real - 0.5
  {
  }

  // ---------- one simulated pod ----------

  datatype Profile = Profile(
    podName: string, namespace: string, team: string, service: string, feature: string, environment: string,
    cpuIntensity: real, networkIntensity: real, diskIntensity: real, memIntensity: real,
    spikeEvery: int, spikeMultiplier: real)

  datatype PodMetrics = PodMetrics(
    podName: string, namespace: string, team: string, service: string, feature: string, environment: string,
    cpuCyclesBillion: real, memoryGbHours: real, networkEgressGb: real, networkCrossAzGb: real,
    networkInternetGb: real, diskReadMiops: real, diskWriteMiops: real, cpuUtilPct: real, wastedDollars: real,
    cpuCost: real, memoryCost: real, networkCost: real, diskCost: real, totalCost: real)

  /** The random draws of one call: `wave` follows the tick, the noises are `(Float64() - 0.5) * 0.15`. */
  datatype Draws = Draws(wave: real, cpu: real, net: real, disk: real, mem: real)
  {
    ghost predicate InRange() {
      && -0.25 <= wave <= 0.25 && -0.075 <= cpu < 0.075 && -0.075 <= net < 0.075
      && -0.075 <= disk < 0.075 && -0.075 <= mem < 0.075
    }
  }

  function Clamp(v: real): real {
    if v < 0.05 then 0.05 else if v > 1.0 then 1.0 else v
  }

  /** The clamp takes a value to the nearest one between 0.05 and 1. */
  lemma ClampIsNearest(v: real, x: real)
    requires 0.05 <= x <= 1.0
    ensures 0.05 <= Clamp(v) <= 1.0
    ensures (if Clamp(v) <= v then v - Clamp(v) else Clamp(v) - v) <= if x <= v then v - x else x - v
  {
  }

  const WINDOW: real := 15.0 / 3600.0

  /** The numbers of a pod before rounding. */
  datatype Exact = Exact(
    cpuB: real, memGb: real, netE: real, netI: real, netAz: real, diskR: real, diskW: real,
    cpuCost: real, memCost: real, netCost: real, diskCost: real, total: real, utilPct: real, wasted: real)

  function CpuOf(p: Profile, mult: real, d: Draws): real {
    Clamp(p.cpuIntensity + d.wave + d.cpu) * mult
  }

  function UtilPct(cpuB: real, cpuIntensity: real): real {
    var requested := cpuIntensity * 8.0 * 1.5;
    if requested > 0.0 then cpuB / requested * 100.0 else 0.0
  }

  function Wasted(cpuCost: real, utilPct: real): real {
    if utilPct < 20.0 then cpuCost * (1.0 - utilPct / 100.0) else 0.0
  }

  function ExactOf(p: Profile, mult: real, d: Draws): Exact {
    var cpuB := CpuOf(p, mult, d) * 8.0;
    var net := Clamp(p.networkIntensity + d.net) * mult;
    var disk := Clamp(p.diskIntensity + d.disk) * mult;
    var memGb := Clamp(p.memIntensity + d.mem * 0.08) * 4.0;
    var netE := net * 0.05;
    var netI, netAz := netE * 0.3, netE * 0.2;
    var diskR, diskW := disk * 2.0, disk * 1.5;
    var cpuCost := cpuB * 0.000048 * WINDOW;
    var memCost := memGb * 0.0125 * WINDOW;
    var netCost := netI * 0.09 + netAz * 0.01;
    var diskCost := diskR * 0.005 + diskW * 0.010;
    var utilPct := UtilPct(cpuB, p.cpuIntensity);
    var wasted := Wasted(cpuCost, utilPct);
    Exact(cpuB, memGb, netE, netI, netAz, diskR, diskW,
          cpuCost, memCost, netCost, diskCost, cpuCost + memCost + netCost + diskCost, utilPct, wasted)
  }

  function Rounded(p: Profile, e: Exact): PodMetrics {
    PodMetrics(p.podName, p.namespace, p.team, p.service, p.feature, p.environment,
               RoundTo(e.cpuB, 1000.0), RoundTo(e.memGb * WINDOW, 100000.0), RoundTo(e.netE, 100000.0),
               RoundTo(e.netAz, 100000.0), RoundTo(e.netI, 100000.0), RoundTo(e.diskR, 1000.0),
               RoundTo(e.diskW, 1000.0), RoundTo(e.utilPct, 10.0), RoundTo(e.wasted, MICRO),
               RoundTo(e.cpuCost, MICRO), RoundTo(e.memCost, MICRO), RoundTo(e.netCost, MICRO),
               RoundTo(e.diskCost, MICRO), RoundTo(e.total, MICRO))
  }

  class SimulatedPod {
    const profile: Profile
    var lastSpike: int

    constructor (profile: Profile, start: int)
      ensures this.profile == profile && lastSpike == start
    {
      this.profile, lastSpike := profile, start;
    }

    /** A spike is due, and the draw lets it happen. */
    predicate Spikes(now: int, draw: real)
      reads this
    {
      profile.spikeEvery > 0 && now - lastSpike > profile.spikeEvery && draw < 0.12
    }

    /** The arithmetic of generate, up to the rounding. */
    method Measure(mult: real, d: Draws) returns (e: Exact)
      ensures e == ExactOf(profile, mult, d)
    {
      var p := profile;
      var cpu := Clamp(p.cpuIntensity + d.wave + d.cpu) * mult;
      var net := Clamp(p.networkIntensity + d.net) * mult;
      var disk := Clamp(p.diskIntensity + d.disk) * mult;
      var mem := Clamp(p.memIntensity + d.mem * 0.08);

      var cpuB, memGb := cpu * 8.0, mem * 4.0;
      var netE := net * 0.05;
      var netI, netAz := netE * 0.3, netE * 0.2;
      var diskR, diskW := disk * 2.0, disk * 1.5;

      var cpuCost := cpuB * 0.000048 * WINDOW;
      var memCost := memGb * 0.0125 * WINDOW;
      var netCost := netI * 0.09 + netAz * 0.01;
      var diskCost := diskR * 0.005 + diskW * 0.010;
      var total := cpuCost + memCost + netCost + diskCost;

      var requested, utilPct, wasted := p.cpuIntensity * 8.0 * 1.5, 0.0, 0.0;
      if requested > 0.0 {
        utilPct := cpuB / requested * 100.0;
      }
      if utilPct < 20.0 {
        wasted := cpuCost * (1.0 - utilPct / 100.0);
      }
      return Exact(cpuB, memGb, netE, netI, netAz, diskR, diskW,
                   cpuCost, memCost, netCost, diskCost, total, utilPct, wasted);
    }

    /** generate: whatever is drawn, the four costs stay within their full-load prices and add up to the
        total within two millionths, only pods rounding to 20 % or less have waste, and a small pod is
        never among them. */
    method Generate(now: int, draw: real, d: Draws) returns (m: PodMetrics)
      modifies this
      ensures old(Spikes(now, draw)) <==>
              profile.spikeEvery > 0 && now - old(lastSpike) > profile.spikeEvery && draw < 0.12
      ensures lastSpike == if old(Spikes(now, draw)) then now else old(lastSpike)
      ensures var mult := if old(Spikes(now, draw)) then profile.spikeMultiplier else 1.0;
        && m == Rounded(profile, ExactOf(profile, mult, d))
        && (mult >= 0.0 ==> Priced(m, mult))
        && (mult >= 1.0 && 0.0 < profile.cpuIntensity <= 1.0 / 6.0 ==> m.cpuUtilPct >= 20.0 && m.wastedDollars == 0.0)
      ensures IsSimulated(m) && -0.000002 <= Discrepancy(m) <= 0.000002
      ensures m.wastedDollars != 0.0 ==> m.cpuUtilPct <= 20.0
    {
      var mult := 1.0;
      if profile.spikeEvery > 0 && now - lastSpike > profile.spikeEvery && draw < 0.12 {
        lastSpike := now;
        mult := profile.spikeMultiplier;
      }
      var e := Measure(mult, d);
      m := Rounded(profile, e);
      GeneratedSimulated(profile, mult, d);
      GeneratedReconciles(profile, mult, d, e);
      GeneratedWaste(profile, mult, d, e);
      if mult >= 0.0 {
        GeneratedPriced(profile, mult, d);
      }
      if mult >= 1.0 && 0.0 < profile.cpuIntensity <= 1.0 / 6.0 {
        SmallPodsNeverWasteful(profile, mult, d);
      }
    }
  }

  /** By how much a pod's total exceeds its four costs. */
  function Discrepancy(m: PodMetrics): real {
    m.totalCost - (m.cpuCost + m.memoryCost + m.networkCost + m.diskCost)
  }

  const HALF_UNIT: real := 0.0000005

  predicate PricedAt(cost: real, full: real, mult: real) {
    0.05 * full * mult - HALF_UNIT <= cost <= full * mult + HALF_UNIT
  }

  /** Each cost is between a twentieth and the whole of its full-load price, give or take the rounding,
      and the total is never nothing. */
  predicate Priced(m: PodMetrics, mult: real) {
    && m.totalCost > 0.0
    && PricedAt(m.cpuCost, FULL_CPU, mult) && PricedAt(m.memoryCost, FULL_MEMORY, 1.0)
    && PricedAt(m.networkCost, FULL_NETWORK, mult) && PricedAt(m.diskCost, FULL_DISK, mult)
  }

  lemma GeneratedSimulated(p: Profile, mult: real, d: Draws)
    ensures IsSimulated(Rounded(p, ExactOf(p, mult, d)))
  {
    assert Simulated(Rounded(p, ExactOf(p, mult, d)), p, ExactOf(p, mult, d));
  }

  lemma GeneratedReconciles(p: Profile, mult: real, d: Draws, e: Exact)
    requires e == ExactOf(p, mult, d)
    ensures -0.000002 <= Discrepancy(Rounded(p, e)) <= 0.000002
  {
    PodReconciles(Rounded(p, e), p, e);
  }

  lemma GeneratedWaste(p: Profile, mult: real, d: Draws, e: Exact)
    requires e == ExactOf(p, mult, d)
    ensures Rounded(p, e).wastedDollars != 0.0 ==> Rounded(p, e).cpuUtilPct <= 20.0
  {
    RoundedUtil(e.utilPct);
    RoundedNothing();
  }

  lemma RoundMicro(v: real)
    ensures -HALF_UNIT <= RoundTo(v, MICRO) - v <= HALF_UNIT
  {
    RoundIsNear(v * MICRO);
  }

  lemma GeneratedPriced(p: Profile, mult: real, d: Draws)
    requires mult >= 0.0
    ensures Priced(Rounded(p, ExactOf(p, mult, d)), mult)
  {
    var e := ExactOf(p, mult, d);
    PodCostRange(p, mult, d);
    RoundMicro(e.cpuCost);
    RoundMicro(e.memCost);
    RoundMicro(e.netCost);
    RoundMicro(e.diskCost);
    RoundMicro(e.total);
  }

  /** Dollars per window at full load, resource by resource. */
  const FULL_CPU: real := 0.0000016
  const FULL_MEMORY: real := 1.0 / 4800.0
  const FULL_NETWORK: real := 0.00145
  const FULL_DISK: real := 0.025

  /** Whatever the profile, wave and noise, each resource of a pod costs between a twentieth and the
      whole of its full-load price; a spike multiplies both ends, except for memory. */
  lemma PodCostRange(p: Profile, mult: real, d: Draws)
    requires mult >= 0.0
    ensures var e := ExactOf(p, mult, d);
      && 0.05 * FULL_CPU * mult <= e.cpuCost <= FULL_CPU * mult
      && 0.05 * FULL_MEMORY <= e.memCost <= FULL_MEMORY
      && 0.05 * FULL_NETWORK * mult <= e.netCost <= FULL_NETWORK * mult
      && 0.05 * FULL_DISK * mult <= e.diskCost <= FULL_DISK * mult
      && e.total == e.cpuCost + e.memCost + e.netCost + e.diskCost
  {
  }

  /** The quantities and costs in terms of the four clamped loads: each quantity is a fixed multiple of its
      load, and each cost that load's share of the full-load price. */
  lemma ExactInLoads(p: Profile, mult: real, d: Draws)
    ensures var e := ExactOf(p, mult, d);
      var cpu := Clamp(p.cpuIntensity + d.wave + d.cpu) * mult;
      var net := Clamp(p.networkIntensity + d.net) * mult;
      var disk := Clamp(p.diskIntensity + d.disk) * mult;
      var mem := Clamp(p.memIntensity + d.mem * 0.08);
      && e.cpuB == 8.0 * cpu && e.memGb == 4.0 * mem
      && e.netE == 0.05 * net && e.netI == 0.015 * net && e.netAz == 0.01 * net
      && e.diskR == 2.0 * disk && e.diskW == 1.5 * disk
      && e.cpuCost == 0.0000016 * cpu && e.memCost * 4800.0 == mem
      && e.netCost == 0.00145 * net && e.diskCost == 0.025 * disk
      && e.total == e.cpuCost + e.memCost + e.netCost + e.diskCost
      && (p.cpuIntensity > 0.0 ==> e.utilPct * 12.0 * p.cpuIntensity == 100.0 * e.cpuB)
      && (p.cpuIntensity <= 0.0 ==> e.utilPct == 0.0)
      && e.wasted == if e.utilPct < 20.0 then e.cpuCost - e.cpuCost * e.utilPct / 100.0 else 0.0
  {
    LoadCosts(CpuOf(p, mult, d), Clamp(p.memIntensity + d.mem * 0.08), Clamp(p.networkIntensity + d.net) * mult,
              Clamp(p.diskIntensity + d.disk) * mult);
    UtilIs(CpuOf(p, mult, d) * 8.0, p.cpuIntensity);
  }

  lemma LoadCosts(cpu: real, mem: real, net: real, disk: real)
    ensures cpu * 8.0 * 0.000048 * WINDOW == 0.0000016 * cpu && mem * 4.0 * 0.0125 * WINDOW * 4800.0 == mem
    ensures net * 0.05 * 0.3 * 0.09 + net * 0.05 * 0.2 * 0.01 == 0.00145 * net
    ensures disk * 2.0 * 0.005 + disk * 1.5 * 0.010 == 0.025 * disk
  {
  }

  lemma UtilIs(cpuB: real, intensity: real)
    ensures intensity > 0.0 ==> UtilPct(cpuB, intensity) * 12.0 * intensity == 100.0 * cpuB
    ensures intensity <= 0.0 ==> UtilPct(cpuB, intensity) == 0.0
  {
    if intensity > 0.0 {
      var requested := intensity * 8.0 * 1.5;
      var share := cpuB / requested;
      assert share * requested == cpuB;
      assert share * 100.0 * 12.0 * intensity == 100.0 * (share * requested);
    }
  }

  predicate Near(rounded: real, exact: real, half: real) {
    -half <= rounded - exact <= half
  }

  lemma RoundToNear(v: real, p: real)
    requires p > 0.0
    ensures Near(RoundTo(v, p), v, 0.5 / p)
  {
    RoundIsNear(v * p);
    var r := Round(v * p) as real;
    assert (r / p - v) * p == r - v * p;
    Scaled(r / p - v, p);
  }

  lemma Scaled(gap: real, p: real)
    requires p > 0.0 && -0.5 <= gap * p <= 0.5
    ensures -0.5 / p <= gap <= 0.5 / p
  {
    assert gap == gap * p / p;
  }

  /** What is reported of a pod carries its profile's names, and each figure is its own exact value to within
      half of its last decimal place. */
  lemma RoundedIsNear(p: Profile, e: Exact)
    ensures var m := Rounded(p, e);
      && m.podName == p.podName && m.namespace == p.namespace && m.team == p.team && m.service == p.service
      && m.feature == p.feature && m.environment == p.environment
      && Near(m.cpuCyclesBillion, e.cpuB, 0.0005) && Near(m.memoryGbHours, e.memGb / 240.0, 0.000005)
      && Near(m.networkEgressGb, e.netE, 0.000005) && Near(m.networkCrossAzGb, e.netAz, 0.000005)
      && Near(m.networkInternetGb, e.netI, 0.000005)
      && Near(m.diskReadMiops, e.diskR, 0.0005) && Near(m.diskWriteMiops, e.diskW, 0.0005)
      && Near(m.cpuUtilPct, e.utilPct, 0.05) && Near(m.wastedDollars, e.wasted, HALF_UNIT)
      && Near(m.cpuCost, e.cpuCost, HALF_UNIT) && Near(m.memoryCost, e.memCost, HALF_UNIT)
      && Near(m.networkCost, e.netCost, HALF_UNIT) && Near(m.diskCost, e.diskCost, HALF_UNIT)
      && Near(m.totalCost, e.total, HALF_UNIT)
  {
    RoundToNear(e.cpuB, 1000.0);
    RoundToNear(e.memGb * WINDOW, 100000.0);
    RoundToNear(e.netE, 100000.0);
    RoundToNear(e.netAz, 100000.0);
    RoundToNear(e.netI, 100000.0);
    RoundToNear(e.diskR, 1000.0);
    RoundToNear(e.diskW, 1000.0);
    RoundToNear(e.utilPct, 10.0);
    RoundToNear(e.wasted, MICRO);
    RoundToNear(e.cpuCost, MICRO);
    RoundToNear(e.memCost, MICRO);
    RoundToNear(e.netCost, MICRO);
    RoundToNear(e.diskCost, MICRO);
    RoundToNear(e.total, MICRO);
  }

  // ---------- which pods are ever reported as wasteful ----------

  /** Without a spike, the intensities whose utilisation can fall below 20 % for some wave and noise:
      the clamp at 0.05 keeps smaller pods above it, the clamp at 1 brings oversized ones back. */
  lemma CanBeWastefulIff(p: Profile)
    requires p.cpuIntensity > 0.0
    ensures (exists d: Draws :: d.InRange() && ExactOf(p, 1.0, d).utilPct < 20.0) <==>
            1.0 / 6.0 < p.cpuIntensity < 13.0 / 28.0 || 10.0 / 3.0 < p.cpuIntensity
  {
    var x := p.cpuIntensity;
    if 1.0 / 6.0 < x < 13.0 / 28.0 || 10.0 / 3.0 < x {
      var d := Draws(-0.25, -0.075, 0.0, 0.0, 0.0);
      UtilBelow(CpuOf(p, 1.0, d), x);
      assert d.InRange() && ExactOf(p, 1.0, d).utilPct < 20.0;
    }
    if d: Draws :| d.InRange() && ExactOf(p, 1.0, d).utilPct < 20.0 {
      UtilBelow(CpuOf(p, 1.0, d), x);
    }
  }

  /** Utilisation is below a fifth exactly when usage is below three tenths of the profile's intensity. */
  lemma UtilBelow(cpu: real, intensity: real)
    requires intensity > 0.0
    ensures UtilPct(cpu * 8.0, intensity) < 20.0 <==> cpu < 0.3 * intensity
  {
  }

  /** A pod of intensity at most one sixth is never reported, at any tick, noise or spike of at least
      its normal load: the floor of 0.05 alone keeps it above a fifth of its request. */
  lemma SmallPodsNeverWasteful(p: Profile, mult: real, d: Draws)
    requires 0.0 < p.cpuIntensity <= 1.0 / 6.0 && mult >= 1.0
    ensures ExactOf(p, mult, d).utilPct >= 20.0
    ensures Rounded(p, ExactOf(p, mult, d)).cpuUtilPct >= 20.0 && Rounded(p, ExactOf(p, mult, d)).wastedDollars == 0.0
  {
    var base := Clamp(p.cpuIntensity + d.wave + d.cpu);
    MulOrder(1.0, mult, base);
    UtilBelow(CpuOf(p, mult, d), p.cpuIntensity);
    RoundBelow(ExactOf(p, mult, d).utilPct * 10.0, 200);
  }

  // ---------- what rounding does to a row ----------

  /** The metrics are those of simulated pods. */
  ghost predicate Simulated(m: PodMetrics, p: Profile, e: Exact) {
    && m == Rounded(p, e) && e.total == e.cpuCost + e.memCost + e.netCost + e.diskCost
    && e.wasted == Wasted(e.cpuCost, e.utilPct)
  }

  /** Five half-unit roundings on one grid leave at most two units between a pod's total and its parts. */
  lemma PodReconciles(m: PodMetrics, p: Profile, e: Exact)
    requires Simulated(m, p, e)
    ensures -0.000002 <= Discrepancy(m) <= 0.000002
  {
    CostsReconcile(e.cpuCost, e.memCost, e.netCost, e.diskCost, e.total);
  }

  lemma CostsReconcile(a: real, b: real, c: real, d: real, total: real)
    requires total == a + b + c + d
    ensures -0.000002 <=
            RoundTo(total, MICRO) - (RoundTo(a, MICRO) + RoundTo(b, MICRO) + RoundTo(c, MICRO) + RoundTo(d, MICRO))
            <= 0.000002
  {
    FiveRoundings(a * MICRO, b * MICRO, c * MICRO, d * MICRO, total * MICRO);
    TwoMicros(Round(a * MICRO), Round(b * MICRO), Round(c * MICRO), Round(d * MICRO), Round(total * MICRO),
              RoundTo(a, MICRO), RoundTo(b, MICRO), RoundTo(c, MICRO), RoundTo(d, MICRO), RoundTo(total, MICRO));
  }

  /** Whole numbers two apart are two millionths apart in dollars. */
  lemma TwoMicros(a: int, b: int, c: int, d: int, sum: int, x: real, y: real, z: real, w: real, total: real)
    requires x == a as real / MICRO && y == b as real / MICRO && z == c as real / MICRO && w == d as real / MICRO
    requires total == sum as real / MICRO && -2 <= sum - (a + b + c + d) <= 2
    ensures -0.000002 <= total - (x + y + z + w) <= 0.000002
  {
    var diff := sum - (a + b + c + d);
    assert diff as real == (total - (x + y + z + w)) * MICRO;
  }

  /** Rounding a sum and rounding its four parts differ by at most two whole units. */
  lemma FiveRoundings(a: real, b: real, c: real, d: real, sum: real)
    requires sum == a + b + c + d
    ensures -2 <= Round(sum) - (Round(a) + Round(b) + Round(c) + Round(d)) <= 2
  {
    RoundIsNear(a);
    RoundIsNear(b);
    RoundIsNear(c);
    RoundIsNear(d);
    RoundIsNear(sum);
    var diff := Round(sum) - (Round(a) + Round(b) + Round(c) + Round(d));
    assert -2.5 <= diff as real <= 2.5;
  }

  /** Two units do occur, without a spike: this pod costs 0.4 + 10.41.. + 145.4 + 2500.4 millionths, which
      round to 0, 10, 145 and 2500, while the total rounds up to 2657. */
  lemma TwoUnitsOccur()
    ensures var d := Draws(0.0, 0.0, 0.0, 0.0, 0.0);
      d.InRange() && Discrepancy(Rounded(OffByTwo(), ExactOf(OffByTwo(), 1.0, d))) == 0.000002
  {
    var e := ExactOf(OffByTwo(), 1.0, Draws(0.0, 0.0, 0.0, 0.0, 0.0));
    assert e.cpuCost * MICRO == 0.4 && Round(0.4) == 0;
    assert e.memCost * MICRO == 125.0 / 12.0 && Round(125.0 / 12.0) == 10;
    assert e.netCost * MICRO == 145.4 && Round(145.4) == 145;
    assert e.diskCost * MICRO == 2500.4 && Round(2500.4) == 2500;
    assert Round(e.total * MICRO) == 2657;
  }

  function OffByTwo(): Profile {
    Profile("pod", "shop", "team", "service", "feature", "production",
            0.25, 145.4 / 1450.0, 2500.4 / 25000.0, 0.05, 0, 1.0)
  }

  // ---------- the team rows ----------

  datatype TeamRow = TeamRow(
    team: string, totalCost: real, cpuCost: real, memoryCost: real, networkCost: real, diskCost: real,
    wastedCost: real, podCount: nat)

  function OfTeam(ms: seq<PodMetrics>, team: string): seq<PodMetrics> {
    if ms == [] then []
    else
      var front, last := OfTeam(ms[..|ms| - 1], team), ms[|ms| - 1];
      if last.team == team then front + [last] else front
  }

  lemma {:induction false} OfTeamCount(ms: seq<PodMetrics>, team: string, m: PodMetrics)
    ensures multiset(OfTeam(ms, team))[m] == if m.team == team then multiset(ms)[m] else 0
    decreases |ms|
  {
    if ms != [] {
      var front, last := ms[..|ms| - 1], ms[|ms| - 1];
      assert ms == front + [last];
      OfTeamCount(front, team, m);
    }
  }

  /** A row with a pod added. */
  function Plus(r: TeamRow, m: PodMetrics): TeamRow {
    TeamRow(r.team, r.totalCost + m.totalCost, r.cpuCost + m.cpuCost, r.memoryCost + m.memoryCost,
            r.networkCost + m.networkCost, r.diskCost + m.diskCost, r.wastedCost + m.wastedDollars, r.podCount + 1)
  }

  function RowOf(team: string, ms: seq<PodMetrics>): TeamRow {
    if ms == [] then TeamRow(team, 0.0, 0.0, 0.0, 0.0, 0.0, 0.0, 0)
    else Plus(RowOf(team, ms[..|ms| - 1]), ms[|ms| - 1])
  }

  lemma {:induction false} RowSums(team: string, ms: seq<PodMetrics>, total: seq<real>, cpu: seq<real>, mem: seq<real>,
                                   net: seq<real>, disk: seq<real>, waste: seq<real>)
    requires |ms| == |total| == |cpu| == |mem| == |net| == |disk| == |waste|
    requires forall i :: 0 <= i < |ms| ==>
               && total[i] == ms[i].totalCost && cpu[i] == ms[i].cpuCost && mem[i] == ms[i].memoryCost
               && net[i] == ms[i].networkCost && disk[i] == ms[i].diskCost && waste[i] == ms[i].wastedDollars
    ensures var r := RowOf(team, ms);
      && r.team == team && r.podCount == |ms|
      && r.totalCost == SumSeq(total) && r.cpuCost == SumSeq(cpu) && r.memoryCost == SumSeq(mem)
      && r.networkCost == SumSeq(net) && r.diskCost == SumSeq(disk) && r.wastedCost == SumSeq(waste)
    decreases |ms|
  {
    if ms != [] {
      var n := |ms| - 1;
      RowSums(team, ms[..n], total[..n], cpu[..n], mem[..n], net[..n], disk[..n], waste[..n]);
      LastAdds(total);
      LastAdds(cpu);
      LastAdds(mem);
      LastAdds(net);
      LastAdds(disk);
      LastAdds(waste);
    }
  }

  lemma LastAdds(xs: seq<real>)
    requires xs != []
    ensures SumSeq(xs) == SumSeq(xs[..|xs| - 1]) + xs[|xs| - 1]
  {
    SumSeqSnoc(xs[..|xs| - 1], xs[|xs| - 1]);
    assert xs == xs[..|xs| - 1] + [xs[|xs| - 1]];
  }

  /** Each column of a row is the sum of the pods' figures of its own name. */
  lemma RowColumns(team: string, ms: seq<PodMetrics>)
    ensures var r := RowOf(team, ms);
      && r.team == team && r.podCount == |ms|
      && r.totalCost == SumSeq(seq(|ms|, i requires 0 <= i < |ms| => ms[i].totalCost))
      && r.cpuCost == SumSeq(seq(|ms|, i requires 0 <= i < |ms| => ms[i].cpuCost))
      && r.memoryCost == SumSeq(seq(|ms|, i requires 0 <= i < |ms| => ms[i].memoryCost))
      && r.networkCost == SumSeq(seq(|ms|, i requires 0 <= i < |ms| => ms[i].networkCost))
      && r.diskCost == SumSeq(seq(|ms|, i requires 0 <= i < |ms| => ms[i].diskCost))
      && r.wastedCost == SumSeq(seq(|ms|, i requires 0 <= i < |ms| => ms[i].wastedDollars))
  {
    RowSums(team, ms,
            seq(|ms|, i requires 0 <= i < |ms| => ms[i].totalCost),
            seq(|ms|, i requires 0 <= i < |ms| => ms[i].cpuCost),
            seq(|ms|, i requires 0 <= i < |ms| => ms[i].memoryCost),
            seq(|ms|, i requires 0 <= i < |ms| => ms[i].networkCost),
            seq(|ms|, i requires 0 <= i < |ms| => ms[i].diskCost),
            seq(|ms|, i requires 0 <= i < |ms| => ms[i].wastedDollars));
  }

  /** byTeam: one row per team that has a pod, made of exactly that team's pods. */
  method ByTeam(latest: seq<PodMetrics>) returns (tm: map<string, TeamRow>)
    ensures forall t :: t in tm <==> OfTeam(latest, t) != []
    ensures forall t :: t in tm ==> tm[t] == RowOf(t, OfTeam(latest, t))
  {
    tm := map[];
    for i := 0 to |latest|
      invariant forall t :: t in tm <==> OfTeam(latest[..i], t) != []
      invariant forall t :: t in tm ==> tm[t] == RowOf(t, OfTeam(latest[..i], t))
    {
      var m := latest[i];
      if m.team !in tm {
        tm := tm[m.team := TeamRow(m.team, 0.0, 0.0, 0.0, 0.0, 0.0, 0.0, 0)];
      }
      var own := OfTeam(latest[..i], m.team);
      tm := tm[m.team := Plus(tm[m.team], m)];
      assert latest[..i + 1][..i] == latest[..i];
      assert (own + [m])[..|own + [m]| - 1] == own;
    }
    assert latest[..|latest|] == latest;
  }

  ghost predicate IsSimulated(m: PodMetrics) {
    exists p, e :: Simulated(m, p, e)
  }

  ghost predicate AllSimulated(ms: seq<PodMetrics>) {
    forall i :: 0 <= i < |ms| ==> IsSimulated(ms[i])
  }

  lemma {:induction false} OfTeamSimulated(ms: seq<PodMetrics>, team: string)
    requires AllSimulated(ms)
    ensures AllSimulated(OfTeam(ms, team))
    decreases |ms|
  {
    if ms != [] {
      OfTeamSimulated(ms[..|ms| - 1], team);
    }
  }

  /** By how much a row's total exceeds its columns. */
  function Excess(r: TeamRow): real {
    r.totalCost - (r.cpuCost + r.memoryCost + r.networkCost + r.diskCost)
  }

  lemma {:induction false} RowReconciles(team: string, ms: seq<PodMetrics>)
    requires AllSimulated(ms)
    ensures RowOf(team, ms).podCount == |ms|
    ensures -0.000002 * |ms| as real <= Excess(RowOf(team, ms)) <= 0.000002 * |ms| as real
    decreases |ms|
  {
    if ms != [] {
      var front, m := ms[..|ms| - 1], ms[|ms| - 1];
      RowReconciles(team, front);
      MetricsReconcile(m);
      assert |ms| as real == |front| as real + 1.0;
    }
  }

  lemma MetricsReconcile(m: PodMetrics)
    requires IsSimulated(m)
    ensures -0.000002 <= Discrepancy(m) <= 0.000002
  {
    var p, e :| Simulated(m, p, e);
    PodReconciles(m, p, e);
  }

  /** In every team row the total and the sum of the four columns differ by at most two millionths of
      a dollar per pod, however many pods there are. */
  lemma TeamRowReconciles(latest: seq<PodMetrics>, team: string)
    requires AllSimulated(latest)
    ensures var r := RowOf(team, OfTeam(latest, team));
      && r.podCount == |OfTeam(latest, team)|
      && -0.000002 * r.podCount as real <= Excess(r) <= 0.000002 * r.podCount as real
  {
    OfTeamSimulated(latest, team);
    RowReconciles(team, OfTeam(latest, team));
  }

  // ---------- the two waste figures ----------

  function WasteOf(ms: seq<PodMetrics>): real {
    if ms == [] then 0.0 else WasteOf(ms[..|ms| - 1]) + ms[|ms| - 1].wastedDollars
  }

  function LowUtil(ms: seq<PodMetrics>): seq<PodMetrics> {
    if ms == [] then []
    else
      var front, last := LowUtil(ms[..|ms| - 1]), ms[|ms| - 1];
      if last.cpuUtilPct < 20.0 then front + [last] else front
  }

  /** The waste figure of a list of pods is the sum of theirs. */
  lemma {:induction false} WasteIs(ms: seq<PodMetrics>, xs: seq<real>)
    requires |xs| == |ms| && forall i :: 0 <= i < |ms| ==> xs[i] == ms[i].wastedDollars
    ensures WasteOf(ms) == SumSeq(xs)
    decreases |ms|
  {
    if ms != [] {
      WasteIs(ms[..|ms| - 1], xs[..|ms| - 1]);
      LastAdds(xs);
    }
  }

  lemma {:induction false} LowUtilCount(ms: seq<PodMetrics>, m: PodMetrics)
    ensures multiset(LowUtil(ms))[m] == if m.cpuUtilPct < 20.0 then multiset(ms)[m] else 0
    decreases |ms|
  {
    if ms != [] {
      var front, last := ms[..|ms| - 1], ms[|ms| - 1];
      assert ms == front + [last];
      LowUtilCount(front, m);
    }
  }

  /** summary's `wasted_cost`. */
  method SummaryWaste(latest: seq<PodMetrics>) returns (wasted: real)
    ensures wasted == WasteOf(latest)
  {
    wasted := 0.0;
    for i := 0 to |latest|
      invariant wasted == WasteOf(latest[..i])
    {
      wasted := wasted + latest[i].wastedDollars;
      assert latest[..i + 1][..i] == latest[..i];
    }
    assert latest[..|latest|] == latest;
  }

  /** waste's list and `total_wasted`. */
  method WasteEndpoint(latest: seq<PodMetrics>) returns (out: seq<PodMetrics>, totalWasted: real)
    ensures out == LowUtil(latest) && totalWasted == WasteOf(LowUtil(latest))
  {
    out, totalWasted := [], 0.0;
    for i := 0 to |latest|
      invariant out == LowUtil(latest[..i]) && totalWasted == WasteOf(out)
    {
      assert latest[..i + 1][..i] == latest[..i];
      if latest[i].cpuUtilPct < 20.0 {
        assert (out + [latest[i]])[..|out + [latest[i]]| - 1] == out;
        out := out + [latest[i]];
        totalWasted := totalWasted + latest[i].wastedDollars;
      }
    }
    assert latest[..|latest|] == latest;
  }

  /** The waste of the pods whose utilisation, before rounding, is under 20 % but rounds up to it. */
  function Straddling(ms: seq<PodMetrics>, utils: seq<real>): real
    requires |ms| == |utils|
  {
    if ms == [] then 0.0
    else
      var n := |ms| - 1;
      Straddling(ms[..n], utils[..n]) + if 19.95 <= utils[n] < 20.0 then ms[n].wastedDollars else 0.0
  }

  /** What rounding leaves of a pod's utilisation and waste. */
  predicate Reported(m: PodMetrics, util: real) {
    (m.cpuUtilPct < 20.0 <==> util < 19.95) && (util >= 20.0 ==> m.wastedDollars == 0.0)
  }

  lemma {:induction false} ReportedReconcile(ms: seq<PodMetrics>, utils: seq<real>)
    requires |ms| == |utils| && forall i :: 0 <= i < |ms| ==> Reported(ms[i], utils[i])
    ensures WasteOf(ms) - WasteOf(LowUtil(ms)) == Straddling(ms, utils)
    decreases |ms|
  {
    if ms != [] {
      var front, m := ms[..|ms| - 1], ms[|ms| - 1];
      ReportedReconcile(front, utils[..|ms| - 1]);
      assert ms == front + [m];
      OneMoreWaste(front, m);
    }
  }

  /** The summary's waste exceeds the waste list's by exactly the waste of the pods whose unrounded
      utilisation lies in [19.95, 20). */
  lemma WasteFiguresReconcile(ms: seq<PodMetrics>, ps: seq<Profile>, es: seq<Exact>)
    requires |ms| == |ps| == |es| && forall i :: 0 <= i < |ms| ==> Simulated(ms[i], ps[i], es[i])
    ensures WasteOf(ms) - WasteOf(LowUtil(ms)) == Straddling(ms, seq(|es|, i requires 0 <= i < |es| => es[i].utilPct))
  {
    var utils := seq(|es|, i requires 0 <= i < |es| => es[i].utilPct);
    forall i | 0 <= i < |ms|
      ensures Reported(ms[i], utils[i])
    {
      PodWaste(ms[i], ps[i], es[i]);
    }
    ReportedReconcile(ms, utils);
  }

  lemma OneMoreWaste(front: seq<PodMetrics>, m: PodMetrics)
    ensures WasteOf(front + [m]) == WasteOf(front) + m.wastedDollars
    ensures WasteOf(LowUtil(front + [m])) ==
            WasteOf(LowUtil(front)) + if m.cpuUtilPct < 20.0 then m.wastedDollars else 0.0
  {
  }

  /** A pod is on the waste list when its unrounded utilisation is under 19.95 %, and has waste only
      when it is under 20 %. */
  lemma PodWaste(m: PodMetrics, p: Profile, e: Exact)
    requires Simulated(m, p, e)
    ensures m.cpuUtilPct < 20.0 <==> e.utilPct < 19.95
    ensures e.utilPct >= 20.0 ==> m.wastedDollars == 0.0
  {
    RoundedUtil(e.utilPct);
    RoundedNothing();
  }

  lemma RoundedUtil(util: real)
    ensures RoundTo(util, 10.0) < 20.0 <==> util < 19.95
    ensures RoundTo(util, 10.0) > 20.0 ==> util >= 20.0
  {
    RoundBelow(util * 10.0, 200);
  }

  lemma RoundedNothing()
    ensures RoundTo(0.0, MICRO) == 0.0
  {
  }
}
