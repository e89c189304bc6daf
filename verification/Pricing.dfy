/** internal/aggregator/aggregator.go, the cost model: what one cgroup's measurements cost. */
module Pricing {
  import opened Collector
  import opened Enricher
  import opened Words

  const GB: real := 1073741824.0

  /** The 15-second window, in nanoseconds and in hours. */
  const WINDOW_NS := 15_000_000_000
  const WINDOW_HOURS: real := 15.0 / 3600.0

  datatype Prices = Prices(
    cpuPerBillionCyclesHour: real, memoryPerGbHour: real, internetEgressPerGb: real, crossAzPerGb: real,
    diskReadPerMiops: real, diskWritePerMiops: real)
  {
    predicate NonNegative() {
      && cpuPerBillionCyclesHour >= 0.0 && memoryPerGbHour >= 0.0
      && internetEgressPerGb >= 0.0 && crossAzPerGb >= 0.0
      && diskReadPerMiops >= 0.0 && diskWritePerMiops >= 0.0
    }
  }

  datatype PodCost = PodCost(
    identity: Identity, periodStart: int, periodEnd: int,
    cpuCyclesBillion: real, memoryGbHours: real, networkEgressGb: real, networkCrossAzGb: real,
    networkInternetGb: real, diskReadMiops: real, diskWriteMiops: real,
    cpuCost: real, memoryCost: real, networkCost: real, diskCost: real, totalCost: real,
    cpuUtilizationPct: real, wastedDollars: real)

  function CpuCost(u: Usage, prices: Prices): real {
    u.cycles as real / 1_000_000_000.0 * prices.cpuPerBillionCyclesHour * WINDOW_HOURS
  }

  function MemoryCost(bytes: U64, prices: Prices): real {
    bytes as real / GB * WINDOW_HOURS * prices.memoryPerGbHour
  }

  function NetworkCost(u: Usage, prices: Prices): real {
    u.internet as real / GB * prices.internetEgressPerGb + u.crossAz as real / GB * prices.crossAzPerGb
  }

  function DiskCost(u: Usage, prices: Prices): real {
    u.readIops as real / 1_000_000.0 * prices.diskReadPerMiops
    + u.writeIops as real / 1_000_000.0 * prices.diskWritePerMiops
  }

  function CostOf(m: Metrics, id: Identity, prices: Prices, now: int): PodCost {
    var cpuB := m.usage.cycles as real / 1_000_000_000.0;
    var cpuCost := CpuCost(m.usage, prices);
    var memCost := MemoryCost(m.memoryBytesAvg, prices);
    var netCost := NetworkCost(m.usage, prices);
    var diskCost := DiskCost(m.usage, prices);
    var util := if m.requestedMillis > 0 then cpuB * 1000.0 / m.requestedMillis as real * 100.0 else 0.0;
    var wasted := if m.requestedMillis > 0 then cpuCost * (1.0 - util / 100.0) else 0.0;
    PodCost(id, now - WINDOW_NS, now, cpuB, m.memoryBytesAvg as real / GB * WINDOW_HOURS,
            m.usage.egress as real / GB, m.usage.crossAz as real / GB, m.usage.internet as real / GB,
            m.usage.readIops as real / 1_000_000.0, m.usage.writeIops as real / 1_000_000.0,
            cpuCost, memCost, netCost, diskCost, cpuCost + memCost + netCost + diskCost, util, wasted)
  }

  /** One unit of each priced resource, and nothing else, costs exactly its price; with the additivity
      below this fixes every cost. */
  lemma UnitCosts(prices: Prices)
    ensures CpuCost(NOTHING.(cycles := 1_000_000_000), prices) == prices.cpuPerBillionCyclesHour * WINDOW_HOURS
    ensures NetworkCost(NOTHING.(internet := 1_073_741_824), prices) == prices.internetEgressPerGb
    ensures NetworkCost(NOTHING.(crossAz := 1_073_741_824), prices) == prices.crossAzPerGb
    ensures DiskCost(NOTHING.(readIops := 1_000_000), prices) == prices.diskReadPerMiops
    ensures DiskCost(NOTHING.(writeIops := 1_000_000), prices) == prices.diskWritePerMiops
    ensures MemoryCost(1_073_741_824, prices) == prices.memoryPerGbHour * WINDOW_HOURS
  {
  }

  /** The counters can be read back from the reported quantities. */
  ghost predicate Recovers(c: PodCost, m: Metrics) {
    && c.cpuCyclesBillion * 1_000_000_000.0 == m.usage.cycles as real
    && c.networkEgressGb * GB == m.usage.egress as real
    && c.networkCrossAzGb * GB == m.usage.crossAz as real && c.networkInternetGb * GB == m.usage.internet as real
    && c.diskReadMiops * 1_000_000.0 == m.usage.readIops as real
    && c.diskWriteMiops * 1_000_000.0 == m.usage.writeIops as real
    && c.memoryGbHours * GB * 240.0 == m.memoryBytesAvg as real
  }

  lemma QuantitiesRecoverCounters(m: Metrics, id: Identity, prices: Prices, now: int)
    ensures Recovers(CostOf(m, id, prices, now), m)
  {
  }

  /** In counters and prices: 240 windows make an hour, so each cost times its unit, and CPU and memory
      times 240, is the counter times its price. */
  ghost predicate PricedAt(c: PodCost, cycles: U64, memoryBytes: U64, internet: U64, crossAz: U64, readIops: U64,
                           writeIops: U64, prices: Prices)
  {
    && c.cpuCost * 1_000_000_000.0 * 240.0 == cycles as real * prices.cpuPerBillionCyclesHour
    && c.memoryCost * 1_073_741_824.0 * 240.0 == memoryBytes as real * prices.memoryPerGbHour
    && c.networkCost * 1_073_741_824.0 ==
       internet as real * prices.internetEgressPerGb + crossAz as real * prices.crossAzPerGb
    && c.diskCost * 1_000_000.0 ==
       readIops as real * prices.diskReadPerMiops + writeIops as real * prices.diskWritePerMiops
    && c.totalCost == c.cpuCost + c.memoryCost + c.networkCost + c.diskCost
  }

  /** A requested thousandth of a CPU stands for a million cycles; the cost of those not used is wasted. */
  ghost predicate WastedAt(c: PodCost, cycles: U64, requestedMillis: int) {
    if requestedMillis <= 0 then c.cpuUtilizationPct == 0.0 && c.wastedDollars == 0.0
    else
      var request := requestedMillis as real * 1_000_000.0;
      && c.cpuUtilizationPct * request == 100.0 * cycles as real
      && c.wastedDollars * request == c.cpuCost * (request - cycles as real)
  }

  /** A count priced by the unit and the hour, back in single counts. */
  lemma CancelUnit(a: real, unit: real, hours: real, price: real)
    requires unit > 0.0 && hours * 240.0 == 1.0
    ensures a / unit * price * hours * unit * 240.0 == a * price
    ensures a / unit * hours * price * unit * 240.0 == a * price
  {
    var share := a / unit;
    assert share * unit == a;
    assert share * price * hours * unit * 240.0 == (share * unit) * price * (hours * 240.0);
    assert share * hours * price * unit * 240.0 == (share * unit) * price * (hours * 240.0);
  }

  lemma CancelTwo(a: real, b: real, unit: real, p: real, q: real)
    requires unit > 0.0
    ensures (a / unit * p + b / unit * q) * unit == a * p + b * q
  {
    var x, y := a / unit, b / unit;
    assert x * unit == a && y * unit == b;
    assert (x * p + y * q) * unit == (x * unit) * p + (y * unit) * q;
  }

  lemma CostInCounters(m: Metrics, id: Identity, prices: Prices, now: int)
    ensures var u := m.usage;
      PricedAt(CostOf(m, id, prices, now), u.cycles, m.memoryBytesAvg, u.internet, u.crossAz, u.readIops, u.writeIops,
               prices)
  {
    var u := m.usage;
    CancelUnit(u.cycles as real, 1_000_000_000.0, WINDOW_HOURS, prices.cpuPerBillionCyclesHour);
    CancelUnit(m.memoryBytesAvg as real, GB, WINDOW_HOURS, prices.memoryPerGbHour);
    CancelTwo(u.internet as real, u.crossAz as real, GB, prices.internetEgressPerGb, prices.crossAzPerGb);
    CancelTwo(u.readIops as real, u.writeIops as real, 1_000_000.0, prices.diskReadPerMiops, prices.diskWritePerMiops);
  }

  // ---------- utilisation and waste ----------

  /** Each requested thousandth of a CPU is weighed against a million cycles. */
  const CYCLES_PER_MILLI := 1_000_000

  lemma UtilIsShare(m: Metrics, id: Identity, prices: Prices, now: int)
    requires m.requestedMillis > 0
    ensures CostOf(m, id, prices, now).cpuUtilizationPct * (m.requestedMillis * CYCLES_PER_MILLI) as real ==
            100.0 * m.usage.cycles as real
  {
  }

  lemma WasteIsUnused(m: Metrics, id: Identity, prices: Prices, now: int)
    ensures WastedAt(CostOf(m, id, prices, now), m.usage.cycles, m.requestedMillis)
  {
    if m.requestedMillis > 0 {
      var c := CostOf(m, id, prices, now);
      UtilIsShare(m, id, prices, now);
      UnusedShare(c.cpuCost, c.cpuUtilizationPct, m.requestedMillis as real * 1_000_000.0, m.usage.cycles as real);
    }
  }

  lemma UnusedShare(cost: real, util: real, request: real, cycles: real)
    requires util * request == 100.0 * cycles
    ensures cost * (1.0 - util / 100.0) * request == cost * (request - cycles)
  {
    var share := util / 100.0;
    assert share * request == cycles;
    assert cost * (1.0 - share) * request == cost * (request - share * request);
  }

  /** In whole cycles: a requesting pod counts as under a fifth used exactly when five times its cycles
      are below its request, and what it wastes is positive, zero or negative as its cycles are below,
      at or above the request. */
  lemma WasteIffUnderused(m: Metrics, id: Identity, prices: Prices, now: int)
    requires m.requestedMillis > 0
    ensures var c, request := CostOf(m, id, prices, now), m.requestedMillis * CYCLES_PER_MILLI;
      && (c.cpuUtilizationPct < 20.0 <==> 5 * m.usage.cycles < request)
      && (c.cpuCost > 0.0 ==> (c.wastedDollars > 0.0 <==> m.usage.cycles < request))
      && (c.cpuCost > 0.0 ==> (c.wastedDollars < 0.0 <==> m.usage.cycles > request))
  {
    var c, request := CostOf(m, id, prices, now), m.requestedMillis * CYCLES_PER_MILLI;
    UtilIsShare(m, id, prices, now);
    ShareBelow(c.cpuUtilizationPct, request, m.usage.cycles, 20);
    ShareBelow(c.cpuUtilizationPct, request, m.usage.cycles, 100);
    var idle := 1.0 - c.cpuUtilizationPct / 100.0;
    assert c.wastedDollars == c.cpuCost * idle;
    if c.cpuCost > 0.0 {
      SignOfProduct(c.cpuCost, idle);
    }
  }

  /** A requesting pod is in the waste report exactly when it used something, and less than a fifth of
      its request. */
  lemma ReportedIff(m: Metrics, id: Identity, prices: Prices, now: int)
    requires m.requestedMillis > 0
    ensures 0.0 < CostOf(m, id, prices, now).cpuUtilizationPct < 20.0 <==>
            0 < m.usage.cycles && 5 * m.usage.cycles < m.requestedMillis * CYCLES_PER_MILLI
  {
    var util, request := CostOf(m, id, prices, now).cpuUtilizationPct, m.requestedMillis * CYCLES_PER_MILLI;
    UtilIsShare(m, id, prices, now);
    ShareBelow(util, request, m.usage.cycles, 20);
    ShareBelow(util, request, m.usage.cycles, 0);
  }

  /** At an input: a pod that requests a whole CPU and never runs is not in the waste report. */
  lemma IdlePodUnreported(id: Identity, prices: Prices, now: int)
    ensures CostOf(Metrics(1, NOTHING, 1000, 0), id, prices, now).cpuUtilizationPct == 0.0
  {
    UtilIsShare(Metrics(1, NOTHING, 1000, 0), id, prices, now);
  }

  lemma ShareBelow(util: real, request: int, cycles: int, bound: int)
    requires request > 0 && util * request as real == 100.0 * cycles as real
    ensures util < bound as real <==> 100 * cycles < bound * request
    ensures util > bound as real <==> 100 * cycles > bound * request
  {
  }

  lemma SignOfProduct(a: real, b: real)
    requires a > 0.0
    ensures (a * b > 0.0 <==> b > 0.0) && (a * b < 0.0 <==> b < 0.0)
  {
  }

  // ---------- costs between two collections ----------

  /** The 64-bit counters a list of updates would leave in an entry of their own. */
  function Window(us: seq<Update>, k: U64): Usage {
    Usage(UsageOf(us, k, Cycles) % TWO64, UsageOf(us, k, Instructions) % TWO64,
          UsageOf(us, k, Ingress) % TWO64, UsageOf(us, k, Egress) % TWO64,
          UsageOf(us, k, CrossAz) % TWO64, UsageOf(us, k, Internet) % TWO64,
          UsageOf(us, k, ReadBytes) % TWO64, UsageOf(us, k, WriteBytes) % TWO64,
          UsageOf(us, k, ReadIops) % TWO64, UsageOf(us, k, WriteIops) % TWO64)
  }

  /** No counter of the cgroup wraps while the updates arrive. */
  ghost predicate NoWrap(m: map<U64, Metrics>, us: seq<Update>, k: U64) {
    forall c :: At(Entry(m, k).usage, c) + UsageOf(us, k, c) < TWO64
  }

  lemma CounterGrows(m: map<U64, Metrics>, us: seq<Update>, k: U64, c: Counter)
    requires NoWrap(m, us, k) && k in AppliedAll(m, us)
    ensures At(AppliedAll(m, us)[k].usage, c) == At(Entry(m, k).usage, c) + UsageOf(us, k, c)
    ensures UsageOf(us, k, c) % TWO64 == UsageOf(us, k, c)
  {
    EntryPresent(AppliedAll(m, us), k);
    EntryGrows(m, us, k, c, At(Entry(m, k).usage, c), UsageOf(us, k, c));
  }

  lemma EntryGrows(m: map<U64, Metrics>, us: seq<Update>, k: U64, c: Counter, a: nat, u: nat)
    requires a == At(Entry(m, k).usage, c) && u == UsageOf(us, k, c) && a + u < TWO64
    ensures At(Entry(AppliedAll(m, us), k).usage, c) == a + u && u % TWO64 == u
  {
    ManagerIsSum(m, us, k, c);
    NoWrapSum(a, u);
  }

  lemma EntryPresent(m: map<U64, Metrics>, k: U64)
    requires k in m
    ensures Entry(m, k) == m[k]
  {
  }

  lemma NonNegativeProduct(a: real, unit: real, price: real)
    requires a >= 0.0 && unit > 0.0 && price >= 0.0
    ensures a / unit * price >= 0.0
  {
  }

  /** The cost of a usage on its own, memory aside. */
  function UsageCost(u: Usage, id: Identity, prices: Prices, now: int): PodCost {
    CostOf(Metrics(0, u, 0, 0), id, prices, now)
  }

  ghost predicate IsSum(b: Usage, a: Usage, w: Usage) {
    && b.cycles == a.cycles + w.cycles && b.crossAz == a.crossAz + w.crossAz && b.internet == a.internet + w.internet
    && b.readIops == a.readIops + w.readIops && b.writeIops == a.writeIops + w.writeIops
  }

  lemma CpuAdds(b: Usage, a: Usage, w: Usage, prices: Prices)
    requires IsSum(b, a, w)
    ensures CpuCost(b, prices) == CpuCost(a, prices) + CpuCost(w, prices)
  {
  }

  lemma NetworkAdds(b: Usage, a: Usage, w: Usage, prices: Prices)
    requires IsSum(b, a, w)
    ensures NetworkCost(b, prices) == NetworkCost(a, prices) + NetworkCost(w, prices)
  {
  }

  lemma DiskAdds(b: Usage, a: Usage, w: Usage, prices: Prices)
    requires IsSum(b, a, w)
    ensures DiskCost(b, prices) == DiskCost(a, prices) + DiskCost(w, prices)
  {
  }

  /** Memory is priced by the byte. */
  lemma MemoryAdds(a: U64, b: U64, prices: Prices)
    requires a + b < TWO64
    ensures MemoryCost(a + b, prices) == MemoryCost(a, prices) + MemoryCost(b, prices)
  {
  }

  lemma UsageGrows(m: map<U64, Metrics>, us: seq<Update>, k: U64)
    requires NoWrap(m, us, k) && k in AppliedAll(m, us)
    ensures IsSum(AppliedAll(m, us)[k].usage, Entry(m, k).usage, Window(us, k))
  {
    CounterGrows(m, us, k, Cycles);
    CounterGrows(m, us, k, CrossAz);
    CounterGrows(m, us, k, Internet);
    CounterGrows(m, us, k, ReadIops);
    CounterGrows(m, us, k, WriteIops);
  }

  /** Windows telescope: the counters are never reset, so between two collections each resource's
      cost grows by exactly the cost model applied to the updates made in between. */
  lemma WindowsTelescope(m: map<U64, Metrics>, us: seq<Update>, k: U64, id: Identity, prices: Prices, t: int, t': int)
    requires NoWrap(m, us, k) && k in AppliedAll(m, us)
    ensures var before, after := CostOf(Entry(m, k), id, prices, t), CostOf(AppliedAll(m, us)[k], id, prices, t');
      var window := UsageCost(Window(us, k), id, prices, t');
      && after.cpuCost == before.cpuCost + window.cpuCost
      && after.networkCost == before.networkCost + window.networkCost
      && after.diskCost == before.diskCost + window.diskCost
      && after.memoryCost == before.memoryCost
  {
    UsageGrows(m, us, k);
    UpdatesKeepTheRest(m, us, k);
    var a, b, w := Entry(m, k).usage, AppliedAll(m, us)[k].usage, Window(us, k);
    CpuAdds(b, a, w, prices);
    NetworkAdds(b, a, w, prices);
    DiskAdds(b, a, w, prices);
    SameMemory(AppliedAll(m, us)[k], Entry(m, k));
  }

  lemma SameMemory(a: Metrics, b: Metrics)
    requires a.(usage := NOTHING) == b.(usage := NOTHING)
    ensures a.memoryBytesAvg == b.memoryBytesAvg && a.requestedMillis == b.requestedMillis
  {
  }

  lemma UsageCostsNonNegative(u: Usage, prices: Prices)
    requires prices.NonNegative()
    ensures CpuCost(u, prices) >= 0.0 && NetworkCost(u, prices) >= 0.0 && DiskCost(u, prices) >= 0.0
  {
    NonNegativeProduct(u.cycles as real, 1_000_000_000.0, prices.cpuPerBillionCyclesHour);
    NonNegativeProduct(u.internet as real, GB, prices.internetEgressPerGb);
    NonNegativeProduct(u.crossAz as real, GB, prices.crossAzPerGb);
    NonNegativeProduct(u.readIops as real, 1_000_000.0, prices.diskReadPerMiops);
    NonNegativeProduct(u.writeIops as real, 1_000_000.0, prices.diskWritePerMiops);
  }

  lemma CostsNonNegative(m: Metrics, id: Identity, prices: Prices, now: int)
    requires prices.NonNegative()
    ensures CostOf(m, id, prices, now).totalCost >= 0.0
  {
    UsageCostsNonNegative(m.usage, prices);
    NonNegativeProduct(m.memoryBytesAvg as real, GB, WINDOW_HOURS);
    assert MemoryCost(m.memoryBytesAvg, prices) >= 0.0;
  }

  /** With non-negative prices no resource ever gets cheaper from one collection to the next. */
  lemma CostsNeverFall(m: map<U64, Metrics>, us: seq<Update>, k: U64, id: Identity, prices: Prices, t: int, t': int)
    requires NoWrap(m, us, k) && k in AppliedAll(m, us) && prices.NonNegative()
    ensures var before, after := CostOf(Entry(m, k), id, prices, t), CostOf(AppliedAll(m, us)[k], id, prices, t');
      before.cpuCost <= after.cpuCost && before.networkCost <= after.networkCost && before.diskCost <= after.diskCost
  {
    WindowsTelescope(m, us, k, id, prices, t, t');
    UsageCostsNonNegative(Window(us, k), prices);
  }

  /** A collection is labelled with its last 15 seconds, yet it bills that window alone exactly when
      nothing the cgroup had used before it had any cost. */
  lemma BillsWindowAloneIff(m: map<U64, Metrics>, us: seq<Update>, k: U64, id: Identity, prices: Prices, now: int)
    requires NoWrap(m, us, k) && k in AppliedAll(m, us)
    ensures var before, after := CostOf(Entry(m, k), id, prices, now), CostOf(AppliedAll(m, us)[k], id, prices, now);
      var window := UsageCost(Window(us, k), id, prices, now);
      after.totalCost == window.totalCost + after.memoryCost <==>
      before.cpuCost + before.networkCost + before.diskCost == 0.0
  {
    WindowsTelescope(m, us, k, id, prices, now, now);
    var before, after := CostOf(Entry(m, k), id, prices, now), CostOf(AppliedAll(m, us)[k], id, prices, now);
    var window := UsageCost(Window(us, k), id, prices, now);
    NoMemoryInWindow(Window(us, k), id, prices, now);
    TotalsCompare(before, after, window);
  }

  lemma NoMemoryInWindow(u: Usage, id: Identity, prices: Prices, now: int)
    ensures UsageCost(u, id, prices, now).memoryCost == 0.0
  {
  }

  ghost predicate Adds(c: PodCost) {
    c.totalCost == c.cpuCost + c.memoryCost + c.networkCost + c.diskCost
  }

  lemma TotalsCompare(before: PodCost, after: PodCost, window: PodCost)
    requires Adds(after) && Adds(window) && window.memoryCost == 0.0
    requires after.cpuCost == before.cpuCost + window.cpuCost
    requires after.networkCost == before.networkCost + window.networkCost
    requires after.diskCost == before.diskCost + window.diskCost
    ensures after.totalCost == window.totalCost + after.memoryCost <==>
            before.cpuCost + before.networkCost + before.diskCost == 0.0
  {
  }

  /** While only the Update methods write, no entry has a CPU request or a memory average: nothing is
      ever reported as wasted, and memory is free. */
  lemma UpdatesAloneWasteNothing(us: seq<Update>, k: U64, id: Identity, prices: Prices, now: int)
    requires k in AppliedAll(map[], us)
    ensures var c := CostOf(AppliedAll(map[], us)[k], id, prices, now);
      c.memoryCost == 0.0 && c.cpuUtilizationPct == 0.0 && c.wastedDollars == 0.0
  {
    UpdatesKeepTheRest(map[], us, k);
    SameMemory(AppliedAll(map[], us)[k], Blank(k));
  }

  /** Usage only accumulates, so a pod that has once reached a fifth of its request is off the waste
      report for good, and one that has reached its request never again shows positive waste. */
  lemma WasteEndsForGood(m: map<U64, Metrics>, us: seq<Update>, k: U64, id: Identity, prices: Prices, t: int, t': int)
    requires NoWrap(m, us, k) && k in AppliedAll(m, us) && Entry(m, k).requestedMillis > 0
    ensures var before, after := CostOf(Entry(m, k), id, prices, t), CostOf(AppliedAll(m, us)[k], id, prices, t');
      && (before.cpuUtilizationPct >= 20.0 ==> after.cpuUtilizationPct >= 20.0)
      && (Entry(m, k).usage.cycles >= Entry(m, k).requestedMillis * CYCLES_PER_MILLI && after.cpuCost > 0.0 ==>
            after.wastedDollars <= 0.0)
  {
    UpdatesKeepTheRest(m, us, k);
    SameMemory(AppliedAll(m, us)[k], Entry(m, k));
    CounterGrows(m, us, k, Cycles);
    WasteIffUnderused(Entry(m, k), id, prices, t);
    WasteIffUnderused(AppliedAll(m, us)[k], id, prices, t');
  }

  /** At an input: a cgroup that once ran for 3600 billion cycles, at a dollar per billion and hour, is
      billed its 15 dollars again for 15 seconds in which nothing was reported. */
  lemma IdleWindowBilledAgain(id: Identity, now: int)
    ensures var m, prices := map[7 := Metrics(7, NOTHING.(cycles := 3_600_000_000_000), 0, 0)],
                             Prices(1.0, 0.0, 0.0, 0.0, 0.0, 0.0);
      && CostOf(AppliedAll(m, [])[7], id, prices, now).totalCost == 15.0
      && UsageCost(Window([], 7), id, prices, now).totalCost == 0.0
  {
    assert Window([], 7) == NOTHING;
  }
}
