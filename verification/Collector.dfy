/** internal/collector/manager.go: raw measurements accumulated per cgroup. */
module Collector {
  import opened Words

  /** The counters the collectors report for a cgroup. */
  datatype Usage = Usage(
    cycles: U64, instructions: U64, ingress: U64, egress: U64, crossAz: U64, internet: U64,
    readBytes: U64, writeBytes: U64, readIops: U64, writeIops: U64)

  datatype Counter =
    | Cycles | Instructions | Ingress | Egress | CrossAz | Internet | ReadBytes | WriteBytes | ReadIops | WriteIops

  const NOTHING := Usage(0, 0, 0, 0, 0, 0, 0, 0, 0, 0)

  function At(u: Usage, c: Counter): U64 {
    match c
    case Cycles => u.cycles
    case Instructions => u.instructions
    case Ingress => u.ingress
    case Egress => u.egress
    case CrossAz => u.crossAz
    case Internet => u.internet
    case ReadBytes => u.readBytes
    case WriteBytes => u.writeBytes
    case ReadIops => u.readIops
    case WriteIops => u.writeIops
  }

  /** Counter by counter, on 64-bit words. */
  function Added(a: Usage, b: Usage): Usage {
    Usage(Add64(a.cycles, b.cycles), Add64(a.instructions, b.instructions),
          Add64(a.ingress, b.ingress), Add64(a.egress, b.egress),
          Add64(a.crossAz, b.crossAz), Add64(a.internet, b.internet),
          Add64(a.readBytes, b.readBytes), Add64(a.writeBytes, b.writeBytes),
          Add64(a.readIops, b.readIops), Add64(a.writeIops, b.writeIops))
  }

  lemma AddedAt(a: Usage, b: Usage, c: Counter)
    ensures At(Added(a, b), c) == Add64(At(a, c), At(b, c))
  {
  }

  lemma SameUsage(a: Usage, b: Usage)
    requires forall c :: At(a, c) == At(b, c)
    ensures a == b
  {
    assert At(a, Cycles) == At(b, Cycles) && At(a, Instructions) == At(b, Instructions);
    assert At(a, Ingress) == At(b, Ingress) && At(a, Egress) == At(b, Egress);
    assert At(a, CrossAz) == At(b, CrossAz) && At(a, Internet) == At(b, Internet);
    assert At(a, ReadBytes) == At(b, ReadBytes) && At(a, WriteBytes) == At(b, WriteBytes);
    assert At(a, ReadIops) == At(b, ReadIops) && At(a, WriteIops) == At(b, WriteIops);
  }

  /** One entry of the manager's map.  The Update methods never write the last two fields. */
  datatype Metrics = Metrics(cgroupId: U64, usage: Usage, requestedMillis: int, memoryBytesAvg: U64)

  function Blank(cgroup: U64): Metrics {
    Metrics(cgroup, NOTHING, 0, 0)
  }

  datatype Update =
    | UpdateCpu(cgroup: U64, cycles: U64, instructions: U64)
    | UpdateNetwork(cgroup: U64, ingress: U64, egress: U64, crossAz: U64, internet: U64)
    | UpdateDisk(cgroup: U64, readBytes: U64, writeBytes: U64, readIops: U64, writeIops: U64)

  function Reported(u: Update): Usage {
    match u
    case UpdateCpu(_, c, i) => NOTHING.(cycles := c, instructions := i)
    case UpdateNetwork(_, i, e, x, n) => NOTHING.(ingress := i, egress := e, crossAz := x, internet := n)
    case UpdateDisk(_, rb, wb, ri, wi) => NOTHING.(readBytes := rb, writeBytes := wb, readIops := ri, writeIops := wi)
  }

  /** Each figure of a report goes to the counter of its own name, and no other counter moves. */
  lemma ReportedAt(g: U64, a: U64, b: U64, c: U64, d: U64)
    ensures var u := UpdateCpu(g, a, b);
      forall x :: At(Reported(u), x) == if x == Cycles then a else if x == Instructions then b else 0
    ensures var u := UpdateNetwork(g, a, b, c, d);
      forall x :: At(Reported(u), x) ==
        if x == Ingress then a else if x == Egress then b else if x == CrossAz then c
        else if x == Internet then d else 0
    ensures var u := UpdateDisk(g, a, b, c, d);
      forall x :: At(Reported(u), x) ==
        if x == ReadBytes then a else if x == WriteBytes then b else if x == ReadIops then c
        else if x == WriteIops then d else 0
  {
  }

  function Entry(m: map<U64, Metrics>, k: U64): Metrics {
    if k in m then m[k] else Blank(k)
  }

  function Applied(m: map<U64, Metrics>, u: Update): map<U64, Metrics> {
    var e := Entry(m, u.cgroup);
    m[u.cgroup := e.(usage := Added(e.usage, Reported(u)))]
  }

  /** Creating the entry first and then writing its counters is the same. */
  lemma AppliedInTwo(m: map<U64, Metrics>, u: Update)
    ensures var k, e := u.cgroup, Entry(m, u.cgroup);
      Applied(m, u) == m[k := e][k := e.(usage := Added(e.usage, Reported(u)))]
  {
  }

  /** On the counters themselves: each of a report's figures is added to its own, modulo 2^64. */
  lemma CpuFiguresAdded(was: Usage, g: U64, a: U64, b: U64)
    ensures var now := Added(was, Reported(UpdateCpu(g, a, b)));
      now.cycles == (was.cycles + a) % TWO64 && now.instructions == (was.instructions + b) % TWO64
  {
  }

  lemma NetworkFiguresAdded(was: Usage, g: U64, a: U64, b: U64, c: U64, d: U64)
    ensures var now := Added(was, Reported(UpdateNetwork(g, a, b, c, d)));
      && now.ingress == (was.ingress + a) % TWO64 && now.egress == (was.egress + b) % TWO64
      && now.crossAz == (was.crossAz + c) % TWO64 && now.internet == (was.internet + d) % TWO64
  {
  }

  lemma DiskFiguresAdded(was: Usage, g: U64, a: U64, b: U64, c: U64, d: U64)
    ensures var now := Added(was, Reported(UpdateDisk(g, a, b, c, d)));
      && now.readBytes == (was.readBytes + a) % TWO64 && now.writeBytes == (was.writeBytes + b) % TWO64
      && now.readIops == (was.readIops + c) % TWO64 && now.writeIops == (was.writeIops + d) % TWO64
  {
  }

  /** An update touches the entry of its own cgroup, new or not, and no other. */
  lemma OneEntryMoves(m: map<U64, Metrics>, u: Update)
    ensures var m' := Applied(m, u);
      && m' - {u.cgroup} == m - {u.cgroup}
      && m'[u.cgroup].usage == Added(if u.cgroup in m then m[u.cgroup].usage else NOTHING, Reported(u))
  {
  }

  function AppliedAll(m: map<U64, Metrics>, us: seq<Update>): map<U64, Metrics> {
    if us == [] then m else Applied(AppliedAll(m, us[..|us| - 1]), us[|us| - 1])
  }

  lemma AppliedSnoc(m: map<U64, Metrics>, us: seq<Update>, u: Update)
    ensures AppliedAll(m, us + [u]) == Applied(AppliedAll(m, us), u)
  {
  }

  // ---------- the manager ----------

  class RawMetrics {
    const cgroupId: U64
    var cpuCycles: U64
    var cpuInstructions: U64
    var cpuRequestedMillis: int
    var memoryBytesAvg: U64
    var networkIngressBytes: U64
    var networkEgressBytes: U64
    var networkCrossAzBytes: U64
    var networkInternetBytes: U64
    var diskReadBytes: U64
    var diskWriteBytes: U64
    var diskReadIops: U64
    var diskWriteIops: U64

    function Value(): (m: Metrics)
      reads this
      ensures m.cgroupId == cgroupId && m.requestedMillis == cpuRequestedMillis && m.memoryBytesAvg == memoryBytesAvg
      ensures m.usage.cycles == cpuCycles && m.usage.instructions == cpuInstructions
      ensures m.usage.ingress == networkIngressBytes && m.usage.egress == networkEgressBytes
      ensures m.usage.crossAz == networkCrossAzBytes && m.usage.internet == networkInternetBytes
      ensures m.usage.readBytes == diskReadBytes && m.usage.writeBytes == diskWriteBytes
      ensures m.usage.readIops == diskReadIops && m.usage.writeIops == diskWriteIops
    {
      Metrics(cgroupId,
              Usage(cpuCycles, cpuInstructions, networkIngressBytes, networkEgressBytes, networkCrossAzBytes,
                    networkInternetBytes, diskReadBytes, diskWriteBytes, diskReadIops, diskWriteIops),
              cpuRequestedMillis, memoryBytesAvg)
    }

    constructor (cgroup: U64)
      ensures Value() == Blank(cgroup)
    {
      cgroupId := cgroup;
      cpuCycles, cpuInstructions, cpuRequestedMillis, memoryBytesAvg := 0, 0, 0, 0;
      networkIngressBytes, networkEgressBytes, networkCrossAzBytes, networkInternetBytes := 0, 0, 0, 0;
      diskReadBytes, diskWriteBytes, diskReadIops, diskWriteIops := 0, 0, 0, 0;
    }

    /** `copy := *v` */
    constructor Copy(v: RawMetrics)
      ensures Value() == v.Value()
    {
      cgroupId := v.cgroupId;
      cpuCycles, cpuInstructions := v.cpuCycles, v.cpuInstructions;
      cpuRequestedMillis, memoryBytesAvg := v.cpuRequestedMillis, v.memoryBytesAvg;
      networkIngressBytes, networkEgressBytes := v.networkIngressBytes, v.networkEgressBytes;
      networkCrossAzBytes, networkInternetBytes := v.networkCrossAzBytes, v.networkInternetBytes;
      diskReadBytes, diskWriteBytes := v.diskReadBytes, v.diskWriteBytes;
      diskReadIops, diskWriteIops := v.diskReadIops, v.diskWriteIops;
    }

    /** The `+=` lines of UpdateCPU. */
    method AddCpu(cycles: U64, instructions: U64)
      modifies this
      ensures Value() == old(Value()).(usage :=
                Added(old(Value()).usage, Reported(UpdateCpu(cgroupId, cycles, instructions))))
      ensures cpuCycles == (old(cpuCycles) + cycles) % TWO64
      ensures cpuInstructions == (old(cpuInstructions) + instructions) % TWO64
    {
      cpuCycles := Add64(cpuCycles, cycles);
      cpuInstructions := Add64(cpuInstructions, instructions);
    }

    /** The `+=` lines of UpdateNetwork. */
    method AddNetwork(ingress: U64, egress: U64, crossAz: U64, internet: U64)
      modifies this
      ensures Value() == old(Value()).(usage :=
                Added(old(Value()).usage, Reported(UpdateNetwork(cgroupId, ingress, egress, crossAz, internet))))
      ensures networkIngressBytes == (old(networkIngressBytes) + ingress) % TWO64
      ensures networkEgressBytes == (old(networkEgressBytes) + egress) % TWO64
      ensures networkCrossAzBytes == (old(networkCrossAzBytes) + crossAz) % TWO64
      ensures networkInternetBytes == (old(networkInternetBytes) + internet) % TWO64
    {
      networkIngressBytes := Add64(networkIngressBytes, ingress);
      networkEgressBytes := Add64(networkEgressBytes, egress);
      networkCrossAzBytes := Add64(networkCrossAzBytes, crossAz);
      networkInternetBytes := Add64(networkInternetBytes, internet);
    }

    /** The `+=` lines of UpdateDisk. */
    method AddDisk(readBytes: U64, writeBytes: U64, readIops: U64, writeIops: U64)
      modifies this
      ensures Value() == old(Value()).(usage :=
                Added(old(Value()).usage, Reported(UpdateDisk(cgroupId, readBytes, writeBytes, readIops, writeIops))))
      ensures diskReadBytes == (old(diskReadBytes) + readBytes) % TWO64
      ensures diskWriteBytes == (old(diskWriteBytes) + writeBytes) % TWO64
      ensures diskReadIops == (old(diskReadIops) + readIops) % TWO64
      ensures diskWriteIops == (old(diskWriteIops) + writeIops) % TWO64
    {
      diskReadBytes := Add64(diskReadBytes, readBytes);
      diskWriteBytes := Add64(diskWriteBytes, writeBytes);
      diskReadIops := Add64(diskReadIops, readIops);
      diskWriteIops := Add64(diskWriteIops, writeIops);
    }
  }

  /** The values a map of pointers stands for. */
  ghost function ValuesOf(m: map<U64, RawMetrics>): map<U64, Metrics>
    reads m.Values
  {
    map k | k in m :: m[k].Value()
  }

  ghost predicate Unshared(m: map<U64, RawMetrics>) {
    forall j, k :: j in m && k in m && j != k ==> m[j] != m[k]
  }

  lemma StillUnshared(m: map<U64, RawMetrics>, k: U64, cell: RawMetrics)
    requires Unshared(m) && k !in m && cell !in m.Values
    ensures Unshared(m[k := cell]) && m[k := cell].Values == m.Values + {cell}
  {
    assert forall j :: j in m ==> m[j] in m.Values;
    assert forall j :: j in m[k := cell] ==> m[k := cell][j] == if j == k then cell else m[j];
    assert m[k := cell].Values <= m.Values + {cell};
    assert m[k := cell][k] == cell;
    assert forall c :: c in m.Values ==> c in m[k := cell].Values by {
      forall c | c in m.Values
        ensures c in m[k := cell].Values
      {
        var j :| j in m && m[j] == c;
        assert m[k := cell][j] == c;
      }
    }
  }

  /** Writing one cell moves one value. */
  lemma OneCellWritten(m: map<U64, RawMetrics>, was: map<U64, Metrics>, k: U64)
    requires k in m && m.Keys == was.Keys
    requires forall j :: j in m && j != k ==> m[j].Value() == was[j]
    ensures ValuesOf(m) == was[k := m[k].Value()]
  {
  }

  class Manager {
    var metrics: map<U64, RawMetrics>

    ghost predicate Valid()
      reads this
    {
      Unshared(metrics)
    }

    ghost function Contents(): map<U64, Metrics>
      reads this, metrics.Values
    {
      ValuesOf(metrics)
    }

    constructor ()
      ensures Valid() && Contents() == map[]
    {
      metrics := map[];
    }

    method FindOrCreate(cgroup: U64)
      requires Valid()
      modifies this
      ensures Valid() && cgroup in metrics
      ensures old(metrics).Values <= metrics.Values && fresh(metrics.Values - old(metrics).Values)
      ensures ValuesOf(metrics) == old(Contents())[cgroup := Entry(old(Contents()), cgroup)]
    {
      if cgroup !in metrics {
        var cell := new RawMetrics(cgroup);
        assert forall k :: k in metrics ==> metrics[k] != cell;
        assert forall k :: k in metrics ==> k in metrics[cgroup := cell] && metrics[cgroup := cell][k] == metrics[k];
        metrics := metrics[cgroup := cell];
      }
    }

    method UpdateCPU(cgroup: U64, cycles: U64, instructions: U64)
      requires Valid()
      modifies this, metrics.Values
      ensures Valid() && fresh(metrics.Values - old(metrics.Values))
      ensures Contents() == Applied(old(Contents()), UpdateCpu(cgroup, cycles, instructions))
    {
      FindOrCreate(cgroup);
      ghost var was := ValuesOf(metrics);
      metrics[cgroup].AddCpu(cycles, instructions);
      AppliedInTwo(old(Contents()), UpdateCpu(cgroup, cycles, instructions));
      OneCellWritten(metrics, was, cgroup);
    }

    method UpdateNetwork(cgroup: U64, ingress: U64, egress: U64, crossAz: U64, internet: U64)
      requires Valid()
      modifies this, metrics.Values
      ensures Valid() && fresh(metrics.Values - old(metrics.Values))
      ensures Contents() == Applied(old(Contents()), Update.UpdateNetwork(cgroup, ingress, egress, crossAz, internet))
    {
      FindOrCreate(cgroup);
      ghost var was := ValuesOf(metrics);
      metrics[cgroup].AddNetwork(ingress, egress, crossAz, internet);
      AppliedInTwo(old(Contents()), Update.UpdateNetwork(cgroup, ingress, egress, crossAz, internet));
      OneCellWritten(metrics, was, cgroup);
    }

    method UpdateDisk(cgroup: U64, readBytes: U64, writeBytes: U64, readIops: U64, writeIops: U64)
      requires Valid()
      modifies this, metrics.Values
      ensures Valid() && fresh(metrics.Values - old(metrics.Values))
      ensures Contents() ==
              Applied(old(Contents()), Update.UpdateDisk(cgroup, readBytes, writeBytes, readIops, writeIops))
    {
      FindOrCreate(cgroup);
      ghost var was := ValuesOf(metrics);
      metrics[cgroup].AddDisk(readBytes, writeBytes, readIops, writeIops);
      AppliedInTwo(old(Contents()), Update.UpdateDisk(cgroup, readBytes, writeBytes, readIops, writeIops));
      OneCellWritten(metrics, was, cgroup);
    }

    /** A copy of every entry, none of them shared with the live map or with one another. */
    method Snapshot() returns (result: map<U64, RawMetrics>)
      requires Valid()
      ensures fresh(result.Values) && Unshared(result)
      ensures ValuesOf(result) == Contents()
    {
      result := map[];
      var todo := metrics.Keys;
      while todo != {}
        invariant todo <= metrics.Keys && result.Keys == metrics.Keys - todo
        invariant fresh(result.Values) && Unshared(result)
        invariant forall k :: k in result ==> result[k].Value() == metrics[k].Value()
        decreases |todo|
      {
        var k :| k in todo;
        var copy := new RawMetrics.Copy(metrics[k]);
        StillUnshared(result, k, copy);
        result := result[k := copy];
        todo := todo - {k};
      }
    }

    /** Any one of the update calls. */
    method Receive(u: Update)
      requires Valid()
      modifies this, metrics.Values
      ensures Valid() && fresh(metrics.Values - old(metrics.Values))
      ensures Contents() == Applied(old(Contents()), u)
    {
      match u
      case UpdateCpu(g, c, i) => UpdateCPU(g, c, i);
      case UpdateNetwork(g, i, e, x, n) => UpdateNetwork(g, i, e, x, n);
      case UpdateDisk(g, rb, wb, ri, wi) => UpdateDisk(g, rb, wb, ri, wi);
    }

    method ReceiveAll(us: seq<Update>)
      requires Valid()
      modifies this, metrics.Values
      ensures Valid() && fresh(metrics.Values - old(metrics.Values))
      ensures Contents() == AppliedAll(old(Contents()), us)
    {
      ghost var start := Contents();
      for i := 0 to |us|
        invariant Valid() && fresh(metrics.Values - old(metrics.Values))
        invariant Contents() == AppliedAll(start, us[..i])
      {
        AppliedSnoc(start, us[..i], us[i]);
        assert us[..i + 1] == us[..i] + [us[i]];
        Receive(us[i]);
      }
      assert us[..|us|] == us;
    }

    /** No later update, of whatever kind and however many, changes a snapshot once taken. */
    method SnapshotThenUpdates(us: seq<Update>) returns (taken: map<U64, RawMetrics>)
      requires Valid()
      modifies this, metrics.Values
      ensures Valid() && Contents() == AppliedAll(old(Contents()), us)
      ensures fresh(taken.Values) && ValuesOf(taken) == old(Contents())
    {
      taken := Snapshot();
      ReceiveAll(us);
    }
  }

  // ---------- the sums an update sequence stands for ----------

  function Share(u: Update, k: U64, c: Counter): nat {
    if u.cgroup == k then At(Reported(u), c) else 0
  }

  /** What a list of updates reports for one counter of one cgroup, unbounded. */
  function UsageOf(us: seq<Update>, k: U64, c: Counter): nat {
    if us == [] then 0 else Share(us[0], k, c) + UsageOf(us[1..], k, c)
  }

  lemma {:induction false} UsageConcat(us: seq<Update>, vs: seq<Update>, k: U64, c: Counter)
    ensures UsageOf(us + vs, k, c) == UsageOf(us, k, c) + UsageOf(vs, k, c)
  {
    if us == [] {
      assert us + vs == vs;
    } else {
      assert (us + vs)[1..] == us[1..] + vs;
      UsageConcat(us[1..], vs, k, c);
    }
  }

  ghost predicate Mentions(us: seq<Update>, k: U64) {
    exists i :: 0 <= i < |us| && us[i].cgroup == k
  }

  lemma MentionsSnoc(us: seq<Update>, u: Update, k: U64)
    ensures Mentions(us + [u], k) <==> Mentions(us, k) || u.cgroup == k
  {
    assert (us + [u])[|us|] == u;
    assert forall i :: 0 <= i < |us| ==> (us + [u])[i] == us[i];
  }

  /** A cgroup is in the map if it was, or if an update named it. */
  lemma {:induction false} ManagerKeys(m: map<U64, Metrics>, us: seq<Update>, k: U64)
    ensures k in AppliedAll(m, us) <==> k in m || Mentions(us, k)
    decreases |us|
  {
    if us != [] {
      var front, last := us[..|us| - 1], us[|us| - 1];
      assert us == front + [last];
      ManagerKeys(m, front, k);
      MentionsSnoc(front, last, k);
    }
  }

  /** One counter of one cgroup, followed through the updates on its own. */
  function Tally(us: seq<Update>, k: U64, c: Counter, start: U64): U64 {
    if us == [] then start
    else
      var front, last := Tally(us[..|us| - 1], k, c, start), us[|us| - 1];
      if last.cgroup == k then Add64(front, At(Reported(last), c)) else front
  }

  lemma {:induction false} EntryTallies(m: map<U64, Metrics>, us: seq<Update>, k: U64, c: Counter)
    ensures At(Entry(AppliedAll(m, us), k).usage, c) == Tally(us, k, c, At(Entry(m, k).usage, c))
    decreases |us|
  {
    if us != [] {
      var front, last := us[..|us| - 1], us[|us| - 1];
      EntryTallies(m, front, k, c);
      AddedAt(Entry(AppliedAll(m, front), k).usage, Reported(last), c);
    }
  }

  lemma {:induction false} TallyIsSum(us: seq<Update>, k: U64, c: Counter, start: U64)
    ensures Tally(us, k, c, start) == (start + UsageOf(us, k, c)) % TWO64
    decreases |us|
  {
    if us != [] {
      var front, last := us[..|us| - 1], us[|us| - 1];
      assert us == front + [last];
      TallyIsSum(front, k, c, start);
      UsageConcat(front, [last], k, c);
      assert UsageOf([last], k, c) == Share(last, k, c);
      WrapAdd(start + UsageOf(front, k, c), At(Reported(last), c));
    }
  }

  /** The manager's map is the sum of the updates: each counter of each cgroup has grown by the 64-bit
      sum for that cgroup and counter. */
  lemma ManagerIsSum(m: map<U64, Metrics>, us: seq<Update>, k: U64, c: Counter)
    ensures At(Entry(AppliedAll(m, us), k).usage, c) == (At(Entry(m, k).usage, c) + UsageOf(us, k, c)) % TWO64
  {
    EntryTallies(m, us, k, c);
    TallyIsSum(us, k, c, At(Entry(m, k).usage, c));
  }

  /** Nothing but the counters is ever written by an update. */
  lemma {:induction false} UpdatesKeepTheRest(m: map<U64, Metrics>, us: seq<Update>, k: U64)
    requires k in AppliedAll(m, us)
    ensures AppliedAll(m, us)[k].(usage := NOTHING) == Entry(m, k).(usage := NOTHING)
    decreases |us|
  {
    if us != [] {
      var front, last := us[..|us| - 1], us[|us| - 1];
      if k in AppliedAll(m, front) {
        UpdatesKeepTheRest(m, front, k);
      } else if k in m {
        KeysStay(m, front, k);
      }
    }
  }

  lemma {:induction false} KeysStay(m: map<U64, Metrics>, us: seq<Update>, k: U64)
    requires k in m
    ensures k in AppliedAll(m, us)
    decreases |us|
  {
    if us != [] {
      KeysStay(m, us[..|us| - 1], k);
    }
  }

  lemma UsageWithout(us: seq<Update>, i: nat, k: U64, c: Counter)
    requires i < |us|
    ensures UsageOf(us, k, c) == Share(us[i], k, c) + UsageOf(us[..i] + us[i + 1..], k, c)
    ensures multiset(us[..i] + us[i + 1..]) == multiset(us) - multiset{us[i]}
  {
    assert us == us[..i] + ([us[i]] + us[i + 1..]);
    UsageConcat(us[..i], [us[i]] + us[i + 1..], k, c);
    UsageConcat([us[i]], us[i + 1..], k, c);
    UsageConcat(us[..i], us[i + 1..], k, c);
  }

  lemma {:induction false} UsageReordered(us: seq<Update>, vs: seq<Update>, k: U64, c: Counter)
    requires multiset(us) == multiset(vs)
    ensures UsageOf(us, k, c) == UsageOf(vs, k, c)
    decreases |us|
  {
    if us == [] {
      assert |vs| == |multiset(vs)| == 0;
    } else {
      assert us[0] in multiset(vs);
      var i :| 0 <= i < |vs| && vs[i] == us[0];
      UsageWithout(us, 0, k, c);
      UsageWithout(vs, i, k, c);
      UsageReordered(us[..0] + us[1..], vs[..i] + vs[i + 1..], k, c);
    }
  }

  lemma MentionsReordered(us: seq<Update>, vs: seq<Update>, k: U64)
    requires multiset(us) == multiset(vs) && Mentions(us, k)
    ensures Mentions(vs, k)
  {
    var i :| 0 <= i < |us| && us[i].cgroup == k;
    assert us[i] in multiset(vs);
    var j :| 0 <= j < |vs| && vs[j] == us[i];
  }

  /** The updates arrive under a lock, in some order: the order never matters. */
  lemma UpdateOrderIrrelevant(m: map<U64, Metrics>, us: seq<Update>, vs: seq<Update>)
    requires multiset(us) == multiset(vs)
    ensures AppliedAll(m, us) == AppliedAll(m, vs)
  {
    forall k: U64
      ensures k in AppliedAll(m, us) <==> k in AppliedAll(m, vs)
    {
      SameKey(m, us, vs, k);
    }
    forall k | k in AppliedAll(m, us)
      ensures AppliedAll(m, us)[k] == AppliedAll(m, vs)[k]
    {
      SameEntry(m, us, vs, k);
    }
  }

  lemma SameKey(m: map<U64, Metrics>, us: seq<Update>, vs: seq<Update>, k: U64)
    requires multiset(us) == multiset(vs)
    ensures k in AppliedAll(m, us) <==> k in AppliedAll(m, vs)
  {
    ManagerKeys(m, us, k);
    ManagerKeys(m, vs, k);
    if Mentions(us, k) {
      MentionsReordered(us, vs, k);
    }
    if Mentions(vs, k) {
      MentionsReordered(vs, us, k);
    }
  }

  lemma SameEntry(m: map<U64, Metrics>, us: seq<Update>, vs: seq<Update>, k: U64)
    requires multiset(us) == multiset(vs) && k in AppliedAll(m, us)
    ensures k in AppliedAll(m, vs) && AppliedAll(m, us)[k] == AppliedAll(m, vs)[k]
  {
    SameKey(m, us, vs, k);
    UpdatesKeepTheRest(m, us, k);
    UpdatesKeepTheRest(m, vs, k);
    var a, b := AppliedAll(m, us)[k], AppliedAll(m, vs)[k];
    forall c: Counter
      ensures At(a.usage, c) == At(b.usage, c)
    {
      ManagerIsSum(m, us, k, c);
      ManagerIsSum(m, vs, k, c);
      UsageReordered(us, vs, k, c);
    }
    SameUsage(a.usage, b.usage);
    assert a == a.(usage := NOTHING).(usage := a.usage);
  }
}
