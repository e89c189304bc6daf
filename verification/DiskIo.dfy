/** bpf/disk_io.c: block-layer requests tracked from issue to completion by their start sector. */
module DiskIo {
  import opened Counters
  import opened Sums
  import opened Words

  /** `max_entries` of inflight_map. */
  const INFLIGHT_CAPACITY := 65536

  const READ_BYTES: Field := 0
  const WRITE_BYTES: Field := 1
  const READ_IOPS: Field := 2
  const WRITE_IOPS: Field := 3
  const READ_LATENCY_NS: Field := 4
  const WRITE_LATENCY_NS: Field := 5

  datatype DiskStats = DiskStats(
    readBytes: U64, writeBytes: U64, readIops: U64, writeIops: U64, readLatencyNs: U64, writeLatencyNs: U64)

  datatype IoRequest = IoRequest(startNs: U64, cgroup: U64, size: U32, isWrite: bool)

  /** What a tracepoint reports.  `rw` is the first character of rwbs. */
  datatype Event =
    | Issue(cgroup: U64, sector: U64, now: U64, nrSector: U32, rw: char)
    | Complete(sector: U64, now: U64)

  /** The request as issued; its size is a 32-bit product. */
  function RequestOf(e: Event): IoRequest
    requires e.Issue?
  {
    IoRequest(e.now, e.cgroup, (e.nrSector * 512) % TWO32, e.rw == 'W')
  }

  /** The additions made when a request completes at `now`. */
  function DiskSample(r: IoRequest, now: U64): Sample {
    Sample(r.cgroup,
           if r.isWrite
           then [Bump(WRITE_BYTES, r.size), Bump(WRITE_IOPS, 1), Bump(WRITE_LATENCY_NS, Sub64(now, r.startNs))]
           else [Bump(READ_BYTES, r.size), Bump(READ_IOPS, 1), Bump(READ_LATENCY_NS, Sub64(now, r.startNs))])
  }

  function Row(t: DiskStats): Values {
    [t.readBytes, t.writeBytes, t.readIops, t.writeIops, t.readLatencyNs, t.writeLatencyNs]
  }

  function Rows(m: map<U64, DiskStats>): map<U64, Values> {
    RowsOf(m, Row)
  }

  const FRESH := DiskStats(0, 0, 0, 0, 0, 0)

  // ---------- the handlers, one at a time ----------

  /** Both maps, as user space would see them. */
  datatype Tables = Tables(inflight: map<U64, IoRequest>, disk: map<U64, Values>)

  datatype Outcome =
    | Stored        // a new in-flight entry
    | Overwrote     // replaced the entry of another request on the same sector
    | TableFull     // rejected by a full in-flight table
    | Unmatched     // a completion with no in-flight entry
    | Counted       // a completion charged to its cgroup
    | StatsFull     // a completion dropped: the per-cgroup map is full

  function OutcomeOf(t: Tables, e: Event): Outcome {
    match e
    case Issue(_, sector, _, _, _) =>
      if sector in t.inflight then Overwrote
      else if |t.inflight| < INFLIGHT_CAPACITY then Stored else TableFull
    case Complete(sector, _) =>
      if sector !in t.inflight then Unmatched
      else if t.inflight[sector].cgroup in t.disk || |t.disk| < CAPACITY then Counted else StatsFull
  }

  function Step(t: Tables, e: Event): Tables {
    match e
    case Issue(_, sector, _, _, _) =>
      if OutcomeOf(t, e) == TableFull then t else t.(inflight := t.inflight[sector := RequestOf(e)])
    case Complete(sector, now) =>
      if sector !in t.inflight then t
      else Tables(t.inflight - {sector}, Handle(t.disk, DiskSample(t.inflight[sector], now)))
  }

  function After(es: seq<Event>): Tables {
    if es == [] then Tables(map[], map[]) else Step(After(es[..|es| - 1]), es[|es| - 1])
  }

  /** An element before and after a completion at `now`: its direction's bytes, operations and latency have
      grown by the size, by one and by the time since the issue, and the other direction is as it was. */
  ghost predicate Moved(was: DiskStats, t: DiskStats, r: IoRequest, now: U64) {
    if r.isWrite then
      && t.writeBytes == (was.writeBytes + r.size) % TWO64 && t.writeIops == (was.writeIops + 1) % TWO64
      && t.writeLatencyNs == (was.writeLatencyNs + now - r.startNs) % TWO64
      && t.readBytes == was.readBytes && t.readIops == was.readIops && t.readLatencyNs == was.readLatencyNs
    else
      && t.readBytes == (was.readBytes + r.size) % TWO64 && t.readIops == (was.readIops + 1) % TWO64
      && t.readLatencyNs == (was.readLatencyNs + now - r.startNs) % TWO64
      && t.writeBytes == was.writeBytes && t.writeIops == was.writeIops && t.writeLatencyNs == was.writeLatencyNs
  }

  class DiskProgram {
    var inflightMap: map<U64, IoRequest>
    var diskMap: map<U64, DiskStats>

    ghost function View(): Tables
      reads this
    {
      Tables(inflightMap, Rows(diskMap))
    }

    constructor ()
      ensures View() == After([])
    {
      inflightMap, diskMap := map[], map[];
    }

    method TraceRqIssue(cgroup: U64, sector: U64, now: U64, nrSector: U32, rw: char)
      modifies this`inflightMap
      ensures View() == Step(old(View()), Issue(cgroup, sector, now, nrSector, rw))
      ensures sector in inflightMap <==> sector in old(inflightMap) || |old(inflightMap)| < 65536
      ensures sector in inflightMap ==>
                var r := inflightMap[sector];
                && r.startNs == now && r.cgroup == cgroup && (r.isWrite <==> rw == 'W')
                && r.size == (512 * nrSector) % TWO32
      ensures inflightMap - {sector} == old(inflightMap) - {sector}
    {
      var req := IoRequest(now, cgroup, (nrSector * 512) % TWO32, rw == 'W');
      if sector in inflightMap || |inflightMap| < INFLIGHT_CAPACITY {
        inflightMap := inflightMap[sector := req];
      }
    }

    method TraceRqComplete(sector: U64, now: U64)
      modifies this
      ensures View() == Step(old(View()), Complete(sector, now))
      ensures sector !in old(inflightMap) ==> inflightMap == old(inflightMap) && diskMap == old(diskMap)
      ensures sector in old(inflightMap) ==>
                var r := old(inflightMap)[sector];
                && inflightMap == old(inflightMap) - {sector} && diskMap - {r.cgroup} == old(diskMap) - {r.cgroup}
                && (r.cgroup in diskMap <==> r.cgroup in old(diskMap) || |old(diskMap)| < 10240)
      ensures sector in old(inflightMap) && old(inflightMap)[sector].cgroup in diskMap ==>
                var r := old(inflightMap)[sector];
                var was := if r.cgroup in old(diskMap) then old(diskMap)[r.cgroup] else DiskStats(0, 0, 0, 0, 0, 0);
                Moved(was, diskMap[r.cgroup], r, now)
    {
      if sector !in inflightMap {
        return;
      }
      var req := inflightMap[sector];
      inflightMap := inflightMap - {sector};
      Charge(req, now);
    }

    /** The per-cgroup half of trace_rq_complete: find or create the element, then add to it. */
    method Charge(r: IoRequest, now: U64)
      modifies this`diskMap
      ensures Rows(diskMap) == Handle(Rows(old(diskMap)), DiskSample(r, now))
      ensures diskMap - {r.cgroup} == old(diskMap) - {r.cgroup}
      ensures r.cgroup in diskMap <==> r.cgroup in old(diskMap) || |old(diskMap)| < CAPACITY
      ensures r.cgroup in diskMap ==>
                var was := if r.cgroup in old(diskMap) then old(diskMap)[r.cgroup] else DiskStats(0, 0, 0, 0, 0, 0);
                Moved(was, diskMap[r.cgroup], r, now)
    {
      ghost var was := diskMap;
      if r.cgroup !in diskMap {
        if |diskMap| < CAPACITY {
          diskMap := diskMap[r.cgroup := FRESH];
        }
        if r.cgroup !in diskMap {
          RowsWrite(was, Row, r.cgroup, FRESH);
          return;
        }
      }
      ghost var t0 := diskMap[r.cgroup];
      var t := WithRequest(diskMap[r.cgroup], r, now);
      diskMap := diskMap[r.cgroup := t];
      WriteBack(was, DiskSample(r, now), t0, t);
      assert diskMap == was[r.cgroup := t];
    }

    /** The additions of trace_rq_complete. */
    static method WithRequest(was: DiskStats, r: IoRequest, now: U64) returns (t: DiskStats)
      ensures Row(t) == BumpedAll(Row(was), DiskSample(r, now).bumps)
      ensures Moved(was, t, r, now)
    {
      var latency := Sub64(now, r.startNs);
      t := was;
      if r.isWrite {
        t := t.(writeBytes := Add64(t.writeBytes, r.size));
        t := t.(writeIops := Add64(t.writeIops, 1));
        t := t.(writeLatencyNs := Add64(t.writeLatencyNs, latency));
        AddSub(was.writeLatencyNs, now, r.startNs);
      } else {
        t := t.(readBytes := Add64(t.readBytes, r.size));
        t := t.(readIops := Add64(t.readIops, 1));
        t := t.(readLatencyNs := Add64(t.readLatencyNs, latency));
        AddSub(was.readLatencyNs, now, r.startNs);
      }
      RowCompleted(was, r, now);
    }
  }

  /** Writing back an element that was found or created is what the atomic handler does. */
  lemma WriteBack(m: map<U64, DiskStats>, sample: Sample, t: DiskStats, t': DiskStats)
    requires sample.key in m || |m| < CAPACITY
    requires t == (if sample.key in m then m[sample.key] else FRESH)
    requires Row(t') == BumpedAll(Row(t), sample.bumps)
    ensures Rows(m[sample.key := t']) == Handle(Rows(m), sample)
  {
    RowsWrite(m, Row, sample.key, t');
    assert Row(FRESH) == ZERO;
  }

  lemma RowCompleted(t: DiskStats, r: IoRequest, now: U64)
    ensures BumpedAll(Row(t), DiskSample(r, now).bumps) ==
            Row(if r.isWrite
                then t.(writeBytes := Add64(t.writeBytes, r.size), writeIops := Add64(t.writeIops, 1),
                        writeLatencyNs := Add64(t.writeLatencyNs, Sub64(now, r.startNs)))
                else t.(readBytes := Add64(t.readBytes, r.size), readIops := Add64(t.readIops, 1),
                        readLatencyNs := Add64(t.readLatencyNs, Sub64(now, r.startNs))))
  {
    var bumps := DiskSample(r, now).bumps;
    BumpThree(Row(t), bumps[0], bumps[1], bumps[2]);
  }

  // ---------- the ledger ----------

  /** How many events of a run had an outcome. */
  function Count(es: seq<Event>, o: Outcome): nat {
    if es == [] then 0
    else
      var front, last := es[..|es| - 1], es[|es| - 1];
      Count(front, o) + if OutcomeOf(After(front), last) == o then 1 else 0
  }

  function Issues(es: seq<Event>): nat {
    if es == [] then 0 else Issues(es[..|es| - 1]) + if es[|es| - 1].Issue? then 1 else 0
  }

  lemma UnmatchedChangesNothing(es: seq<Event>, e: Event)
    requires OutcomeOf(After(es), e) == Unmatched
    ensures After(es + [e]) == After(es)
  {
  }

  /** A run without the completions that matched nothing. */
  function Matched(es: seq<Event>): seq<Event> {
    if es == [] then []
    else
      var front, last := es[..|es| - 1], es[|es| - 1];
      if OutcomeOf(After(front), last) == Unmatched then Matched(front) else Matched(front) + [last]
  }

  lemma {:induction false} UnmatchedLeaveNoTrace(es: seq<Event>)
    ensures After(Matched(es)) == After(es)
    decreases |es|
  {
    if es != [] {
      var front, last := es[..|es| - 1], es[|es| - 1];
      assert es == front + [last];
      UnmatchedLeaveNoTrace(front);
      if OutcomeOf(After(front), last) == Unmatched {
        UnmatchedChangesNothing(front, last);
      } else {
        assert (Matched(front) + [last])[..|Matched(front) + [last]| - 1] == Matched(front);
      }
    }
  }

  lemma {:induction false} IssuesLedger(es: seq<Event>)
    ensures Issues(es) == |After(es).inflight| + Count(es, Overwrote) + Count(es, TableFull)
                          + Count(es, Counted) + Count(es, StatsFull)
    ensures |After(es).inflight| <= INFLIGHT_CAPACITY
    decreases |es|
  {
    if es != [] {
      var front, last := es[..|es| - 1], es[|es| - 1];
      IssuesLedger(front);
      var t := After(front);
      if last.Complete? && last.sector in t.inflight {
        assert t.inflight == (t.inflight - {last.sector})[last.sector := t.inflight[last.sector]];
      }
    }
  }

  /** Every issue is still in flight, was overwritten, was rejected, or was matched by a completion; the
      completions that matched nothing might as well not have come. */
  lemma {:induction false} InFlightLedger(es: seq<Event>)
    ensures Issues(es) == |After(es).inflight| + Count(es, Overwrote) + Count(es, TableFull)
                          + Count(es, Counted) + Count(es, StatsFull)
    ensures |After(es).inflight| <= 65536
    ensures After(Matched(es)) == After(es)
  {
    IssuesLedger(es);
    UnmatchedLeaveNoTrace(es);
  }

  function Ops(values: Values): int {
    values[READ_IOPS] as int + values[WRITE_IOPS] as int
  }

  /** Reads and writes completed, per cgroup. */
  function Iops(disk: map<U64, Values>): map<U64, real> {
    map k | k in disk :: Ops(disk[k]) as real
  }

  lemma IopsWrite(disk: map<U64, Values>, k: U64, values: Values)
    ensures Sum(Iops(disk[k := values])) ==
            Sum(Iops(disk)) - (if k in disk then Ops(disk[k]) else 0) as real + Ops(values) as real
    ensures k in disk ==> Ops(disk[k]) as real <= Sum(Iops(disk))
  {
    assert Iops(disk[k := values]) == Iops(disk)[k := Ops(values) as real];
    SumUpdate(Iops(disk), k, Ops(values) as real);
    SumBound(Iops(disk));
    assert k in disk ==> Iops(disk)[k] == Ops(disk[k]) as real;
  }

  /** One completion adds one operation to its cgroup's two counters. */
  lemma CountedAddsOne(values: Values, r: IoRequest, now: U64)
    requires Ops(values) + 1 < TWO64
    ensures Ops(BumpedAll(values, DiskSample(r, now).bumps)) == Ops(values) + 1
  {
    var bumps := DiskSample(r, now).bumps;
    BumpThree(values, bumps[0], bumps[1], bumps[2]);
  }

  /** The read and write IOPS counters over all cgroups add up to the matched completions, less those
      a full per-cgroup map dropped. */
  lemma {:induction false} CompletionLedger(es: seq<Event>)
    requires |es| < TWO64
    ensures Sum(Iops(After(es).disk)) == Count(es, Counted) as real
    ensures Count(es, Counted) <= |es|
    decreases |es|
  {
    if es != [] {
      var front, last := es[..|es| - 1], es[|es| - 1];
      CompletionLedger(front);
      if OutcomeOf(After(front), last) == Counted {
        CountedIops(After(front), last, Count(front, Counted));
      } else {
        assert Iops(After(es).disk) == Iops(After(front).disk);
      }
    }
  }

  lemma CountedIops(t: Tables, e: Event, n: nat)
    requires OutcomeOf(t, e) == Counted && Sum(Iops(t.disk)) == n as real && n + 1 < TWO64
    ensures Sum(Iops(Step(t, e).disk)) == (n + 1) as real
  {
    var r := t.inflight[e.sector];
    var values := if r.cgroup in t.disk then t.disk[r.cgroup] else ZERO;
    IopsWrite(t.disk, r.cgroup, BumpedAll(values, DiskSample(r, e.now).bumps));
    CountedAddsOne(values, r, e.now);
  }

  // ---------- what a completion is charged to ----------

  /** The last event on a sector. */
  function LastOn(es: seq<Event>, sector: U64): int
    ensures -1 <= LastOn(es, sector) < |es|
    ensures LastOn(es, sector) >= 0 ==> es[LastOn(es, sector)].sector == sector
  {
    if es == [] then -1
    else if es[|es| - 1].sector == sector then |es| - 1
    else LastOn(es[..|es| - 1], sector)
  }

  /** A sector is in flight exactly when its last event is an issue the table took, and then it holds
      that issue: a completion is charged to the latest issue on its sector, whoever made it. */
  lemma {:induction false} InFlightIsLastIssue(es: seq<Event>, sector: U64)
    ensures var i := LastOn(es, sector);
      && (sector in After(es).inflight <==>
            i >= 0 && es[i].Issue? && OutcomeOf(After(es[..i]), es[i]) != TableFull)
      && (sector in After(es).inflight ==> After(es).inflight[sector] == RequestOf(es[i]))
    decreases |es|
  {
    if es != [] {
      var front, last := es[..|es| - 1], es[|es| - 1];
      var i := LastOn(es, sector);
      if last.sector != sector {
        InFlightIsLastIssue(front, sector);
        if i >= 0 {
          assert es[..i] == front[..i];
        }
      } else {
        assert es[..i] == front;
      }
    }
  }

  // ---------- refinement of a plain request log ----------

  /** An event together with the block request it belongs to, which the handlers never see. */
  datatype Traced = Traced(id: nat, event: Event)

  datatype Outstanding = Outstanding(sector: U64, request: IoRequest)

  /** A request that completed, and when. */
  datatype Done = Done(request: IoRequest, now: U64)

  /** Requests by identity: those outstanding, and the completed ones in order. */
  datatype Log = Log(pending: map<nat, Outstanding>, completed: seq<Done>)

  function LogStep(log: Log, x: Traced): Log {
    match x.event
    case Issue(_, sector, _, _, _) =>
      log.(pending := log.pending[x.id := Outstanding(sector, RequestOf(x.event))])
    case Complete(_, now) =>
      if x.id !in log.pending then log
      else Log(log.pending - {x.id}, log.completed + [Done(log.pending[x.id].request, now)])
  }

  function LogOf(xs: seq<Traced>): Log {
    if xs == [] then Log(map[], []) else LogStep(LogOf(xs[..|xs| - 1]), xs[|xs| - 1])
  }

  /** What the completed requests of one cgroup and direction amount to. */
  datatype Quantity = Bytes | Operations | Latency

  function Contribution(d: Done, k: U64, isWrite: bool, q: Quantity): nat {
    if d.request.cgroup != k || d.request.isWrite != isWrite then 0
    else
      match q
      case Bytes => d.request.size
      case Operations => 1
      case Latency => Sub64(d.now, d.request.startNs)
  }

  function AmountDone(completed: seq<Done>, k: U64, isWrite: bool, q: Quantity): nat {
    if completed == [] then 0
    else
      AmountDone(completed[..|completed| - 1], k, isWrite, q)
      + Contribution(completed[|completed| - 1], k, isWrite, q)
  }

  function FieldOf(isWrite: bool, q: Quantity): Field {
    match q
    case Bytes => if isWrite then WRITE_BYTES else READ_BYTES
    case Operations => if isWrite then WRITE_IOPS else READ_IOPS
    case Latency => if isWrite then WRITE_LATENCY_NS else READ_LATENCY_NS
  }

  function SamplesOf(completed: seq<Done>): seq<Sample> {
    if completed == [] then []
    else
      var d := completed[|completed| - 1];
      SamplesOf(completed[..|completed| - 1]) + [DiskSample(d.request, d.now)]
  }

  lemma SampleContributes(d: Done, k: U64, isWrite: bool, q: Quantity)
    ensures (if d.request.cgroup == k then Amount(DiskSample(d.request, d.now).bumps, FieldOf(isWrite, q)) else 0) ==
            Contribution(d, k, isWrite, q)
  {
    var bumps, f := DiskSample(d.request, d.now).bumps, FieldOf(isWrite, q);
    assert bumps[1..][1..] == [bumps[2]];
    assert Amount([bumps[2]], f) == if bumps[2].field == f then bumps[2].amount else 0;
    assert Amount(bumps[1..], f) == (if bumps[1].field == f then bumps[1].amount else 0) + Amount(bumps[1..][1..], f);
  }

  /** The additions charged to a field are the completed requests' amounts of that kind. */
  lemma {:induction false} ChargedIsAmountDone(completed: seq<Done>, k: U64, isWrite: bool, q: Quantity)
    ensures Charged(SamplesOf(completed), k, FieldOf(isWrite, q)) == AmountDone(completed, k, isWrite, q)
    decreases |completed|
  {
    if completed != [] {
      var front, d := completed[..|completed| - 1], completed[|completed| - 1];
      ChargedIsAmountDone(front, k, isWrite, q);
      ChargedSnoc(SamplesOf(front), DiskSample(d.request, d.now), k, FieldOf(isWrite, q));
      SampleContributes(d, k, isWrite, q);
    }
  }

  lemma {:induction false} SampleKeys(completed: seq<Done>)
    ensures |SamplesOf(completed)| == |completed|
    ensures forall i :: 0 <= i < |completed| ==> SamplesOf(completed)[i].key == completed[i].request.cgroup
    decreases |completed|
  {
    if completed != [] {
      SampleKeys(completed[..|completed| - 1]);
    }
  }

  function Events(xs: seq<Traced>): seq<Event> {
    seq(|xs|, i requires 0 <= i < |xs| => xs[i].event)
  }

  /** The next event keeps outstanding requests on different sectors, and within the table. */
  ghost predicate Separate(log: Log, x: Traced) {
    match x.event
    case Issue(_, sector, _, _, _) =>
      && x.id !in log.pending && |log.pending| < INFLIGHT_CAPACITY
      && forall j :: j in log.pending ==> log.pending[j].sector != sector
    case Complete(sector, _) =>
      forall j :: j in log.pending ==> (j == x.id <==> log.pending[j].sector == sector)
  }

  ghost predicate WellSeparated(xs: seq<Traced>) {
    xs == [] || (WellSeparated(xs[..|xs| - 1]) && Separate(LogOf(xs[..|xs| - 1]), xs[|xs| - 1]))
  }

  /** The in-flight table is the log's outstanding requests, by sector. */
  ghost predicate BySector(inflight: map<U64, IoRequest>, pending: map<nat, Outstanding>) {
    && |inflight| == |pending|
    && (forall j :: j in pending ==> pending[j].sector in inflight && inflight[pending[j].sector] == pending[j].request)
    && (forall s :: s in inflight ==> exists j :: j in pending && pending[j].sector == s)
  }

  ghost predicate Tracks(t: Tables, log: Log) {
    BySector(t.inflight, log.pending) && t.disk == HandleAll(SamplesOf(log.completed))
  }

  lemma IssueBySector(inflight: map<U64, IoRequest>, pending: map<nat, Outstanding>, id: nat, o: Outstanding)
    requires BySector(inflight, pending) && id !in pending
    requires forall j :: j in pending ==> pending[j].sector != o.sector
    ensures o.sector !in inflight && BySector(inflight[o.sector := o.request], pending[id := o])
  {
    var pending', inflight' := pending[id := o], inflight[o.sector := o.request];
    forall s | s in inflight'
      ensures exists j :: j in pending' && pending'[j].sector == s
    {
      if s == o.sector {
        assert pending'[id].sector == s;
      } else {
        var j :| j in pending && pending[j].sector == s;
        assert pending'[j].sector == s;
      }
    }
  }

  lemma RemoveOne<K, V>(m: map<K, V>, k: K)
    requires k in m
    ensures |m - {k}| == |m| - 1
  {
  }

  lemma CompleteBySector(inflight: map<U64, IoRequest>, pending: map<nat, Outstanding>, id: nat, sector: U64)
    requires BySector(inflight, pending)
    requires forall j :: j in pending ==> (j == id <==> pending[j].sector == sector)
    ensures sector in inflight <==> id in pending
    ensures id in pending ==> inflight[sector] == pending[id].request && BySector(inflight - {sector}, pending - {id})
  {
    if id in pending {
      RemoveOne(inflight, sector);
      RemoveOne(pending, id);
      var pending', inflight' := pending - {id}, inflight - {sector};
      forall s | s in inflight'
        ensures exists j :: j in pending' && pending'[j].sector == s
      {
        var j :| j in pending && pending[j].sector == s;
        assert pending'[j].sector == s;
      }
    }
  }

  lemma HandleSnoc(samples: seq<Sample>, x: Sample)
    ensures HandleAll(samples + [x]) == Handle(HandleAll(samples), x)
  {
  }

  lemma SamplesSnoc(completed: seq<Done>, d: Done)
    ensures SamplesOf(completed + [d]) == SamplesOf(completed) + [DiskSample(d.request, d.now)]
  {
  }

  lemma IssueTracks(t: Tables, log: Log, x: Traced)
    requires Tracks(t, log) && Separate(log, x) && x.event.Issue?
    ensures Tracks(Step(t, x.event), LogStep(log, x))
  {
    IssueBySector(t.inflight, log.pending, x.id, Outstanding(x.event.sector, RequestOf(x.event)));
  }

  lemma CompleteTracks(t: Tables, log: Log, x: Traced)
    requires Tracks(t, log) && Separate(log, x) && x.event.Complete?
    ensures Tracks(Step(t, x.event), LogStep(log, x))
  {
    CompleteBySector(t.inflight, log.pending, x.id, x.event.sector);
    if x.id in log.pending {
      var d := Done(log.pending[x.id].request, x.event.now);
      SamplesSnoc(log.completed, d);
      HandleSnoc(SamplesOf(log.completed), DiskSample(d.request, d.now));
    }
  }

  /** The handlers keep the log, as far as the run goes. */
  ghost predicate Kept(xs: seq<Traced>) {
    Tracks(After(Events(xs)), LogOf(xs))
  }

  lemma Unrolled(xs: seq<Traced>)
    requires xs != []
    ensures var front, x := xs[..|xs| - 1], xs[|xs| - 1];
      LogOf(xs) == LogStep(LogOf(front), x) && After(Events(xs)) == Step(After(Events(front)), x.event)
  {
    var front, x := xs[..|xs| - 1], xs[|xs| - 1];
    assert front + [x] == xs;
    LogSnoc(front, x);
  }

  lemma NextKept(xs: seq<Traced>)
    requires xs != [] && Kept(xs[..|xs| - 1]) && Separate(LogOf(xs[..|xs| - 1]), xs[|xs| - 1])
    ensures Kept(xs)
  {
    var front, x := xs[..|xs| - 1], xs[|xs| - 1];
    Unrolled(xs);
    NextTracks(After(Events(front)), LogOf(front), x);
  }

  lemma {:induction false} HandlersTrackLog(xs: seq<Traced>)
    requires WellSeparated(xs)
    ensures Kept(xs)
    decreases |xs|
  {
    if xs == [] {
      assert Events(xs) == [];
    } else {
      HandlersTrackLog(xs[..|xs| - 1]);
      NextKept(xs);
    }
  }

  lemma NextTracks(t: Tables, log: Log, x: Traced)
    requires Tracks(t, log) && Separate(log, x)
    ensures Tracks(Step(t, x.event), LogStep(log, x))
  {
    if x.event.Issue? {
      IssueTracks(t, log, x);
    } else {
      CompleteTracks(t, log, x);
    }
  }

  /** As long as no two outstanding requests share a start sector, the handlers keep the plain log:
      each cgroup the map holds shows exactly the bytes, operations and latencies of its own completed
      requests in each direction (modulo 2^64), and a cgroup is left out only when the map is full. */
  lemma HandlersRefineLog(xs: seq<Traced>, k: U64, isWrite: bool, q: Quantity)
    requires WellSeparated(xs)
    ensures var disk, completed := After(Events(xs)).disk, LogOf(xs).completed;
      && (k in disk ==> disk[k][FieldOf(isWrite, q)] == AmountDone(completed, k, isWrite, q) % TWO64)
      && (k !in disk && |disk| < CAPACITY ==>
            forall i :: 0 <= i < |completed| ==> completed[i].request.cgroup != k)
  {
    HandlersTrackLog(xs);
    var completed := LogOf(xs).completed;
    Ledger(SamplesOf(completed), k, FieldOf(isWrite, q));
    ChargedIsAmountDone(completed, k, isWrite, q);
    SampleKeys(completed);
  }

  /** Completed requests of one cgroup and direction in plain numbers: their bytes, how many they are, and
      the nanoseconds between their issues and completions. */
  datatype Totals = Totals(bytes: int, operations: int, elapsed: int)

  function TotalsOf(completed: seq<Done>, k: U64, isWrite: bool): Totals {
    if completed == [] then Totals(0, 0, 0)
    else
      var t, d := TotalsOf(completed[..|completed| - 1], k, isWrite), completed[|completed| - 1];
      if d.request.cgroup != k || d.request.isWrite != isWrite then t
      else Totals(t.bytes + d.request.size, t.operations + 1, t.elapsed + (d.now - d.request.startNs))
  }

  lemma WrapDifference(n: nat, e: int, a: U64, b: U64)
    requires n % TWO64 == e % TWO64
    ensures (n + Sub64(a, b)) % TWO64 == (e + (a - b)) % TWO64
  {
    SubBorrows(a, b);
    SameShift(n, e, a - b);
    if a < b {
      ShiftUp(n + a - b);
    }
  }

  lemma SameShift(n: int, e: int, d: int)
    requires n % TWO64 == e % TWO64
    ensures (n + d) % TWO64 == (e + d) % TWO64
  {
    var q := n / TWO64 - e / TWO64;
    assert n + d == e + d + q * TWO64;
    Wraps(e + d, q);
  }

  lemma Wraps(n: int, q: int)
    ensures (n + q * TWO64) % TWO64 == n % TWO64
  {
    var d, m := n / TWO64, n % TWO64;
    assert n + q * TWO64 == (d + q) * TWO64 + m;
  }

  /** The amounts counted are those totals; latencies modulo 2^64, and exactly if the clock never ran back. */
  lemma {:induction false} AmountsAreTotals(completed: seq<Done>, k: U64, isWrite: bool)
    ensures var t := TotalsOf(completed, k, isWrite);
      && AmountDone(completed, k, isWrite, Bytes) == t.bytes
      && AmountDone(completed, k, isWrite, Operations) == t.operations
      && AmountDone(completed, k, isWrite, Latency) % TWO64 == t.elapsed % TWO64
      && ((forall i :: 0 <= i < |completed| ==> completed[i].request.startNs <= completed[i].now) ==>
            AmountDone(completed, k, isWrite, Latency) == t.elapsed)
    decreases |completed|
  {
    if completed != [] {
      var front, d := completed[..|completed| - 1], completed[|completed| - 1];
      AmountsAreTotals(front, k, isWrite);
      WrapDifference(AmountDone(front, k, isWrite, Latency), TotalsOf(front, k, isWrite).elapsed,
                     d.now, d.request.startNs);
      SubBorrows(d.now, d.request.startNs);
    }
  }

  /** In separated runs the six counters of a held cgroup are, modulo 2^64, the bytes, the number and the
      elapsed nanoseconds of its completed reads and of its completed writes. */
  lemma CountersAreTotals(xs: seq<Traced>, k: U64)
    requires WellSeparated(xs) && k in After(Events(xs)).disk
    ensures var row, completed := After(Events(xs)).disk[k], LogOf(xs).completed;
      var read, written := TotalsOf(completed, k, false), TotalsOf(completed, k, true);
      && row[READ_BYTES] == read.bytes % TWO64 && row[WRITE_BYTES] == written.bytes % TWO64
      && row[READ_IOPS] == read.operations % TWO64 && row[WRITE_IOPS] == written.operations % TWO64
      && row[READ_LATENCY_NS] == read.elapsed % TWO64 && row[WRITE_LATENCY_NS] == written.elapsed % TWO64
  {
    DirectionIsTotals(xs, k, false);
    DirectionIsTotals(xs, k, true);
  }

  lemma DirectionIsTotals(xs: seq<Traced>, k: U64, isWrite: bool)
    requires WellSeparated(xs) && k in After(Events(xs)).disk
    ensures var row, t := After(Events(xs)).disk[k], TotalsOf(LogOf(xs).completed, k, isWrite);
      && row[FieldOf(isWrite, Bytes)] == t.bytes % TWO64 && row[FieldOf(isWrite, Operations)] == t.operations % TWO64
      && row[FieldOf(isWrite, Latency)] == t.elapsed % TWO64
  {
    HandlersRefineLog(xs, k, isWrite, Bytes);
    HandlersRefineLog(xs, k, isWrite, Operations);
    HandlersRefineLog(xs, k, isWrite, Latency);
    AmountsAreTotals(LogOf(xs).completed, k, isWrite);
  }

  // ---------- exactly when the log is refined ----------

  /** Requests have identities of their own: none is issued while it is outstanding. */
  ghost predicate FreshIds(xs: seq<Traced>) {
    xs == [] ||
    var front, x := xs[..|xs| - 1], xs[|xs| - 1];
    FreshIds(front) && (x.event.Issue? ==> x.id !in LogOf(front).pending)
  }

  /** The handlers keep the log after every prefix of the run. */
  ghost predicate TracksThroughout(xs: seq<Traced>) {
    Kept(xs) && (xs == [] || TracksThroughout(xs[..|xs| - 1]))
  }

  lemma SharedIssueBreaks(t: Tables, log: Log, x: Traced)
    requires Tracks(t, log) && x.event.Issue? && x.id !in log.pending && !Separate(log, x)
    ensures !Tracks(Step(t, x.event), LogStep(log, x))
  {
    var sector := x.event.sector;
    if j :| j in log.pending && log.pending[j].sector == sector {
      assert sector in t.inflight;
    } else {
      assert sector !in t.inflight;
      assert |t.inflight| >= INFLIGHT_CAPACITY;
    }
    assert |Step(t, x.event).inflight| == |t.inflight|;
    assert |LogStep(log, x).pending| == |log.pending| + 1;
  }

  lemma OtherCompletionBreaks(t: Tables, log: Log, x: Traced)
    requires Tracks(t, log) && x.event.Complete? && !Separate(log, x)
    ensures !Tracks(Step(t, x.event), LogStep(log, x))
  {
    var sector, pending', inflight' := x.event.sector, LogStep(log, x).pending, Step(t, x.event).inflight;
    var j :| j in log.pending && !(j == x.id <==> log.pending[j].sector == sector);
    if j != x.id {
      assert j in pending' && pending'[j].sector == sector && sector !in inflight';
    } else if sector in t.inflight {
      var i :| i in log.pending && log.pending[i].sector == sector;
      assert i in pending' && pending'[i].sector == sector && sector !in inflight';
    } else {
      RemoveOne(log.pending, x.id);
    }
  }

  /** The handlers keep the log at every moment exactly when no two outstanding requests ever share a
      start sector, the table is never asked to hold more than it can, and no completion comes for a
      sector other than its own request's. */
  lemma {:induction false} TracksIffSeparated(xs: seq<Traced>)
    requires FreshIds(xs)
    ensures TracksThroughout(xs) <==> WellSeparated(xs)
    decreases |xs|
  {
    if xs == [] {
      SeparatedIsKept(xs);
    } else {
      var front, x := xs[..|xs| - 1], xs[|xs| - 1];
      TracksIffSeparated(front);
      SeparatedIsKept(xs);
      if WellSeparated(front) && !Separate(LogOf(front), x) {
        SeparatedIsKept(front);
        NotSeparateBreaks(front, x);
        assert xs == front + [x];
      }
    }
  }

  lemma SeparatedIsKept(xs: seq<Traced>)
    ensures WellSeparated(xs) ==> Kept(xs)
  {
    if WellSeparated(xs) {
      HandlersTrackLog(xs);
    }
  }

  lemma NotSeparateBreaks(front: seq<Traced>, x: Traced)
    requires Kept(front) && !Separate(LogOf(front), x)
    requires x.event.Issue? ==> x.id !in LogOf(front).pending
    ensures !Kept(front + [x])
  {
    LogSnoc(front, x);
    if x.event.Issue? {
      SharedIssueBreaks(After(Events(front)), LogOf(front), x);
    } else {
      OtherCompletionBreaks(After(Events(front)), LogOf(front), x);
    }
  }

  /** When two outstanding requests do share a sector, the first completion is charged to the second
      issuer and the second completion is lost. */
  lemma SharedSectorMischarges(a: U64, b: U64)
    requires a != b
    ensures var r1, r2 := IoRequest(0, a, 512, false), IoRequest(5, b, 512, true);
      && LogOf(Shared(a, b)).completed == [Done(r1, 10), Done(r2, 20)]
      && After(Events(Shared(a, b))) == Tables(map[], HandleAll([DiskSample(r2, 10)]))
      && !WellSeparated(Shared(a, b))
  {
    SharedSteps(a, b);
    SharedLog(a, b);
    SharedTables(a, b);
    HandleSnoc([], DiskSample(IoRequest(5, b, 512, true), 10));
    assert [] + [DiskSample(IoRequest(5, b, 512, true), 10)] == [DiskSample(IoRequest(5, b, 512, true), 10)];
    SharedIsNotSeparate(a, b);
  }

  lemma SharedIsNotSeparate(a: U64, b: U64)
    ensures !WellSeparated(Shared(a, b))
  {
    var xs := Shared(a, b);
    LogSnoc([], xs[0]);
    assert [] + [xs[0]] == xs[..1];
    assert LogOf(xs[..1]).pending[1].sector == 8;
    assert xs[..2][..1] == xs[..1];
    assert !WellSeparated(xs[..2]);
    assert xs[..3][..2] == xs[..2];
    assert !WellSeparated(xs[..3]);
  }

  lemma SharedSteps(a: U64, b: U64)
    ensures var xs := Shared(a, b);
      && LogOf(xs) == LogStep(LogStep(LogStep(LogStep(Log(map[], []), xs[0]), xs[1]), xs[2]), xs[3])
      && After(Events(xs)) ==
         Step(Step(Step(Step(Tables(map[], map[]), xs[0].event), xs[1].event), xs[2].event), xs[3].event)
  {
    var xs := Shared(a, b);
    FourSteps(xs[0], xs[1], xs[2], xs[3]);
  }

  lemma FourSteps(x: Traced, y: Traced, z: Traced, w: Traced)
    ensures LogOf([x, y, z, w]) == LogStep(LogStep(LogStep(LogStep(Log(map[], []), x), y), z), w)
    ensures After(Events([x, y, z, w])) ==
            Step(Step(Step(Step(Tables(map[], map[]), x.event), y.event), z.event), w.event)
  {
    assert Events([]) == [];
    LogSnoc([], x);
    LogSnoc([x], y);
    LogSnoc([x, y], z);
    LogSnoc([x, y, z], w);
    assert [] + [x] == [x] && [x] + [y] == [x, y];
    assert [x, y] + [z] == [x, y, z] && [x, y, z] + [w] == [x, y, z, w];
  }

  function Shared(a: U64, b: U64): seq<Traced> {
    [Traced(1, Issue(a, 8, 0, 1, 'R')), Traced(2, Issue(b, 8, 5, 1, 'W')),
     Traced(1, Complete(8, 10)), Traced(2, Complete(8, 20))]
  }

  lemma SharedLog(a: U64, b: U64)
    ensures var xs := Shared(a, b);
      LogStep(LogStep(LogStep(LogStep(Log(map[], []), xs[0]), xs[1]), xs[2]), xs[3]).completed ==
      [Done(IoRequest(0, a, 512, false), 10), Done(IoRequest(5, b, 512, true), 20)]
  {
  }

  lemma SharedTables(a: U64, b: U64)
    ensures var xs := Shared(a, b);
      Step(Step(Step(Step(Tables(map[], map[]), xs[0].event), xs[1].event), xs[2].event), xs[3].event) ==
      Tables(map[], Handle(map[], DiskSample(IoRequest(5, b, 512, true), 10)))
  {
  }

  lemma LogSnoc(xs: seq<Traced>, x: Traced)
    ensures LogOf(xs + [x]) == LogStep(LogOf(xs), x)
    ensures After(Events(xs + [x])) == Step(After(Events(xs)), x.event)
  {
    assert (xs + [x])[..|xs + [x]| - 1] == xs;
    assert Events(xs + [x]) == Events(xs) + [x.event];
    assert Events(xs + [x])[..|Events(xs + [x])| - 1] == Events(xs);
  }
}
