/** bpf/disk_io.c as a whole, in one step system: issues, completions between their lookup and their
    delete, and completions on their way into the per-cgroup counters, on any number of CPUs. */
module RacyDisk {
  import opened Counters
  import opened Sums
  import opened Words
  import opened Wrappers
  import DiskIo
  import RC = RacyCounters
  import RI = RacyInflight

  /** `handed` holds, per CPU, a completion past its delete and before its lookup in disk_map; `made`
      records all those there ever were, with the time each was stamped with. */
  datatype State = State(table: RI.State, handed: seq<Option<Sample>>, counters: RC.State, made: seq<DiskIo.Done>)

  datatype Event =
    | Issue(entry: RI.Entry)
    | Lookup(cpu: nat, sector: U64)
    | Delete(cpu: nat, now: U64)
    | Begin(cpu: nat)
    | Count(step: RC.Event)

  /** A CPU is at one place of one handler at a time. */
  ghost predicate OnePlace(s: State) {
    && |s.table.cpus| == |s.handed| == |s.counters.cpus|
    && forall i :: 0 <= i < |s.handed| ==> Fine(s.table.cpus[i], s.handed[i], s.counters.cpus[i])
  }

  predicate Fine(disk: RI.Cpu, h: Option<Sample>, counting: RC.Cpu) {
    (disk.Matched? ==> h.None?) && (disk.Matched? || h.Some? ==> counting.Idle?)
  }

  predicate Enabled(s: State, e: Event) {
    match e
    case Issue(_) => true
    case Lookup(i, _) => i < |s.table.cpus| && i < |s.handed| && i < |s.counters.cpus|
                         && s.handed[i].None? && s.counters.cpus[i].Idle?
    case Delete(i, _) => i < |s.table.cpus| && i < |s.handed| && s.table.cpus[i].Matched?
    case Begin(i) => i < |s.handed| && i < |s.counters.cpus| && s.handed[i].Some? && s.counters.cpus[i].Idle?
    case Count(step) => !step.Begin?
  }

  /** One step.  A step the CPU cannot take leaves the state alone. */
  function Next(s: State, e: Event): State {
    if !Enabled(s, e) then s else
    match e
    case Issue(x) => s.(table := RI.Next(s.table, RI.Issue(x)))
    case Lookup(i, sector) => s.(table := RI.Next(s.table, RI.Lookup(i, sector)))
    case Delete(i, now) =>
      var request := s.table.cpus[i].entry.request;
      s.(table := RI.Next(s.table, RI.Delete(i)), handed := s.handed[i := Some(DiskIo.DiskSample(request, now))],
         made := s.made + [DiskIo.Done(request, now)])
    case Begin(i) =>
      s.(handed := s.handed[i := None],
         counters := RC.Next(RC.SeedWithZero, s.counters, RC.Begin(i, s.handed[i].value)))
    case Count(step) => s.(counters := RC.Next(RC.SeedWithZero, s.counters, step))
  }

  function After(s: State, es: seq<Event>): State {
    if es == [] then s else Next(After(s, es[..|es| - 1]), es[|es| - 1])
  }

  function Boot(n: nat): State {
    State(RI.Boot(n), seq(n, _ => None), RC.Boot(n), [])
  }

  // ---------- handlers that run one after the other ----------

  function Counts(steps: seq<RC.Event>): seq<Event> {
    seq(|steps|, j requires 0 <= j < |steps| => Count(steps[j]))
  }

  /** The steps of a completion from its lookup to the last of its three additions. */
  function Completion(i: nat, sector: U64, now: U64): seq<Event> {
    [Lookup(i, sector), Delete(i, now), Begin(i)] + Counts([RC.Insert(i), RC.Relookup(i)] + RC.Adds(i, 3))
  }

  /** Both maps as user space sees them. */
  function Seen(s: State): DiskIo.Tables {
    DiskIo.Tables(s.table.inflight, RC.View(s.counters))
  }

  lemma {:induction false} AfterConcat(s: State, xs: seq<Event>, ys: seq<Event>)
    ensures After(s, xs + ys) == After(After(s, xs), ys)
    decreases |ys|
  {
    if ys == [] {
      assert xs + ys == xs;
    } else {
      assert (xs + ys)[..|xs + ys| - 1] == xs + ys[..|ys| - 1];
      AfterConcat(s, xs, ys[..|ys| - 1]);
    }
  }

  lemma ThreeSteps(s: State, a: Event, b: Event, c: Event)
    ensures After(s, [a, b, c]) == Next(Next(Next(s, a), b), c)
  {
    AfterSnoc(s, [], a);
    AfterSnoc(s, [] + [a], b);
    AfterSnoc(s, [] + [a] + [b], c);
    assert [] + [a] + [b] + [c] == [a, b, c];
  }

  lemma AfterSnoc(s: State, es: seq<Event>, e: Event)
    ensures After(s, es + [e]) == Next(After(s, es), e)
  {
  }

  /** Counting steps leave everything but the counters alone. */
  lemma {:induction false} AfterCounts(s: State, steps: seq<RC.Event>)
    requires forall j :: 0 <= j < |steps| ==> !steps[j].Begin?
    ensures After(s, Counts(steps)) == s.(counters := RC.After(RC.SeedWithZero, s.counters, steps))
    decreases |steps|
  {
    if steps != [] {
      var front, last := steps[..|steps| - 1], steps[|steps| - 1];
      AfterCounts(s, front);
      assert Counts(steps) == Counts(front) + [Count(last)];
      AfterSnoc(s, Counts(front), Count(last));
      LastCounts(s.counters, steps);
    }
  }

  lemma LastCounts(c: RC.State, steps: seq<RC.Event>)
    requires steps != []
    ensures var front, last := steps[..|steps| - 1], steps[|steps| - 1];
      RC.After(RC.SeedWithZero, c, steps) == RC.Next(RC.SeedWithZero, RC.After(RC.SeedWithZero, c, front), last)
  {
    var front, last := steps[..|steps| - 1], steps[|steps| - 1];
    RC.AfterConcat(RC.SeedWithZero, c, front, [last]);
    RC.AfterCons(RC.SeedWithZero, RC.After(RC.SeedWithZero, c, front), last, []);
    assert front + [last] == steps && [last] + [] == [last];
  }

  /** The CPU is in no handler. */
  predicate Free(s: State, i: nat) {
    && i < |s.table.cpus| && i < |s.handed| && i < |s.counters.cpus|
    && s.table.cpus[i].Idle? && s.handed[i].None? && s.counters.cpus[i].Idle?
  }

  lemma {:induction false} NoBegins(i: nat, n: nat)
    ensures forall j :: 0 <= j < |RC.Adds(i, n)| ==> RC.Adds(i, n)[j] == RC.Add(i)
  {
    if n > 0 {
      NoBegins(i, n - 1);
    }
  }

  lemma CompletionUnfolds(s: State, i: nat, sector: U64, now: U64)
    ensures var s3 := Next(Next(Next(s, Lookup(i, sector)), Delete(i, now)), Begin(i));
      After(s, Completion(i, sector, now)) ==
      s3.(counters := RC.After(RC.SeedWithZero, s3.counters, [RC.Insert(i), RC.Relookup(i)] + RC.Adds(i, 3)))
  {
    var steps := [RC.Insert(i), RC.Relookup(i)] + RC.Adds(i, 3);
    AfterConcat(s, [Lookup(i, sector), Delete(i, now), Begin(i)], Counts(steps));
    ThreeSteps(s, Lookup(i, sector), Delete(i, now), Begin(i));
    NoBegins(i, 3);
    AfterCounts(Next(Next(Next(s, Lookup(i, sector)), Delete(i, now)), Begin(i)), steps);
  }

  /** Steps of a CPU that has no handler to go on with. */
  lemma IdleCounts(c: RC.State, i: nat)
    requires i < |c.cpus| && c.cpus[i].Idle?
    ensures RC.After(RC.SeedWithZero, c, [RC.Insert(i), RC.Relookup(i)] + RC.Adds(i, 3)) == c
  {
    RC.AfterConcat(RC.SeedWithZero, c, [RC.Insert(i), RC.Relookup(i)], RC.Adds(i, 3));
    RC.AfterCons(RC.SeedWithZero, c, RC.Insert(i), [RC.Relookup(i)]);
    RC.AfterCons(RC.SeedWithZero, c, RC.Relookup(i), []);
    assert [RC.Insert(i), RC.Relookup(i)] == [RC.Insert(i)] + [RC.Relookup(i)];
    assert [RC.Relookup(i)] == [RC.Relookup(i)] + [];
    RC.AddsWhenIdle(RC.SeedWithZero, c, i, 3);
  }

  lemma SampleCounts(c: RC.State, i: nat, sample: Sample)
    requires RC.WellFormed(c) && i < |c.cpus| && c.cpus[i].Idle? && |sample.bumps| == 3
    ensures var c' := RC.After(RC.SeedWithZero, RC.Next(RC.SeedWithZero, c, RC.Begin(i, sample)),
                               [RC.Insert(i), RC.Relookup(i)] + RC.Adds(i, 3));
      RC.View(c') == Handle(RC.View(c), sample) && c'.cpus == c.cpus
  {
    RC.SoloIsAtomic(RC.SeedWithZero, c, i, sample);
    SoloSplits(i, sample);
    RC.AfterCons(RC.SeedWithZero, c, RC.Begin(i, sample), [RC.Insert(i), RC.Relookup(i)] + RC.Adds(i, 3));
  }

  lemma SoloSplits(i: nat, sample: Sample)
    requires |sample.bumps| == 3
    ensures RC.Solo(i, sample) == [RC.Begin(i, sample)] + ([RC.Insert(i), RC.Relookup(i)] + RC.Adds(i, 3))
  {
    var first, rest := [RC.Begin(i, sample)], [RC.Insert(i), RC.Relookup(i)];
    assert [RC.Begin(i, sample), RC.Insert(i), RC.Relookup(i)] == first + rest;
    assert first + rest + RC.Adds(i, 3) == first + (rest + RC.Adds(i, 3));
  }

  /** A completion that no other CPU interferes with does to both maps what the atomic handler does, and
      leaves its CPU free again. */
  lemma CompletionIsAtomic(s: State, i: nat, sector: U64, now: U64)
    requires RC.WellFormed(s.counters) && Free(s, i)
    ensures var s', found := After(s, Completion(i, sector, now)), sector in s.table.inflight;
      && Seen(s') == DiskIo.Step(Seen(s), DiskIo.Complete(sector, now))
      && s'.handed == s.handed && s'.counters.cpus == s.counters.cpus
      && s'.made == s.made + (if found then [DiskIo.Done(s.table.inflight[sector], now)] else [])
      && s'.table == s.table.(inflight := s'.table.inflight, removed := s.table.removed + (if found then 1 else 0),
           taken := s.table.taken + if found then [RI.Entry(sector, s.table.inflight[sector])] else [])
  {
    CompletionUnfolds(s, i, sector, now);
    RI.CompletionIsAtomic(s.table, i, RC.View(s.counters), sector, now);
    if sector in s.table.inflight {
      HandedToCounters(s, i, sector, now);
      SampleCounts(s.counters, i, DiskIo.DiskSample(s.table.inflight[sector], now));
    } else {
      IdleCounts(s.counters, i);
    }
  }

  lemma HandedToCounters(s: State, i: nat, sector: U64, now: U64)
    requires Free(s, i) && sector in s.table.inflight
    ensures var s3, r := Next(Next(Next(s, Lookup(i, sector)), Delete(i, now)), Begin(i)), s.table.inflight[sector];
      s3 == State(RI.Next(RI.Next(s.table, RI.Lookup(i, sector)), RI.Delete(i)), s.handed,
                  RC.Next(RC.SeedWithZero, s.counters, RC.Begin(i, DiskIo.DiskSample(r, now))),
                  s.made + [DiskIo.Done(r, now)])
  {
    var sample := DiskIo.DiskSample(s.table.inflight[sector], now);
    assert s.handed[i := Some(sample)][i := None] == s.handed;
  }

  /** The steps of a handler that has the machine to itself; a completion runs on CPU `i`. */
  function Alone(e: DiskIo.Event, i: nat): seq<Event> {
    if e.Issue? then [Issue(RI.Entry(e.sector, DiskIo.RequestOf(e)))] else Completion(i, e.sector, e.now)
  }

  function OneByOne(es: seq<DiskIo.Event>, on: seq<nat>): seq<Event>
    requires |on| == |es|
  {
    if es == [] then []
    else OneByOne(es[..|es| - 1], on[..|on| - 1]) + Alone(es[|es| - 1], on[|on| - 1])
  }

  /** What the records of a run say: issues that replaced an entry or added one, and completions charged. */
  ghost predicate Recorded(t: RI.State, overwrote: nat, stored: nat, charged: nat) {
    && t.overwritten == overwrote && |t.stored| == overwrote + stored
    && |t.taken| == t.removed == charged && t.missed == 0
  }

  ghost predicate AllFree(s: State, n: nat) {
    && |s.table.cpus| == |s.handed| == |s.counters.cpus| == n
    && forall i :: 0 <= i < n ==> Free(s, i)
  }

  /** Handlers that run one after the other, on whichever CPUs, make of the two maps what the atomic
      handlers make of them, and the records agree with the outcomes of the atomic run. */
  lemma {:induction false} OneByOneIsAtomic(n: nat, es: seq<DiskIo.Event>, on: seq<nat>)
    requires |on| == |es| && forall j :: 0 <= j < |on| ==> on[j] < n
    ensures var s := After(Boot(n), OneByOne(es, on));
      && Seen(s) == DiskIo.After(es) && AllFree(s, n)
      && Recorded(s.table, DiskIo.Count(es, DiskIo.Overwrote), DiskIo.Count(es, DiskIo.Stored),
                  DiskIo.Count(es, DiskIo.Counted) + DiskIo.Count(es, DiskIo.StatsFull))
    decreases |es|
  {
    if es == [] {
      BootIsEmpty(n);
    } else {
      var front, e, i := es[..|es| - 1], es[|es| - 1], on[|on| - 1];
      var run := OneByOne(front, on[..|on| - 1]);
      OneByOneIsAtomic(n, front, on[..|on| - 1]);
      AfterConcat(Boot(n), run, Alone(e, i));
      RunKeeps(n, run, 0, 0, RI.Entry(0, DiskIo.IoRequest(0, 0, 0, false)));
      NextAlone(After(Boot(n), run), n, e, i, DiskIo.Count(front, DiskIo.Overwrote),
                DiskIo.Count(front, DiskIo.Stored),
                DiskIo.Count(front, DiskIo.Counted) + DiskIo.Count(front, DiskIo.StatsFull));
    }
  }

  lemma BootIsEmpty(n: nat)
    ensures Seen(Boot(n)) == DiskIo.Tables(map[], map[]) && AllFree(Boot(n), n) && Recorded(Boot(n).table, 0, 0, 0)
  {
  }

  lemma NextAlone(s: State, n: nat, e: DiskIo.Event, i: nat, overwrote: nat, stored: nat, charged: nat)
    requires RC.WellFormed(s.counters) && AllFree(s, n) && i < n && Recorded(s.table, overwrote, stored, charged)
    ensures var s', o := After(s, Alone(e, i)), DiskIo.OutcomeOf(Seen(s), e);
      && Seen(s') == DiskIo.Step(Seen(s), e) && AllFree(s', n)
      && Recorded(s'.table, overwrote + (if o == DiskIo.Overwrote then 1 else 0),
                  stored + (if o == DiskIo.Stored then 1 else 0),
                  charged + if o == DiskIo.Counted || o == DiskIo.StatsFull then 1 else 0)
  {
    if e.Issue? {
      IssueAlone(s, e, i, overwrote, stored, charged);
    } else {
      assert Free(s, i);
      CompletionAlone(s, e, i, overwrote, stored, charged);
    }
    StillFree(s, After(s, Alone(e, i)), n);
  }

  lemma IssueAlone(s: State, e: DiskIo.Event, i: nat, overwrote: nat, stored: nat, charged: nat)
    requires e.Issue? && Recorded(s.table, overwrote, stored, charged)
    ensures var s', o := After(s, Alone(e, i)), DiskIo.OutcomeOf(Seen(s), e);
      && Seen(s') == DiskIo.Step(Seen(s), e)
      && s'.table.cpus == s.table.cpus && s'.handed == s.handed && s'.counters.cpus == s.counters.cpus
      && Recorded(s'.table, overwrote + (if o == DiskIo.Overwrote then 1 else 0),
                  stored + (if o == DiskIo.Stored then 1 else 0), charged)
  {
    OneStep(s, Issue(RI.Entry(e.sector, DiskIo.RequestOf(e))));
    RI.IssueIsAtomic(s.table, RC.View(s.counters), e);
  }

  lemma OneStep(s: State, e: Event)
    ensures After(s, [e]) == Next(s, e)
  {
    AfterSnoc(s, [], e);
    assert [] + [e] == [e];
  }

  lemma CompletionAlone(s: State, e: DiskIo.Event, i: nat, overwrote: nat, stored: nat, charged: nat)
    requires e.Complete? && RC.WellFormed(s.counters) && Free(s, i) && Recorded(s.table, overwrote, stored, charged)
    ensures var s', o := After(s, Alone(e, i)), DiskIo.OutcomeOf(Seen(s), e);
      && Seen(s') == DiskIo.Step(Seen(s), e)
      && s'.table.cpus == s.table.cpus && s'.handed == s.handed && s'.counters.cpus == s.counters.cpus
      && Recorded(s'.table, overwrote, stored,
                  charged + if o == DiskIo.Counted || o == DiskIo.StatsFull then 1 else 0)
  {
    CompletionIsAtomic(s, i, e.sector, e.now);
  }

  lemma StillFree(s: State, s': State, n: nat)
    requires AllFree(s, n)
    requires s'.table.cpus == s.table.cpus && s'.handed == s.handed && s'.counters.cpus == s.counters.cpus
    ensures AllFree(s', n)
  {
    forall i | 0 <= i < n
      ensures Free(s', i)
    {
      assert Free(s, i);
    }
  }

  // ---------- completions on their way ----------

  function Carried(h: Option<Sample>, k: U64, f: Field): nat {
    if h.Some? && h.value.key == k then Amount(h.value.bumps, f) else 0
  }

  function Carrying(handed: seq<Option<Sample>>, k: U64, f: Field): seq<int> {
    seq(|handed|, i requires 0 <= i < |handed| => Carried(handed[i], k, f))
  }

  lemma CarryingUpdate(handed: seq<Option<Sample>>, i: nat, h: Option<Sample>, k: U64, f: Field)
    requires i < |handed|
    ensures Total(Carrying(handed[i := h], k, f)) ==
            Total(Carrying(handed, k, f)) - Carried(handed[i], k, f) + Carried(h, k, f)
  {
    assert Carrying(handed[i := h], k, f) == Carrying(handed, k, f)[i := Carried(h, k, f)];
    TotalUpdate(Carrying(handed, k, f), i, Carried(h, k, f));
  }

  /** Every completion made has been handed on, or is just about to be. */
  ghost predicate HandedOn(s: State, k: U64, f: Field) {
    Charged(DiskIo.SamplesOf(s.made), k, f) == Charged(s.counters.begun, k, f) + Total(Carrying(s.handed, k, f))
  }

  lemma NextOnePlace(s: State, e: Event)
    requires OnePlace(s)
    ensures OnePlace(Next(s, e)) && |Next(s, e).handed| == |s.handed|
  {
    var s' := Next(s, e);
    forall i | 0 <= i < |s.handed|
      ensures |s'.table.cpus| == |s'.handed| == |s'.counters.cpus| == |s.handed|
      ensures Fine(s'.table.cpus[i], s'.handed[i], s'.counters.cpus[i])
    {
      assert Fine(s.table.cpus[i], s.handed[i], s.counters.cpus[i]);
    }
  }

  lemma NextHandedOn(s: State, e: Event, k: U64, f: Field)
    requires OnePlace(s) && HandedOn(s, k, f)
    ensures HandedOn(Next(s, e), k, f)
  {
    if Enabled(s, e) {
      match e
      case Issue(_) =>
      case Lookup(_, _) =>
      case Delete(i, now) => DeleteHandedOn(s, i, now, k, f);
      case Begin(i) => BeginHandedOn(s, i, k, f);
      case Count(step) => assert Next(s, e).counters.begun == s.counters.begun;
    }
  }

  lemma DeleteHandedOn(s: State, i: nat, now: U64, k: U64, f: Field)
    requires OnePlace(s) && HandedOn(s, k, f) && i < |s.handed| && s.table.cpus[i].Matched?
    ensures HandedOn(Next(s, Delete(i, now)), k, f)
  {
    var request := s.table.cpus[i].entry.request;
    assert Fine(s.table.cpus[i], s.handed[i], s.counters.cpus[i]);
    CarryingUpdate(s.handed, i, Some(DiskIo.DiskSample(request, now)), k, f);
    DiskIo.SamplesSnoc(s.made, DiskIo.Done(request, now));
    ChargedSnoc(DiskIo.SamplesOf(s.made), DiskIo.DiskSample(request, now), k, f);
  }

  lemma BeginHandedOn(s: State, i: nat, k: U64, f: Field)
    requires OnePlace(s) && HandedOn(s, k, f) && i < |s.handed| && s.handed[i].Some? && s.counters.cpus[i].Idle?
    ensures HandedOn(Next(s, Begin(i)), k, f)
  {
    CarryingUpdate(s.handed, i, None, k, f);
    ChargedSnoc(s.counters.begun, s.handed[i].value, k, f);
  }

  /** What was made is what was taken from the table. */
  ghost predicate MadeOfTaken(s: State) {
    |s.made| == |s.table.taken| && forall j :: 0 <= j < |s.made| ==> s.made[j].request == s.table.taken[j].request
  }

  lemma NextMadeOfTaken(s: State, e: Event)
    requires MadeOfTaken(s)
    ensures MadeOfTaken(Next(s, e))
  {
  }

  /** The table and the counters each take a step of their own, or none. */
  lemma NextParts(s: State, e: Event, k: U64, f: Field, x: RI.Entry)
    requires RC.WellFormed(s.counters) && RC.Balanced(s.counters, k, f) && RI.Sparse(s.table, x)
    ensures RC.WellFormed(Next(s, e).counters) && RC.Balanced(Next(s, e).counters, k, f)
    ensures RI.Sparse(Next(s, e).table, x)
  {
    if Enabled(s, e) {
      match e
      case Issue(y) => RI.NextSparse(s.table, RI.Issue(y), x);
      case Lookup(i, sector) => RI.NextSparse(s.table, RI.Lookup(i, sector), x);
      case Delete(i, _) => RI.NextSparse(s.table, RI.Delete(i), x);
      case Begin(i) => CountersStep(s.counters, RC.Begin(i, s.handed[i].value), k, f);
      case Count(step) => CountersStep(s.counters, step, k, f);
    }
  }

  lemma CountersStep(c: RC.State, e: RC.Event, k: U64, f: Field)
    requires RC.WellFormed(c) && RC.Balanced(c, k, f)
    ensures RC.WellFormed(RC.Next(RC.SeedWithZero, c, e)) && RC.Balanced(RC.Next(RC.SeedWithZero, c, e), k, f)
  {
    RC.NextWellFormed(RC.SeedWithZero, c, e);
    RC.NextBalanced(RC.SeedWithZero, c, e, k, f);
  }

  lemma {:induction false} NothingCarried(n: nat, k: U64, f: Field)
    ensures Total(Carrying(Boot(n).handed, k, f)) == 0
  {
    if n > 0 {
      NothingCarried(n - 1, k, f);
      assert Carrying(Boot(n).handed, k, f)[1..] == Carrying(Boot(n - 1).handed, k, f);
    }
  }

  lemma {:induction false} RunKeeps(n: nat, es: seq<Event>, k: U64, f: Field, x: RI.Entry)
    ensures var s := After(Boot(n), es);
      && OnePlace(s) && |s.handed| == n && MadeOfTaken(s) && HandedOn(s, k, f)
      && RC.WellFormed(s.counters) && RC.Balanced(s.counters, k, f) && RI.Sparse(s.table, x)
    decreases |es|
  {
    if es == [] {
      NothingCarried(n, k, f);
      RC.AllIdle(n, k, f);
      RI.BootHolds(n, x);
    } else {
      var s, e := After(Boot(n), es[..|es| - 1]), es[|es| - 1];
      RunKeeps(n, es[..|es| - 1], k, f, x);
      NextOnePlace(s, e);
      NextMadeOfTaken(s, e);
      NextHandedOn(s, e, k, f);
      NextParts(s, e, k, f, x);
    }
  }

  // ---------- conservation ----------

  /** Where additions of one kind for a cgroup are: on their way, ahead of a CPU, in an element that is
      or was in the map, or turned away by the full map. */
  function Accounted(s: State, k: U64, f: Field): int {
    Total(Carrying(s.handed, k, f)) + RC.Pending(s.counters, k, f)
    + Total(RC.Holding(s.counters.cells, k, f)) + Charged(s.counters.rejected, k, f)
  }

  /** Those that user space does not read. */
  function Unread(s: State, k: U64, f: Field): int {
    Total(Carrying(s.handed, k, f)) + RC.Pending(s.counters, k, f)
    + RC.Stranded(s.counters, k, f) + Charged(s.counters.rejected, k, f)
  }

  lemma AccountedIs(n: nat, es: seq<Event>, k: U64, f: Field)
    ensures var s := After(Boot(n), es);
      var charged := Charged(DiskIo.SamplesOf(s.made), k, f);
      && 0 <= Unread(s, k, f) && Accounted(s, k, f) == RC.Reading(s.counters, k, f) + Unread(s, k, f) <= charged
      && (charged < TWO64 ==> Accounted(s, k, f) == charged)
  {
    var s := After(Boot(n), es);
    RunKeeps(n, es, k, f, RI.Entry(0, DiskIo.IoRequest(0, 0, 0, false)));
    TotalBound(Carrying(s.handed, k, f));
    RC.Parts(s.counters, k, f);
    RC.SplitHeld(s.counters, k, f);
    if Charged(DiskIo.SamplesOf(s.made), k, f) < TWO64 {
      RC.NothingWrapped(s.counters, k, f);
    }
  }

  /** In every state of the whole program, for bytes, operations and latency in either direction: what is
      on its way, pending, in any element ever created or rejected is what the completions taken from the
      table amount to; and user space reads all of it exactly when none of it is elsewhere. */
  lemma QuantitiesConserved(n: nat, es: seq<Event>, k: U64, isWrite: bool, q: DiskIo.Quantity)
    ensures var s, f := After(Boot(n), es), DiskIo.FieldOf(isWrite, q);
      var done := DiskIo.AmountDone(s.made, k, isWrite, q);
      && MadeOfTaken(s)
      && Accounted(s, k, f) <= done && RC.Reading(s.counters, k, f) <= done
      && (done < TWO64 ==> Accounted(s, k, f) == done)
      && (done < TWO64 ==> (RC.Reading(s.counters, k, f) == done <==> Unread(s, k, f) == 0))
  {
    var s, f := After(Boot(n), es), DiskIo.FieldOf(isWrite, q);
    AccountedIs(n, es, k, f);
    RunKeeps(n, es, k, f, RI.Entry(0, DiskIo.IoRequest(0, 0, 0, false)));
    DiskIo.ChargedIsAmountDone(s.made, k, isWrite, q);
  }

  // ---------- from end to end ----------

  type Weight = RI.Entry -> nat

  function Weighed(xs: seq<RI.Entry>, w: Weight): nat {
    if xs == [] then 0 else w(xs[0]) + Weighed(xs[1..], w)
  }

  /** The bytes or operations of a cgroup and direction that an entry stands for. */
  function WeightOf(k: U64, isWrite: bool, q: DiskIo.Quantity): Weight {
    (x: RI.Entry) =>
      if q == DiskIo.Latency then 0 else DiskIo.Contribution(DiskIo.Done(x.request, 0), k, isWrite, q)
  }

  lemma {:induction false} WeighedSnoc(xs: seq<RI.Entry>, x: RI.Entry, w: Weight)
    ensures Weighed(xs + [x], w) == Weighed(xs, w) + w(x)
  {
    if xs != [] {
      assert (xs + [x])[1..] == xs[1..] + [x];
      WeighedSnoc(xs[1..], x, w);
    }
  }

  lemma {:induction false} DoneIsWeighed(made: seq<DiskIo.Done>, taken: seq<RI.Entry>, k: U64, isWrite: bool,
                                         q: DiskIo.Quantity)
    requires |made| == |taken| && forall j :: 0 <= j < |made| ==> made[j].request == taken[j].request
    requires q != DiskIo.Latency
    ensures DiskIo.AmountDone(made, k, isWrite, q) == Weighed(taken, WeightOf(k, isWrite, q))
    decreases |made|
  {
    if made != [] {
      var front, last := taken[..|taken| - 1], taken[|taken| - 1];
      assert taken == front + [last];
      DoneIsWeighed(made[..|made| - 1], front, k, isWrite, q);
      WeighedSnoc(front, last, WeightOf(k, isWrite, q));
    }
  }

  /** A list with up to n occurrences of an entry taken out. */
  function Without(xs: seq<RI.Entry>, y: RI.Entry, n: nat): seq<RI.Entry> {
    if xs == [] || n == 0 then xs
    else if xs[0] == y then Without(xs[1..], y, n - 1)
    else [xs[0]] + Without(xs[1..], y, n)
  }

  lemma {:induction false} WithoutCounts(xs: seq<RI.Entry>, y: RI.Entry, n: nat, x: RI.Entry)
    ensures multiset(Without(xs, y, n))[x] ==
            if x != y then multiset(xs)[x] else if multiset(xs)[x] <= n then 0 else multiset(xs)[x] - n
  {
    if xs != [] && n > 0 {
      assert xs == [xs[0]] + xs[1..];
      WithoutCounts(xs[1..], y, if xs[0] == y then n - 1 else n, x);
    }
  }

  lemma {:induction false} WithoutWeighs(xs: seq<RI.Entry>, y: RI.Entry, n: nat, w: Weight)
    ensures Weighed(xs, w) <= Weighed(Without(xs, y, n), w) + n * w(y)
  {
    if xs != [] && n > 0 {
      WithoutWeighs(xs[1..], y, if xs[0] == y then n - 1 else n, w);
      OneFewer(w(y), n);
    }
  }

  lemma NothingTimes(xs: seq<RI.Entry>, ys: seq<RI.Entry>, n: nat)
    requires ys == [] && forall x :: multiset(xs)[x] <= n * multiset(ys)[x]
    ensures xs == []
  {
    assert xs == [] || multiset(xs)[xs[0]] > 0;
  }

  /** A list that holds every entry at most n times as often as another weighs at most n times as much. */
  lemma {:induction false} AtMostTimes(xs: seq<RI.Entry>, ys: seq<RI.Entry>, n: nat, w: Weight)
    requires forall x :: multiset(xs)[x] <= n * multiset(ys)[x]
    ensures Weighed(xs, w) <= n * Weighed(ys, w)
    decreases |ys|
  {
    if ys == [] {
      NothingTimes(xs, ys, n);
    } else {
      var y, rest := ys[0], Without(xs, ys[0], n);
      forall x
        ensures multiset(rest)[x] <= n * multiset(ys[1..])[x]
      {
        StillAtMost(xs, ys, n, x);
      }
      AtMostTimes(rest, ys[1..], n, w);
      WithoutWeighs(xs, y, n, w);
      Shares(Weighed(xs, w), Weighed(rest, w), n, w(y), Weighed(ys[1..], w));
    }
  }

  lemma StillAtMost(xs: seq<RI.Entry>, ys: seq<RI.Entry>, n: nat, x: RI.Entry)
    requires ys != [] && multiset(xs)[x] <= n * multiset(ys)[x]
    ensures multiset(Without(xs, ys[0], n))[x] <= n * multiset(ys[1..])[x]
  {
    var y, b := ys[0], multiset(ys[1..])[x];
    assert ys == [y] + ys[1..];
    assert multiset(ys)[x] == b + if x == y then 1 else 0;
    WithoutCounts(xs, y, n, x);
    if x == y {
      TakeAway(multiset(xs)[x], n, b);
    }
  }

  lemma TakeAway(a: nat, n: nat, b: nat)
    requires a <= n * (b + 1)
    ensures (if a <= n then 0 else a - n) <= n * b
  {
    assert n * (b + 1) == n * b + n;
    assert n * b >= 0;
  }

  lemma OneFewer(w: nat, n: nat)
    ensures n * w == (n - 1) * w + w
  {
  }

  lemma Shares(whole: nat, rest: nat, n: nat, a: nat, b: nat)
    requires whole <= rest + n * a && rest <= n * b
    ensures whole <= n * (a + b)
  {
    assert n * (a + b) == n * a + n * b;
  }

  /** With n CPUs user space never reads more bytes or operations for a cgroup and direction than n times
      those of its requests the table ever stored. */
  lemma ReadingsBounded(n: nat, es: seq<Event>, k: U64, isWrite: bool, q: DiskIo.Quantity)
    requires q != DiskIo.Latency
    ensures var s, w := After(Boot(n), es), WeightOf(k, isWrite, q);
      && RC.Reading(s.counters, k, DiskIo.FieldOf(isWrite, q)) <= Weighed(s.table.taken, w)
      && Weighed(s.table.taken, w) <= n * Weighed(s.table.stored, w)
  {
    var s := After(Boot(n), es);
    forall x
      ensures multiset(s.table.taken)[x] <= n * multiset(s.table.stored)[x]
    {
      RunKeeps(n, es, k, DiskIo.FieldOf(isWrite, q), x);
      RI.SparseBound(s.table, x);
    }
    QuantitiesConserved(n, es, k, isWrite, q);
    DoneIsWeighed(s.made, s.table.taken, k, isWrite, q);
    AtMostTimes(s.table.taken, s.table.stored, n, WeightOf(k, isWrite, q));
  }

  // ---------- completions that keep out of each other's way ----------

  /** The table's guard, at a step of the whole program. */
  ghost predicate Apart(s: State, e: Event) {
    e.Lookup? && Enabled(s, e) ==> RI.Apart(s.table, RI.Lookup(e.cpu, e.sector))
  }

  ghost predicate Guarded(n: nat, es: seq<Event>) {
    es == [] || (Guarded(n, es[..|es| - 1]) && Apart(After(Boot(n), es[..|es| - 1]), es[|es| - 1]))
  }

  lemma NextGuarded(s: State, e: Event, x: RI.Entry)
    requires Apart(s, e) && RI.Exclusive(s.table) && RI.Used(s.table, x) <= multiset(s.table.stored)[x]
    ensures RI.Exclusive(Next(s, e).table)
    ensures RI.Used(Next(s, e).table, x) <= multiset(Next(s, e).table.stored)[x]
  {
    if Enabled(s, e) {
      match e
      case Issue(y) => TableStep(s.table, RI.Issue(y), x);
      case Lookup(i, sector) => TableStep(s.table, RI.Lookup(i, sector), x);
      case Delete(i, _) => TableStep(s.table, RI.Delete(i), x);
      case Begin(_) =>
      case Count(_) =>
    }
  }

  lemma TableStep(t: RI.State, e: RI.Event, x: RI.Entry)
    requires RI.Apart(t, e) && RI.Exclusive(t) && RI.Used(t, x) <= multiset(t.stored)[x]
    ensures RI.Exclusive(RI.Next(t, e)) && RI.Used(RI.Next(t, e), x) <= multiset(RI.Next(t, e).stored)[x]
  {
    RI.NextExclusive(t, e);
    RI.NextUsed(t, e, x);
  }

  lemma {:induction false} RunGuarded(n: nat, es: seq<Event>, x: RI.Entry)
    requires Guarded(n, es)
    ensures var t := After(Boot(n), es).table;
      RI.Exclusive(t) && RI.Used(t, x) <= multiset(t.stored)[x]
    decreases |es|
  {
    if es == [] {
      RI.BootHolds(n, x);
    } else {
      RunGuarded(n, es[..|es| - 1], x);
      NextGuarded(After(Boot(n), es[..|es| - 1]), es[|es| - 1], x);
    }
  }

  /** While no sector is looked up before another CPU's delete on it, no delete of the whole program comes
      too late, and user space never reads more bytes or operations for a cgroup and direction than those
      of its requests stored, however many CPUs there are; it reads those of its requests taken exactly
      when none are on their way, pending, stranded or rejected. */
  lemma GuardedReadings(n: nat, es: seq<Event>, k: U64, isWrite: bool, q: DiskIo.Quantity)
    requires Guarded(n, es) && q != DiskIo.Latency
    ensures var s, w, f := After(Boot(n), es), WeightOf(k, isWrite, q), DiskIo.FieldOf(isWrite, q);
      && s.table.missed == 0
      && RC.Reading(s.counters, k, f) <= Weighed(s.table.taken, w) <= Weighed(s.table.stored, w)
      && (Weighed(s.table.taken, w) < TWO64 ==>
            (RC.Reading(s.counters, k, f) == Weighed(s.table.taken, w) <==> Unread(s, k, f) == 0))
  {
    var s := After(Boot(n), es);
    forall x
      ensures s.table.missed == 0 && multiset(s.table.taken)[x] <= 1 * multiset(s.table.stored)[x]
    {
      RunGuarded(n, es, x);
      RI.HoldersBound(s.table, x);
    }
    QuantitiesConserved(n, es, k, isWrite, q);
    DoneIsWeighed(s.made, s.table.taken, k, isWrite, q);
    AtMostTimes(s.table.taken, s.table.stored, 1, WeightOf(k, isWrite, q));
    RunGuarded(n, es, RI.Entry(0, DiskIo.IoRequest(0, 0, 0, false)));
  }
}
