/** The find-or-create counters of the three eBPF programs, run by many CPUs at once.

    A handler looks its cgroup up in a shared hash map, inserts an element with BPF_ANY when the
    lookup missed, and then adds to the element with separate atomic additions.  Nothing makes the
    three steps atomic together.  Inserting over an existing key puts a fresh element in the map
    while other CPUs may still hold a pointer to the element it replaced. */
module RacyCounters {
  import opened Counters
  import opened Sums
  import opened Words

  /** What a handler inserts on a miss: measure_cpu_cycles inserts an element that already holds its
      sample and is done; the disk and network handlers insert zeros and look the key up again. */
  datatype Style = SeedWithSample | SeedWithZero

  /** A map element.  It survives, unreachable from the map, after it is replaced. */
  datatype Cell = Cell(key: U64, values: Values)

  /** Where a CPU is in its handler. */
  datatype Cpu =
    | Idle
    | Missed(key: U64, todo: seq<Bump>)
    | Retry(key: U64, todo: seq<Bump>)
    | Adding(key: U64, todo: seq<Bump>, cell: nat)

  /** `begun` and `rejected` record, for the accounts below, the handler runs started so far and
      those that found no element because the map was full. */
  datatype State = State(
    live: map<U64, nat>, cells: seq<Cell>, cpus: seq<Cpu>, begun: seq<Sample>, rejected: seq<Sample>)

  datatype Event =
    | Begin(cpu: nat, sample: Sample)
    | Insert(cpu: nat)
    | Relookup(cpu: nat)
    | Add(cpu: nat)

  predicate Accepts(s: State, key: U64) {
    key in s.live || |s.live| < CAPACITY
  }

  /** Points at the key's live element. */
  function Found(s: State, key: U64, todo: seq<Bump>): Cpu
    requires key in s.live
  {
    Adding(key, todo, s.live[key])
  }

  /** `bpf_map_update_elem(..., BPF_ANY)` where it is accepted. */
  function Replaced(s: State, key: U64, values: Values): State {
    s.(live := s.live[key := |s.cells|], cells := s.cells + [Cell(key, values)])
  }

  function AtBegin(s: State, i: nat, sample: Sample): State
    requires i < |s.cpus|
  {
    var pc := if sample.key in s.live then Found(s, sample.key, sample.bumps) else Missed(sample.key, sample.bumps);
    s.(cpus := s.cpus[i := pc], begun := s.begun + [sample])
  }

  function AtInsert(style: Style, s: State, i: nat): State
    requires i < |s.cpus| && s.cpus[i].Missed?
  {
    var (key, todo) := (s.cpus[i].key, s.cpus[i].todo);
    if style == SeedWithSample then
      var s' := s.(cpus := s.cpus[i := Idle]);
      if Accepts(s, key) then Replaced(s', key, BumpedAll(ZERO, todo))
      else s'.(rejected := s.rejected + [Sample(key, todo)])
    else
      var s' := s.(cpus := s.cpus[i := Retry(key, todo)]);
      if Accepts(s, key) then Replaced(s', key, ZERO) else s'
  }

  function AtRelookup(s: State, i: nat): State
    requires i < |s.cpus| && s.cpus[i].Retry?
  {
    var (key, todo) := (s.cpus[i].key, s.cpus[i].todo);
    if key in s.live then s.(cpus := s.cpus[i := Found(s, key, todo)])
    else s.(cpus := s.cpus[i := Idle], rejected := s.rejected + [Sample(key, todo)])
  }

  function AtAdd(s: State, i: nat): State
    requires i < |s.cpus| && s.cpus[i].Adding?
  {
    var cpu := s.cpus[i];
    if cpu.todo == [] || cpu.cell >= |s.cells| then s.(cpus := s.cpus[i := Idle])
    else
      var cell := s.cells[cpu.cell];
      s.(cells := s.cells[cpu.cell := cell.(values := Bumped(cell.values, cpu.todo[0]))],
         cpus := s.cpus[i := cpu.(todo := cpu.todo[1..])])
  }

  predicate Enabled(s: State, e: Event) {
    e.cpu < |s.cpus| &&
    match e
    case Begin(i, _) => s.cpus[i].Idle?
    case Insert(i) => s.cpus[i].Missed?
    case Relookup(i) => s.cpus[i].Retry?
    case Add(i) => s.cpus[i].Adding?
  }

  /** One step of one CPU.  A step the CPU cannot take leaves the state alone, so every sequence of
      events is an interleaving. */
  function Next(style: Style, s: State, e: Event): State {
    if !Enabled(s, e) then s else
    match e
    case Begin(i, sample) => AtBegin(s, i, sample)
    case Insert(i) => AtInsert(style, s, i)
    case Relookup(i) => AtRelookup(s, i)
    case Add(i) => AtAdd(s, i)
  }

  function After(style: Style, s: State, es: seq<Event>): State
    decreases |es|
  {
    if es == [] then s else After(style, Next(style, s, es[0]), es[1..])
  }

  /** `cpus` idle CPUs over an empty map. */
  function Boot(cpus: nat): State {
    State(map[], [], seq(cpus, _ => Idle), [], [])
  }

  // ---------- accounts ----------

  /** What a CPU has still to add. */
  function Owed(cpu: Cpu, k: U64, f: Field): nat {
    if cpu.Idle? || cpu.key != k then 0 else Amount(cpu.todo, f)
  }

  function Held(cell: Cell, k: U64, f: Field): nat {
    if cell.key == k then cell.values[f] else 0
  }

  function Owing(cpus: seq<Cpu>, k: U64, f: Field): seq<int> {
    seq(|cpus|, i requires 0 <= i < |cpus| => Owed(cpus[i], k, f))
  }

  function Holding(cells: seq<Cell>, k: U64, f: Field): seq<int> {
    seq(|cells|, i requires 0 <= i < |cells| => Held(cells[i], k, f))
  }

  /** Additions whose handler has begun and whose counting step is still to come. */
  function Pending(s: State, k: U64, f: Field): int {
    Total(Owing(s.cpus, k, f))
  }

  /** Additions whose handler is past its counting step, or was turned away by a full map. */
  function Passed(s: State, k: U64, f: Field): int {
    Charged(s.begun, k, f) - Pending(s, k, f)
  }

  /** What user space reads. */
  function Reading(s: State, k: U64, f: Field): nat {
    if k in s.live && s.live[k] < |s.cells| then Held(s.cells[s.live[k]], k, f) else 0
  }

  /** What is held by elements of the cgroup that are no longer in the map. */
  function Stranded(s: State, k: U64, f: Field): int {
    var held := Holding(s.cells, k, f);
    Total(if k in s.live && s.live[k] < |held| then held[s.live[k] := 0] else held)
  }

  ghost predicate PointsWell(s: State, cpu: Cpu) {
    cpu.Adding? ==> cpu.cell < |s.cells| && s.cells[cpu.cell].key == cpu.key
  }

  ghost predicate WellFormed(s: State) {
    && |s.live| <= CAPACITY
    && (forall k :: k in s.live ==> s.live[k] < |s.cells| && s.cells[s.live[k]].key == k)
    && (forall i :: 0 <= i < |s.cpus| ==> PointsWell(s, s.cpus[i]))
  }

  /** Additions begun that the other accounts do not show. */
  function Gap(s: State, k: U64, f: Field): int {
    Charged(s.begun, k, f) - Pending(s, k, f) - Total(Holding(s.cells, k, f)) - Charged(s.rejected, k, f)
  }

  /** All that is ever missing is whole wraps of 64-bit counters. */
  ghost predicate Balanced(s: State, k: U64, f: Field) {
    Gap(s, k, f) >= 0 && Gap(s, k, f) % TWO64 == 0
  }

  // ---------- small facts about the accounts ----------

  lemma PendingUpdate(s: State, i: nat, pc: Cpu, k: U64, f: Field)
    requires i < |s.cpus|
    ensures Total(Owing(s.cpus[i := pc], k, f)) == Pending(s, k, f) - Owed(s.cpus[i], k, f) + Owed(pc, k, f)
  {
    assert Owing(s.cpus[i := pc], k, f) == Owing(s.cpus, k, f)[i := Owed(pc, k, f)];
    TotalUpdate(Owing(s.cpus, k, f), i, Owed(pc, k, f));
  }

  lemma HoldingAppend(cells: seq<Cell>, c: Cell, k: U64, f: Field)
    ensures Total(Holding(cells + [c], k, f)) == Total(Holding(cells, k, f)) + Held(c, k, f)
  {
    assert Holding(cells + [c], k, f) == Holding(cells, k, f) + [Held(c, k, f)];
    TotalConcat(Holding(cells, k, f), [Held(c, k, f)]);
  }

  lemma HoldingUpdate(cells: seq<Cell>, i: nat, c: Cell, k: U64, f: Field)
    requires i < |cells|
    ensures Total(Holding(cells[i := c], k, f)) == Total(Holding(cells, k, f)) - Held(cells[i], k, f) + Held(c, k, f)
  {
    assert Holding(cells[i := c], k, f) == Holding(cells, k, f)[i := Held(c, k, f)];
    TotalUpdate(Holding(cells, k, f), i, Held(c, k, f));
  }

  /** Nothing counted is ever negative, so a part never exceeds the whole. */
  lemma Parts(s: State, k: U64, f: Field)
    ensures Pending(s, k, f) >= 0 && Total(Holding(s.cells, k, f)) >= 0
    ensures forall i :: 0 <= i < |s.cpus| ==> Owed(s.cpus[i], k, f) <= Pending(s, k, f)
    ensures forall i :: 0 <= i < |s.cells| ==> Held(s.cells[i], k, f) <= Total(Holding(s.cells, k, f))
  {
    var owing, holding := Owing(s.cpus, k, f), Holding(s.cells, k, f);
    TotalBound(owing);
    TotalBound(holding);
    assert forall i :: 0 <= i < |s.cpus| ==> owing[i] == Owed(s.cpus[i], k, f);
    assert forall i :: 0 <= i < |s.cells| ==> holding[i] == Held(s.cells[i], k, f);
  }

  /** Additions into an element that has room add up exactly. */
  lemma {:induction false} BumpedAllReads(values: Values, bumps: seq<Bump>, f: Field)
    requires values[f] + Amount(bumps, f) < TWO64
    ensures BumpedAll(values, bumps)[f] == values[f] + Amount(bumps, f)
    decreases |bumps|
  {
    if bumps != [] {
      BumpedAllReads(Bumped(values, bumps[0]), bumps[1..], f);
    }
  }

  /** Reducing a sum to 64 bits takes whole wraps off it. */
  lemma WholeWraps(gap: nat, sum: nat)
    requires gap % TWO64 == 0
    ensures gap + sum - sum % TWO64 >= 0 && (gap + sum - sum % TWO64) % TWO64 == 0
  {
  }

  /** A total that never reached 2^64 has wrapped nothing. */
  lemma NothingWrapped(s: State, k: U64, f: Field)
    requires Balanced(s, k, f) && Charged(s.begun, k, f) < TWO64
    ensures Gap(s, k, f) == 0
  {
    Parts(s, k, f);
  }

  // ---------- conservation ----------

  lemma NextWellFormed(style: Style, s: State, e: Event)
    requires WellFormed(s)
    ensures WellFormed(Next(style, s, e))
    ensures |Next(style, s, e).cpus| == |s.cpus|
  {
    if Enabled(s, e) {
      match e
      case Begin(i, sample) => KeepsPointers(s, AtBegin(s, i, sample), i);
      case Insert(i) =>
        InsertKeepsMap(style, s, i);
        KeepsPointers(s, AtInsert(style, s, i), i);
      case Relookup(i) => KeepsPointers(s, AtRelookup(s, i), i);
      case Add(i) => KeepsPointers(s, AtAdd(s, i), i);
    }
  }

  /** Elements are only added, never re-keyed or freed, so pointers stay good. */
  lemma KeepsPointers(s: State, s': State, i: nat)
    requires WellFormed(s) && i < |s.cpus| == |s'.cpus| && s'.cpus == s.cpus[i := s'.cpus[i]]
    requires |s.cells| <= |s'.cells| && forall c :: 0 <= c < |s.cells| ==> s'.cells[c].key == s.cells[c].key
    requires PointsWell(s', s'.cpus[i])
    ensures forall j :: 0 <= j < |s'.cpus| ==> PointsWell(s', s'.cpus[j])
  {
  }

  lemma InsertKeepsMap(style: Style, s: State, i: nat)
    requires WellFormed(s) && i < |s.cpus| && s.cpus[i].Missed?
    ensures var s' := AtInsert(style, s, i);
      && |s'.live| <= CAPACITY && |s'.cells| >= |s.cells|
      && (forall k :: k in s'.live ==> s'.live[k] < |s'.cells| && s'.cells[s'.live[k]].key == k)
  {
  }

  lemma BeginBalanced(s: State, i: nat, sample: Sample, k: U64, f: Field)
    requires i < |s.cpus| && s.cpus[i].Idle? && Balanced(s, k, f)
    ensures Balanced(AtBegin(s, i, sample), k, f)
  {
    PendingUpdate(s, i, AtBegin(s, i, sample).cpus[i], k, f);
    ChargedSnoc(s.begun, sample, k, f);
  }

  lemma InsertBalanced(style: Style, s: State, i: nat, k: U64, f: Field)
    requires i < |s.cpus| && s.cpus[i].Missed? && Balanced(s, k, f)
    ensures Balanced(AtInsert(style, s, i), k, f)
  {
    PendingUpdate(s, i, AtInsert(style, s, i).cpus[i], k, f);
    if !Accepts(s, s.cpus[i].key) {
      ChargedSnoc(s.rejected, Sample(s.cpus[i].key, s.cpus[i].todo), k, f);
    } else if style == SeedWithSample {
      SeedBalanced(s, i, k, f);
    } else {
      HoldingAppend(s.cells, Cell(s.cpus[i].key, ZERO), k, f);
    }
  }

  lemma SeedBalanced(s: State, i: nat, k: U64, f: Field)
    requires i < |s.cpus| && s.cpus[i].Missed? && Balanced(s, k, f) && Accepts(s, s.cpus[i].key)
    ensures Balanced(AtInsert(SeedWithSample, s, i), k, f)
  {
    var key, todo := s.cpus[i].key, s.cpus[i].todo;
    PendingUpdate(s, i, Idle, k, f);
    HoldingAppend(s.cells, Cell(key, BumpedAll(ZERO, todo)), k, f);
    BumpedAllWraps(ZERO, todo, f, 0);
    WholeWraps(Gap(s, k, f), Amount(todo, f));
  }

  lemma RelookupBalanced(s: State, i: nat, k: U64, f: Field)
    requires i < |s.cpus| && s.cpus[i].Retry? && Balanced(s, k, f)
    ensures Balanced(AtRelookup(s, i), k, f)
  {
    PendingUpdate(s, i, AtRelookup(s, i).cpus[i], k, f);
    ChargedSnoc(s.rejected, Sample(s.cpus[i].key, s.cpus[i].todo), k, f);
  }

  lemma AddBalanced(s: State, i: nat, k: U64, f: Field)
    requires i < |s.cpus| && s.cpus[i].Adding? && PointsWell(s, s.cpus[i]) && Balanced(s, k, f)
    ensures Balanced(AtAdd(s, i), k, f)
  {
    var cpu := s.cpus[i];
    PendingUpdate(s, i, AtAdd(s, i).cpus[i], k, f);
    if cpu.todo != [] {
      var cell, b := s.cells[cpu.cell], cpu.todo[0];
      HoldingUpdate(s.cells, cpu.cell, cell.(values := Bumped(cell.values, b)), k, f);
      WholeWraps(Gap(s, k, f), cell.values[b.field] + b.amount);
    }
  }

  lemma TwoParts(s: State, i: nat, c: nat, k: U64, f: Field)
    requires i < |s.cpus| && c < |s.cells| && Balanced(s, k, f) && Charged(s.begun, k, f) < TWO64
    ensures Held(s.cells[c], k, f) + Owed(s.cpus[i], k, f) < TWO64
  {
    Parts(s, k, f);
  }

  lemma NextBalanced(style: Style, s: State, e: Event, k: U64, f: Field)
    requires WellFormed(s) && Balanced(s, k, f)
    ensures Balanced(Next(style, s, e), k, f)
  {
    if Enabled(s, e) {
      match e
      case Begin(i, sample) => BeginBalanced(s, i, sample, k, f);
      case Insert(i) => InsertBalanced(style, s, i, k, f);
      case Relookup(i) => RelookupBalanced(s, i, k, f);
      case Add(i) => AddBalanced(s, i, k, f);
    }
  }

  lemma {:induction false} RunKeeps(style: Style, s: State, es: seq<Event>, k: U64, f: Field)
    requires WellFormed(s) && Balanced(s, k, f)
    ensures WellFormed(After(style, s, es)) && Balanced(After(style, s, es), k, f)
    ensures |After(style, s, es).cpus| == |s.cpus|
    decreases |es|
  {
    if es != [] {
      NextWellFormed(style, s, es[0]);
      NextBalanced(style, s, es[0], k, f);
      RunKeeps(style, Next(style, s, es[0]), es[1..], k, f);
    }
  }

  lemma {:induction false} AllIdle(n: nat, k: U64, f: Field)
    ensures Pending(Boot(n), k, f) == 0
  {
    var owing := Owing(Boot(n).cpus, k, f);
    if n > 0 {
      AllIdle(n - 1, k, f);
      assert owing[1..] == Owing(Boot(n - 1).cpus, k, f);
    }
  }

  /** Conservation under every interleaving by any number of CPUs: what is past its counting step is
      held by the elements ever created for the cgroup, or was rejected by the full map, or is whole
      wraps of 64-bit counters, of which there are none before the total reaches 2^64. */
  lemma Conservation(style: Style, n: nat, es: seq<Event>, k: U64, f: Field)
    ensures var s := After(style, Boot(n), es);
      var accounted := Total(Holding(s.cells, k, f)) + Charged(s.rejected, k, f);
      && accounted <= Passed(s, k, f) && (Passed(s, k, f) - accounted) % TWO64 == 0
      && (Charged(s.begun, k, f) < TWO64 ==> Passed(s, k, f) == accounted)
  {
    AllIdle(n, k, f);
    RunKeeps(style, Boot(n), es, k, f);
    var s := After(style, Boot(n), es);
    if Charged(s.begun, k, f) < TWO64 {
      NothingWrapped(s, k, f);
    }
  }

  lemma SplitHeld(s: State, k: U64, f: Field)
    requires WellFormed(s)
    ensures Total(Holding(s.cells, k, f)) == Reading(s, k, f) + Stranded(s, k, f)
    ensures Stranded(s, k, f) >= 0
  {
    var held := Holding(s.cells, k, f);
    if k in s.live {
      TotalUpdate(held, s.live[k], 0);
      TotalBound(held[s.live[k] := 0]);
    } else {
      TotalBound(held);
    }
  }

  /** User space never reads more than was counted, and, until the total reaches 2^64, it reads all of
      it exactly when no sample was rejected and no replaced element holds a count. */
  lemma ReadingExactIff(style: Style, n: nat, es: seq<Event>, k: U64, f: Field)
    ensures var s := After(style, Boot(n), es);
      && Reading(s, k, f) <= Passed(s, k, f)
      && (Charged(s.begun, k, f) < TWO64 ==>
            (Reading(s, k, f) == Passed(s, k, f) <==> Charged(s.rejected, k, f) == 0 && Stranded(s, k, f) == 0))
  {
    Conservation(style, n, es, k, f);
    AllIdle(n, k, f);
    RunKeeps(style, Boot(n), es, k, f);
    SplitHeld(After(style, Boot(n), es), k, f);
  }

  // ---------- how often an element can be replaced ----------

  function Missing(cpus: seq<Cpu>, k: U64): seq<int> {
    seq(|cpus|, i requires 0 <= i < |cpus| => Miss(cpus[i], k))
  }

  function Copies(cells: seq<Cell>, k: U64): seq<int> {
    seq(|cells|, i requires 0 <= i < |cells| => if cells[i].key == k then 1 else 0)
  }

  /** How many elements were ever created for the cgroup. */
  function Created(s: State, k: U64): int {
    Total(Copies(s.cells, k))
  }

  /** How many CPUs hold a miss they have not acted on yet. */
  function PendingMisses(s: State, k: U64): int {
    Total(Missing(s.cpus, k))
  }

  ghost predicate FewCopies(s: State, k: U64) {
    if k in s.live then Created(s, k) + PendingMisses(s, k) <= |s.cpus| else Created(s, k) == 0
  }

  lemma {:induction false} AtMostOneEach(xs: seq<int>)
    requires forall i :: 0 <= i < |xs| ==> xs[i] <= 1
    ensures Total(xs) <= |xs|
  {
    if xs != [] {
      AtMostOneEach(xs[1..]);
    }
  }

  function Miss(cpu: Cpu, k: U64): int {
    if cpu.Missed? && cpu.key == k then 1 else 0
  }

  lemma MissesUpdate(s: State, i: nat, pc: Cpu, k: U64)
    requires i < |s.cpus|
    ensures Total(Missing(s.cpus[i := pc], k)) == PendingMisses(s, k) - Miss(s.cpus[i], k) + Miss(pc, k)
    ensures PendingMisses(s, k) <= |s.cpus| && Total(Missing(s.cpus[i := pc], k)) <= |s.cpus|
  {
    assert Missing(s.cpus[i := pc], k) == Missing(s.cpus, k)[i := Miss(pc, k)];
    TotalUpdate(Missing(s.cpus, k), i, Miss(pc, k));
    AtMostOneEach(Missing(s.cpus, k));
    AtMostOneEach(Missing(s.cpus[i := pc], k));
  }

  lemma CopiesAppend(cells: seq<Cell>, c: Cell, k: U64)
    ensures Total(Copies(cells + [c], k)) == Total(Copies(cells, k)) + (if c.key == k then 1 else 0)
  {
    var one := [if c.key == k then 1 else 0];
    assert Copies(cells + [c], k) == Copies(cells, k) + one;
    TotalConcat(Copies(cells, k), one);
  }

  lemma InsertFewCopies(style: Style, s: State, i: nat, k: U64)
    requires i < |s.cpus| && s.cpus[i].Missed? && FewCopies(s, k)
    ensures FewCopies(AtInsert(style, s, i), k)
  {
    MissesUpdate(s, i, AtInsert(style, s, i).cpus[i], k);
    var seed := if style == SeedWithSample then BumpedAll(ZERO, s.cpus[i].todo) else ZERO;
    CopiesAppend(s.cells, Cell(s.cpus[i].key, seed), k);
  }

  lemma NextFewCopies(style: Style, s: State, e: Event, k: U64)
    requires WellFormed(s) && FewCopies(s, k)
    ensures FewCopies(Next(style, s, e), k)
  {
    if Enabled(s, e) {
      match e
      case Begin(i, sample) => MissesUpdate(s, i, AtBegin(s, i, sample).cpus[i], k);
      case Insert(i) => InsertFewCopies(style, s, i, k);
      case Relookup(i) => MissesUpdate(s, i, AtRelookup(s, i).cpus[i], k);
      case Add(i) =>
        MissesUpdate(s, i, AtAdd(s, i).cpus[i], k);
        assert Copies(AtAdd(s, i).cells, k) == Copies(s.cells, k);
    }
  }

  lemma {:induction false} RunFewCopies(style: Style, s: State, es: seq<Event>, k: U64)
    requires WellFormed(s) && FewCopies(s, k)
    ensures FewCopies(After(style, s, es), k)
    ensures |After(style, s, es).cpus| == |s.cpus|
    decreases |es|
  {
    if es != [] {
      NextWellFormed(style, s, es[0]);
      NextFewCopies(style, s, es[0], k);
      RunFewCopies(style, Next(style, s, es[0]), es[1..], k);
    }
  }

  /** With n CPUs at most n elements are ever created for a cgroup: the first and n - 1 replacements. */
  lemma BoundedReplacement(style: Style, n: nat, es: seq<Event>, k: U64)
    ensures Created(After(style, Boot(n), es), k) <= n
  {
    RunFewCopies(style, Boot(n), es, k);
    TotalBound(Missing(After(style, Boot(n), es).cpus, k));
  }

  // ---------- once the misses have drained ----------

  ghost predicate Settled(s: State, k: U64) {
    k in s.live && forall i :: 0 <= i < |s.cpus| ==> !(s.cpus[i].Missed? && s.cpus[i].key == k)
  }

  /** Additions still to come that will reach the live element. */
  function OwedLive(s: State, cpu: Cpu, k: U64, f: Field): nat
    requires k in s.live
  {
    if cpu.Adding? && cpu.cell != s.live[k] then 0 else Owed(cpu, k, f)
  }

  function OwingLive(s: State, k: U64, f: Field): seq<int>
    requires k in s.live
  {
    seq(|s.cpus|, i requires 0 <= i < |s.cpus| => OwedLive(s, s.cpus[i], k, f))
  }

  /** What the live element holds or is about to receive. */
  function Secured(s: State, k: U64, f: Field): int
    requires k in s.live
  {
    Reading(s, k, f) + Total(OwingLive(s, k, f))
  }

  /** Moving one CPU, with the live element where it was, moves what is secured accordingly. */
  lemma SecuredStep(s: State, s': State, i: nat, k: U64, f: Field)
    requires k in s.live && k in s'.live && s.live[k] == s'.live[k]
    requires i < |s.cpus| == |s'.cpus| && s'.cpus == s.cpus[i := s'.cpus[i]]
    ensures Secured(s', k, f) == Secured(s, k, f) + Reading(s', k, f) - Reading(s, k, f)
              + OwedLive(s, s'.cpus[i], k, f) - OwedLive(s, s.cpus[i], k, f)
    ensures Reading(s, k, f) + OwedLive(s, s.cpus[i], k, f) <= Secured(s, k, f)
  {
    var owing, owed := OwingLive(s, k, f), OwedLive(s, s'.cpus[i], k, f);
    assert OwingLive(s', k, f) == owing[i := owed];
    TotalUpdate(owing, i, owed);
    TotalBound(owing);
    assert owing[i] == OwedLive(s, s.cpus[i], k, f);
  }

  lemma NextSettled(style: Style, s: State, e: Event, k: U64, f: Field)
    requires WellFormed(s) && Settled(s, k)
    requires Secured(s, k, f) < TWO64
    ensures var s' := Next(style, s, e);
      && Settled(s', k) && s'.live[k] == s.live[k]
      && Charged(s'.rejected, k, f) == Charged(s.rejected, k, f)
      && Secured(s', k, f) == Secured(s, k, f) + Charged(s'.begun, k, f) - Charged(s.begun, k, f)
  {
    if Enabled(s, e) {
      var cpu := s.cpus[e.cpu];
      SecuredStep(s, Next(style, s, e), e.cpu, k, f);
      match e
      case Begin(_, sample) => ChargedSnoc(s.begun, sample, k, f);
      case Insert(_) => ChargedSnoc(s.rejected, Sample(cpu.key, cpu.todo), k, f);
      case Relookup(_) => ChargedSnoc(s.rejected, Sample(cpu.key, cpu.todo), k, f);
      case Add(i) => AddSettled(s, i, k, f);
    }
  }

  lemma AddSettled(s: State, i: nat, k: U64, f: Field)
    requires WellFormed(s) && k in s.live && i < |s.cpus| && s.cpus[i].Adding?
    requires Reading(s, k, f) + OwedLive(s, s.cpus[i], k, f) < TWO64
    ensures var s' := AtAdd(s, i);
      Reading(s', k, f) + OwedLive(s, s'.cpus[i], k, f) == Reading(s, k, f) + OwedLive(s, s.cpus[i], k, f)
  {
  }

  lemma {:induction false} BegunGrows(style: Style, s: State, es: seq<Event>, k: U64, f: Field)
    ensures Charged(s.begun, k, f) <= Charged(After(style, s, es).begun, k, f)
    decreases |es|
  {
    if es != [] {
      var s' := Next(style, s, es[0]);
      if es[0].Begin? {
        ChargedSnoc(s.begun, es[0].sample, k, f);
      }
      BegunGrows(style, s', es[1..], k, f);
    }
  }

  /** Once no CPU holds a pending miss for a cgroup that is in the map, its element is never replaced
      again, nothing more is rejected, and every handler begun later is either counted in the live
      element or still has its addition to that very element ahead of it. */
  lemma {:induction false} SettledIsExact(style: Style, s: State, es: seq<Event>, k: U64, f: Field)
    requires WellFormed(s) && Settled(s, k)
    requires Secured(s, k, f) + Charged(After(style, s, es).begun, k, f) - Charged(s.begun, k, f) < TWO64
    ensures var s' := After(style, s, es);
      && Settled(s', k) && s'.live[k] == s.live[k]
      && Charged(s'.rejected, k, f) == Charged(s.rejected, k, f)
      && Secured(s', k, f) == Secured(s, k, f) + Charged(s'.begun, k, f) - Charged(s.begun, k, f)
    decreases |es|
  {
    if es != [] {
      BegunGrows(style, s, es, k, f);
      NextWellFormed(style, s, es[0]);
      NextSettled(style, s, es[0], k, f);
      SettledIsExact(style, Next(style, s, es[0]), es[1..], k, f);
    }
  }

  // ---------- a full map stays as it is ----------

  /** No step deletes, and a full map admits no new cgroup: its keys are frozen. */
  lemma {:induction false} KeysOnlyGrow(style: Style, s: State, es: seq<Event>)
    requires WellFormed(s)
    ensures s.live.Keys <= After(style, s, es).live.Keys
    ensures |s.live| == CAPACITY ==> After(style, s, es).live.Keys == s.live.Keys
    decreases |es|
  {
    if es != [] {
      var s' := Next(style, s, es[0]);
      NextWellFormed(style, s, es[0]);
      KeysOnlyGrow(style, s', es[1..]);
      if |s.live| == CAPACITY {
        assert s'.live.Keys == s.live.Keys;
        assert |s'.live| == |s'.live.Keys| == |s.live.Keys|;
      }
    }
  }

  // ---------- a handler no other CPU interferes with ----------

  /** The map as user space sees it. */
  function View(s: State): map<U64, Values> {
    map k | k in s.live && s.live[k] < |s.cells| :: s.cells[s.live[k]].values
  }

  function Adds(cpu: nat, n: nat): seq<Event> {
    [Add(cpu)] + if n == 0 then [] else Adds(cpu, n - 1)
  }

  /** The steps of one handler run, one after the other. */
  function Solo(cpu: nat, sample: Sample): seq<Event> {
    [Begin(cpu, sample), Insert(cpu), Relookup(cpu)] + Adds(cpu, |sample.bumps|)
  }

  /** The state in which CPU `i` has made all of `todo` through its pointer to element `c`. */
  function Filled(s: State, i: nat, c: nat, todo: seq<Bump>): State
    requires i < |s.cpus| && c < |s.cells|
  {
    s.(cells := s.cells[c := s.cells[c].(values := BumpedAll(s.cells[c].values, todo))],
       cpus := s.cpus[i := Idle])
  }

  lemma {:induction false} SoloAdds(style: Style, s: State, i: nat, key: U64, todo: seq<Bump>, c: nat)
    requires i < |s.cpus| && c < |s.cells| && s.cpus[i] == Adding(key, todo, c)
    ensures After(style, s, Adds(i, |todo|)) == Filled(s, i, c, todo)
    decreases |todo|
  {
    AfterCons(style, s, Add(i), if todo == [] then [] else Adds(i, |todo| - 1));
    if todo == [] {
      assert s.cells[c := s.cells[c]] == s.cells;
    } else {
      var s' := AtAdd(s, i);
      SoloAdds(style, s', i, key, todo[1..], c);
      assert Filled(s', i, c, todo[1..]).cells == Filled(s, i, c, todo).cells;
      assert Filled(s', i, c, todo[1..]).cpus == Filled(s, i, c, todo).cpus;
    }
  }

  lemma AfterCons(style: Style, s: State, e: Event, es: seq<Event>)
    ensures After(style, s, [e] + es) == After(style, Next(style, s, e), es)
  {
  }

  lemma {:induction false} AfterConcat(style: Style, s: State, xs: seq<Event>, ys: seq<Event>)
    ensures After(style, s, xs + ys) == After(style, After(style, s, xs), ys)
    decreases |xs|
  {
    if xs == [] {
      assert xs + ys == ys;
    } else {
      assert (xs + ys)[1..] == xs[1..] + ys;
      AfterConcat(style, Next(style, s, xs[0]), xs[1..], ys);
    }
  }

  lemma {:induction false} AddsWhenIdle(style: Style, s: State, cpu: nat, n: nat)
    requires cpu < |s.cpus| && s.cpus[cpu] == Idle
    ensures After(style, s, Adds(cpu, n)) == s
  {
    if n > 0 {
      assert Adds(cpu, n)[1..] == Adds(cpu, n - 1);
      AddsWhenIdle(style, s, cpu, n - 1);
    }
  }

  lemma ViewKeys(s: State)
    requires WellFormed(s)
    ensures View(s).Keys == s.live.Keys && |View(s)| == |s.live|
  {
  }

  /** Rewriting a live element rewrites that cgroup's values and no other's. */
  lemma ViewUpdate(s: State, key: U64, values: Values, cpus: seq<Cpu>, begun: seq<Sample>)
    requires WellFormed(s) && key in s.live
    ensures var c := s.live[key];
      View(s.(cells := s.cells[c := s.cells[c].(values := values)], cpus := cpus, begun := begun)) ==
      View(s)[key := values]
  {
  }

  lemma ViewInsert(s: State, key: U64, values: Values, cpus: seq<Cpu>, begun: seq<Sample>)
    requires WellFormed(s) && key !in s.live
    ensures View(Replaced(s, key, values).(cpus := cpus, begun := begun)) == View(s)[key := values]
  {
  }

  /** Run without interference, the steps of a handler do to the map what the atomic handler does,
      whichever way the handler creates missing elements. */
  lemma SoloIsAtomic(style: Style, s: State, i: nat, sample: Sample)
    requires WellFormed(s) && i < |s.cpus| && s.cpus[i] == Idle
    ensures var s' := After(style, s, Solo(i, sample));
      View(s') == Handle(View(s), sample) && s'.cpus == s.cpus
  {
    SoloUnfolds(style, s, i, sample);
    ViewKeys(s);
    if sample.key in s.live {
      SoloHit(style, s, i, sample);
    } else if |s.live| >= CAPACITY {
      SoloFull(style, s, i, sample);
    } else if style == SeedWithSample {
      SoloSeeds(s, i, sample);
    } else {
      SoloCreates(s, i, sample);
    }
  }

  lemma SoloHit(style: Style, s: State, i: nat, sample: Sample)
    requires WellFormed(s) && i < |s.cpus| && s.cpus[i] == Idle && sample.key in s.live
    ensures var s3 := Next(style, Next(style, AtBegin(s, i, sample), Insert(i)), Relookup(i));
      var s' := After(style, s3, Adds(i, |sample.bumps|));
      s'.cpus == s.cpus && View(s') == View(s)[sample.key := BumpedAll(View(s)[sample.key], sample.bumps)]
  {
    var c, s1 := s.live[sample.key], AtBegin(s, i, sample);
    SoloAdds(style, s1, i, sample.key, sample.bumps, c);
    var values := BumpedAll(s.cells[c].values, sample.bumps);
    ViewUpdate(s, sample.key, values, s.cpus, s1.begun);
    assert s1.cpus[i := Idle] == s.cpus;
  }

  lemma SoloFull(style: Style, s: State, i: nat, sample: Sample)
    requires i < |s.cpus| && s.cpus[i] == Idle && sample.key !in s.live && |s.live| >= CAPACITY
    ensures var s3 := Next(style, Next(style, AtBegin(s, i, sample), Insert(i)), Relookup(i));
      var s' := After(style, s3, Adds(i, |sample.bumps|));
      s'.cpus == s.cpus && View(s') == View(s)
  {
    var s3 := Next(style, Next(style, AtBegin(s, i, sample), Insert(i)), Relookup(i));
    assert s3.cpus == s.cpus;
    AddsWhenIdle(style, s3, i, |sample.bumps|);
    assert s3.live == s.live && s3.cells == s.cells;
  }

  lemma SoloSeeds(s: State, i: nat, sample: Sample)
    requires WellFormed(s) && i < |s.cpus| && s.cpus[i] == Idle
    requires sample.key !in s.live && |s.live| < CAPACITY
    ensures var s3 := Next(SeedWithSample, Next(SeedWithSample, AtBegin(s, i, sample), Insert(i)), Relookup(i));
      var s' := After(SeedWithSample, s3, Adds(i, |sample.bumps|));
      s'.cpus == s.cpus && View(s') == View(s)[sample.key := BumpedAll(ZERO, sample.bumps)]
  {
    var s1 := AtBegin(s, i, sample);
    var s2 := Next(SeedWithSample, s1, Insert(i));
    assert s2.cpus == s.cpus;
    AddsWhenIdle(SeedWithSample, s2, i, |sample.bumps|);
    ViewInsert(s, sample.key, BumpedAll(ZERO, sample.bumps), s.cpus, s1.begun);
  }

  lemma SoloCreates(s: State, i: nat, sample: Sample)
    requires WellFormed(s) && i < |s.cpus| && s.cpus[i] == Idle
    requires sample.key !in s.live && |s.live| < CAPACITY
    ensures var s3 := Next(SeedWithZero, Next(SeedWithZero, AtBegin(s, i, sample), Insert(i)), Relookup(i));
      var s' := After(SeedWithZero, s3, Adds(i, |sample.bumps|));
      s'.cpus == s.cpus && View(s') == View(s)[sample.key := BumpedAll(ZERO, sample.bumps)]
  {
    var s1 := AtBegin(s, i, sample);
    var s3 := Next(SeedWithZero, Next(SeedWithZero, s1, Insert(i)), Relookup(i));
    var key, c := sample.key, |s.cells|;
    assert s3.cells == s.cells + [Cell(key, ZERO)];
    assert s3.cpus[i] == Adding(key, sample.bumps, c);
    SoloAdds(SeedWithZero, s3, i, key, sample.bumps, c);
    var values := BumpedAll(ZERO, sample.bumps);
    ViewInsert(s, key, values, s.cpus, s1.begun);
    assert Filled(s3, i, c, sample.bumps).cells == s.cells + [Cell(key, values)];
    assert s3.cpus[i := Idle] == s.cpus;
  }

  lemma SoloUnfolds(style: Style, s: State, i: nat, sample: Sample)
    requires i < |s.cpus| && s.cpus[i] == Idle
    ensures After(style, s, Solo(i, sample)) ==
            After(style, Next(style, Next(style, AtBegin(s, i, sample), Insert(i)), Relookup(i)),
                  Adds(i, |sample.bumps|))
  {
    var adds := Adds(i, |sample.bumps|);
    var tail2 := [Relookup(i)] + adds;
    var tail1 := [Insert(i)] + tail2;
    AfterCons(style, s, Begin(i, sample), tail1);
    AfterCons(style, AtBegin(s, i, sample), Insert(i), tail2);
    AfterCons(style, Next(style, AtBegin(s, i, sample), Insert(i)), Relookup(i), adds);
    assert Solo(i, sample) == [Begin(i, sample)] + tail1;
  }

  // ---------- the race is real ----------

  /** Two CPUs that miss together: the second insert replaces the first, and a sample is lost. */
  lemma RaceLosesSample(k: U64)
    ensures var sample := Sample(k, [Bump(0, 1)]);
      var s := After(SeedWithSample, Boot(2), [Begin(0, sample), Begin(1, sample), Insert(0), Insert(1)]);
      Passed(s, k, 0) == 2 && Reading(s, k, 0) == 1 && Created(s, k) == 2 && s.rejected == []
  {
    var sample := Sample(k, [Bump(0, 1)]);
    var s := After(SeedWithSample, Boot(2), [Begin(0, sample), Begin(1, sample), Insert(0), Insert(1)]);
    RaceRuns(k);
    assert Owing(s.cpus, k, 0) == [0] + [0];
    TotalConcat([0], [0]);
    assert Copies(s.cells, k) == [1] + [1];
    TotalConcat([1], [1]);
    assert s.begun == [sample] + [sample];
    ChargedSnoc([sample], sample, k, 0);
    assert Charged([sample], k, 0) == 1;
    BumpedAllReads(ZERO, sample.bumps, 0);
  }

  lemma RaceRuns(k: U64)
    ensures var sample := Sample(k, [Bump(0, 1)]);
      var cell := Cell(k, BumpedAll(ZERO, sample.bumps));
      After(SeedWithSample, Boot(2), [Begin(0, sample), Begin(1, sample), Insert(0), Insert(1)]) ==
      State(map[k := 1], [cell, cell], [Idle, Idle], [sample, sample], [])
  {
    var sample := Sample(k, [Bump(0, 1)]);
    var style, s0 := SeedWithSample, Boot(2);
    var s1 := Next(style, s0, Begin(0, sample));
    var s2 := Next(style, s1, Begin(1, sample));
    var s3 := Next(style, s2, Insert(0));
    AfterCons(style, s0, Begin(0, sample), [Begin(1, sample), Insert(0), Insert(1)]);
    AfterCons(style, s1, Begin(1, sample), [Insert(0), Insert(1)]);
    AfterCons(style, s2, Insert(0), [Insert(1)]);
    AfterCons(style, s3, Insert(1), []);
    var es := [Begin(0, sample), Begin(1, sample), Insert(0), Insert(1)];
    assert es == [Begin(0, sample)] + [Begin(1, sample), Insert(0), Insert(1)];
    assert es[1..] == [Begin(1, sample)] + [Insert(0), Insert(1)];
    assert [Insert(0), Insert(1)] == [Insert(0)] + [Insert(1)];
    assert [Insert(1)] == [Insert(1)] + [];
  }

  /** With zeros inserted instead, an addition already made is stranded in the element the second
      insert replaces. */
  lemma RaceStrandsAddition(k: U64)
    ensures var sample := Sample(k, [Bump(0, 1)]);
      var s := After(SeedWithZero, Boot(2),
                     [Begin(0, sample), Begin(1, sample), Insert(0), Relookup(0), Add(0), Insert(1)]);
      && s.live == map[k := 1] && s.rejected == []
      && s.cells == [Cell(k, BumpedAll(ZERO, [Bump(0, 1)])), Cell(k, ZERO)]
      && Reading(s, k, 0) == 0 && Held(s.cells[0], k, 0) == 1
  {
    var sample := Sample(k, [Bump(0, 1)]);
    ThreeEvents(SeedWithZero, Boot(2), Begin(0, sample), Begin(1, sample), Insert(0));
    OneInserted(k);
    ThreeEvents(SeedWithZero, Inserted(k), Relookup(0), Add(0), Insert(1));
    OneReplaced(k);
    AfterConcat(SeedWithZero, Boot(2),
                [Begin(0, sample), Begin(1, sample), Insert(0)], [Relookup(0), Add(0), Insert(1)]);
    assert [Begin(0, sample), Begin(1, sample), Insert(0)] + [Relookup(0), Add(0), Insert(1)] ==
           [Begin(0, sample), Begin(1, sample), Insert(0), Relookup(0), Add(0), Insert(1)];
    BumpedAllReads(ZERO, [Bump(0, 1)], 0);
  }

  /** Both CPUs have missed, and the first has inserted its element. */
  function Inserted(k: U64): State {
    var sample := Sample(k, [Bump(0, 1)]);
    State(map[k := 0], [Cell(k, ZERO)], [Retry(k, sample.bumps), Missed(k, sample.bumps)], [sample, sample], [])
  }

  lemma OneInserted(k: U64)
    ensures var sample := Sample(k, [Bump(0, 1)]);
      Next(SeedWithZero, Next(SeedWithZero, Next(SeedWithZero, Boot(2), Begin(0, sample)), Begin(1, sample)), Insert(0))
      == Inserted(k)
  {
    var sample := Sample(k, [Bump(0, 1)]);
    var s1 := Next(SeedWithZero, Boot(2), Begin(0, sample));
    assert s1 == State(map[], [], [Missed(k, sample.bumps), Idle], [sample], []);
    var s2 := Next(SeedWithZero, s1, Begin(1, sample));
    assert s2.cpus == [Missed(k, sample.bumps), Missed(k, sample.bumps)] && s2.begun == [sample, sample];
  }

  lemma OneReplaced(k: U64)
    ensures var s4 := Next(SeedWithZero, Inserted(k), Relookup(0));
      var s := Next(SeedWithZero, Next(SeedWithZero, s4, Add(0)), Insert(1));
      && s.live == map[k := 1] && s.rejected == []
      && s.cells == [Cell(k, BumpedAll(ZERO, [Bump(0, 1)])), Cell(k, ZERO)]
  {
    var bumps := [Bump(0, 1)];
    var s4 := Next(SeedWithZero, Inserted(k), Relookup(0));
    assert s4.cpus == [Adding(k, bumps, 0), Missed(k, bumps)];
    var s5 := Next(SeedWithZero, s4, Add(0));
    BumpCons(ZERO, bumps[0], []);
    assert bumps == [bumps[0]] + [];
    assert s5.cells == [Cell(k, BumpedAll(ZERO, bumps))] && s5.cpus[1] == Missed(k, bumps);
  }

  lemma ThreeEvents(style: Style, s: State, a: Event, b: Event, c: Event)
    ensures After(style, s, [a, b, c]) == Next(style, Next(style, Next(style, s, a), b), c)
  {
    AfterCons(style, s, a, [b, c]);
    AfterCons(style, Next(style, s, a), b, [c]);
    AfterCons(style, Next(style, Next(style, s, a), b), c, []);
    assert [a, b, c] == [a] + [b, c] && [b, c] == [b] + [c] && [c] == [c] + [];
  }
}
