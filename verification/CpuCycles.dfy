/** bpf/cpu_cycles.c: one sample per perf event, charged to the cgroup that was running. */
module CpuCycles {
  import opened Counters
  import opened RacyCounters
  import opened Sums
  import opened Words

  const CYCLES: Field := 0
  const TASK_CLOCK_NS: Field := 2

  datatype CpuStats = CpuStats(cycles: U64, instructions: U64, taskClockNs: U64)

  function Row(t: CpuStats): Values {
    [t.cycles, t.instructions, t.taskClockNs, 0, 0, 0]
  }

  /** The two additions, seen as fields of the struct. */
  lemma RowSampled(t: CpuStats, period: U64)
    ensures BumpedAll(Row(t), [Bump(CYCLES, 1), Bump(TASK_CLOCK_NS, period)]) ==
            Row(t.(cycles := Add64(t.cycles, 1), taskClockNs := Add64(t.taskClockNs, period)))
  {
    BumpTwo(Row(t), Bump(CYCLES, 1), Bump(TASK_CLOCK_NS, period));
  }

  function Rows(m: map<U64, CpuStats>): map<U64, Values> {
    RowsOf(m, Row)
  }

  class CpuProgram {
    var cpuCyclesMap: map<U64, CpuStats>

    ghost function View(): map<U64, Values>
      reads this
    {
      Rows(cpuCyclesMap)
    }

    constructor ()
      ensures View() == map[]
    {
      cpuCyclesMap := map[];
    }

    /** The perf-event handler when nothing interferes with it. */
    method MeasureCpuCycles(cgroup: U64, samplePeriod: U64)
      modifies this
      ensures View() == Handle(old(View()), Sample(cgroup, [Bump(CYCLES, 1), Bump(TASK_CLOCK_NS, samplePeriod)]))
      ensures cgroup in cpuCyclesMap <==> cgroup in old(cpuCyclesMap) || |old(cpuCyclesMap)| < 10240
      ensures cgroup in cpuCyclesMap ==>
                var t, was := cpuCyclesMap[cgroup],
                    if cgroup in old(cpuCyclesMap) then old(cpuCyclesMap)[cgroup] else CpuStats(0, 0, 0);
                && t.cycles == (was.cycles + 1) % TWO64 && t.instructions == was.instructions
                && t.taskClockNs == (was.taskClockNs + samplePeriod) % TWO64
      ensures cpuCyclesMap - {cgroup} == old(cpuCyclesMap) - {cgroup}
    {
      ghost var t := if cgroup in cpuCyclesMap then cpuCyclesMap[cgroup] else CpuStats(0, 0, 0);
      ghost var t' := t.(cycles := Add64(t.cycles, 1), taskClockNs := Add64(t.taskClockNs, samplePeriod));
      RowsWrite(cpuCyclesMap, Row, cgroup, t');
      RowSampled(t, samplePeriod);
      if cgroup in cpuCyclesMap {
        var stats := cpuCyclesMap[cgroup];
        stats := stats.(cycles := Add64(stats.cycles, 1));
        stats := stats.(taskClockNs := Add64(stats.taskClockNs, samplePeriod));
        cpuCyclesMap := cpuCyclesMap[cgroup := stats];
      } else if |cpuCyclesMap| < CAPACITY {
        assert Row(t) == ZERO;
        cpuCyclesMap := cpuCyclesMap[cgroup := CpuStats(1, 0, samplePeriod)];
      }
    }
  }

  // ---------- what a race costs ----------

  ghost predicate Sampling(es: seq<Event>, k: U64) {
    forall i :: 0 <= i < |es| && es[i].Begin? && es[i].sample.key == k ==>
      exists period: U64 :: es[i].sample.bumps == [Bump(CYCLES, 1), Bump(TASK_CLOCK_NS, period)]
  }

  /** Every element of the cgroup holds at least the sample it was created with. */
  ghost predicate Seeded(s: State, k: U64) {
    && (forall i :: 0 <= i < |s.cpus| && s.cpus[i].Missed? && s.cpus[i].key == k ==>
          Amount(s.cpus[i].todo, CYCLES) >= 1)
    && (forall c :: 0 <= c < |s.cells| && s.cells[c].key == k ==> s.cells[c].values[CYCLES] >= 1)
  }

  lemma InsertSeeded(s: State, i: nat, k: U64)
    requires i < |s.cpus| && s.cpus[i].Missed? && Balanced(s, k, CYCLES) && Seeded(s, k)
    requires Charged(s.begun, k, CYCLES) < TWO64
    ensures Seeded(AtInsert(SeedWithSample, s, i), k)
  {
    if s.cpus[i].key == k {
      Parts(s, k, CYCLES);
      assert Amount(s.cpus[i].todo, CYCLES) == Owed(s.cpus[i], k, CYCLES);
      BumpedAllReads(ZERO, s.cpus[i].todo, CYCLES);
    }
  }

  lemma AddSeeded(s: State, i: nat, k: U64)
    requires i < |s.cpus| && s.cpus[i].Adding? && PointsWell(s, s.cpus[i])
    requires Balanced(s, k, CYCLES) && Seeded(s, k) && Charged(s.begun, k, CYCLES) < TWO64
    ensures Seeded(AtAdd(s, i), k)
  {
    var cpu := s.cpus[i];
    if cpu.key == k && cpu.todo != [] {
      TwoParts(s, i, cpu.cell, k, CYCLES);
      assert s.cells[cpu.cell].values[CYCLES] + (if cpu.todo[0].field == CYCLES then cpu.todo[0].amount else 0) < TWO64;
    }
  }

  lemma NextSeeded(s: State, e: Event, k: U64)
    requires WellFormed(s) && Balanced(s, k, CYCLES) && Seeded(s, k)
    requires Charged(s.begun, k, CYCLES) < TWO64
    requires e.Begin? && e.sample.key == k ==> Amount(e.sample.bumps, CYCLES) >= 1
    ensures Seeded(Next(SeedWithSample, s, e), k)
  {
    if Enabled(s, e) {
      match e
      case Begin(_, _) =>
      case Relookup(_) =>
      case Insert(i) => InsertSeeded(s, i, k);
      case Add(i) => AddSeeded(s, i, k);
    }
  }

  lemma {:induction false} RunSeeded(s: State, es: seq<Event>, k: U64)
    requires WellFormed(s) && Balanced(s, k, CYCLES) && Seeded(s, k) && Sampling(es, k)
    requires Charged(After(SeedWithSample, s, es).begun, k, CYCLES) < TWO64
    ensures Seeded(After(SeedWithSample, s, es), k)
    decreases |es|
  {
    if es != [] {
      var s' := Next(SeedWithSample, s, es[0]);
      BegunGrows(SeedWithSample, s, es, k, CYCLES);
      NextWellFormed(SeedWithSample, s, es[0]);
      NextBalanced(SeedWithSample, s, es[0], k, CYCLES);
      if es[0].Begin? && es[0].sample.key == k {
        var period: U64 :| es[0].sample.bumps == [Bump(CYCLES, 1), Bump(TASK_CLOCK_NS, period)];
        assert Amount(es[0].sample.bumps, CYCLES) >= 1;
      }
      NextSeeded(s, es[0], k);
      RunSeeded(s', es[1..], k);
    }
  }

  lemma {:induction false} HeldCoversCopies(cells: seq<Cell>, k: U64)
    requires forall c :: 0 <= c < |cells| && cells[c].key == k ==> cells[c].values[CYCLES] >= 1
    ensures Total(Copies(cells, k)) <= Total(Holding(cells, k, CYCLES))
    ensures forall c :: 0 <= c < |cells| && cells[c].key == k ==>
              Total(Copies(cells, k)) - 1 + cells[c].values[CYCLES] <= Total(Holding(cells, k, CYCLES))
  {
    if cells != [] {
      HeldCoversCopies(cells[1..], k);
      assert Copies(cells, k)[1..] == Copies(cells[1..], k);
      assert Holding(cells, k, CYCLES)[1..] == Holding(cells[1..], k, CYCLES);
      forall c | 0 <= c < |cells| && cells[c].key == k
        ensures Total(Copies(cells, k)) - 1 + cells[c].values[CYCLES] <= Total(Holding(cells, k, CYCLES))
      {
        if c > 0 {
          assert cells[c] == cells[1..][c - 1];
        }
      }
    }
  }

  /** Under every interleaving the cycle count user space reads is short by at least one for every
      time the cgroup's element was replaced, so it is exact precisely when the element never was
      and no sample was rejected. */
  lemma CyclesExactIff(n: nat, es: seq<Event>, k: U64)
    requires Sampling(es, k)
    requires Charged(After(SeedWithSample, Boot(n), es).begun, k, CYCLES) < TWO64
    ensures var s := After(SeedWithSample, Boot(n), es);
      && Reading(s, k, CYCLES) + (if k in s.live then Created(s, k) - 1 else 0)
         + Charged(s.rejected, k, CYCLES) <= Passed(s, k, CYCLES)
      && (Reading(s, k, CYCLES) == Passed(s, k, CYCLES) <==>
            Created(s, k) <= 1 && Charged(s.rejected, k, CYCLES) == 0)
  {
    var s := After(SeedWithSample, Boot(n), es);
    AllIdle(n, k, CYCLES);
    RunKeeps(SeedWithSample, Boot(n), es, k, CYCLES);
    RunSeeded(Boot(n), es, k);
    Conservation(SeedWithSample, n, es, k, CYCLES);
    HeldCoversCopies(s.cells, k);
    RunFewCopies(SeedWithSample, Boot(n), es, k);
    if k !in s.live {
      NoneHeld(s.cells, k);
    } else {
      CopiesBound(s.cells, k, s.live[k]);
      if Created(s, k) == 1 {
        OneHeld(s.cells, k, s.live[k]);
      }
    }
  }

  lemma CopiesBound(cells: seq<Cell>, k: U64, c: nat)
    requires c < |cells| && cells[c].key == k
    ensures Total(Copies(cells, k)) >= 1
  {
    TotalBound(Copies(cells, k));
    assert Copies(cells, k)[c] == 1;
  }

  lemma {:induction false} NoneHeld(cells: seq<Cell>, k: U64)
    requires Total(Copies(cells, k)) == 0
    ensures Total(Holding(cells, k, CYCLES)) == 0
  {
    if cells != [] {
      TotalBound(Copies(cells[1..], k));
      assert Copies(cells, k)[1..] == Copies(cells[1..], k);
      assert Holding(cells, k, CYCLES)[1..] == Holding(cells[1..], k, CYCLES);
      NoneHeld(cells[1..], k);
    }
  }

  lemma {:induction false} OneHeld(cells: seq<Cell>, k: U64, c: nat)
    requires c < |cells| && cells[c].key == k && Total(Copies(cells, k)) == 1
    ensures Total(Holding(cells, k, CYCLES)) == cells[c].values[CYCLES]
  {
    TotalBound(Copies(cells[1..], k));
    assert Copies(cells, k)[1..] == Copies(cells[1..], k);
    assert Holding(cells, k, CYCLES)[1..] == Holding(cells[1..], k, CYCLES);
    if c == 0 {
      NoneHeld(cells[1..], k);
    } else {
      CopiesBound(cells[1..], k, c - 1);
      OneHeld(cells[1..], k, c - 1);
    }
  }
}
