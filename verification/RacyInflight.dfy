/** The in-flight table of bpf/disk_io.c when completions on several CPUs overlap.

    trace_rq_complete looks a request up and deletes its sector in two separate steps.  Between them
    another CPU may look the same sector up, delete it, or see another request stored there. */
module RacyInflight {
  import opened Counters
  import opened Sums
  import opened Words
  import DiskIo
  import RacyCounters

  datatype Entry = Entry(sector: U64, request: DiskIo.IoRequest)

  /** A CPU between the lookup and the delete of trace_rq_complete holds what it found. */
  datatype Cpu = Idle | Matched(entry: Entry)

  /** Beside the table and the CPUs: the entries stored, those overwritten (by count), those taken over
      into the counters, the deletes that removed something and those that found the sector gone. */
  datatype State = State(
    inflight: map<U64, DiskIo.IoRequest>, cpus: seq<Cpu>,
    stored: seq<Entry>, overwritten: nat, taken: seq<Entry>, removed: nat, missed: nat)

  datatype Event =
    | Issue(entry: Entry)
    | Lookup(cpu: nat, sector: U64)
    | Delete(cpu: nat)

  function AtIssue(s: State, x: Entry): State {
    if x.sector in s.inflight then
      s.(inflight := s.inflight[x.sector := x.request], stored := s.stored + [x], overwritten := s.overwritten + 1)
    else if |s.inflight| < DiskIo.INFLIGHT_CAPACITY then
      s.(inflight := s.inflight[x.sector := x.request], stored := s.stored + [x])
    else s
  }

  function AtLookup(s: State, i: nat, sector: U64): State
    requires i < |s.cpus|
  {
    if sector in s.inflight then s.(cpus := s.cpus[i := Matched(Entry(sector, s.inflight[sector]))]) else s
  }

  function AtDelete(s: State, i: nat): State
    requires i < |s.cpus| && s.cpus[i].Matched?
  {
    var x := s.cpus[i].entry;
    var s' := s.(inflight := s.inflight - {x.sector}, cpus := s.cpus[i := Idle], taken := s.taken + [x]);
    if x.sector in s.inflight then s'.(removed := s.removed + 1) else s'.(missed := s.missed + 1)
  }

  /** One step.  A step the CPU cannot take leaves the state alone. */
  function Next(s: State, e: Event): State {
    match e
    case Issue(x) => AtIssue(s, x)
    case Lookup(i, sector) => if i < |s.cpus| && s.cpus[i].Idle? then AtLookup(s, i, sector) else s
    case Delete(i) => if i < |s.cpus| && s.cpus[i].Matched? then AtDelete(s, i) else s
  }

  function After(s: State, es: seq<Event>): State {
    if es == [] then s else Next(After(s, es[..|es| - 1]), es[|es| - 1])
  }

  lemma SameCpus(s: State, e: Event)
    ensures |Next(s, e).cpus| == |s.cpus|
  {
  }

  function Boot(cpus: nat): State {
    State(map[], seq(cpus, _ => Idle), [], 0, [], 0, 0)
  }

  // ---------- a handler no other CPU interferes with ----------

  /** An issue does to the table what the atomic handler does, and is recorded as what became of it. */
  lemma IssueIsAtomic(s: State, disk: map<U64, Values>, e: DiskIo.Event)
    requires e.Issue?
    ensures var x, t := Entry(e.sector, DiskIo.RequestOf(e)), DiskIo.Tables(s.inflight, disk);
      var s', o := Next(s, Issue(x)), DiskIo.OutcomeOf(t, e);
      && DiskIo.Tables(s'.inflight, disk) == DiskIo.Step(t, e)
      && s' == s.(inflight := s'.inflight, stored := s.stored + (if o == DiskIo.TableFull then [] else [x]),
                  overwritten := s.overwritten + if o == DiskIo.Overwrote then 1 else 0)
  {
    assert s.stored + [] == s.stored;
  }

  /** The lookup and the delete of a completion, run without interference, do to the table what the atomic
      handler does, and take over the very request it charges. */
  lemma CompletionIsAtomic(s: State, i: nat, disk: map<U64, Values>, sector: U64, now: U64)
    requires i < |s.cpus| && s.cpus[i].Idle?
    ensures var s', found := Next(Next(s, Lookup(i, sector)), Delete(i)), sector in s.inflight;
      && s'.inflight == DiskIo.Step(DiskIo.Tables(s.inflight, disk), DiskIo.Complete(sector, now)).inflight
      && s' == s.(inflight := s'.inflight, removed := s.removed + (if found then 1 else 0),
                  taken := s.taken + if found then [Entry(sector, s.inflight[sector])] else [])
  {
    if sector in s.inflight {
      assert s.cpus[i := Matched(Entry(sector, s.inflight[sector]))][i := Idle] == s.cpus;
    }
  }

  /** A second issue on a sector replaces the first, and it is the second that completes. */
  lemma SecondIssueStands(x: Entry, y: Entry)
    requires x.sector == y.sector
    ensures var s := After(Boot(1), [Issue(x), Issue(y), Lookup(0, x.sector), Delete(0)]);
      s.stored == [x, y] && s.overwritten == 1 && s.taken == [y] && s.inflight == map[] && s.missed == 0
  {
    ThreeSteps(Boot(1), Issue(x), Issue(y), Lookup(0, x.sector));
    AfterSnoc(Boot(1), [Issue(x), Issue(y), Lookup(0, x.sector)], Delete(0));
    assert [Issue(x), Issue(y), Lookup(0, x.sector), Delete(0)] ==
           [Issue(x), Issue(y), Lookup(0, x.sector)] + [Delete(0)];
    var s2 := Next(Next(Boot(1), Issue(x)), Issue(y));
    assert s2 == State(map[y.sector := y.request], [Idle], [x, y], 1, [], 0, 0);
  }

  // ---------- the ledger ----------

  ghost predicate Ledger(s: State) {
    && |s.stored| == |s.inflight| + s.overwritten + s.removed
    && |s.taken| == s.removed + s.missed
    && |s.inflight| <= DiskIo.INFLIGHT_CAPACITY
  }

  lemma DeleteKeepsLedger(s: State, i: nat)
    requires i < |s.cpus| && s.cpus[i].Matched? && Ledger(s)
    ensures Ledger(AtDelete(s, i))
  {
  }

  lemma NextKeepsLedger(s: State, e: Event)
    requires Ledger(s)
    ensures Ledger(Next(s, e)) && |Next(s, e).cpus| == |s.cpus|
  {
    if e.Delete? && e.cpu < |s.cpus| && s.cpus[e.cpu].Matched? {
      DeleteKeepsLedger(s, e.cpu);
    }
  }

  /** Whatever the interleaving, every stored entry is in flight, was overwritten, or was removed, and
      every completion passed on to the counters removed an entry or found its sector gone. */
  lemma {:induction false} OverlappedLedger(n: nat, es: seq<Event>)
    ensures var s := After(Boot(n), es);
      && |s.stored| == |s.inflight| + s.overwritten + s.removed
      && |s.taken| == s.removed + s.missed
      && |s.inflight| <= DiskIo.INFLIGHT_CAPACITY && |s.cpus| == n
    decreases |es|
  {
    if es != [] {
      OverlappedLedger(n, es[..|es| - 1]);
      NextKeepsLedger(After(Boot(n), es[..|es| - 1]), es[|es| - 1]);
    }
  }

  // ---------- how often one request can be charged ----------

  function Holding(cpus: seq<Cpu>, x: Entry): seq<int> {
    seq(|cpus|, i requires 0 <= i < |cpus| => if cpus[i] == Matched(x) then 1 else 0)
  }

  function Holders(s: State, x: Entry): int {
    Total(Holding(s.cpus, x))
  }

  lemma HoldersBound(s: State, x: Entry)
    ensures 0 <= Holders(s, x) <= |s.cpus|
  {
    TotalBound(Holding(s.cpus, x));
    RacyCounters.AtMostOneEach(Holding(s.cpus, x));
  }

  lemma HoldersUpdate(s: State, i: nat, cpu: Cpu, x: Entry)
    requires i < |s.cpus|
    ensures Total(Holding(s.cpus[i := cpu], x)) ==
            Holders(s, x) - (if s.cpus[i] == Matched(x) then 1 else 0) + (if cpu == Matched(x) then 1 else 0)
  {
    var now := if cpu == Matched(x) then 1 else 0;
    assert Holding(s.cpus[i := cpu], x) == Holding(s.cpus, x)[i := now];
    TotalUpdate(Holding(s.cpus, x), i, now);
  }

  predicate Present(s: State, x: Entry) {
    x.sector in s.inflight && s.inflight[x.sector] == x.request
  }

  /** While an entry is in the table no CPU has yet taken it over since it was stored; once it is out,
      those that took it and those that still hold it are at most one per CPU and per storing. */
  ghost predicate Sparse(s: State, x: Entry) {
    var n, taken, stored := |s.cpus|, multiset(s.taken)[x], multiset(s.stored)[x];
    if Present(s, x) then stored > 0 && taken <= n * (stored - 1) else taken + Holders(s, x) <= n * stored
  }

  lemma IssueSparse(s: State, y: Entry, x: Entry)
    requires Sparse(s, x)
    ensures Sparse(AtIssue(s, y), x)
  {
    HoldersBound(s, x);
    var n, stored := |s.cpus|, multiset(s.stored)[x];
    assert n * (stored + 1 - 1) == n * (stored - 1) + n == n * stored;
    assert multiset(s.stored + [y])[x] == stored + if y == x then 1 else 0;
  }

  lemma LookupSparse(s: State, i: nat, sector: U64, x: Entry)
    requires i < |s.cpus| && s.cpus[i].Idle? && Sparse(s, x)
    ensures Sparse(AtLookup(s, i, sector), x)
  {
    if sector in s.inflight {
      HoldersUpdate(s, i, Matched(Entry(sector, s.inflight[sector])), x);
    }
  }

  lemma DeleteSparse(s: State, i: nat, x: Entry)
    requires i < |s.cpus| && s.cpus[i].Matched? && Sparse(s, x)
    ensures Sparse(AtDelete(s, i), x)
  {
    var y := s.cpus[i].entry;
    HoldersBound(s, x);
    HoldersUpdate(s, i, Idle, x);
    var n, stored := |s.cpus|, multiset(s.stored)[x];
    assert n * stored == n * (stored - 1) + n;
    assert multiset(s.taken + [y])[x] == multiset(s.taken)[x] + if y == x then 1 else 0;
  }

  lemma {:induction false} BootHolds(n: nat, x: Entry)
    ensures Holders(Boot(n), x) == 0
  {
    if n > 0 {
      BootHolds(n - 1, x);
      assert Holding(Boot(n).cpus, x)[1..] == Holding(Boot(n - 1).cpus, x);
    }
  }

  lemma NextSparse(s: State, e: Event, x: Entry)
    requires Sparse(s, x)
    ensures Sparse(Next(s, e), x)
  {
    match e
    case Issue(y) => IssueSparse(s, y, x);
    case Lookup(i, sector) => if i < |s.cpus| && s.cpus[i].Idle? { LookupSparse(s, i, sector, x); }
    case Delete(i) => if i < |s.cpus| && s.cpus[i].Matched? { DeleteSparse(s, i, x); }
  }

  lemma {:induction false} RunSparse(n: nat, es: seq<Event>, x: Entry)
    ensures |After(Boot(n), es).cpus| == n && Sparse(After(Boot(n), es), x)
    decreases |es|
  {
    if es == [] {
      BootHolds(n, x);
    } else {
      RunSparse(n, es[..|es| - 1], x);
      NextSparse(After(Boot(n), es[..|es| - 1]), es[|es| - 1], x);
      SameCpus(After(Boot(n), es[..|es| - 1]), es[|es| - 1]);
    }
  }

  lemma SparseBound(s: State, x: Entry)
    requires Sparse(s, x)
    ensures multiset(s.taken)[x] <= |s.cpus| * multiset(s.stored)[x]
  {
    HoldersBound(s, x);
    var n, stored := |s.cpus|, multiset(s.stored)[x];
    assert n * stored == n * (stored - 1) + n;
  }

  /** With n CPUs a request is charged at most n times for each time it was stored, and never unless
      it was. */
  lemma ChargedOncePerCpu(n: nat, es: seq<Event>, x: Entry)
    ensures var s := After(Boot(n), es);
      multiset(s.taken)[x] <= n * multiset(s.stored)[x]
  {
    RunSparse(n, es, x);
    SparseBound(After(Boot(n), es), x);
  }

  // ---------- how many deletes can come too late ----------

  /** CPUs whose delete will find nothing unless the sector is stored again. */
  function Doomed(inflight: map<U64, DiskIo.IoRequest>, cpus: seq<Cpu>): seq<int> {
    seq(|cpus|, i requires 0 <= i < |cpus| =>
      if cpus[i].Matched? && cpus[i].entry.sector !in inflight then 1 else 0)
  }

  lemma {:induction false} TotalOrder(xs: seq<int>, ys: seq<int>, d: nat)
    requires |xs| == |ys| && forall i :: 0 <= i < |xs| ==> ys[i] <= xs[i] + d
    ensures Total(ys) <= Total(xs) + d * |xs|
  {
    if xs != [] {
      TotalOrder(xs[1..], ys[1..], d);
      assert d * |xs| == d * |xs[1..]| + d;
    }
  }

  lemma DoomedByDelete(s: State, i: nat)
    requires i < |s.cpus| && s.cpus[i].Matched?
    ensures var s', x := AtDelete(s, i), s.cpus[i].entry;
      Total(Doomed(s'.inflight, s'.cpus)) <=
      Total(Doomed(s.inflight, s.cpus)) + if x.sector in s.inflight then |s.cpus| - 1 else -1
  {
    var s', x := AtDelete(s, i), s.cpus[i].entry;
    var before, after := Doomed(s.inflight, s.cpus), Doomed(s'.inflight, s'.cpus);
    if x.sector in s.inflight {
      TotalUpdate(after, i, 1);
      TotalOrder(before, after[i := 1], 1);
    } else {
      assert s'.inflight == s.inflight;
      TotalUpdate(before, i, 0);
      assert after == before[i := 0];
    }
  }

  lemma DoomedByOthers(s: State, e: Event)
    requires !e.Delete?
    ensures Total(Doomed(Next(s, e).inflight, Next(s, e).cpus)) <= Total(Doomed(s.inflight, s.cpus))
  {
    TotalOrder(Doomed(s.inflight, s.cpus), Doomed(Next(s, e).inflight, Next(s, e).cpus), 0);
  }

  /** Deletes that came too late, and those bound to, are at most one per removal and other CPU. */
  ghost predicate FewLate(s: State) {
    s.missed + Total(Doomed(s.inflight, s.cpus)) <= (|s.cpus| - 1) * s.removed
  }

  lemma NextFewLate(s: State, e: Event)
    requires FewLate(s)
    ensures FewLate(Next(s, e))
  {
    SameCpus(s, e);
    if !e.Delete? {
      DoomedByOthers(s, e);
    } else if e.cpu < |s.cpus| && s.cpus[e.cpu].Matched? {
      DoomedByDelete(s, e.cpu);
      assert (|s.cpus| - 1) * (s.removed + 1) == (|s.cpus| - 1) * s.removed + (|s.cpus| - 1);
    }
  }

  lemma {:induction false} RunFewLate(n: nat, es: seq<Event>)
    ensures |After(Boot(n), es).cpus| == n && FewLate(After(Boot(n), es))
    decreases |es|
  {
    if es == [] {
      NoneDoomed(n);
    } else {
      RunFewLate(n, es[..|es| - 1]);
      NextFewLate(After(Boot(n), es[..|es| - 1]), es[|es| - 1]);
      SameCpus(After(Boot(n), es[..|es| - 1]), es[|es| - 1]);
    }
  }

  lemma {:induction false} NoneDoomed(n: nat)
    ensures Total(Doomed(map[], Boot(n).cpus)) == 0
  {
    if n > 0 {
      NoneDoomed(n - 1);
      assert Doomed(map[], Boot(n).cpus)[1..] == Doomed(map[], Boot(n - 1).cpus);
    }
  }

  /** Of n CPUs at most n - 1 come too late for each entry removed: completions charged are at most n
      for each removal, and with one CPU exactly one. */
  lemma LateDeletesBounded(n: nat, es: seq<Event>)
    ensures var s := After(Boot(n), es);
      && s.missed <= (n - 1) * s.removed
      && s.removed <= |s.taken| <= n * s.removed
      && (n == 1 ==> |s.taken| == s.removed)
  {
    RunFewLate(n, es);
    OverlappedLedger(n, es);
    FewLateMeans(After(Boot(n), es), n);
  }

  lemma FewLateMeans(s: State, n: nat)
    requires FewLate(s) && |s.cpus| == n && |s.taken| == s.removed + s.missed
    ensures s.missed <= (n - 1) * s.removed && |s.taken| <= n * s.removed
    ensures n == 1 ==> |s.taken| == s.removed
  {
    TotalBound(Doomed(s.inflight, s.cpus));
    OneShareMore(n, s.removed);
  }

  lemma OneShareMore(n: nat, removed: nat)
    ensures n * removed == (n - 1) * removed + removed
  {
  }

  // ---------- completions that keep out of each other's way ----------

  /** No CPU is between lookup and delete on this sector. */
  ghost predicate Clear(s: State, sector: U64) {
    forall j :: 0 <= j < |s.cpus| && s.cpus[j].Matched? ==> s.cpus[j].entry.sector != sector
  }

  /** A lookup that finds its sector finds no other CPU still at it. */
  ghost predicate Apart(s: State, e: Event) {
    e.Lookup? && e.cpu < |s.cpus| && s.cpus[e.cpu].Idle? && e.sector in s.inflight ==> Clear(s, e.sector)
  }

  ghost predicate Guarded(n: nat, es: seq<Event>) {
    es == [] || (Guarded(n, es[..|es| - 1]) && Apart(After(Boot(n), es[..|es| - 1]), es[|es| - 1]))
  }

  /** Matched sectors are in the table and all different, and no delete has come too late. */
  ghost predicate Exclusive(s: State) {
    && s.missed == 0
    && (forall i :: 0 <= i < |s.cpus| && s.cpus[i].Matched? ==> s.cpus[i].entry.sector in s.inflight)
    && (forall i, j :: 0 <= i < j < |s.cpus| && s.cpus[i].Matched? && s.cpus[j].Matched? ==>
          s.cpus[i].entry.sector != s.cpus[j].entry.sector)
  }

  lemma NextExclusive(s: State, e: Event)
    requires Exclusive(s) && Apart(s, e)
    ensures Exclusive(Next(s, e))
  {
  }

  lemma {:induction false} GuardedExclusive(n: nat, es: seq<Event>)
    requires Guarded(n, es)
    ensures Exclusive(After(Boot(n), es))
    decreases |es|
  {
    if es != [] {
      GuardedExclusive(n, es[..|es| - 1]);
      NextExclusive(After(Boot(n), es[..|es| - 1]), es[|es| - 1]);
    }
  }

  /** Storings of an entry that some completion has used up or still may. */
  function Used(s: State, x: Entry): int {
    multiset(s.taken)[x] + Holders(s, x) + if Present(s, x) && Holders(s, x) == 0 then 1 else 0
  }

  lemma NextUsed(s: State, e: Event, x: Entry)
    requires Apart(s, e) && Used(s, x) <= multiset(s.stored)[x]
    ensures Used(Next(s, e), x) <= multiset(Next(s, e).stored)[x]
  {
    match e
    case Issue(y) => IssueUsed(s, y, x);
    case Lookup(i, sector) => if i < |s.cpus| && s.cpus[i].Idle? { LookupUsed(s, i, sector, x); }
    case Delete(i) => if i < |s.cpus| && s.cpus[i].Matched? { DeleteUsed(s, i, x); }
  }

  lemma IssueUsed(s: State, y: Entry, x: Entry)
    requires Used(s, x) <= multiset(s.stored)[x]
    ensures Used(AtIssue(s, y), x) <= multiset(AtIssue(s, y).stored)[x]
  {
    HoldersBound(s, x);
    assert multiset(s.stored + [y])[x] == multiset(s.stored)[x] + if y == x then 1 else 0;
  }

  lemma LookupUsed(s: State, i: nat, sector: U64, x: Entry)
    requires i < |s.cpus| && s.cpus[i].Idle? && Apart(s, Lookup(i, sector))
    ensures Used(AtLookup(s, i, sector), x) <= Used(s, x)
  {
    if sector in s.inflight {
      HoldersUpdate(s, i, Matched(Entry(sector, s.inflight[sector])), x);
      HoldersBound(s, x);
      if x == Entry(sector, s.inflight[sector]) {
        NoHolders(s.cpus, x);
      }
    }
  }

  lemma {:induction false} NoHolders(cpus: seq<Cpu>, x: Entry)
    requires forall j :: 0 <= j < |cpus| ==> cpus[j] != Matched(x)
    ensures Total(Holding(cpus, x)) == 0
  {
    if cpus != [] {
      NoHolders(cpus[1..], x);
      assert Holding(cpus, x)[1..] == Holding(cpus[1..], x);
    }
  }

  lemma DeleteUsed(s: State, i: nat, x: Entry)
    requires i < |s.cpus| && s.cpus[i].Matched?
    ensures Used(AtDelete(s, i), x) <= Used(s, x)
  {
    var y := s.cpus[i].entry;
    HoldersBound(s, x);
    HoldersBound(AtDelete(s, i), x);
    HoldersUpdate(s, i, Idle, x);
    assert multiset(s.taken + [y])[x] == multiset(s.taken)[x] + if y == x then 1 else 0;
  }

  lemma {:induction false} GuardedUsed(n: nat, es: seq<Event>, x: Entry)
    requires Guarded(n, es)
    ensures Used(After(Boot(n), es), x) <= multiset(After(Boot(n), es).stored)[x]
    decreases |es|
  {
    if es == [] {
      BootHolds(n, x);
    } else {
      GuardedUsed(n, es[..|es| - 1], x);
      NextUsed(After(Boot(n), es[..|es| - 1]), es[|es| - 1], x);
    }
  }

  /** However many CPUs there are: while no sector is looked up before another CPU's delete on it, each
      completion charged removes one entry, and no request is charged more often than it was stored. */
  lemma GuardedIsExact(n: nat, es: seq<Event>, x: Entry)
    requires Guarded(n, es)
    ensures var s := After(Boot(n), es);
      && s.missed == 0 && |s.taken| == s.removed
      && multiset(s.taken)[x] <= multiset(s.stored)[x]
  {
    GuardedExclusive(n, es);
    OverlappedLedger(n, es);
    GuardedUsed(n, es, x);
    HoldersBound(After(Boot(n), es), x);
  }

  /** At no moment of the run could two deletes, coming next, be one too many. */
  ghost predicate NeverLate(n: nat, es: seq<Event>) {
    forall k, i, j :: 0 <= k <= |es| ==> After(Boot(n), es[..k] + [Delete(i), Delete(j)]).missed == 0
  }

  /** The guard is exactly what it takes: a run keeps it if and only if at no moment two deletes could
      follow of which one comes too late. */
  lemma NeverLateIff(n: nat, es: seq<Event>)
    ensures NeverLate(n, es) <==> Guarded(n, es)
  {
    if Guarded(n, es) {
      forall k, i, j | 0 <= k <= |es|
        ensures After(Boot(n), es[..k] + [Delete(i), Delete(j)]).missed == 0
      {
        GuardedPrefix(n, es, k);
        GuardedExclusive(n, es[..k]);
        TwoDeletes(n, es[..k], i, j);
        NextExclusive(After(Boot(n), es[..k]), Delete(i));
        NextExclusive(Next(After(Boot(n), es[..k]), Delete(i)), Delete(j));
      }
    } else {
      var k, i, j := UnguardedIsLate(n, es);
    }
  }

  lemma {:induction false} GuardedPrefix(n: nat, es: seq<Event>, k: nat)
    requires Guarded(n, es) && k <= |es|
    ensures Guarded(n, es[..k])
    decreases |es|
  {
    if k < |es| {
      GuardedPrefix(n, es[..|es| - 1], k);
      assert es[..|es| - 1][..k] == es[..k];
    } else {
      assert es[..k] == es;
    }
  }

  lemma TwoDeletes(n: nat, es: seq<Event>, i: nat, j: nat)
    ensures After(Boot(n), es + [Delete(i), Delete(j)]) == Next(Next(After(Boot(n), es), Delete(i)), Delete(j))
  {
    assert es + [Delete(i), Delete(j)] == es + [Delete(i)] + [Delete(j)];
    AfterSnoc(Boot(n), es, Delete(i));
    AfterSnoc(Boot(n), es + [Delete(i)], Delete(j));
  }

  lemma {:induction false} UnguardedIsLate(n: nat, es: seq<Event>) returns (k: nat, i: nat, j: nat)
    requires !Guarded(n, es)
    ensures k <= |es| && After(Boot(n), es[..k] + [Delete(i), Delete(j)]).missed > 0
    decreases |es|
  {
    var front, last := es[..|es| - 1], es[|es| - 1];
    if !Guarded(n, front) {
      k, i, j := UnguardedIsLate(n, front);
      assert front[..k] == es[..k];
    } else {
      var s := After(Boot(n), front);
      k, i := |es|, last.cpu;
      j :| 0 <= j < |s.cpus| && s.cpus[j].Matched? && s.cpus[j].entry.sector == last.sector;
      assert es[..k] == es == front + [last];
      TwoDeletes(n, es, i, j);
      SecondIsLate(Next(s, last), i, j);
    }
  }

  lemma SecondIsLate(s: State, i: nat, j: nat)
    requires i < |s.cpus| && j < |s.cpus| && i != j && s.cpus[i].Matched? && s.cpus[j].Matched?
    requires s.cpus[i].entry.sector == s.cpus[j].entry.sector
    ensures Next(Next(s, Delete(i)), Delete(j)).missed > 0
  {
  }

  // ---------- which deletes come too late ----------

  /** The event stores an entry on the sector, or deletes the sector. */
  predicate Touches(s: State, e: Event, sector: U64) {
    match e
    case Issue(x) => x.sector == sector && (sector in s.inflight || |s.inflight| < DiskIo.INFLIGHT_CAPACITY)
    case Lookup(_, _) => false
    case Delete(i) => i < |s.cpus| && s.cpus[i].Matched? && s.cpus[i].entry.sector == sector
  }

  function LastTouch(n: nat, es: seq<Event>, sector: U64): (t: int)
    ensures -1 <= t < |es|
  {
    if es == [] then -1
    else if Touches(After(Boot(n), es[..|es| - 1]), es[|es| - 1], sector) then |es| - 1
    else LastTouch(n, es[..|es| - 1], sector)
  }

  /** The event is a lookup by which the CPU comes to hold an entry. */
  predicate Finds(s: State, e: Event, i: nat) {
    e.Lookup? && e.cpu == i && i < |s.cpus| && s.cpus[i].Idle? && e.sector in s.inflight
  }

  function LastFind(n: nat, es: seq<Event>, i: nat): (l: int)
    ensures -1 <= l < |es|
  {
    if es == [] then -1
    else if Finds(After(Boot(n), es[..|es| - 1]), es[|es| - 1], i) then |es| - 1
    else LastFind(n, es[..|es| - 1], i)
  }

  lemma TouchStep(s: State, e: Event, sector: U64)
    ensures Touches(s, e, sector) ==> (sector in Next(s, e).inflight <==> e.Issue?)
    ensures !Touches(s, e, sector) ==> (sector in Next(s, e).inflight <==> sector in s.inflight)
  {
  }

  lemma FindStep(s: State, e: Event, i: nat)
    requires i < |s.cpus| == |Next(s, e).cpus| && Next(s, e).cpus[i].Matched?
    ensures var sector := Next(s, e).cpus[i].entry.sector;
      && (Finds(s, e, i) ==> e == Lookup(i, sector) && sector in Next(s, e).inflight)
      && (!Finds(s, e, i) ==> s.cpus[i] == Next(s, e).cpus[i])
      && (e.Delete? && Touches(s, e, sector) ==> e.cpu != i)
  {
  }

  /** A sector is in the table exactly when it was last touched by a storing. */
  lemma {:induction false} StoredLast(n: nat, es: seq<Event>, sector: U64)
    ensures var t := LastTouch(n, es, sector);
      sector in After(Boot(n), es).inflight <==> t >= 0 && es[t].Issue?
    decreases |es|
  {
    if es != [] {
      StoredLast(n, es[..|es| - 1], sector);
      TouchStep(After(Boot(n), es[..|es| - 1]), es[|es| - 1], sector);
    }
  }

  /** What is known of a CPU that holds an entry of this sector: when it found it, and who has touched
      the sector since. */
  ghost predicate FoundThen(es: seq<Event>, present: bool, i: nat, sector: U64, t: int, l: int) {
    && -1 <= t < |es| && 0 <= l < |es| && es[l] == Lookup(i, sector)
    && (t < l ==> present) && (t > l && es[t].Delete? ==> es[t].cpu != i)
  }

  lemma {:induction false} FoundLast(n: nat, es: seq<Event>, i: nat)
    requires i < |After(Boot(n), es).cpus| && After(Boot(n), es).cpus[i].Matched?
    ensures var s := After(Boot(n), es);
      var sector := s.cpus[i].entry.sector;
      FoundThen(es, sector in s.inflight, i, sector, LastTouch(n, es, sector), LastFind(n, es, i))
    decreases |es|
  {
    if es != [] {
      var front, last := es[..|es| - 1], es[|es| - 1];
      var s, sector := After(Boot(n), front), After(Boot(n), es).cpus[i].entry.sector;
      SameCpus(s, last);
      FindStep(s, last, i);
      TouchStep(s, last, sector);
      if !Finds(s, last, i) {
        FoundLast(n, front, i);
        FoundStill(front, last, sector in s.inflight, i, sector, LastTouch(n, front, sector), LastFind(n, front, i));
      }
    }
  }

  lemma FoundStill(front: seq<Event>, last: Event, present: bool, i: nat, sector: U64, t: int, l: int)
    requires FoundThen(front, present, i, sector, t, l)
    ensures FoundThen(front + [last], present, i, sector, t, l)
    ensures last.Delete? ==> (last.cpu != i ==> FoundThen(front + [last], false, i, sector, |front|, l))
    ensures last.Issue? ==> FoundThen(front + [last], true, i, sector, |front|, l)
  {
  }

  /** A matched completion will come too late exactly when, since its lookup, the sector was deleted by
      another CPU and not stored again after that. */
  lemma LateIff(n: nat, es: seq<Event>, i: nat)
    requires i < |After(Boot(n), es).cpus| && After(Boot(n), es).cpus[i].Matched?
    ensures var s := After(Boot(n), es);
      var sector := s.cpus[i].entry.sector;
      var t, l := LastTouch(n, es, sector), LastFind(n, es, i);
      Next(s, Delete(i)).missed > s.missed <==> t > l >= 0 && es[t].Delete? && es[t].cpu != i
  {
    var s := After(Boot(n), es);
    var sector := s.cpus[i].entry.sector;
    FoundLast(n, es, i);
    StoredLast(n, es, sector);
    NoLookupTouches(n, es, sector);
    MissedIff(s, i);
    GoneIff(es, sector in s.inflight, i, sector, LastTouch(n, es, sector), LastFind(n, es, i));
  }

  lemma MissedIff(s: State, i: nat)
    requires i < |s.cpus| && s.cpus[i].Matched?
    ensures Next(s, Delete(i)).missed > s.missed <==> s.cpus[i].entry.sector !in s.inflight
  {
  }

  lemma GoneIff(es: seq<Event>, present: bool, i: nat, sector: U64, t: int, l: int)
    requires FoundThen(es, present, i, sector, t, l) && (present <==> t >= 0 && es[t].Issue?)
    requires t >= 0 ==> !es[t].Lookup?
    ensures !present <==> t > l >= 0 && es[t].Delete? && es[t].cpu != i
  {
  }

  lemma {:induction false} NoLookupTouches(n: nat, es: seq<Event>, sector: U64)
    ensures LastTouch(n, es, sector) >= 0 ==> !es[LastTouch(n, es, sector)].Lookup?
    decreases |es|
  {
    if es != [] {
      NoLookupTouches(n, es[..|es| - 1], sector);
    }
  }

  /** Balanced counts do not mean that the guard was kept: when the sector is stored again in time for
      the second delete, nothing is missed, yet the first request is charged twice and the second never. */
  lemma BalancedYetWrong(x: Entry, y: Entry)
    requires x.sector == y.sector
    ensures var es := [Issue(x), Lookup(0, x.sector), Lookup(1, x.sector), Delete(0), Issue(y), Delete(1)];
      var s := After(Boot(2), es);
      && s.missed == 0 && |s.taken| == s.removed == 2 && s.stored == [x, y] && s.taken == [x, x] && s.inflight == map[]
      && !Guarded(2, es)
  {
    var es := [Issue(x), Lookup(0, x.sector), Lookup(1, x.sector), Delete(0), Issue(y), Delete(1)];
    FiveSteps(Boot(2), Issue(x), Lookup(0, x.sector), Lookup(1, x.sector), Delete(0), Issue(y));
    AfterSnoc(Boot(2), es[..5], Delete(1));
    assert es == es[..5] + [Delete(1)];
    assert es[..5] == [Issue(x), Lookup(0, x.sector), Lookup(1, x.sector), Delete(0), Issue(y)];
    BothMatch(x);
    StoredAgain(x, y);
    ThreeSteps(Boot(2), Issue(x), Lookup(0, x.sector), Lookup(1, x.sector));
    assert es[..3] == [Issue(x), Lookup(0, x.sector), Lookup(1, x.sector)];
    NotExclusive(x);
    NotGuarded(2, es, 3);
  }

  lemma NotExclusive(x: Entry)
    ensures !Exclusive(Overlapping(x))
  {
    var s := Overlapping(x);
    assert s.cpus[0].entry.sector == s.cpus[1].entry.sector;
  }

  lemma NotGuarded(n: nat, es: seq<Event>, k: nat)
    requires k <= |es| && !Exclusive(After(Boot(n), es[..k]))
    ensures !Guarded(n, es)
  {
    if Guarded(n, es) {
      GuardedPrefix(n, es, k);
      GuardedExclusive(n, es[..k]);
    }
  }

  lemma StoredAgain(x: Entry, y: Entry)
    requires x.sector == y.sector
    ensures Next(Next(Next(Overlapping(x), Delete(0)), Issue(y)), Delete(1)) ==
            State(map[], [Idle, Idle], [x, y], 0, [x, x], 2, 0)
  {
    var s4 := Next(Overlapping(x), Delete(0));
    assert s4 == State(map[], [Idle, Matched(x)], [x], 0, [x], 1, 0);
    var s5 := Next(s4, Issue(y));
    assert s5 == State(map[y.sector := y.request], [Idle, Matched(x)], [x, y], 0, [x], 1, 0);
  }

  /** The bound is met: two completions that overlap charge one stored request twice. */
  lemma OverlapChargesTwice(x: Entry)
    ensures var s := After(Boot(2), [Issue(x), Lookup(0, x.sector), Lookup(1, x.sector), Delete(0), Delete(1)]);
      s.stored == [x] && s.taken == [x, x] && s.removed == 1 && s.missed == 1 && s.inflight == map[]
  {
    FiveSteps(Boot(2), Issue(x), Lookup(0, x.sector), Lookup(1, x.sector), Delete(0), Delete(1));
    BothMatch(x);
    BothDelete(x);
  }

  /** Both CPUs hold the one stored entry. */
  function Overlapping(x: Entry): State {
    State(map[x.sector := x.request], [Matched(x), Matched(x)], [x], 0, [], 0, 0)
  }

  lemma BothMatch(x: Entry)
    ensures Next(Next(Next(Boot(2), Issue(x)), Lookup(0, x.sector)), Lookup(1, x.sector)) == Overlapping(x)
  {
    var s1 := Next(Boot(2), Issue(x));
    assert s1 == State(map[x.sector := x.request], [Idle, Idle], [x], 0, [], 0, 0);
    var s2 := Next(s1, Lookup(0, x.sector));
    assert s2.cpus == [Matched(x), Idle];
  }

  lemma BothDelete(x: Entry)
    ensures Next(Next(Overlapping(x), Delete(0)), Delete(1)) == State(map[], [Idle, Idle], [x], 0, [x, x], 1, 1)
  {
    var s4 := Next(Overlapping(x), Delete(0));
    assert s4 == State(map[], [Idle, Matched(x)], [x], 0, [x], 1, 0);
  }

  lemma FiveSteps(s: State, a: Event, b: Event, c: Event, d: Event, e: Event)
    ensures After(s, [a, b, c, d, e]) == Next(Next(Next(Next(Next(s, a), b), c), d), e)
  {
    ThreeSteps(s, a, b, c);
    AfterSnoc(s, [a, b, c], d);
    AfterSnoc(s, [a, b, c] + [d], e);
    assert [a, b, c] + [d] + [e] == [a, b, c, d, e];
  }

  lemma ThreeSteps(s: State, a: Event, b: Event, c: Event)
    ensures After(s, [a, b, c]) == Next(Next(Next(s, a), b), c)
  {
    AfterSnoc(s, [], a);
    AfterSnoc(s, [] + [a], b);
    AfterSnoc(s, [] + [a] + [b], c);
    assert [] + [a] + [b] + [c] == [a, b, c];
  }

  lemma AfterSnoc(s: State, es: seq<Event>, e: Event)
    ensures After(s, es + [e]) == Next(After(s, es), e)
  {
  }
}
