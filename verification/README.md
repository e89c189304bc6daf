# Koprobe, modelled and proved in Dafny

Koprobe measures what Kubernetes pods use, with eBPF counters in the kernel, and turns it into money: counters
per cgroup, costs per pod, totals per team, baselines that raise alarms, and a day of history. This project models
that pipeline and proves what holds over every run of it.

| module | what it models |
|---|---|
| `Counters` | the find-or-create hash-map elements of the eBPF programs, each handler one atomic step |
| `RacyCounters` | the same handlers as separate lookup, insert and add steps, interleaved over any number of CPUs |
| `CpuCycles`, `NetworkBytes`, `DiskIo` | the three eBPF programs, tied to `Counters` |
| `RacyInflight` | the in-flight table of the disk program when completions overlap |
| `RacyDisk` | the whole disk program, table and counters, in one step system |
| `Collector` | the manager that accumulates raw measurements and hands out copies |
| `Enricher` | container and cgroup IDs resolved to pods |
| `Pricing` | what one cgroup's measurements cost, and how that evolves between collections |
| `Aggregator` | collection, grouping by team, the capped history and its queries |
| `Collisions` | what becomes of cgroups that share one pod key |
| `Attribution` | whose costs a collection reports, and which team is charged |
| `Reports` | the regroupings of the REST API |
| `Baselines`, `Slack` | the moving-average alarm and the Slack exporter's use of it |
| `Simulator`, `LocalStore`, `Bars` | the local mode: generated metrics, reports, alerts and bars |
| `Words`, `Reals`, `Sums`, `Sequences`, `Wrappers` | arithmetic, sums and lists used by the rest |

Conventions. 64-bit and 32-bit unsigned words wrap explicitly (`Words`). Money and float64 values are reals. Go's
unspecified map iteration order is an arbitrary choice of the next key, so what is proved of a loop holds for every
order. Wall-clock times, random draws, prices, pod lists, packet destinations and the container-to-cgroup lookup are
inputs. Handlers and objects that change state are classes whose methods equate the new state with a function of the
old one; the lemmas are about those functions.

Where the code does something other than what its texts say, the model follows the code:

- A snapshot is labelled as a 15-second window (README.md, `period` in the API), but it prices counters that are
  never reset: `Pricing.BillsWindowAloneIff` says exactly when the label is right. The weekly digest calls the same
  figure "last 24h".
- The API documents costs per pod, but every container of a pod has the same `namespace/pod` key and only one
  container's cost survives: `Collisions.NeverLosesIff` says when money is lost, `Collisions.OneOutcomeIff` when the
  iteration order matters (`Collisions.OrderMatters` is an input), and `Collisions.ContainersOfOnePodCollide` that any
  pod of two containers loses one.
- The waste report is documented as "pods under 20 % utilisation"; the code leaves out utilisation 0
  (`Aggregator.Aggregator.WasteReport`). None of the manager's Update methods sets a CPU request or a memory
  average, so with them alone nothing is wasted and memory is free (`Pricing.UpdatesAloneWasteNothing`). A pod above
  its request has negative waste, which lowers its team's figure (`Pricing.WasteIffUnderused`).
- The in-flight table is keyed by start sector where its declaration says request pointer; two outstanding requests
  on one sector mischarge (`DiskIo.SharedSectorMischarges`; `DiskIo.TracksIffSeparated` is the exact condition).
- The simulator's pods of intensity at most 1/6, among them its "legacy" and "staging" ones, can never appear as
  wasteful (`Simulator.SmallPodsNeverWasteful`).

## Model

| member | source | states |
|---|---|---|
| `Words.AddCarries` | bpf/cpu_cycles.c:46-47 | a sum of 64-bit words loses 2^64 iff it is that large |
| `Words.SubBorrows` | bpf/disk_io.c:66-66 | a difference of 64-bit words is exact, or gains 2^64 iff negative, and adding the subtrahend undoes it |
| `Counters.Ledger` | bpf/network_bytes.c:79-89 | over every run of atomic handlers a cgroup the map holds has all its additions, modulo 2^64; one it does not hold was never sampled or met a full map |
| `Counters.FirstComeFirstServed` | bpf/disk_io.c:18-23 | no element is ever deleted, and a full map admits no further cgroup |
| `RacyCounters.Conservation` | bpf/cpu_cycles.c:45-53 | under every interleaving by any number of CPUs, additions past their counting step are held by the elements ever created for the cgroup, were rejected by a full map, or are whole 64-bit wraps (none below 2^64) |
| `RacyCounters.ReadingExactIff` | bpf/cpu_cycles.c:45-53 | user space never over-counts, and reads everything iff no sample was rejected and no replaced element holds a count |
| `RacyCounters.BoundedReplacement` | bpf/network_bytes.c:79-86 | with n CPUs at most n elements are ever created for a cgroup, so its element is replaced at most n - 1 times |
| `RacyCounters.SettledIsExact` | bpf/network_bytes.c:114-124 | once no CPU holds a pending miss for a cgroup in the map, its element stays, nothing more is rejected, and every later addition reaches that element |
| `RacyCounters.KeysOnlyGrow` | bpf/disk_io.c:73-80 | under every interleaving keys are only added, and a full map's keys are frozen |
| `RacyCounters.SoloIsAtomic` | bpf/disk_io.c:73-90 | the steps of a handler that nothing interferes with do to the map what the atomic handler does, for both ways of creating elements |
| `RacyCounters.RaceLosesSample` | bpf/cpu_cycles.c:49-53 | two CPUs that miss together lose a sample |
| `RacyCounters.RaceStrandsAddition` | bpf/network_bytes.c:82-88 | with zeros inserted first, an addition already made is stranded in a replaced element |
| `CpuCycles.CpuProgram.MeasureCpuCycles` | bpf/cpu_cycles.c:39-53 | the event's own cgroup has one cycle more and its sample period more of task clock, modulo 2^64 and from 0 when it is new; instructions and every other cgroup stay as they were, and it is absent afterwards only if 10240 others were there |
| `CpuCycles.CyclesExactIff` | bpf/cpu_cycles.c:45-53 | under every interleaving the count read is short by at least one per replacement, and is exact iff the element was never replaced and nothing was rejected |
| `NetworkBytes.InternetIsOutsideRfc1918` | bpf/network_bytes.c:64-71 | the masks cut out exactly the three ranges of section 3 of RFC 1918 |
| `NetworkBytes.PrefixCovers` | bpf/network_bytes.c:57-57 | under a prefix mask an entry covers exactly the addresses from its subnet to the one with every host bit set, and none if its subnet has a host bit |
| `NetworkBytes.CrossAzByRange` | bpf/network_bytes.c:54-61 | with prefix masks the answer is yes iff the first range to hold the destination, before any zero subnet, is of another zone |
| `NetworkBytes.HostBitsImmaterial` | bpf/network_bytes.c:57-57 | destinations that no mask of the table tells apart get one answer |
| `NetworkBytes.OneSlash16` | bpf/network_bytes.c:57-58 | a table of one /16 of another zone answers yes for that /16, all of it and nothing else |
| `NetworkBytes.IsCrossAz` | bpf/network_bytes.c:48-62 | the search answers the verdict of the first match before the first zero subnet, and no when there is none; with prefix masks that is the first address range to hold the destination, and yes iff it is of another zone |
| `NetworkBytes.OrderFreeIffConsistent` | bpf/network_bytes.c:54-60 | permuting the entries never changes an answer iff overlapping entries agree on being in another zone |
| `NetworkBytes.DisjointIsOrderFree` | bpf/network_bytes.c:54-60 | pairwise disjoint subnets can be listed in any order |
| `NetworkBytes.NetworkProgram.FindOrCreate` | bpf/network_bytes.c:79-86 | the element is found or created with zeros; it is absent afterwards only if the map was full |
| `NetworkBytes.NetworkProgram.CountEgress` | bpf/network_bytes.c:74-106 | the packet's own cgroup has its length more of egress bytes and one egress packet more, and its length more of internet or of cross-AZ bytes as the destination is classed, modulo 2^64; ingress, every other cgroup, and for cgroup 0 everything, stay as they were |
| `NetworkBytes.NetworkProgram.CountIngress` | bpf/network_bytes.c:109-126 | the same for incoming packets: ingress bytes and packets alone move |
| `NetworkBytes.ChargedByClass` | bpf/network_bytes.c:88-103 | the additions to a byte counter are the bytes of its class of packets |
| `NetworkBytes.ClassReading` | bpf/network_bytes.c:88-103 | each byte counter of a counted cgroup is the sum over its class of packets, each classed under the zones of its time, modulo 2^64 |
| `NetworkBytes.PacketReading` | bpf/network_bytes.c:88-125 | the packet counters of a counted cgroup count its packets per direction, and its ingress bytes are those of its incoming packets, modulo 2^64 |
| `NetworkBytes.ClassesWithinEgress` | bpf/network_bytes.c:98-102 | internet and cross-AZ packets are disjoint classes of egress packets |
| `NetworkBytes.EgressLedger` | bpf/network_bytes.c:88-103 | in every state the atomic hooks reach, before wrap, internet and cross-AZ bytes are their classes' sums and together never exceed the egress bytes, however the zone table is rewritten meanwhile |
| `NetworkBytes.ClassesNeverLead` | bpf/network_bytes.c:79-103 | at every step of every interleaving, before wrap, in every element ever created: internet plus cross-AZ bytes never exceed egress bytes |
| `DiskIo.DiskProgram.TraceRqIssue` | bpf/disk_io.c:42-56 | an issue stores its time, cgroup, direction and 512 bytes per sector (modulo 2^32) under its sector, replacing what was there, unless the sector is new and 65536 others are stored; no other sector changes |
| `DiskIo.DiskProgram.TraceRqComplete` | bpf/disk_io.c:60-93 | a completion removes its sector's entry and adds that entry's size, one operation and the time since its issue to its cgroup's counters of its direction, modulo 2^64; nothing else moves, nothing at all without an entry, and the cgroup is absent only if the map was full |
| `DiskIo.InFlightLedger` | bpf/disk_io.c:42-93 | over every run, issues are in flight, overwritten, rejected by the full table, or matched by a completion, each exactly once; a run and the run without its unmatched completions end alike |
| `DiskIo.CompletionLedger` | bpf/disk_io.c:73-90 | the read and write IOPS counters over all cgroups add up to the matched completions less those a full map dropped |
| `DiskIo.InFlightIsLastIssue` | bpf/disk_io.c:45-71 | a sector is in flight iff its last event is an accepted issue, and a completion is charged to that issue |
| `DiskIo.TracksIffSeparated` | bpf/disk_io.c:42-93 | the table is the log's outstanding requests and the counters its completed ones, after every prefix of the run, iff no two outstanding requests share a sector, no more than 65536 are outstanding, and completions name their own request's sector |
| `DiskIo.HandlersRefineLog` | bpf/disk_io.c:62-90 | in those runs each held cgroup shows the bytes, operations and latencies of its own completed requests per direction, modulo 2^64, and a cgroup is absent only when the map is full |
| `DiskIo.CountersAreTotals` | bpf/disk_io.c:66-90 | in those runs a held cgroup's six counters are the bytes, the number and the elapsed nanoseconds of its completed reads and writes, added up as plain integers and taken modulo 2^64 |
| `DiskIo.AmountsAreTotals` | bpf/disk_io.c:66-66 | the latencies counted are the elapsed times, modulo 2^64, and exactly if no request completed before it was issued |
| `DiskIo.SharedSectorMischarges` | bpf/disk_io.c:45-71 | two outstanding requests on one sector: the first completion is charged to the second issuer and the second is lost |
| `RacyInflight.OverlappedLedger` | bpf/disk_io.c:54-71 | under every interleaving of lookups and deletes, stored entries are in flight, overwritten or removed, and charged completions removed an entry or found it gone |
| `RacyInflight.IssueIsAtomic` | bpf/disk_io.c:45-54 | an issue does to the table what the atomic handler does, and counts as stored, overwriting or rejected as that handler's outcome says |
| `RacyInflight.CompletionIsAtomic` | bpf/disk_io.c:63-71 | a lookup and a delete without interference do to the table what the atomic completion does and take over the request it charges |
| `RacyInflight.SecondIssueStands` | bpf/disk_io.c:54-54 | a second issue on a sector replaces the first, and it is the second that completes |
| `RacyInflight.ChargedOncePerCpu` | bpf/disk_io.c:62-71 | with n CPUs a request is charged at most n times for each time it was stored, and never unless it was |
| `RacyInflight.LateDeletesBounded` | bpf/disk_io.c:62-71 | unconditionally, at most n - 1 deletes come too late per entry removed |
| `RacyInflight.GuardedIsExact` | bpf/disk_io.c:62-71 | while no sector is looked up before another CPU's delete on it, no delete comes too late, each charge removes one entry, and no request is charged more often than it was stored, for any number of CPUs |
| `RacyInflight.NeverLateIff` | bpf/disk_io.c:62-71 | a run keeps that guard iff at no moment two deletes could follow of which one comes too late |
| `RacyInflight.LateIff` | bpf/disk_io.c:62-71 | a matched completion comes too late iff since its lookup another CPU deleted the sector and nothing was stored there again |
| `RacyInflight.BalancedYetWrong` | bpf/disk_io.c:54-71 | without the guard all counts can balance and yet one request be charged twice and another never |
| `RacyInflight.OverlapChargesTwice` | bpf/disk_io.c:62-71 | two overlapping completions do charge one request twice |
| `RacyDisk.CompletionIsAtomic` | bpf/disk_io.c:60-93 | lookup, delete and the counting steps of one completion that nothing interferes with do to both maps what the atomic handler does, and leave the CPU free |
| `RacyDisk.OneByOneIsAtomic` | bpf/disk_io.c:42-93 | a whole run of handlers one after the other, on any CPUs, ends with the two maps of the atomic run, and its records agree with that run's outcomes |
| `RacyDisk.QuantitiesConserved` | bpf/disk_io.c:42-93 | over the whole program in one step system, for bytes, operations and latency in either direction: what is on its way, pending, in any element ever created or rejected is what the completions taken from the table amount to, and user space reads all of it iff none is elsewhere |
| `RacyDisk.ReadingsBounded` | bpf/disk_io.c:42-93 | end to end: user space never reads more bytes or operations for a cgroup and direction than n times those of its requests ever stored |
| `RacyDisk.GuardedReadings` | bpf/disk_io.c:62-93 | while no sector is looked up before another CPU's delete on it, the factor n is gone, and the reading is that of the requests taken iff nothing is on its way, pending, stranded or rejected |
| `Collector.Manager.UpdateCPU` | internal/collector/manager.go:92-100 | the update adds its figures to its cgroup's entry, created on demand, and changes nothing else |
| `Collector.Manager.UpdateNetwork` | internal/collector/manager.go:103-113 | the same for the network counters |
| `Collector.Manager.UpdateDisk` | internal/collector/manager.go:116-126 | the same for the disk counters |
| `Collector.ReportedAt` | internal/collector/manager.go:98-125 | each figure of a report belongs to the counter of its own name, and to no other |
| `Collector.CpuFiguresAdded` | internal/collector/manager.go:98-99 | cycles and instructions each grow by their own figure, modulo 2^64 |
| `Collector.NetworkFiguresAdded` | internal/collector/manager.go:109-112 | ingress, egress, cross-AZ and internet bytes each grow by their own figure, modulo 2^64 |
| `Collector.DiskFiguresAdded` | internal/collector/manager.go:122-125 | bytes and operations, read and written, each grow by their own figure, modulo 2^64 |
| `Collector.OneEntryMoves` | internal/collector/manager.go:92-126 | an update touches its own cgroup's entry and no other |
| `Collector.Manager.Snapshot` | internal/collector/manager.go:79-89 | the result equals the map and shares no cell with it, nor among its own entries |
| `Collector.Manager.SnapshotThenUpdates` | internal/collector/manager.go:79-126 | no sequence of later updates changes a snapshot |
| `Collector.ManagerKeys` | internal/collector/manager.go:92-126 | a cgroup is in the map iff it was or an update named it |
| `Collector.ManagerIsSum` | internal/collector/manager.go:98-125 | each counter of each cgroup has grown by the 64-bit sum of the updates to it |
| `Collector.UpdatesKeepTheRest` | internal/collector/manager.go:92-126 | updates never write the CPU request or the memory average |
| `Collector.UpdateOrderIrrelevant` | internal/collector/manager.go:92-126 | the state depends only on the multiset of updates |
| `Enricher.SanitizeContainerId` | internal/enricher/k8s.go:182-191 | the loop computes the short ID: the three prefixes trimmed in turn, at most twelve characters |
| `Enricher.ShortIdIgnoresRuntime` | internal/enricher/k8s.go:182-191 | an ID without a colon has the same short ID under any known runtime prefix or none |
| `Enricher.ByContainerIsLast` | internal/enricher/k8s.go:129-129 | a short container ID holds the last record listed under it |
| `Enricher.LabelsAreCarried` | internal/enricher/k8s.go:117-126 | a pod's record carries its name, namespace and node, and each non-empty label under its own key; an absent or empty one gives way to its default |
| `Enricher.ListedIff` | internal/enricher/k8s.go:110-127 | there is a record for exactly the containers that have an ID, of the pod they run in |
| `Enricher.ListedInOrder` | internal/enricher/k8s.go:110-111 | records are in the order of the pod list |
| `Enricher.MapsAgree` | internal/enricher/k8s.go:129-135 | a cgroup holds the last record that resolves to it, and that is also the record under its container ID, whatever collides |
| `Enricher.Enricher.SyncPods` | internal/enricher/k8s.go:101-145 | a sync replaces both maps by those of the pod list, every cgroup's record naming that cgroup and being the very object under its container ID; a failed list call changes nothing |
| `Enricher.Enricher.Resolve` | internal/enricher/k8s.go:94-98 | nil iff the cgroup is of no pod; any other answer names the cgroup asked for and is the very record under its own container ID |
| `Pricing.WasteIffUnderused` | internal/aggregator/aggregator.go:162-166 | utilisation is under 20 % iff five times the cycles are below the request; waste is positive, zero or negative as the cycles are below, at or above it |
| `Pricing.ReportedIff` | internal/aggregator/aggregator.go:162-166 | a requesting pod is in the waste report iff it used something and less than a fifth of its request |
| `Pricing.IdlePodUnreported` | internal/aggregator/aggregator.go:226-236 | a pod that requests a CPU and never runs is not in it |
| `Pricing.WasteEndsForGood` | internal/aggregator/aggregator.go:162-166 | a pod that has once reached a fifth of its request never returns to the waste report, and one that has reached its request never again shows positive waste |
| `Pricing.WindowsTelescope` | internal/aggregator/aggregator.go:144-158 | between two collections CPU, network and disk cost grow by exactly the cost model applied to the updates in between |
| `Pricing.CostsNeverFall` | internal/aggregator/aggregator.go:153-158 | with non-negative prices no resource gets cheaper from one collection to the next |
| `Pricing.CostsNonNegative` | internal/aggregator/aggregator.go:153-159 | with non-negative prices no total is negative |
| `Pricing.CostInCounters` | internal/aggregator/aggregator.go:144-159 | in whole counters: a billion cycles, a gigabyte for an hour, a gigabyte sent and a million operations cost their prices, a window is a 240th of an hour, and the total is the four |
| `Pricing.WasteIsUnused` | internal/aggregator/aggregator.go:162-166 | with a request the wasted part of the CPU cost is the unused part of the request, and utilisation its used part; without one both are 0 |
| `Pricing.MemoryAdds` | internal/aggregator/aggregator.go:145-154 | memory is priced by the byte |
| `Pricing.BillsWindowAloneIff` | internal/aggregator/aggregator.go:139-159 | a collection bills its own 15 seconds alone iff everything used before had no cost |
| `Pricing.IdleWindowBilledAgain` | internal/aggregator/aggregator.go:139-159 | 15 dollars of earlier use are billed again for a window in which nothing was reported |
| `Pricing.UpdatesAloneWasteNothing` | internal/aggregator/aggregator.go:162-166 | with only the Update methods writing, memory cost, utilisation and waste are zero |
| `Aggregator.KeyIsInjective` | internal/aggregator/aggregator.go:128-128 | keys of namespaces without a slash determine namespace and pod name |
| `Collisions.CompleteIffDistinct` | internal/aggregator/aggregator.go:122-169 | when every resolved cgroup costs something, the pods' total is the cgroups' total iff no two resolved cgroups have one key |
| `Collisions.NeverLosesIff` | internal/aggregator/aggregator.go:122-169 | with non-negative prices no iteration order loses money iff cgroups that share a key cost nothing |
| `Collisions.OneOutcomeIff` | internal/aggregator/aggregator.go:122-169 | any two iteration orders make the same pod map iff cgroups that share a key are costed alike |
| `Aggregator.OrderMakesPodMap` | internal/aggregator/aggregator.go:122-169 | every order that visits all cgroups leaves each key of a resolved cgroup with the cost of one of its cgroups |
| `Collisions.PodMapHasOrder` | internal/aggregator/aggregator.go:122-169 | and every such pod map is the outcome of some order |
| `Collisions.LastWins` | internal/aggregator/aggregator.go:168-168 | in any order a key holds the cost of its cgroup that comes last |
| `Collisions.DistinctKeysOneSnapshot` | internal/aggregator/aggregator.go:122-190 | with distinct keys a collection has one result: the snapshot is the same up to the order of its lists for every order of either loop, and carries every resolved cgroup |
| `Collisions.ContainersOfOnePodCollide` | internal/aggregator/aggregator.go:128-168 | two containers of one pod, in cgroups of their own, always share a key, and every snapshot is short by at least the cheaper of the two |
| `Collisions.TwoContainersOneDollar` | internal/aggregator/aggregator.go:128-168 | a pod of two containers that cost a dollar each is reported at one dollar |
| `Collisions.OrderMatters` | internal/aggregator/aggregator.go:122-169 | a pod of two containers that cost one and two dollars is reported at two dollars in one order and at one in the other |
| `Aggregator.TeamsHoldTheirPods` | internal/aggregator/aggregator.go:177-190 | a team has an entry iff it has a pod, made of exactly its pods, with their sums and count |
| `Aggregator.TeamsPartition` | internal/aggregator/aggregator.go:177-190 | team totals, waste and pod counts add up to the pods' |
| `Aggregator.ColumnsAddUp` | internal/aggregator/aggregator.go:159-159 | the four resource columns of any list of pods sum to its total |
| `Aggregator.ColumnsAre` | internal/aggregator/aggregator.go:179-187 | each column is the sum of the pods' figures of its own name |
| `Aggregator.SnapshotReordered` | internal/aggregator/aggregator.go:177-190 | snapshots of the same pods in another order differ only in the order of their lists |
| `Aggregator.IterationOrderImmaterial` | internal/aggregator/aggregator.go:177-190 | so whichever order the pod map is walked in, totals and teams are the same |
| `Aggregator.Aggregator.PriceCgroups` | internal/aggregator/aggregator.go:119-169 | the loop makes the pod map of the order it visits the cgroups in, each resolved as some sync in between left it |
| `Aggregator.Aggregator.PriceCgroup` | internal/aggregator/aggregator.go:130-166 | one cost by the cost model, under the pod's identity and for the 15 seconds up to now, with reported quantities from which every priced counter can be read back |
| `Aggregator.AnsweredAtOnce` | internal/aggregator/aggregator.go:122-126 | without a sync in between, the cgroups are resolved against one map |
| `Aggregator.Aggregator.AddPodCost` | internal/aggregator/aggregator.go:177-190 | one turn adds the pod to the list, the total and its team |
| `Aggregator.Aggregator.BuildSnapshot` | internal/aggregator/aggregator.go:171-190 | the snapshot groups every pod of the map once, in some order |
| `Aggregator.Aggregator.Collect` | internal/aggregator/aggregator.go:113-200 | a collection appends the grouping of the priced pods to the log, and the pod map is then the latest snapshot's, whatever syncs happen meanwhile |
| `Aggregator.Aggregator.Publish` | internal/aggregator/aggregator.go:192-199 | the history stays the last 5760 snapshots of the unbounded log |
| `Aggregator.Aggregator.LatestSnapshot` | internal/aggregator/aggregator.go:203-210 | the last snapshot ever collected, or an empty one |
| `Aggregator.Aggregator.History` | internal/aggregator/aggregator.go:213-224 | the kept snapshots strictly after the cutoff; for a day's window over collections 15 s apart, all of the log's |
| `Aggregator.Aggregator.WasteReport` | internal/aggregator/aggregator.go:227-237 | exactly the pods with utilisation above 0 and under 20 %, each once |
| `Aggregator.HistoryExactIff` | internal/aggregator/aggregator.go:192-224 | a query on the capped list equals the query on the whole log iff the youngest dropped snapshot is not after the cutoff |
| `Aggregator.DayIsKept` | internal/aggregator/aggregator.go:192-224 | collections at least 15 s apart lose nothing for any window up to 24 h, asked at any time from the last snapshot on |
| `Aggregator.SinceIsSuffix` | internal/aggregator/aggregator.go:213-224 | the answer is a contiguous end of the list |
| `Aggregator.SinceHas` | internal/aggregator/aggregator.go:218-222 | a snapshot is in the answer, as often as in the list, iff it is from strictly after the cutoff |
| `Aggregator.WasteReportIsWaste` | internal/aggregator/aggregator.go:161-166 | a reported pod wastes at least four fifths of its CPU cost |
| `Attribution.WinnerIsLast` | internal/aggregator/aggregator.go:168-168 | a key holds a cost iff some cgroup visited has it, and then that of the last of them |
| `Attribution.CostNamesItsPod` | internal/aggregator/aggregator.go:128-141 | in every order each cost carries the identity its own cgroup was resolved to and stands under that identity's namespace and pod name |
| `Attribution.TeamsAreCharged` | internal/aggregator/aggregator.go:128-190 | a collected snapshot has an entry for exactly the teams that cgroups with the last word on their keys were resolved to, and an entry's total, waste and count are those of its cgroups |
| `Reports.ByNamespace` | internal/exporter/api.go:101-108 | the loop sums each namespace's pods |
| `Reports.NamespaceHoldsItsPods` | internal/exporter/api.go:103-106 | a namespace's figure is the cost of exactly its pods |
| `Reports.InNamespaceCount` | internal/exporter/api.go:116-118 | the pods of a namespace are those whose namespace it is, each as often as listed |
| `Reports.NamespacesMakeTotal` | internal/exporter/api.go:103-106 | the namespaces sum to the snapshot's total |
| `Reports.TeamRow` | internal/exporter/api.go:80-91 | a row carries the entry's team, total, waste and count, and four columns over its pods |
| `Reports.RowColumns` | internal/exporter/api.go:82-85 | the four columns are the sums of the pods' CPU, memory, network and disk costs, each its own |
| `Reports.ByTeam` | internal/exporter/api.go:64-92 | one row per team of the snapshot |
| `Reports.ByPod` | internal/exporter/api.go:110-124 | the two filters select exactly the namespace's, the team's, or both's pods, in order |
| `Reports.CollectedFiguresAgree` | internal/exporter/api.go:79-92 | for every snapshot a collection publishes, a team's row total, its four columns, its by-pod list and the alarm's figure agree |
| `Reports.NoNamelessTeam` | internal/enricher/k8s.go:121-121 | no collected snapshot has costs under an empty team name, whatever the labels and whenever the syncs |
| `Baselines.FollowClosedForm` | internal/exporter/slack.go:87-88 | the running baseline is the faded start plus the age-weighted costs |
| `Baselines.BaselineFollowsSeen` | internal/exporter/slack.go:67-88 | a team's baseline is the average of what was seen of that team alone; absence changes nothing |
| `Baselines.BaselineIsWeightedMean` | cmd/local/main.go:197-216 | for every run it has the closed form and lies between the least and greatest observed cost |
| `Baselines.SweepIsObserved` | cmd/local/main.go:197-217 | visiting a snapshot's teams in any order has one and the same effect |
| `Baselines.GapShrinks` | cmd/local/main.go:216-216 | under a settled cost the gap shrinks geometrically |
| `Baselines.FiresIffGapIsWide` | internal/exporter/slack.go:75-75 | an observation alarms iff the remaining gap exceeds a fixed share of the cost |
| `Baselines.SteadyTeamNeverAlarms` | internal/exporter/slack.go:75-88 | a team whose costs stay within the factor never alarms |
| `Baselines.SettlingRun` | internal/exporter/slack.go:67-88 | after any history a settled team's baseline and alarms are those of its last baseline alone |
| `Baselines.BurstBounded` | internal/exporter/slack.go:67-88 | after any history a settled team alarms at most m more times, where keep^m is below the threshold's share |
| `Slack.SlackExporter.CheckTeam` | internal/exporter/slack.go:67-89 | one team's turn: an alert iff above twice a positive baseline, then nine tenths of the baseline and a tenth of the cost, or the cost of a team not seen before |
| `Slack.SlackExporter.CheckAnomalies` | internal/exporter/slack.go:64-90 | one alert for exactly the teams above twice their positive baseline, with the team's cost, its baseline and the excess in percent of it, for any iteration order; baselines and all alerts ever sent stay those of the whole run |
| `Slack.AlertSays` | internal/exporter/slack.go:76-84 | an alert shows the cost, the baseline and by how many percent of the baseline the cost exceeds it |
| `Slack.TalliesOneMore` | internal/exporter/slack.go:67-89 | a pass keeps the alerts ever sent for each team equal to the alarms of the run of its costs, so the bounds below are bounds on messages |
| `Slack.SevenAlertsAtMost` | internal/exporter/slack.go:75-88 | a team that settles at any positive cost raises at most seven more alerts, ever |
| `Slack.SevenAlertsOccur` | internal/exporter/slack.go:75-88 | all seven occur |
| `Slack.WithinTwiceNeverAlerts` | internal/exporter/slack.go:75-88 | costs within a factor of two never alert |
| `LocalStore.Store.Update` | cmd/local/main.go:180-221 | the kept history and alerts are the last 480 points and last 50 alerts of all there ever were, in the order raised; one alert is raised for exactly the teams above 1.5 times their baseline, critical above 2.5; baselines and alerts stay those of the whole run |
| `LocalStore.TalliesOneMore` | cmd/local/main.go:197-217 | an update keeps the alerts ever raised, team by team and level by level, equal to the alarms of the run of costs |
| `LocalStore.Store.SumTeams` | cmd/local/main.go:185-190 | team totals and overall total of the metrics |
| `LocalStore.Store.CheckTeam` | cmd/local/main.go:198-216 | one team's turn: the level, the figures and the new baseline |
| `LocalStore.Store.CheckBaselines` | cmd/local/main.go:197-217 | the whole loop, for any iteration order |
| `LocalStore.Store.NewestFirst` | cmd/local/main.go:342-353 | the youngest 50 of all alerts ever raised, newest first, in a new array |
| `LocalStore.TeamsMakeTotal` | cmd/local/main.go:187-190 | the teams' costs add up to the total |
| `LocalStore.TeamHoldsItsPods` | cmd/local/main.go:187-189 | a team's figure is the cost of exactly its pods, and a team without pods has none |
| `LocalStore.TotalIs` | cmd/local/main.go:187-190 | a total is the sum of the pods' total costs |
| `LocalStore.RaisesSay` | cmd/local/main.go:203-215 | an alert shows its team's cost and the excess in percent of the baseline, and is critical iff the cost is above two and a half baselines |
| `LocalStore.SevenCriticalFourteenInAll` | cmd/local/main.go:203-216 | a team that settles raises at most seven more critical alerts and fourteen in all |
| `LocalStore.SevenAndFourteenOccur` | cmd/local/main.go:203-216 | both bounds are reached |
| `LocalStore.NoCriticalAfterWarning` | cmd/local/main.go:203-216 | once a team has settled, no critical alert for it follows a warning anywhere in the list of all alerts raised |
| `LocalStore.WithinHalfAgainNeverAlerts` | cmd/local/main.go:203-216 | costs within a factor of 1.5 never alert |
| `Simulator.RoundIsNear` | cmd/local/main.go:605-608 | rounding moves a value by at most half a unit |
| `Simulator.RoundIsOdd` | cmd/local/main.go:605-608 | halves are rounded away from zero, on both sides of it |
| `Simulator.ClampIsNearest` | cmd/local/main.go:596-604 | the clamp takes a value to the nearest one between 0.05 and 1 |
| `Simulator.RoundBelow` | cmd/local/main.go:605-608 | a rounded value is under a whole number iff the value is under the half before it |
| `Simulator.SimulatedPod.Generate` | cmd/local/main.go:88-148 | whatever is drawn: costs within their full-load prices, total and parts within 0.000002, a positive total, waste only for pods rounding to 20 % or less and never for small ones, and a spike recorded iff it is due and drawn |
| `Simulator.PodCostRange` | cmd/local/main.go:98-117 | whatever the profile and noise, each resource costs between a twentieth and the whole of its full-load price |
| `Simulator.ExactInLoads` | cmd/local/main.go:98-127 | each quantity is a fixed multiple of its clamped load, each cost that load's share of the full-load price, and utilisation and waste follow from CPU and its request |
| `Simulator.RoundedIsNear` | cmd/local/main.go:129-147 | the reported pod carries its profile's names, and every figure is its own exact value to within half of its last decimal place |
| `Simulator.CanBeWastefulIff` | cmd/local/main.go:119-127 | the intensities that can ever be under 20 %: above 1/6 and under 13/28, or above 10/3 |
| `Simulator.SmallPodsNeverWasteful` | cmd/local/main.go:119-141 | a pod of intensity at most 1/6 is never flagged, at any tick, noise or spike |
| `Simulator.FiveRoundings` | cmd/local/main.go:142-146 | a rounded sum and the sum of its four rounded parts differ by at most two units |
| `Simulator.TwoUnitsOccur` | cmd/local/main.go:113-146 | a pod the simulator can produce is off by two units |
| `Simulator.PodReconciles` | cmd/local/main.go:142-146 | a pod's rounded total and costs differ by at most 0.000002 |
| `Simulator.ByTeam` | cmd/local/main.go:277-293 | one row per team with a pod, summing exactly its pods |
| `Simulator.RowColumns` | cmd/local/main.go:285-292 | a row's columns are the sums of the pods' figures of the same names |
| `Simulator.OfTeamCount` | cmd/local/main.go:281-285 | a team's pods are those whose team it is, each as often as listed |
| `Simulator.TeamRowReconciles` | cmd/local/main.go:280-293 | a row's total and its four columns differ by at most 0.000002 per pod |
| `Simulator.SummaryWaste` | cmd/local/main.go:248-257 | the summary's waste over all pods |
| `Simulator.WasteIs` | cmd/local/main.go:252-254 | the waste figure is the sum of the pods' wasted dollars |
| `Simulator.LowUtilCount` | cmd/local/main.go:325-327 | the waste list has exactly the pods whose rounded utilisation is under 20 |
| `Simulator.WasteEndpoint` | cmd/local/main.go:321-333 | the pods under 20 % and their waste |
| `Simulator.PodWaste` | cmd/local/main.go:125-141 | a pod is listed iff its unrounded utilisation is under 19.95, and has waste only under 20 |
| `Simulator.WasteFiguresReconcile` | cmd/local/main.go:248-333 | the two waste figures differ by exactly the waste of pods with unrounded utilisation in [19.95, 20) |
| `Bars.TeamBars` | cmd/local/main.go:412-415 | every bar has the length of its share; a repeat count is negative, and the dashboard panics, iff some length is outside 0..20, which for costs that make up a positive total none ever is |
| `Bars.BarsApportion` | cmd/local/main.go:412-415 | for costs that make up a positive total, each of the k bars fits its cells, so neither repeat count is negative, and together they fill more than cells - k and at most all cells of one bar |
| `Bars.BarsWithinSum` | internal/exporter/slack.go:148-149 | for part of the total, truncation takes less than one cell per bar |
| `Bars.TruncIsTowardZero` | cmd/local/main.go:413-413 | bar lengths are truncated toward zero |
| `Bars.BuildBar` | internal/exporter/slack.go:144-159 | ten cells, the first `int(share * 10)` filled; all empty for a zero total |

## Left out

- DiskIo.CompletionLedger: for runs of fewer than 2^64 events, because beyond that the IOPS counters wrap.
- NetworkBytes.EgressLedger: for totals below 2^64; `NetworkBytes.ClassReading` is the unbounded form, modulo 2^64.
- CpuCycles.CyclesExactIff: for totals below 2^64, because a wrapped counter can read the right value by accident.
- NetworkBytes.ClassesNeverLead: for totals below 2^64, because a wrapped egress counter can fall below a class counter.
- RacyCounters.SettledIsExact: for totals below 2^64; `RacyCounters.Conservation` covers wrapping counters.
- Pricing.WindowsTelescope: for counters that do not wrap in between; `Collector.ManagerIsSum` is the modular form.
- Kernel reuse of the memory of a replaced or deleted map element while a CPU still points at it.
- eBPF loading and attachment, the ring-buffer event of `measure_cpu_cycles`, and the collectors' Start and Stop.
- Packet header parsing: a packet's destination, or that none could be read, is an input.
- Floating-point rounding, NaN and infinity: reals instead; where the dashboard divides by a zero total, whatever the
  platform converts the quotient to is an input.
- The wall clock and randomness: times are inputs with stated spacing, noise and the sine wave arbitrary in their range;
  the several clock readings of one local-store update are one.
- Price fetching; one record of prices per collection is an input.
- The Kubernetes client and the walk of /sys/fs/cgroup: the pod list is an input and the resolver an arbitrary
  function of the short container ID.
- RawMetrics fields that nothing reads or writes: MemoryBytesMax, MemoryRequestedMB, NetworkPackets and the latencies.
- Locks: each lock-protected call is one step. Between two such calls others may get in: syncs between the cgroups of
  one collection do so in the model, and updates after the collection's copy cannot touch it
  (`Collector.Manager.SnapshotThenUpdates`).
- Sharing of PodCost objects between the snapshot's list, the teams' lists and the pod map: they are values here,
  and nothing in the source writes them after they are built.
- Strings are sequences of characters, so the short ID is twelve characters rather than twelve bytes.
- The sort orders of the reports, JSON, HTTP, CORS, Prometheus text, Slack posting, banners and terminal drawing.
- `pct` (a share in percent, 0 for a zero total), the local server's by-pod listing (the two filters of `Reports.ByPod`),
  and the hours parameter of the history endpoint (any duration, as `since` is here).
- The built-in list of simulated pods and the loop of `Tick`, which generates one pod after another.
- `cmd/main.go`, `cmd/koprobe/main.go`, Helm, Docker and the Makefile: wiring and deployment.
