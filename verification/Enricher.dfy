/** internal/enricher/k8s.go: cgroup and container IDs resolved to pod metadata. */
module Enricher {
  import opened Words
  import opened Wrappers

  datatype Identity = Identity(
    podName: string, namespace: string, nodeName: string, team: string, service: string,
    feature: string, costCenter: string, environment: string)

  /** A pod of the cluster's list, with the IDs of its containers as their runtimes report them. */
  datatype Pod = Pod(
    name: string, namespace: string, nodeName: string, labels: map<string, string>, containerIds: seq<string>)

  class PodInfo {
    const identity: Identity
    const containerId: string
    var cgroupId: U64

    constructor (identity: Identity, containerId: string)
      ensures this.identity == identity && this.containerId == containerId && cgroupId == 0
    {
      this.identity, this.containerId, cgroupId := identity, containerId, 0;
    }
  }

  function LabelOrDefault(labels: map<string, string>, key: string, def: string): string {
    if key in labels && labels[key] != "" then labels[key] else def
  }

  function IdentityOf(pod: Pod): Identity {
    Identity(pod.name, pod.namespace, pod.nodeName,
             LabelOrDefault(pod.labels, "app.kubernetes.io/team", "unknown"),
             LabelOrDefault(pod.labels, "app.kubernetes.io/name", pod.name),
             LabelOrDefault(pod.labels, "feature", ""),
             LabelOrDefault(pod.labels, "billing/cost-center", ""),
             LabelOrDefault(pod.labels, "environment", "production"))
  }

  /** Every pod has a team to be charged to, and labels left empty count as absent. */
  lemma AlwaysATeam(pod: Pod)
    ensures IdentityOf(pod).team != ""
    ensures IdentityOf(pod.(labels := pod.labels["app.kubernetes.io/team" := ""])).team == "unknown"
    ensures pod.name != "" ==> IdentityOf(pod).service != ""
  {
  }

  /** A non-empty label is what the pod is known by, label by label; one that is absent or empty gives way
      to its default.  Name, namespace and node are the pod's own. */
  lemma LabelsAreCarried(pod: Pod)
    ensures var id, ls := IdentityOf(pod), pod.labels;
      && id.podName == pod.name && id.namespace == pod.namespace && id.nodeName == pod.nodeName
      && (var key := "app.kubernetes.io/team";
          if key in ls && ls[key] != "" then id.team == ls[key] else id.team == "unknown")
      && (var key := "app.kubernetes.io/name";
          if key in ls && ls[key] != "" then id.service == ls[key] else id.service == pod.name)
      && (var key := "feature";
          if key in ls && ls[key] != "" then id.feature == ls[key] else id.feature == "")
      && (var key := "billing/cost-center";
          if key in ls && ls[key] != "" then id.costCenter == ls[key] else id.costCenter == "")
      && (var key := "environment";
          if key in ls && ls[key] != "" then id.environment == ls[key] else id.environment == "production")
  {
  }

  // ---------- short container IDs ----------

  const PREFIXES := ["docker://", "containerd://", "cri-o://"]

  /** `strings.TrimPrefix` */
  function TrimPrefix(s: string, prefix: string): string {
    if prefix <= s then s[|prefix|..] else s
  }

  function Trimmed(id: string, prefixes: seq<string>): string {
    if prefixes == [] then id else TrimPrefix(Trimmed(id, prefixes[..|prefixes| - 1]), prefixes[|prefixes| - 1])
  }

  function ShortId(id: string): string {
    var bare := Trimmed(id, PREFIXES);
    if |bare| > 12 then bare[..12] else bare
  }

  method SanitizeContainerId(containerId: string) returns (id: string)
    ensures id == ShortId(containerId)
  {
    id := containerId;
    for i := 0 to |PREFIXES|
      invariant id == Trimmed(containerId, PREFIXES[..i])
    {
      id := TrimPrefix(id, PREFIXES[i]);
      assert PREFIXES[..i + 1][..i] == PREFIXES[..i];
    }
    assert PREFIXES[..|PREFIXES|] == PREFIXES;
    if |id| > 12 {
      return id[..12];
    }
  }

  lemma TrimmedThrice(id: string)
    ensures Trimmed(id, PREFIXES) == TrimPrefix(TrimPrefix(TrimPrefix(id, "docker://"), "containerd://"), "cri-o://")
  {
    var p1, p2 := ["docker://"], ["docker://", "containerd://"];
    assert PREFIXES[..2] == p2 && p2[..1] == p1 && p1[..0] == [];
    assert Trimmed(id, p1) == TrimPrefix(Trimmed(id, []), "docker://");
    assert Trimmed(id, p2) == TrimPrefix(Trimmed(id, p1), "containerd://");
  }

  lemma TrimsPrefix(prefix: string, body: string)
    ensures TrimPrefix(prefix + body, prefix) == body
  {
  }

  /** Strings that differ within the first two characters are not prefixes of one another. */
  lemma KeepsOther(prefix: string, other: string, body: string)
    requires |prefix| >= 2 && |other| >= 2 && (prefix[0] != other[0] || prefix[1] != other[1])
    ensures TrimPrefix(other + body, prefix) == other + body
  {
  }

  lemma TrimmedDocker(body: string)
    requires ':' !in body
    ensures Trimmed("docker://" + body, PREFIXES) == body
  {
    TrimmedThrice("docker://" + body);
    TrimsPrefix("docker://", body);
    Untouched(body);
  }

  lemma TrimmedContainerd(body: string)
    requires ':' !in body
    ensures Trimmed("containerd://" + body, PREFIXES) == body
  {
    TrimmedThrice("containerd://" + body);
    KeepsOther("docker://", "containerd://", body);
    TrimsPrefix("containerd://", body);
    Untouched(body);
  }

  lemma TrimmedCrio(body: string)
    requires ':' !in body
    ensures Trimmed("cri-o://" + body, PREFIXES) == body
  {
    TrimmedThrice("cri-o://" + body);
    KeepsOther("docker://", "cri-o://", body);
    KeepsOther("containerd://", "cri-o://", body);
    TrimsPrefix("cri-o://", body);
  }

  /** An ID without a colon keeps its first twelve characters, under any known runtime or none. */
  lemma ShortIdIgnoresRuntime(body: string, runtime: string)
    requires ':' !in body && (runtime in PREFIXES || runtime == "")
    ensures ShortId(runtime + body) == if |body| > 12 then body[..12] else body
  {
    if runtime == "" {
      assert runtime + body == body;
      TrimmedThrice(body);
      Untouched(body);
    } else {
      TrimmedDocker(body);
      TrimmedContainerd(body);
      TrimmedCrio(body);
    }
  }

  lemma PrefixHas(p: string, s: string, c: char)
    requires p <= s && c in p
    ensures c in s
  {
  }

  lemma Untouched(body: string)
    requires ':' !in body
    ensures forall p :: p in PREFIXES ==> TrimPrefix(body, p) == body
  {
    forall p | p in PREFIXES
      ensures !(p <= body)
    {
      assert p[|p| - 3] == ':';
      if p <= body {
        PrefixHas(p, body, ':');
      }
    }
  }

  // ---------- the two maps as functions of the pod list ----------

  /** A container worth recording. */
  datatype Record = Record(identity: Identity, containerId: string)

  function RecordsOf(pod: Pod, ids: seq<string>): seq<Record> {
    if ids == [] then []
    else
      var front, id := RecordsOf(pod, ids[..|ids| - 1]), ShortId(ids[|ids| - 1]);
      if id == "" then front else front + [Record(IdentityOf(pod), id)]
  }

  /** All recorded containers, in list order; containers without an ID are passed over. */
  function Listed(pods: seq<Pod>): seq<Record> {
    if pods == [] then []
    else
      var pod := pods[|pods| - 1];
      Listed(pods[..|pods| - 1]) + RecordsOf(pod, pod.containerIds)
  }

  lemma RecordsSnoc(pod: Pod, ids: seq<string>, id: string)
    ensures RecordsOf(pod, ids + [id]) ==
            RecordsOf(pod, ids) + if ShortId(id) == "" then [] else [Record(IdentityOf(pod), ShortId(id))]
  {
  }

  /** `now` lists, after `rs`, the records of a pod's first `j` containers: the next one joins or not. */
  lemma RecordsUpTo(pod: Pod, rs: seq<Record>, now: seq<Record>, j: nat)
    requires j < |pod.containerIds| && now == rs + RecordsOf(pod, pod.containerIds[..j])
    ensures var id := ShortId(pod.containerIds[j]);
      (if id == "" then now else now + [Record(IdentityOf(pod), id)]) == rs + RecordsOf(pod, pod.containerIds[..j + 1])
  {
    RecordsSnoc(pod, pod.containerIds[..j], pod.containerIds[j]);
    assert pod.containerIds[..j + 1] == pod.containerIds[..j] + [pod.containerIds[j]];
  }

  lemma {:induction false} RecordsHave(pod: Pod, ids: seq<string>, r: Record)
    ensures r in RecordsOf(pod, ids) <==>
            exists i :: 0 <= i < |ids| && ShortId(ids[i]) != "" && r == Record(IdentityOf(pod), ShortId(ids[i]))
    decreases |ids|
  {
    if ids != [] {
      var front, last := ids[..|ids| - 1], ids[|ids| - 1];
      RecordsHave(pod, front, r);
      assert forall i :: 0 <= i < |front| ==> front[i] == ids[i];
      assert ids[|ids| - 1] == last;
    }
  }

  /** A record of the pod list: one for every container that has an ID, of the pod it runs in. */
  ghost predicate Recorded(pods: seq<Pod>, r: Record, i: int, j: int) {
    && 0 <= i < |pods| && 0 <= j < |pods[i].containerIds|
    && ShortId(pods[i].containerIds[j]) != ""
    && r == Record(IdentityOf(pods[i]), ShortId(pods[i].containerIds[j]))
  }

  lemma {:induction false} ListedIff(pods: seq<Pod>, r: Record)
    ensures r in Listed(pods) <==> exists i, j :: Recorded(pods, r, i, j)
    decreases |pods|
  {
    if pods != [] {
      var front, last := pods[..|pods| - 1], pods[|pods| - 1];
      ListedIff(front, r);
      RecordsHave(last, last.containerIds, r);
      assert forall i :: 0 <= i < |front| ==> front[i] == pods[i];
      if i, j :| Recorded(front, r, i, j) {
        assert Recorded(pods, r, i, j);
      }
      if j :| 0 <= j < |last.containerIds| && ShortId(last.containerIds[j]) != ""
              && r == Record(IdentityOf(last), ShortId(last.containerIds[j]))
      {
        assert Recorded(pods, r, |front|, j);
      }
      if i, j :| Recorded(pods, r, i, j) {
        if i < |front| {
          assert Recorded(front, r, i, j);
        }
      }
    }
  }

  lemma ListedSnoc(pods: seq<Pod>, pod: Pod)
    ensures Listed(pods + [pod]) == Listed(pods) + RecordsOf(pod, pod.containerIds)
  {
    assert (pods + [pod])[..|pods|] == pods;
  }

  /** Later pods are listed later, so their records win. */
  lemma {:induction false} ListedInOrder(xs: seq<Pod>, ys: seq<Pod>)
    ensures Listed(xs + ys) == Listed(xs) + Listed(ys)
    decreases |ys|
  {
    if ys == [] {
      assert xs + ys == xs;
    } else {
      var front, last := ys[..|ys| - 1], ys[|ys| - 1];
      assert ys == front + [last] && xs + ys == xs + front + [last];
      ListedInOrder(xs, front);
      ListedSnoc(front, last);
      ListedSnoc(xs + front, last);
    }
  }

  type Resolver = string -> Option<U64>

  /** The record a short container ID ends up with: the last listed. */
  function ByContainer(rs: seq<Record>): map<string, nat> {
    if rs == [] then map[] else ByContainer(rs[..|rs| - 1])[rs[|rs| - 1].containerId := |rs| - 1]
  }

  /** The record a cgroup ends up with: the last listed whose container resolves to it. */
  function ByCgroup(rs: seq<Record>, resolve: Resolver): (r: map<U64, nat>)
    ensures forall k :: k in r ==> r[k] < |rs|
  {
    if rs == [] then map[]
    else
      var front, last := ByCgroup(rs[..|rs| - 1], resolve), rs[|rs| - 1];
      if resolve(last.containerId).Some? then front[resolve(last.containerId).value := |rs| - 1] else front
  }

  lemma {:induction false} ByContainerIsLast(rs: seq<Record>, id: string)
    ensures id in ByContainer(rs) <==> exists i :: 0 <= i < |rs| && rs[i].containerId == id
    ensures id in ByContainer(rs) ==>
              var i := ByContainer(rs)[id];
              && i < |rs| && rs[i].containerId == id
              && forall j :: i < j < |rs| ==> rs[j].containerId != id
    decreases |rs|
  {
    if rs != [] {
      var front, last := rs[..|rs| - 1], rs[|rs| - 1];
      ByContainerIsLast(front, id);
      assert forall i :: 0 <= i < |front| ==> front[i] == rs[i];
      if last.containerId == id {
        assert rs[|rs| - 1].containerId == id;
      } else if id in ByContainer(front) {
        assert rs[ByContainer(front)[id]].containerId == id;
      }
    }
  }

  /** Both maps follow one list, so they agree even where short IDs or cgroup IDs collide. */
  lemma {:induction false} MapsAgree(rs: seq<Record>, resolve: Resolver, k: U64)
    ensures k in ByCgroup(rs, resolve) <==> exists i :: 0 <= i < |rs| && resolve(rs[i].containerId) == Some(k)
    ensures k in ByCgroup(rs, resolve) ==>
              var i := ByCgroup(rs, resolve)[k];
              && i < |rs| && resolve(rs[i].containerId) == Some(k)
              && rs[i].containerId in ByContainer(rs) && ByContainer(rs)[rs[i].containerId] == i
              && forall j :: i < j < |rs| ==> resolve(rs[j].containerId) != Some(k)
    decreases |rs|
  {
    if rs != [] {
      var front, last := rs[..|rs| - 1], rs[|rs| - 1];
      MapsAgree(front, resolve, k);
      assert forall i :: 0 <= i < |front| ==> front[i] == rs[i];
      if resolve(last.containerId) == Some(k) {
        assert resolve(rs[|rs| - 1].containerId) == Some(k);
      } else if k in ByCgroup(front, resolve) {
        assert resolve(rs[ByCgroup(front, resolve)[k]].containerId) == Some(k);
      }
    }
  }

  /** What a sync over a list of records makes every cgroup resolve to. */
  function SyncedIdentities(rs: seq<Record>, resolve: Resolver): map<U64, Identity> {
    var index := ByCgroup(rs, resolve);
    map k | k in index :: rs[index[k]].identity
  }

  /** One call of syncPods: the pod list, None when the list call fails, and the resolver of the moment. */
  datatype Sync = Sync(pods: Option<seq<Pod>>, resolve: Resolver)

  function AfterSync(ids: map<U64, Identity>, sync: Sync): map<U64, Identity> {
    if sync.pods.Some? then SyncedIdentities(Listed(sync.pods.value), sync.resolve) else ids
  }

  /** What every cgroup resolves to after the first `n` of a list of syncs. */
  function ViewAt(ids: map<U64, Identity>, syncs: seq<Sync>, n: nat): map<U64, Identity>
    requires n <= |syncs|
  {
    if n == 0 then ids else AfterSync(ViewAt(ids, syncs, n - 1), syncs[n - 1])
  }

  /** Every cgroup that belongs to a pod belongs to a team. */
  ghost predicate Named(ids: map<U64, Identity>) {
    forall g :: g in ids ==> ids[g].team != ""
  }

  lemma {:induction false} RecordsNamed(pod: Pod, ids: seq<string>)
    ensures forall r :: r in RecordsOf(pod, ids) ==> r.identity == IdentityOf(pod)
    decreases |ids|
  {
    if ids != [] {
      RecordsNamed(pod, ids[..|ids| - 1]);
    }
  }

  lemma {:induction false} ListedNamed(pods: seq<Pod>)
    ensures forall r :: r in Listed(pods) ==> r.identity.team != ""
    decreases |pods|
  {
    if pods != [] {
      var pod := pods[|pods| - 1];
      ListedNamed(pods[..|pods| - 1]);
      RecordsNamed(pod, pod.containerIds);
      AlwaysATeam(pod);
    }
  }

  lemma {:induction false} ViewsNamed(ids: map<U64, Identity>, syncs: seq<Sync>, n: nat)
    requires Named(ids) && n <= |syncs|
    ensures Named(ViewAt(ids, syncs, n))
  {
    if n > 0 {
      ViewsNamed(ids, syncs, n - 1);
      if syncs[n - 1].pods.Some? {
        ListedNamed(syncs[n - 1].pods.value);
      }
    }
  }

  // ---------- the enricher ----------

  /** The objects created for a list of records. */
  ghost predicate Realized(infos: seq<PodInfo>, rs: seq<Record>, resolve: Resolver)
    reads set x | x in infos
  {
    && |infos| == |rs|
    && forall i :: 0 <= i < |rs| ==>
         && infos[i].identity == rs[i].identity && infos[i].containerId == rs[i].containerId
         && infos[i].cgroupId == if resolve(rs[i].containerId).Some? then resolve(rs[i].containerId).value else 0
  }

  ghost predicate Holds<K>(m: map<K, PodInfo>, index: map<K, nat>, infos: seq<PodInfo>) {
    m.Keys == index.Keys && forall k :: k in m ==> index[k] < |infos| && m[k] == infos[index[k]]
  }

  /** The tail of the inner loop: a new record, entered in both maps. */
  method AddRecord(identity: Identity, containerId: string, resolve: Resolver,
                   cgroupMap: map<U64, PodInfo>, containerMap: map<string, PodInfo>,
                   ghost infos: seq<PodInfo>, ghost rs: seq<Record>)
    returns (cgroupMap': map<U64, PodInfo>, containerMap': map<string, PodInfo>, info: PodInfo)
    requires Realized(infos, rs, resolve)
    requires Holds(containerMap, ByContainer(rs), infos) && Holds(cgroupMap, ByCgroup(rs, resolve), infos)
    ensures fresh(info) && Realized(infos + [info], rs + [Record(identity, containerId)], resolve)
    ensures Holds(containerMap', ByContainer(rs + [Record(identity, containerId)]), infos + [info])
    ensures Holds(cgroupMap', ByCgroup(rs + [Record(identity, containerId)], resolve), infos + [info])
  {
    cgroupMap', containerMap' := cgroupMap, containerMap;
    info := new PodInfo(identity, containerId);
    containerMap' := containerMap'[containerId := info];
    var cgroup := resolve(containerId);
    if cgroup.Some? {
      info.cgroupId := cgroup.value;
      cgroupMap' := cgroupMap'[cgroup.value := info];
    }
    assert (rs + [Record(identity, containerId)])[..|rs + [Record(identity, containerId)]| - 1] == rs;
    assert forall x :: x in infos ==> x != info;
  }

  /** The inner loop: the containers of one pod. */
  method AddPod(pod: Pod, resolve: Resolver, cgroupMap: map<U64, PodInfo>, containerMap: map<string, PodInfo>,
                ghost infos: seq<PodInfo>, ghost rs: seq<Record>)
    returns (cgroupMap': map<U64, PodInfo>, containerMap': map<string, PodInfo>, ghost infos': seq<PodInfo>)
    requires Realized(infos, rs, resolve)
    requires Holds(containerMap, ByContainer(rs), infos) && Holds(cgroupMap, ByCgroup(rs, resolve), infos)
    ensures Realized(infos', rs + RecordsOf(pod, pod.containerIds), resolve)
    ensures Holds(containerMap', ByContainer(rs + RecordsOf(pod, pod.containerIds)), infos')
    ensures Holds(cgroupMap', ByCgroup(rs + RecordsOf(pod, pod.containerIds), resolve), infos')
  {
    cgroupMap', containerMap', infos' := cgroupMap, containerMap, infos;
    ghost var now := rs;
    for j := 0 to |pod.containerIds|
      invariant now == rs + RecordsOf(pod, pod.containerIds[..j])
      invariant Realized(infos', now, resolve)
      invariant Holds(containerMap', ByContainer(now), infos')
      invariant Holds(cgroupMap', ByCgroup(now, resolve), infos')
    {
      var containerId := SanitizeContainerId(pod.containerIds[j]);
      RecordsUpTo(pod, rs, now, j);
      if containerId == "" {
        continue;
      }
      var info;
      cgroupMap', containerMap', info := AddRecord(
        IdentityOf(pod), containerId, resolve, cgroupMap', containerMap', infos', now);
      infos' := infos' + [info];
      now := now + [Record(IdentityOf(pod), containerId)];
    }
    assert pod.containerIds[..|pod.containerIds|] == pod.containerIds;
  }

  /** The outer loop: all pods, into two new maps. */
  method AddPods(pods: seq<Pod>, resolve: Resolver)
    returns (cgroupMap: map<U64, PodInfo>, containerMap: map<string, PodInfo>, ghost infos: seq<PodInfo>)
    ensures Realized(infos, Listed(pods), resolve)
    ensures Holds(containerMap, ByContainer(Listed(pods)), infos)
    ensures Holds(cgroupMap, ByCgroup(Listed(pods), resolve), infos)
  {
    cgroupMap, containerMap, infos := map[], map[], [];
    for i := 0 to |pods|
      invariant Realized(infos, Listed(pods[..i]), resolve)
      invariant Holds(containerMap, ByContainer(Listed(pods[..i])), infos)
      invariant Holds(cgroupMap, ByCgroup(Listed(pods[..i]), resolve), infos)
    {
      cgroupMap, containerMap, infos := AddPod(pods[i], resolve, cgroupMap, containerMap, infos, Listed(pods[..i]));
      assert pods[..i + 1][..i] == pods[..i];
    }
    assert pods[..|pods|] == pods;
  }

  class Enricher {
    var cgroupToPod: map<U64, PodInfo>
    var containerToPod: map<string, PodInfo>

    /** Each cgroup maps to the very record its container maps to, and that record names the cgroup. */
    ghost predicate Agrees()
      reads this, cgroupToPod.Values
    {
      forall k :: k in cgroupToPod ==>
        var info := cgroupToPod[k];
        && info.cgroupId == k
        && info.containerId in containerToPod && containerToPod[info.containerId] == info
    }

    /** What Resolve answers, as values. */
    function Identities(): map<U64, Identity>
      reads this
    {
      map k | k in cgroupToPod :: cgroupToPod[k].identity
    }

    constructor ()
      ensures Agrees() && Identities() == map[]
    {
      cgroupToPod, containerToPod := map[], map[];
    }

    /** A cgroup of no pod is answered with null.  While the maps agree, any other answer is a record
        that names the cgroup asked for and that is also held under its own container ID. */
    method Resolve(cgroup: U64) returns (info: PodInfo?)
      ensures info != null <==> cgroup in Identities()
      ensures info != null ==> info.identity == Identities()[cgroup]
      ensures info != null && Agrees() ==>
                && info.cgroupId == cgroup
                && info.containerId in containerToPod && containerToPod[info.containerId] == info
    {
      return if cgroup in cgroupToPod then cgroupToPod[cgroup] else null;
    }

    /** `pods` is None when the list call fails; then both maps stay as they were. */
    method SyncPods(pods: Option<seq<Pod>>, resolve: Resolver) returns (ok: bool, ghost infos: seq<PodInfo>)
      modifies this
      ensures ok <==> pods.Some?
      ensures !ok ==> cgroupToPod == old(cgroupToPod) && containerToPod == old(containerToPod)
      ensures ok ==>
                && Realized(infos, Listed(pods.value), resolve)
                && Holds(containerToPod, ByContainer(Listed(pods.value)), infos)
                && Holds(cgroupToPod, ByCgroup(Listed(pods.value), resolve), infos)
                && Agrees()
      ensures Identities() == AfterSync(old(Identities()), Sync(pods, resolve))
    {
      infos := [];
      if pods.None? {
        return false, infos;
      }
      var newCgroupMap, newContainerMap;
      newCgroupMap, newContainerMap, infos := AddPods(pods.value, resolve);
      cgroupToPod, containerToPod := newCgroupMap, newContainerMap;
      SyncedAgrees(infos, Listed(pods.value), resolve);
      SyncedView(infos, Listed(pods.value), resolve);
      ok := true;
    }

    /** Syncs that other goroutines get in: any number of those still due. */
    method SomeSyncs(syncs: seq<Sync>, next: nat, ghost start: map<U64, Identity>) returns (next': nat)
      requires next <= |syncs| && Identities() == ViewAt(start, syncs, next)
      modifies this
      ensures next <= next' <= |syncs| && Identities() == ViewAt(start, syncs, next')
    {
      var upTo: nat :| next <= upTo <= |syncs|;
      next' := next;
      while next' < upTo
        invariant next <= next' <= upTo && Identities() == ViewAt(start, syncs, next')
      {
        var _, _ := SyncPods(syncs[next'].pods, syncs[next'].resolve);
        next' := next' + 1;
      }
    }

    /** Resolve, when syncs may get in before it. */
    method ResolveAmid(cgroup: U64, syncs: seq<Sync>, next: nat, ghost start: map<U64, Identity>)
      returns (info: PodInfo?, next': nat)
      requires next <= |syncs| && Identities() == ViewAt(start, syncs, next)
      modifies this
      ensures next <= next' <= |syncs| && Identities() == ViewAt(start, syncs, next')
      ensures info != null <==> cgroup in ViewAt(start, syncs, next')
      ensures info != null ==> info.identity == ViewAt(start, syncs, next')[cgroup]
    {
      next' := SomeSyncs(syncs, next, start);
      info := Resolve(cgroup);
    }

    lemma SyncedView(infos: seq<PodInfo>, rs: seq<Record>, resolve: Resolver)
      requires Realized(infos, rs, resolve) && Holds(cgroupToPod, ByCgroup(rs, resolve), infos)
      ensures Identities() == SyncedIdentities(rs, resolve)
    {
    }

    lemma SyncedAgrees(infos: seq<PodInfo>, rs: seq<Record>, resolve: Resolver)
      requires Realized(infos, rs, resolve)
      requires Holds(containerToPod, ByContainer(rs), infos) && Holds(cgroupToPod, ByCgroup(rs, resolve), infos)
      ensures Agrees()
    {
      forall k | k in cgroupToPod
        ensures var info := cgroupToPod[k];
          info.cgroupId == k && info.containerId in containerToPod && containerToPod[info.containerId] == info
      {
        MapsAgree(rs, resolve, k);
      }
    }
  }
}
