/** bpf/network_bytes.c: bytes and packets per cgroup, with egress classed as internet or cross-AZ. */
module NetworkBytes {
  import opened Counters
  import opened RacyCounters
  import opened Sums
  import opened Words
  import opened Wrappers

  // ---------- classifying a destination ----------

  datatype AzSubnet = AzSubnet(subnet: bv32, mask: bv32, azId: bv8)

  const AZ_ENTRIES := 64

  predicate IsInternet(dest: bv32) {
    if (dest & 0xFF00_0000) == 0x0A00_0000 then false
    else if (dest & 0xFFF0_0000) == 0xAC10_0000 then false
    else if (dest & 0xFFFF_0000) == 0xC0A8_0000 then false
    else true
  }

  /** Four octets as one address, the first octet highest. */
  function Ip(a: bv8, b: bv8, c: bv8, d: bv8): bv32 {
    ((a as bv32) << 24) | ((b as bv32) << 16) | ((c as bv32) << 8) | (d as bv32)
  }

  lemma TenSlash8(dest: bv32)
    ensures (dest & 0xFF00_0000) == 0x0A00_0000 <==> 0x0A00_0000 <= dest <= 0x0AFF_FFFF
  {
  }

  lemma OneSevenTwoSlash12(dest: bv32)
    ensures (dest & 0xFFF0_0000) == 0xAC10_0000 <==> 0xAC10_0000 <= dest <= 0xAC1F_FFFF
  {
  }

  lemma OneNineTwoSlash16(dest: bv32)
    ensures (dest & 0xFFFF_0000) == 0xC0A8_0000 <==> 0xC0A8_0000 <= dest <= 0xC0A8_FFFF
  {
  }

  lemma PrivateBounds()
    ensures Ip(10, 0, 0, 0) == 0x0A00_0000 && Ip(10, 255, 255, 255) == 0x0AFF_FFFF
    ensures Ip(172, 16, 0, 0) == 0xAC10_0000 && Ip(172, 31, 255, 255) == 0xAC1F_FFFF
    ensures Ip(192, 168, 0, 0) == 0xC0A8_0000 && Ip(192, 168, 255, 255) == 0xC0A8_FFFF
  {
  }

  /** The masks cut out exactly the three address ranges of section 3 of RFC 1918. */
  lemma InternetIsOutsideRfc1918(dest: bv32)
    ensures IsInternet(dest) <==>
            !( || Ip(10, 0, 0, 0) <= dest <= Ip(10, 255, 255, 255)
               || Ip(172, 16, 0, 0) <= dest <= Ip(172, 31, 255, 255)
               || Ip(192, 168, 0, 0) <= dest <= Ip(192, 168, 255, 255))
  {
    PrivateBounds();
    TenSlash8(dest);
    OneSevenTwoSlash12(dest);
    OneNineTwoSlash16(dest);
  }

  predicate Matches(entry: AzSubnet, dest: bv32) {
    (dest & entry.mask) == entry.subnet
  }

  /** A mask of leading ones. */
  predicate IsPrefix(mask: bv32) {
    (!mask & (!mask + 1)) == 0
  }

  /** The block of addresses of an entry: none if its subnet has a host bit. */
  predicate InBlock(entry: AzSubnet, dest: bv32) {
    (entry.subnet & !entry.mask) == 0 && entry.subnet <= dest <= (entry.subnet | !entry.mask)
  }

  // Addresses are compared byte by byte, which keeps the bit-level proofs small.

  lemma SameByte3(a: bv32, b: bv32)
    requires a <= b && b <= a
    ensures a >> 24 == b >> 24
  {
  }

  lemma SameByte2(a: bv32, b: bv32)
    requires a <= b && b <= a && a >> 24 == b >> 24
    ensures a >> 16 == b >> 16
  {
  }

  lemma SameByte1(a: bv32, b: bv32)
    requires a <= b && b <= a && a >> 16 == b >> 16
    ensures a >> 8 == b >> 8
  {
  }

  lemma SameByte0(a: bv32, b: bv32)
    requires a <= b && b <= a && a >> 8 == b >> 8
    ensures a == b
  {
  }

  lemma Antisymmetric(a: bv32, b: bv32)
    requires a <= b && b <= a
    ensures a == b
  {
    SameByte3(a, b);
    SameByte2(a, b);
    SameByte1(a, b);
    SameByte0(a, b);
  }

  ghost predicate AllPrefixes(table: seq<AzSubnet>) {
    forall i :: 0 <= i < |table| ==> IsPrefix(table[i].mask)
  }

  lemma MaskedAbove(entry: AzSubnet, dest: bv32)
    requires IsPrefix(entry.mask) && InBlock(entry, dest)
    ensures entry.subnet <= (dest & entry.mask)
  {
  }

  lemma MaskedBelow(entry: AzSubnet, dest: bv32)
    requires IsPrefix(entry.mask) && InBlock(entry, dest)
    ensures (dest & entry.mask) <= entry.subnet
  {
  }

  lemma Squeezed(entry: AzSubnet, dest: bv32)
    requires entry.subnet <= (dest & entry.mask) && (dest & entry.mask) <= entry.subnet
    ensures Matches(entry, dest)
  {
    Antisymmetric(dest & entry.mask, entry.subnet);
  }

  lemma InBlockMatches(entry: AzSubnet, dest: bv32)
    requires IsPrefix(entry.mask) && InBlock(entry, dest)
    ensures Matches(entry, dest)
  {
    MaskedAbove(entry, dest);
    MaskedBelow(entry, dest);
    Squeezed(entry, dest);
  }

  lemma MatchesInBlock(entry: AzSubnet, dest: bv32)
    requires Matches(entry, dest)
    ensures InBlock(entry, dest)
  {
  }

  lemma MatchesIffInBlock(entry: AzSubnet, dest: bv32)
    requires IsPrefix(entry.mask)
    ensures Matches(entry, dest) <==> InBlock(entry, dest)
  {
    if Matches(entry, dest) {
      MatchesInBlock(entry, dest);
    } else if InBlock(entry, dest) {
      InBlockMatches(entry, dest);
    }
  }

  /** Under a prefix mask an entry covers exactly the addresses from its subnet to the one with every host
      bit set; with a host bit in its subnet it covers none. */
  lemma PrefixCovers(entry: AzSubnet, dest: bv32)
    requires IsPrefix(entry.mask)
    ensures Matches(entry, dest) <==>
            (entry.subnet & !entry.mask) == 0 && entry.subnet <= dest <= (entry.subnet | !entry.mask)
  {
    if (entry.subnet & !entry.mask) == 0 && entry.subnet <= dest <= (entry.subnet | !entry.mask) {
      InBlockMatches(entry, dest);
    } else if Matches(entry, dest) {
      MatchesInBlock(entry, dest);
    }
  }

  /** The entries the search can reach: those before the first zero subnet. */
  function Active(table: seq<AzSubnet>): seq<AzSubnet> {
    if table == [] || table[0].subnet == 0 then [] else [table[0]] + Active(table[1..])
  }

  /** Entry `i` is the first that matches. */
  predicate FirstMatch(active: seq<AzSubnet>, dest: bv32, i: nat) {
    && i < |active| && Matches(active[i], dest)
    && forall j :: 0 <= j < i ==> !Matches(active[j], dest)
  }

  /** The destination's zone, as the table gives it, is known and differs from the node's. */
  predicate CrossAz(active: seq<AzSubnet>, myAz: bv8, dest: bv32) {
    exists i :: 0 <= i < |active| && FirstMatch(active, dest, i) && active[i].azId != myAz
  }

  lemma {:induction false} ActiveIsPrefix(table: seq<AzSubnet>, n: nat)
    requires n <= |table| && forall j :: 0 <= j < n ==> table[j].subnet != 0
    requires n == |table| || table[n].subnet == 0
    ensures Active(table) == table[..n]
  {
    if n > 0 {
      ActiveIsPrefix(table[1..], n - 1);
      assert table[..n] == [table[0]] + table[1..][..n - 1];
    }
  }

  /** The search ends at entry `i`: the first block to hold the address, before any zero subnet. */
  predicate FirstBlock(table: seq<AzSubnet>, dest: bv32, i: nat) {
    && i < |table| && InBlock(table[i], dest)
    && (forall j :: 0 <= j <= i ==> table[j].subnet != 0)
    && forall j :: 0 <= j < i ==> !InBlock(table[j], dest)
  }

  /** The first block to hold the address is of another zone. */
  predicate ByRange(table: seq<AzSubnet>, myAz: bv8, dest: bv32) {
    exists i :: 0 <= i < |table| && FirstBlock(table, dest, i) && table[i].azId != myAz
  }

  lemma {:induction false} ActiveIs(table: seq<AzSubnet>)
    ensures |Active(table)| <= |table|
    ensures forall j :: 0 <= j < |Active(table)| ==> Active(table)[j] == table[j] && table[j].subnet != 0
    ensures |Active(table)| < |table| ==> table[|Active(table)|].subnet == 0
  {
    if table != [] && table[0].subnet != 0 {
      ActiveIs(table[1..]);
    }
  }

  lemma AllMatchInBlock(table: seq<AzSubnet>, dest: bv32)
    requires AllPrefixes(table)
    ensures forall i :: 0 <= i < |table| ==> (Matches(table[i], dest) <==> InBlock(table[i], dest))
  {
    forall i | 0 <= i < |table|
      ensures Matches(table[i], dest) <==> InBlock(table[i], dest)
    {
      MatchesIffInBlock(table[i], dest);
    }
  }

  lemma FirstIsFirst(table: seq<AzSubnet>, dest: bv32, i: nat)
    requires forall j :: 0 <= j < |table| ==> (Matches(table[j], dest) <==> InBlock(table[j], dest))
    ensures FirstMatch(Active(table), dest, i) <==> FirstBlock(table, dest, i)
  {
    ActiveIs(table);
  }

  /** With prefix masks the answer is read off the address ranges: yes exactly when the first block to hold
      the address is of another zone. */
  lemma CrossAzByRange(table: seq<AzSubnet>, myAz: bv8, dest: bv32)
    requires AllPrefixes(table)
    ensures CrossAz(Active(table), myAz, dest) <==> ByRange(table, myAz, dest)
  {
    ActiveIs(table);
    AllMatchInBlock(table, dest);
    forall i: nat
      ensures FirstMatch(Active(table), dest, i) <==> FirstBlock(table, dest, i)
    {
      FirstIsFirst(table, dest, i);
    }
  }

  lemma RangeVerdict(table: seq<AzSubnet>, nodeAz: Option<bv8>, dest: bv32)
    ensures nodeAz.Some? && AllPrefixes(table) ==>
              CrossAz(Active(table), nodeAz.value, dest) == ByRange(table, nodeAz.value, dest)
  {
    if nodeAz.Some? && AllPrefixes(table) {
      CrossAzByRange(table, nodeAz.value, dest);
    }
  }

  lemma SameMatches(active: seq<AzSubnet>, myAz: bv8, dest: bv32, dest': bv32)
    requires forall i :: 0 <= i < |active| ==> (Matches(active[i], dest) <==> Matches(active[i], dest'))
    ensures CrossAz(active, myAz, dest) <==> CrossAz(active, myAz, dest')
  {
    forall i: nat
      ensures FirstMatch(active, dest, i) <==> FirstMatch(active, dest', i)
    {
    }
  }

  /** Host bits never count: addresses that no mask of the table tells apart get one answer. */
  lemma HostBitsImmaterial(active: seq<AzSubnet>, myAz: bv8, dest: bv32, dest': bv32)
    requires forall i :: 0 <= i < |active| ==> (dest & active[i].mask) == (dest' & active[i].mask)
    ensures CrossAz(active, myAz, dest) <==> CrossAz(active, myAz, dest')
  {
    SameMatches(active, myAz, dest, dest');
  }

  /** A table of one /16 of another zone: the /16 is cross-AZ, all of it and nothing else. */
  lemma OneSlash16(dest: bv32)
    ensures CrossAz(Active([AzSubnet(Ip(10, 1, 0, 0), Ip(255, 255, 0, 0), 2)]), 1, dest) <==>
            Ip(10, 1, 0, 0) <= dest <= Ip(10, 1, 255, 255)
  {
    var entry := AzSubnet(Ip(10, 1, 0, 0), Ip(255, 255, 0, 0), 2);
    assert entry.subnet == 0x0A01_0000 && entry.mask == 0xFFFF_0000 && Ip(10, 1, 255, 255) == 0x0A01_FFFF;
    CrossAzByRange([entry], 1, dest);
    assert InBlock(entry, dest) <==> 0x0A01_0000 <= dest <= 0x0A01_FFFF;
    assert InBlock(entry, dest) ==> FirstBlock([entry], dest, 0);
  }

  /** The search loop answers the verdict of the first match among the active entries. */
  method IsCrossAz(table: array<AzSubnet>, nodeAz: Option<bv8>, dest: bv32) returns (r: bool)
    requires table.Length == 64
    ensures r == (nodeAz.Some? && CrossAz(Active(table[..]), nodeAz.value, dest))
    ensures AllPrefixes(table[..]) ==> r == (nodeAz.Some? && ByRange(table[..], nodeAz.value, dest))
  {
    RangeVerdict(table[..], nodeAz, dest);
    if nodeAz.None? {
      return false;
    }
    ghost var active := Active(table[..]);
    for i := 0 to AZ_ENTRIES
      invariant forall j :: 0 <= j < i ==> table[j].subnet != 0 && !Matches(table[j], dest)
    {
      var entry := table[i];
      if entry.subnet == 0 {
        ActiveIsPrefix(table[..], i);
        return false;
      }
      if Matches(entry, dest) {
        ActiveReaches(table[..], i);
        assert FirstMatch(active, dest, i);
        return entry.azId != nodeAz.value;
      }
    }
    ActiveIsPrefix(table[..], AZ_ENTRIES);
    return false;
  }

  lemma {:induction false} ActiveReaches(table: seq<AzSubnet>, i: nat)
    requires i < |table| && forall j :: 0 <= j <= i ==> table[j].subnet != 0
    ensures i < |Active(table)| && forall j :: 0 <= j <= i ==> Active(table)[j] == table[j]
  {
    if i > 0 {
      ActiveReaches(table[1..], i - 1);
      assert forall j :: 1 <= j <= i ==> Active(table)[j] == Active(table[1..])[j - 1] && table[j] == table[1..][j - 1];
    }
  }

  /** Any two entries that match one address agree on whether it is in another zone. */
  ghost predicate Consistent(active: seq<AzSubnet>, myAz: bv8) {
    forall dest: bv32, a, b ::
      a in active && b in active && Matches(a, dest) && Matches(b, dest) ==> (a.azId != myAz <==> b.azId != myAz)
  }

  ghost predicate OrderFree(active: seq<AzSubnet>, myAz: bv8) {
    forall other: seq<AzSubnet>, dest: bv32 ::
      multiset(other) == multiset(active) ==> CrossAz(other, myAz, dest) == CrossAz(active, myAz, dest)
  }

  ghost predicate Disjoint(active: seq<AzSubnet>) {
    forall i, j, dest: bv32 :: 0 <= i < j < |active| ==> !(Matches(active[i], dest) && Matches(active[j], dest))
  }

  lemma {:induction false} FirstExists(active: seq<AzSubnet>, dest: bv32, i: nat) returns (k: nat)
    requires i < |active| && Matches(active[i], dest)
    ensures k <= i && FirstMatch(active, dest, k)
  {
    k := i;
    if j :| 0 <= j < i && Matches(active[j], dest) {
      k := FirstExists(active, dest, j);
    }
  }

  /** On a consistent table the verdict is that of any match. */
  lemma ConsistentVerdict(active: seq<AzSubnet>, myAz: bv8, dest: bv32)
    requires Consistent(active, myAz)
    ensures CrossAz(active, myAz, dest) <==> exists a :: a in active && Matches(a, dest) && a.azId != myAz
  {
    if a :| a in active && Matches(a, dest) && a.azId != myAz {
      var i :| 0 <= i < |active| && active[i] == a;
      var k := FirstExists(active, dest, i);
      assert active[k] in active;
    }
  }

  lemma SameEntries(xs: seq<AzSubnet>, ys: seq<AzSubnet>, a: AzSubnet)
    requires multiset(xs) == multiset(ys)
    ensures a in xs <==> a in ys
  {
    assert a in xs <==> a in multiset(xs);
  }

  /** The order of the entries never changes an answer exactly when overlapping entries agree. */
  lemma OrderFreeIffConsistent(active: seq<AzSubnet>, myAz: bv8)
    ensures OrderFree(active, myAz) <==> Consistent(active, myAz)
  {
    if Consistent(active, myAz) {
      forall other: seq<AzSubnet>, dest: bv32 | multiset(other) == multiset(active)
        ensures CrossAz(other, myAz, dest) == CrossAz(active, myAz, dest)
      {
        forall a ensures a in other <==> a in active { SameEntries(other, active, a); }
        ConsistentVerdict(active, myAz, dest);
        ConsistentVerdict(other, myAz, dest);
      }
    }
    if !Consistent(active, myAz) {
      var dest: bv32, a, b :| a in active && b in active && Matches(a, dest) && Matches(b, dest)
                              && a.azId != myAz && b.azId == myAz;
      var toFront := MoveToFront(active, a);
      var toFront' := MoveToFront(active, b);
      assert FirstMatch(toFront, dest, 0);
      assert CrossAz(toFront, myAz, dest);
      assert FirstMatch(toFront', dest, 0);
      assert !CrossAz(toFront', myAz, dest);
      assert !OrderFree(active, myAz);
    }
  }

  lemma MoveToFront(active: seq<AzSubnet>, a: AzSubnet) returns (moved: seq<AzSubnet>)
    requires a in active
    ensures moved != [] && moved[0] == a && multiset(moved) == multiset(active)
  {
    var i :| 0 <= i < |active| && active[i] == a;
    moved := [a] + (active[..i] + active[i + 1..]);
    assert active == active[..i] + ([a] + active[i + 1..]);
  }

  /** Pairwise disjoint subnets can be listed in any order. */
  lemma DisjointIsOrderFree(active: seq<AzSubnet>, myAz: bv8)
    requires Disjoint(active)
    ensures OrderFree(active, myAz)
  {
    forall dest: bv32, a, b | a in active && b in active && Matches(a, dest) && Matches(b, dest)
      ensures a.azId == b.azId
    {
      var i :| 0 <= i < |active| && active[i] == a;
      var j :| 0 <= j < |active| && active[j] == b;
      assert Matches(active[i], dest) && Matches(active[j], dest);
      assert i == j;
    }
    OrderFreeIffConsistent(active, myAz);
  }

  // ---------- the counters ----------

  const INGRESS_BYTES: Field := 0
  const EGRESS_BYTES: Field := 1
  const INGRESS_PACKETS: Field := 2
  const EGRESS_PACKETS: Field := 3
  const CROSS_AZ_BYTES: Field := 4
  const INTERNET_BYTES: Field := 5

  datatype PodTraffic = PodTraffic(
    bytesIngress: U64, bytesEgress: U64, packetsIngress: U64, packetsEgress: U64,
    bytesCrossAz: U64, bytesInternet: U64)

  function Row(t: PodTraffic): Values {
    [t.bytesIngress, t.bytesEgress, t.packetsIngress, t.packetsEgress, t.bytesCrossAz, t.bytesInternet]
  }

  /** A packet as the TC hooks see it; the destination is None when no IP header fits. */
  datatype Packet =
    | Ingress(cgroup: U64, len: U32)
    | Egress(cgroup: U64, len: U32, dest: Option<bv32>)

  /** What decides the class of an egress packet: the address table and the node's zone. */
  datatype Zones = Zones(active: seq<AzSubnet>, nodeAz: Option<bv8>)

  predicate ToInternet(p: Packet) {
    p.Egress? && p.dest.Some? && IsInternet(p.dest.value)
  }

  predicate ToOtherZone(z: Zones, p: Packet) {
    && p.Egress? && p.dest.Some? && !IsInternet(p.dest.value)
    && z.nodeAz.Some? && CrossAz(z.active, z.nodeAz.value, p.dest.value)
  }

  /** The additions the hooks make for a packet. */
  function PacketSample(z: Zones, p: Packet): Sample {
    Sample(p.cgroup,
           if p.Ingress? then [Bump(INGRESS_BYTES, p.len), Bump(INGRESS_PACKETS, 1)]
           else if ToInternet(p)
           then [Bump(EGRESS_BYTES, p.len), Bump(EGRESS_PACKETS, 1), Bump(INTERNET_BYTES, p.len)]
           else if ToOtherZone(z, p)
           then [Bump(EGRESS_BYTES, p.len), Bump(EGRESS_PACKETS, 1), Bump(CROSS_AZ_BYTES, p.len)]
           else [Bump(EGRESS_BYTES, p.len), Bump(EGRESS_PACKETS, 1)])
  }

  lemma RowIngress(t: PodTraffic, z: Zones, p: Packet)
    requires p.Ingress?
    ensures BumpedAll(Row(t), PacketSample(z, p).bumps) ==
            Row(t.(bytesIngress := Add64(t.bytesIngress, p.len), packetsIngress := Add64(t.packetsIngress, 1)))
  {
    BumpTwo(Row(t), Bump(INGRESS_BYTES, p.len), Bump(INGRESS_PACKETS, 1));
  }

  lemma RowEgress(t: PodTraffic, z: Zones, p: Packet)
    requires p.Egress?
    ensures BumpedAll(Row(t), PacketSample(z, p).bumps) ==
            Row(t.(bytesEgress := Add64(t.bytesEgress, p.len), packetsEgress := Add64(t.packetsEgress, 1),
                   bytesInternet := if ToInternet(p) then Add64(t.bytesInternet, p.len) else t.bytesInternet,
                   bytesCrossAz := if ToOtherZone(z, p) then Add64(t.bytesCrossAz, p.len) else t.bytesCrossAz))
  {
    var bytes, packets := Bump(EGRESS_BYTES, p.len), Bump(EGRESS_PACKETS, 1);
    BumpTwo(Row(t), bytes, packets);
    BumpThree(Row(t), bytes, packets, Bump(INTERNET_BYTES, p.len));
    BumpThree(Row(t), bytes, packets, Bump(CROSS_AZ_BYTES, p.len));
  }

  function Rows(m: map<U64, PodTraffic>): map<U64, Values> {
    RowsOf(m, Row)
  }

  const FRESH := PodTraffic(0, 0, 0, 0, 0, 0)

  /** Writing back an element that was found or created is what the atomic handler does. */
  lemma WriteBack(m: map<U64, PodTraffic>, sample: Sample, t: PodTraffic, t': PodTraffic)
    requires sample.key in m || |m| < CAPACITY
    requires t == (if sample.key in m then m[sample.key] else FRESH)
    requires Row(t') == BumpedAll(Row(t), sample.bumps)
    ensures Rows(m[sample.key := t']) == Handle(Rows(m), sample)
  {
    RowsWrite(m, Row, sample.key, t');
    assert Row(FRESH) == ZERO;
  }

  /** An element before and after one outgoing packet. */
  ghost predicate Sent(was: PodTraffic, t: PodTraffic, len: U32, internet: bool, otherZone: bool) {
    && t.bytesEgress == (was.bytesEgress + len) % TWO64 && t.packetsEgress == (was.packetsEgress + 1) % TWO64
    && t.bytesInternet == (was.bytesInternet + if internet then len else 0) % TWO64
    && t.bytesCrossAz == (was.bytesCrossAz + if otherZone then len else 0) % TWO64
    && t.bytesIngress == was.bytesIngress && t.packetsIngress == was.packetsIngress
  }

  /** An element before and after one incoming packet. */
  ghost predicate Received(was: PodTraffic, t: PodTraffic, len: U32) {
    && t.bytesIngress == (was.bytesIngress + len) % TWO64 && t.packetsIngress == (was.packetsIngress + 1) % TWO64
    && t.bytesEgress == was.bytesEgress && t.packetsEgress == was.packetsEgress
    && t.bytesInternet == was.bytesInternet && t.bytesCrossAz == was.bytesCrossAz
  }

  lemma SentMeans(was: PodTraffic, z: Zones, p: Packet)
    requires p.Egress?
    ensures Sent(was, was.(bytesEgress := Add64(was.bytesEgress, p.len), packetsEgress := Add64(was.packetsEgress, 1),
                   bytesInternet := if ToInternet(p) then Add64(was.bytesInternet, p.len) else was.bytesInternet,
                   bytesCrossAz := if ToOtherZone(z, p) then Add64(was.bytesCrossAz, p.len) else was.bytesCrossAz),
                 p.len, p.dest.Some? && IsInternet(p.dest.value),
                 p.dest.Some? && !IsInternet(p.dest.value) && z.nodeAz.Some?
                 && CrossAz(z.active, z.nodeAz.value, p.dest.value))
  {
  }

  class NetworkProgram {
    var networkMap: map<U64, PodTraffic>
    const azSubnets: array<AzSubnet>
    var nodeAz: Option<bv8>

    ghost function View(): map<U64, Values>
      reads this
    {
      Rows(networkMap)
    }

    ghost function Zoning(): Zones
      reads this, azSubnets
    {
      Zones(Active(azSubnets[..]), nodeAz)
    }

    constructor (azSubnets: array<AzSubnet>, nodeAz: Option<bv8>)
      ensures View() == map[] && this.azSubnets == azSubnets && this.nodeAz == nodeAz
    {
      this.azSubnets := azSubnets;
      this.nodeAz := nodeAz;
      networkMap := map[];
    }

    /** The shared head of both hooks: the element for a cgroup, made on demand unless the map is full. */
    method FindOrCreate(cgroup: U64) returns (found: bool)
      modifies this`networkMap
      ensures found <==> cgroup in networkMap
      ensures found <==> cgroup in old(networkMap) || |old(networkMap)| < 10240
      ensures networkMap == if found && cgroup !in old(networkMap)
                            then old(networkMap)[cgroup := FRESH] else old(networkMap)
    {
      if cgroup !in networkMap {
        if |networkMap| < CAPACITY {
          networkMap := networkMap[cgroup := FRESH];
        }
        if cgroup !in networkMap {
          return false;
        }
      }
      return true;
    }

    method CountEgress(cgroup: U64, len: U32, dest: Option<bv32>)
      requires azSubnets.Length == AZ_ENTRIES
      modifies this`networkMap
      ensures View() == if cgroup == 0 then old(View())
                        else Handle(old(View()), PacketSample(old(Zoning()), Egress(cgroup, len, dest)))
      ensures cgroup == 0 ==> networkMap == old(networkMap)
      ensures networkMap - {cgroup} == old(networkMap) - {cgroup}
      ensures cgroup != 0 ==> (cgroup in networkMap <==> cgroup in old(networkMap) || |old(networkMap)| < 10240)
      ensures cgroup != 0 && cgroup in networkMap ==>
                var was := if cgroup in old(networkMap) then old(networkMap)[cgroup] else PodTraffic(0, 0, 0, 0, 0, 0);
                var internet := dest.Some? && IsInternet(dest.value);
                var otherZone := dest.Some? && !internet && nodeAz.Some?
                                 && CrossAz(Active(azSubnets[..]), nodeAz.value, dest.value);
                Sent(was, networkMap[cgroup], len, internet, otherZone)
    {
      if cgroup == 0 {
        return;
      }
      ghost var p, z, was := Egress(cgroup, len, dest), Zoning(), networkMap;
      RowsWrite(was, Row, cgroup, FRESH);
      var found := FindOrCreate(cgroup);
      if !found {
        return;
      }
      ghost var t0 := networkMap[cgroup];
      var t := WithEgress(networkMap[cgroup], len, dest, p);
      networkMap := networkMap[cgroup := t];
      RowEgress(t0, z, p);
      SentMeans(t0, z, p);
      WriteBack(was, PacketSample(z, p), t0, t);
      assert networkMap == was[cgroup := t];
      RestKept(was, cgroup, t);
    }

    /** The additions of count_egress. */
    method WithEgress(t: PodTraffic, len: U32, dest: Option<bv32>, ghost p: Packet) returns (t': PodTraffic)
      requires azSubnets.Length == AZ_ENTRIES && p.Egress? && p.len == len && p.dest == dest
      ensures t' == t.(bytesEgress := Add64(t.bytesEgress, len), packetsEgress := Add64(t.packetsEgress, 1),
                       bytesInternet := if ToInternet(p) then Add64(t.bytesInternet, len) else t.bytesInternet,
                       bytesCrossAz := if ToOtherZone(Zoning(), p) then Add64(t.bytesCrossAz, len) else t.bytesCrossAz)
    {
      t' := t.(bytesEgress := Add64(t.bytesEgress, len));
      t' := t'.(packetsEgress := Add64(t'.packetsEgress, 1));
      if dest.Some? {
        if IsInternet(dest.value) {
          t' := t'.(bytesInternet := Add64(t'.bytesInternet, len));
        } else {
          var cross := IsCrossAz(azSubnets, nodeAz, dest.value);
          if cross {
            t' := t'.(bytesCrossAz := Add64(t'.bytesCrossAz, len));
          }
        }
      }
    }

    method CountIngress(cgroup: U64, len: U32)
      modifies this`networkMap
      ensures View() == if cgroup == 0 then old(View())
                        else Handle(old(View()), PacketSample(old(Zoning()), Ingress(cgroup, len)))
      ensures cgroup == 0 ==> networkMap == old(networkMap)
      ensures networkMap - {cgroup} == old(networkMap) - {cgroup}
      ensures cgroup != 0 ==> (cgroup in networkMap <==> cgroup in old(networkMap) || |old(networkMap)| < 10240)
      ensures cgroup != 0 && cgroup in networkMap ==>
                var was := if cgroup in old(networkMap) then old(networkMap)[cgroup] else PodTraffic(0, 0, 0, 0, 0, 0);
                Received(was, networkMap[cgroup], len)
    {
      if cgroup == 0 {
        return;
      }
      ghost var p, z, was := Ingress(cgroup, len), Zoning(), networkMap;
      RowsWrite(was, Row, cgroup, FRESH);
      var found := FindOrCreate(cgroup);
      if !found {
        return;
      }
      ghost var t0 := networkMap[cgroup];
      var t := networkMap[cgroup];
      t := t.(bytesIngress := Add64(t.bytesIngress, len));
      t := t.(packetsIngress := Add64(t.packetsIngress, 1));
      networkMap := networkMap[cgroup := t];
      RowIngress(t0, z, p);
      WriteBack(was, PacketSample(z, p), t0, t);
      assert networkMap == was[cgroup := t];
      RestKept(was, cgroup, t);
    }
  }

  // ---------- the byte ledger ----------

  /** A packet and the zones at its time: user space may rewrite the table between any two packets. */
  datatype Seen = Seen(zones: Zones, packet: Packet)

  /** The samples of a run: packets of no cgroup are passed over. */
  function Samples(run: seq<Seen>): seq<Sample> {
    if run == [] then []
    else
      (if run[0].packet.cgroup == 0 then [] else [PacketSample(run[0].zones, run[0].packet)]) + Samples(run[1..])
  }

  datatype Class = Incoming | Outgoing | Internet | OtherZone

  predicate InClass(x: Seen, c: Class) {
    match c
    case Incoming => x.packet.Ingress?
    case Outgoing => x.packet.Egress?
    case Internet => ToInternet(x.packet)
    case OtherZone => ToOtherZone(x.zones, x.packet)
  }

  /** The bytes of a cgroup's packets of one class. */
  function BytesOf(run: seq<Seen>, k: U64, c: Class): nat {
    if run == [] then 0
    else
      (if run[0].packet.cgroup == k && InClass(run[0], c) then run[0].packet.len else 0) + BytesOf(run[1..], k, c)
  }

  function FieldOf(c: Class): Field {
    match c
    case Incoming => INGRESS_BYTES
    case Outgoing => EGRESS_BYTES
    case Internet => INTERNET_BYTES
    case OtherZone => CROSS_AZ_BYTES
  }

  lemma SampleOfClass(x: Seen, c: Class)
    ensures Amount(PacketSample(x.zones, x.packet).bumps, FieldOf(c)) == if InClass(x, c) then x.packet.len else 0
  {
    var bumps := PacketSample(x.zones, x.packet).bumps;
    assert Amount(bumps[1..][1..], FieldOf(c)) ==
           if |bumps| == 3 && bumps[2].field == FieldOf(c) then bumps[2].amount else 0;
  }

  /** The additions charged to a field are the bytes of its class of packets. */
  lemma {:induction false} ChargedByClass(run: seq<Seen>, k: U64, c: Class)
    requires k != 0
    ensures Charged(Samples(run), k, FieldOf(c)) == BytesOf(run, k, c)
  {
    if run != [] {
      ChargedByClass(run[1..], k, c);
      SampleOfClass(run[0], c);
      if run[0].packet.cgroup != 0 {
        assert Samples(run)[1..] == Samples(run[1..]);
      } else {
        assert Samples(run) == Samples(run[1..]);
      }
    }
  }

  lemma {:induction false} ClassesWithinEgress(run: seq<Seen>, k: U64)
    ensures BytesOf(run, k, Internet) + BytesOf(run, k, OtherZone) <= BytesOf(run, k, Outgoing)
  {
    if run != [] {
      ClassesWithinEgress(run[1..], k);
    }
  }

  /** How many packets of a cgroup the outgoing, or else the incoming, hook has seen. */
  function PacketsOf(run: seq<Seen>, k: U64, outgoing: bool): nat {
    if run == [] then 0
    else
      (if run[0].packet.cgroup == k && run[0].packet.Egress? == outgoing then 1 else 0)
      + PacketsOf(run[1..], k, outgoing)
  }

  lemma SampleOfPacket(x: Seen, outgoing: bool)
    ensures Amount(PacketSample(x.zones, x.packet).bumps, if outgoing then EGRESS_PACKETS else INGRESS_PACKETS) ==
            if x.packet.Egress? == outgoing then 1 else 0
  {
    var bumps, f := PacketSample(x.zones, x.packet).bumps, if outgoing then EGRESS_PACKETS else INGRESS_PACKETS;
    assert Amount(bumps[1..][1..], f) == 0;
    assert Amount(bumps[1..], f) == if bumps[1].field == f then 1 else 0;
  }

  lemma {:induction false} ChargedByDirection(run: seq<Seen>, k: U64, outgoing: bool)
    requires k != 0
    ensures Charged(Samples(run), k, if outgoing then EGRESS_PACKETS else INGRESS_PACKETS) ==
            PacketsOf(run, k, outgoing)
  {
    if run != [] {
      ChargedByDirection(run[1..], k, outgoing);
      SampleOfPacket(run[0], outgoing);
      if run[0].packet.cgroup != 0 {
        assert Samples(run)[1..] == Samples(run[1..]);
      } else {
        assert Samples(run) == Samples(run[1..]);
      }
    }
  }

  /** Modulo 2^64 the packet counters of a counted cgroup count its packets in each direction, and its
      ingress bytes are those of its incoming packets. */
  lemma PacketReading(run: seq<Seen>, k: U64)
    requires k in HandleAll(Samples(run)) && k != 0
    ensures var row := HandleAll(Samples(run))[k];
      && row[INGRESS_PACKETS] == PacketsOf(run, k, false) % TWO64
      && row[EGRESS_PACKETS] == PacketsOf(run, k, true) % TWO64
      && row[INGRESS_BYTES] == BytesOf(run, k, Incoming) % TWO64
  {
    ChargedByDirection(run, k, false);
    ChargedByDirection(run, k, true);
    Ledger(Samples(run), k, INGRESS_PACKETS);
    Ledger(Samples(run), k, EGRESS_PACKETS);
    ClassReading(run, k, Incoming);
  }

  /** In every state the atomic hooks reach, before wrap, a counted cgroup's internet and cross-AZ
      bytes are the sums over two disjoint classes of its packets and together never exceed its
      egress bytes, however the zones change meanwhile. */
  lemma EgressLedger(run: seq<Seen>, k: U64)
    requires k in HandleAll(Samples(run)) && k != 0
    requires BytesOf(run, k, Outgoing) < TWO64
    ensures var row := HandleAll(Samples(run))[k];
      && row[EGRESS_BYTES] == BytesOf(run, k, Outgoing)
      && row[INTERNET_BYTES] == BytesOf(run, k, Internet)
      && row[CROSS_AZ_BYTES] == BytesOf(run, k, OtherZone)
      && row[INTERNET_BYTES] as int + row[CROSS_AZ_BYTES] as int <= row[EGRESS_BYTES] as int
  {
    ClassesWithinEgress(run, k);
    ExactReading(run, k, Outgoing);
    ExactReading(run, k, Internet);
    ExactReading(run, k, OtherZone);
  }

  lemma ExactReading(run: seq<Seen>, k: U64, c: Class)
    requires k in HandleAll(Samples(run)) && k != 0 && BytesOf(run, k, c) < TWO64
    ensures HandleAll(Samples(run))[k][FieldOf(c)] == BytesOf(run, k, c)
  {
    ClassReading(run, k, c);
  }

  /** Modulo 2^64 each byte counter of a counted cgroup is the sum over its class of packets. */
  lemma ClassReading(run: seq<Seen>, k: U64, c: Class)
    requires k in HandleAll(Samples(run)) && k != 0
    ensures HandleAll(Samples(run))[k][FieldOf(c)] == BytesOf(run, k, c) % TWO64
  {
    ChargedByClass(run, k, c);
    Ledger(Samples(run), k, FieldOf(c));
  }

  // ---------- classes within egress, whatever the interleaving ----------

  /** What additions still to come will add to the two classes, less what they will add to egress. */
  function Lead(todo: seq<Bump>): int {
    Amount(todo, INTERNET_BYTES) + Amount(todo, CROSS_AZ_BYTES) - Amount(todo, EGRESS_BYTES)
  }

  predicate IsClass(f: Field) {
    f == INTERNET_BYTES || f == CROSS_AZ_BYTES
  }

  /** Egress bytes are added before class bytes. */
  predicate EgressFirst(todo: seq<Bump>)
    decreases |todo|
  {
    todo == [] ||
    (EgressFirst(todo[1..]) && (IsClass(todo[0].field) ==> Amount(todo[1..], EGRESS_BYTES) == 0))
  }

  lemma PacketLeads(z: Zones, p: Packet)
    ensures Lead(PacketSample(z, p).bumps) <= 0 && EgressFirst(PacketSample(z, p).bumps)
  {
    var bumps := PacketSample(z, p).bumps;
    SampleOfClass(Seen(z, p), Outgoing);
    SampleOfClass(Seen(z, p), Internet);
    SampleOfClass(Seen(z, p), OtherZone);
    assert bumps[1..][1..] == if |bumps| == 3 then [bumps[2]] else [];
    assert |bumps| == 3 ==> [bumps[2]][1..] == [];
    assert EgressFirst(bumps[1..][1..]);
    assert EgressFirst(bumps[1..]);
  }

  /** Class bytes a CPU has still to add to an element for a packet whose egress bytes are in it. */
  function Due(cpu: Cpu, c: nat): nat {
    if cpu.Adding? && cpu.cell == c && Lead(cpu.todo) > 0 then Lead(cpu.todo) else 0
  }

  function Dues(cpus: seq<Cpu>, c: nat): seq<int> {
    seq(|cpus|, i requires 0 <= i < |cpus| => Due(cpus[i], c))
  }

  /** Class bytes, those due included, never exceed the egress bytes of the element. */
  ghost predicate Dominated(s: State, c: nat)
    requires c < |s.cells|
  {
    s.cells[c].values[INTERNET_BYTES] as int + s.cells[c].values[CROSS_AZ_BYTES] as int + Total(Dues(s.cpus, c))
    <= s.cells[c].values[EGRESS_BYTES] as int
  }

  /** Every CPU that works for the cgroup has a packet's additions, or the rest of them, to make. */
  ghost predicate Orderly(cpu: Cpu, k: U64) {
    !cpu.Idle? && cpu.key == k ==> EgressFirst(cpu.todo) && (!cpu.Adding? ==> Lead(cpu.todo) <= 0)
  }

  ghost predicate AllDominated(s: State, k: U64) {
    && (forall i :: 0 <= i < |s.cpus| ==> Orderly(s.cpus[i], k))
    && (forall c :: 0 <= c < |s.cells| && s.cells[c].key == k ==> Dominated(s, c))
  }

  lemma DuesUpdate(s: State, i: nat, pc: Cpu, c: nat)
    requires i < |s.cpus|
    ensures Total(Dues(s.cpus[i := pc], c)) == Total(Dues(s.cpus, c)) - Due(s.cpus[i], c) + Due(pc, c)
    ensures 0 <= Due(s.cpus[i], c) <= Total(Dues(s.cpus, c))
  {
    assert Dues(s.cpus[i := pc], c) == Dues(s.cpus, c)[i := Due(pc, c)];
    TotalUpdate(Dues(s.cpus, c), i, Due(pc, c));
    TotalBound(Dues(s.cpus, c));
    assert Dues(s.cpus, c)[i] == Due(s.cpus[i], c);
  }

  /** A step that leaves an element alone and its CPU with nothing more due there keeps it dominated. */
  lemma StillDominated(s: State, s': State, i: nat, c: nat)
    requires i < |s.cpus| == |s'.cpus| && s'.cpus == s.cpus[i := s'.cpus[i]]
    requires c < |s.cells| && c < |s'.cells| && s'.cells[c] == s.cells[c]
    requires Due(s'.cpus[i], c) <= Due(s.cpus[i], c) && Dominated(s, c)
    ensures Dominated(s', c)
  {
    DuesUpdate(s, i, s'.cpus[i], c);
  }

  lemma {:induction false} NothingDue(cpus: seq<Cpu>, c: nat)
    requires forall i :: 0 <= i < |cpus| && cpus[i].Adding? ==> cpus[i].cell < c
    ensures Total(Dues(cpus, c)) == 0
  {
    if cpus != [] {
      NothingDue(cpus[1..], c);
      assert Dues(cpus, c)[1..] == Dues(cpus[1..], c);
    }
  }

  lemma InsertDominated(s: State, i: nat, k: U64)
    requires WellFormed(s) && AllDominated(s, k) && i < |s.cpus| && s.cpus[i].Missed?
    ensures AllDominated(AtInsert(SeedWithZero, s, i), k)
  {
    var s' := AtInsert(SeedWithZero, s, i);
    forall c | 0 <= c < |s'.cells| && s'.cells[c].key == k
      ensures Dominated(s', c)
    {
      if c < |s.cells| {
        StillDominated(s, s', i, c);
      } else {
        forall j | 0 <= j < |s'.cpus| && s'.cpus[j].Adding?
          ensures s'.cpus[j].cell < c
        {
          assert PointsWell(s, s.cpus[j]);
        }
        NothingDue(s'.cpus, c);
      }
    }
  }

  lemma BeginDominated(s: State, i: nat, sample: Sample, k: U64)
    requires AllDominated(s, k) && i < |s.cpus| && s.cpus[i].Idle?
    requires sample.key == k ==> EgressFirst(sample.bumps) && Lead(sample.bumps) <= 0
    requires WellFormed(s)
    ensures AllDominated(AtBegin(s, i, sample), k)
  {
    var s' := AtBegin(s, i, sample);
    forall c | 0 <= c < |s'.cells| && s'.cells[c].key == k
      ensures Dominated(s', c)
    {
      StillDominated(s, s', i, c);
    }
  }

  lemma RelookupDominated(s: State, i: nat, k: U64)
    requires AllDominated(s, k) && i < |s.cpus| && s.cpus[i].Retry? && WellFormed(s)
    ensures AllDominated(AtRelookup(s, i), k)
  {
    var s' := AtRelookup(s, i);
    forall c | 0 <= c < |s'.cells| && s'.cells[c].key == k
      ensures Dominated(s', c)
    {
      StillDominated(s, s', i, c);
    }
  }

  /** One addition, in the order the hooks make them. */
  lemma LeadStep(todo: seq<Bump>)
    requires todo != [] && EgressFirst(todo)
    ensures var (b, rest) := (todo[0], todo[1..]);
      && EgressFirst(rest)
      && Lead(rest) == Lead(todo) + (if b.field == EGRESS_BYTES then b.amount else 0)
                       - (if IsClass(b.field) then b.amount else 0)
      && (IsClass(b.field) ==> Lead(rest) >= 0)
  {
  }

  lemma AddDominated(s: State, i: nat, k: U64)
    requires WellFormed(s) && AllDominated(s, k) && i < |s.cpus| && s.cpus[i].Adding?
    requires Balanced(s, k, EGRESS_BYTES) && Charged(s.begun, k, EGRESS_BYTES) < TWO64
    ensures AllDominated(AtAdd(s, i), k)
  {
    var s', cpu := AtAdd(s, i), s.cpus[i];
    assert PointsWell(s, cpu);
    if cpu.todo != [] && cpu.key == k {
      LeadStep(cpu.todo);
    }
    forall c | 0 <= c < |s'.cells| && s'.cells[c].key == k
      ensures Dominated(s', c)
    {
      if cpu.todo == [] || c != cpu.cell {
        StillDominated(s, s', i, c);
      } else {
        OwnDominated(s, i, k);
      }
    }
  }

  /** The element the addition goes to. */
  lemma OwnDominated(s: State, i: nat, k: U64)
    requires i < |s.cpus| && s.cpus[i].Adding? && s.cpus[i].key == k && s.cpus[i].todo != []
    requires s.cpus[i].cell < |s.cells| && s.cells[s.cpus[i].cell].key == k
    requires EgressFirst(s.cpus[i].todo) && Dominated(s, s.cpus[i].cell)
    requires Balanced(s, k, EGRESS_BYTES) && Charged(s.begun, k, EGRESS_BYTES) < TWO64
    ensures Dominated(AtAdd(s, i), s.cpus[i].cell)
  {
    var cpu, c := s.cpus[i], s.cpus[i].cell;
    LeadStep(cpu.todo);
    DuesUpdate(s, i, Adding(k, cpu.todo[1..], c), c);
    TwoParts(s, i, c, k, EGRESS_BYTES);
    NoneTooMuch(s.cells[c].values, cpu.todo[0]);
  }

  /** An addition that does not overfill the egress counter raises it in full, and any other counter by no
      more than its amount. */
  lemma NoneTooMuch(values: Values, b: Bump)
    requires values[EGRESS_BYTES] as int + (if b.field == EGRESS_BYTES then b.amount else 0) < TWO64
    ensures var values' := Bumped(values, b);
      && values'[EGRESS_BYTES] as int == values[EGRESS_BYTES] + (if b.field == EGRESS_BYTES then b.amount else 0)
      && values'[INTERNET_BYTES] as int <= values[INTERNET_BYTES] + (if b.field == INTERNET_BYTES then b.amount else 0)
      && values'[CROSS_AZ_BYTES] as int <= values[CROSS_AZ_BYTES] + (if b.field == CROSS_AZ_BYTES then b.amount else 0)
  {
    AddCarries(values[b.field], b.amount);
  }

  lemma NextDominated(s: State, e: Event, k: U64)
    requires WellFormed(s) && AllDominated(s, k) && Balanced(s, k, EGRESS_BYTES)
    requires Charged(s.begun, k, EGRESS_BYTES) < TWO64
    requires e.Begin? && e.sample.key == k ==> EgressFirst(e.sample.bumps) && Lead(e.sample.bumps) <= 0
    ensures AllDominated(Next(SeedWithZero, s, e), k)
  {
    if Enabled(s, e) {
      match e
      case Begin(i, sample) => BeginDominated(s, i, sample, k);
      case Insert(i) => InsertDominated(s, i, k);
      case Relookup(i) => RelookupDominated(s, i, k);
      case Add(i) => AddDominated(s, i, k);
    }
  }

  /** The handlers started for the cgroup are the hooks, each with some packet under some zones. */
  ghost predicate Hooked(es: seq<Event>, k: U64) {
    forall i :: 0 <= i < |es| && es[i].Begin? && es[i].sample.key == k ==>
      exists x: Seen :: es[i].sample == PacketSample(x.zones, x.packet)
  }

  lemma {:induction false} RunDominated(s: State, es: seq<Event>, k: U64)
    requires WellFormed(s) && AllDominated(s, k) && Balanced(s, k, EGRESS_BYTES) && Hooked(es, k)
    requires Charged(After(SeedWithZero, s, es).begun, k, EGRESS_BYTES) < TWO64
    ensures AllDominated(After(SeedWithZero, s, es), k)
    decreases |es|
  {
    if es != [] {
      BegunGrows(SeedWithZero, s, es, k, EGRESS_BYTES);
      NextWellFormed(SeedWithZero, s, es[0]);
      NextBalanced(SeedWithZero, s, es[0], k, EGRESS_BYTES);
      if es[0].Begin? && es[0].sample.key == k {
        var x: Seen :| es[0].sample == PacketSample(x.zones, x.packet);
        PacketLeads(x.zones, x.packet);
      }
      NextDominated(s, es[0], k);
      RunDominated(Next(SeedWithZero, s, es[0]), es[1..], k);
    }
  }

  /** At every step of every interleaving, before wrap, in the live element and in every element it ever
      replaced: internet and cross-AZ bytes together never exceed the egress bytes. */
  lemma ClassesNeverLead(n: nat, es: seq<Event>, k: U64, c: nat)
    requires Hooked(es, k) && Charged(After(SeedWithZero, Boot(n), es).begun, k, EGRESS_BYTES) < TWO64
    requires c < |After(SeedWithZero, Boot(n), es).cells| && After(SeedWithZero, Boot(n), es).cells[c].key == k
    ensures var values := After(SeedWithZero, Boot(n), es).cells[c].values;
      values[INTERNET_BYTES] as int + values[CROSS_AZ_BYTES] as int <= values[EGRESS_BYTES] as int
  {
    AllIdle(n, k, EGRESS_BYTES);
    RunDominated(Boot(n), es, k);
    TotalBound(Dues(After(SeedWithZero, Boot(n), es).cpus, c));
  }
}
