/** That the attributes published for a plan are true: of each partition in basic mode, of each domain
    and way count in structured mode, and of each bandwidth device. */
module Attributes {
  import opened Options
  import opened Masks
  import opened Text
  import opened Schemata
  import opened Names
  import opened Partitions
  import opened SizeLabel
  import opened WayAllocation
  import opened Fragmentation
  import opened Isolation
  import opened Publishing

  // ---- What is known of a domain -------------------------------------------------------------

  /** The size of a way: the known size of the cache divided by its number of ways, rounded down; zero
      when the size is not known. */
  ghost predicate WaySizeIs(plan: Plan, id: int, bytes: int) {
    var known, total := plan.tables.size.Some? && id in plan.tables.size.value, TotalWays(plan.info);
    var size := if known then plan.tables.size.value[id] else 0;
    if size > 0 && total > 0 then 0 <= bytes && 0 <= size - bytes * total < total else bytes == 0
  }

  /** The NUMA node of the table, -1 without an entry. */
  predicate NodeIs(plan: Plan, id: int, node: int) {
    if plan.tables.numa.Some? && id in plan.tables.numa.value then node == plan.tables.numa.value[id] else node == -1
  }

  /** The CPU list of the table, if there is one that is not empty. */
  predicate CPUsAre(plan: Plan, id: int, cpus: Option<string>) {
    if plan.tables.cpu.Some? && id in plan.tables.cpu.value && plan.tables.cpu.value[id] != ""
    then cpus == Some(plan.tables.cpu.value[id]) else cpus == None
  }

  /** The sizes published for `ways` ways of a domain: the size is that many times the size of a way, the
      label denotes exactly that size, and the minimum is that of the hardware; without a known size
      there is no label, and the size is zero. */
  ghost predicate SizesAre(plan: Plan, id: int, ways: int, sizeBytes: int, sizes: Option<WaySizes>) {
    match sizes
    case Some(z) =>
      && z.waySizeBytes > 0 && WaySizeIs(plan, id, z.waySizeBytes)
      && sizeBytes == ways * z.waySizeBytes && TenthsOfByte(z.sizeLabel) == Some(10 * sizeBytes)
      && z.minPartitionSizeBytes
         == (if plan.info.minCBMBits > 0 then Some(plan.info.minCBMBits * z.waySizeBytes) else None)
    case None => WaySizeIs(plan, id, 0) && sizeBytes == 0
  }

  ghost predicate TrueOfDomain(plan: Plan, id: int, ways: int, totalWays: int, sizeBytes: int, level: string,
                               node: int, sizes: Option<WaySizes>, cpus: Option<string>) {
    && 0 <= ways <= totalWays == TotalWays(plan.info) && level == "L3"
    && NodeIs(plan, id, node) && CPUsAre(plan, id, cpus) && SizesAre(plan, id, ways, sizeBytes, sizes)
  }

  lemma {:induction false} WayOfDomain(plan: Plan, id: int)
    ensures WaySizeIs(plan, id, DomainOf(plan.info, TotalWays(plan.info), plan.tables, id).waySizeBytes)
  {
    var size, total := CacheSize(plan.tables, id), TotalWays(plan.info);
    if size > 0 && total > 0 { assert size == size / total * total + size % total; }
  }

  /** The facts of a plan's partition besides its mask are those of its domain. */
  ghost predicate FromDomain(plan: Plan, id: int, p: CachePartition) {
    var d := DomainOf(plan.info, TotalWays(plan.info), plan.tables, id);
    && p.cacheID == id && p.totalWays == d.totalWays && p.waySizeBytes == d.waySizeBytes
    && p.minCBMBits == plan.info.minCBMBits && p.level == "L3" && p.numaNode == d.numaNode && p.cpuList == d.cpuList
  }

  lemma {:induction false} SizesFromDomain(plan: Plan, id: int, p: CachePartition, ways: nat, sizeBytes: int)
    requires FromDomain(plan, id, p)
    requires sizeBytes == if p.waySizeBytes > 0 then ways * p.waySizeBytes else 0
    ensures SizesAre(plan, id, ways, sizeBytes, SizesOf(p, sizeBytes))
  {
    WayOfDomain(plan, id);
    NotNegative(plan, id);
    if p.waySizeBytes > 0 {
      assert ways * p.waySizeBytes >= 0;
      LabelIsLosslessExactly(sizeBytes);
    }
  }

  lemma {:induction false} NotNegative(plan: Plan, id: int)
    ensures DomainOf(plan.info, TotalWays(plan.info), plan.tables, id).waySizeBytes >= 0
  {
    var size, total := CacheSize(plan.tables, id), TotalWays(plan.info);
    if size > 0 && total > 0 { assert size / total >= 0; }
  }

  lemma {:induction false} DomainFacts(plan: Plan, id: int, p: CachePartition, ways: nat, sizeBytes: int)
    requires FromDomain(plan, id, p) && ways <= p.totalWays
    requires sizeBytes == if p.waySizeBytes > 0 then ways * p.waySizeBytes else 0
    ensures TrueOfDomain(plan, id, ways, p.totalWays, sizeBytes, p.level, p.numaNode, SizesOf(p, sizeBytes), Present(p.cpuList))
  {
    SizesFromDomain(plan, id, p, ways, sizeBytes);
  }

  lemma {:induction false} PlanFromDomain(plan: Plan, c: nat, k: nat)
    requires plan.Works() && Listing(plan.PerCache(), c, k)
    ensures c < |plan.info.cacheIDs| && FromDomain(plan, plan.info.cacheIDs[c], plan.PerCache()[c][k])
    ensures var p := plan.PerCache()[c][k];
            && p.sizeBytes == (if p.waySizeBytes > 0 then p.ways * p.waySizeBytes else 0)
            && p.id == DeviceName(CacheDevice, p.cacheID, k) && p.index == k && p.resctrlGroup == "dra-" + p.id
            && p.settings == Settings(0, "", 0, "", 0, 0, "")
  {
    PlanDomain(plan, c, k);
    LayoutAt(DomainOf(plan.info, TotalWays(plan.info), plan.tables, plan.info.cacheIDs[c]), Widths(plan.specs), k);
  }

  // ---- Structured mode -----------------------------------------------------------------------

  lemma {:induction false} OfferedFacts(plan: Plan, id: int, p: CachePartition, d: WayDevice)
    requires FromDomain(plan, id, p) && Offers(p, d)
    ensures d.cacheID == id
    ensures var a := d.attributes;
            TrueOfDomain(plan, id, d.ways, a.totalWays, a.sizeBytes, a.level, a.numaNode, a.sizes, a.cpuList)
  {
    NotNegative(plan, id);
    SizeOfWays(p.waySizeBytes, d.ways);
    DomainFacts(plan, id, p, d.ways, p.waySizeBytes * d.ways);
  }

  lemma {:induction false} SizeOfWays(unit: nat, ways: int)
    ensures unit * ways == if unit > 0 then ways * unit else 0
  {
  }

  /** The attributes of every published device of structured mode are those of its way count in its
      domain. */
  lemma {:induction false} StructuredAttributesAreTrue(plan: Plan, d: WayDevice)
    requires plan.Works() && d in WayDevices(References(plan.PerCache()))
    ensures d.cacheID in plan.info.cacheIDs && d.ways >= 1
    ensures var a := d.attributes;
            TrueOfDomain(plan, d.cacheID, d.ways, a.totalWays, a.sizeBytes, a.level, a.numaNode, a.sizes, a.cpuList)
  {
    OfferExactly(References(plan.PerCache()), d);
    var p :| p in References(plan.PerCache()) && Offers(p, d);
    var c := ReferenceOrigin(plan.PerCache(), p);
    PlanFromDomain(plan, c, 0);
    OfferedFacts(plan, p.cacheID, p, d);
  }

  // ---- Basic mode ----------------------------------------------------------------------------

  /** The mask text is a mask with `ways` ways. */
  ghost predicate MaskOfWays(cbm: string, ways: int) {
    && ParseUint(cbm, 16).Some? && ParseUint(cbm, 16).value < WORD_LIMIT
    && |Bits(ParseUint(cbm, 16).value)| == ways
  }

  /** What the driver says of partition `k` of a domain: its name and group, a mask with as many ways as
      the way count says, the sizes and the facts of the domain, and the L2 settings if there are any. */
  ghost predicate TrueOfPartition(plan: Plan, settings: Settings, id: int, k: nat, d: PublishedDevice) {
    && d.details.CacheDetails? && d.name == DeviceName(CacheDevice, id, k) && d.domain == id
    && d.group == Some("dra-" + d.name) && MaskOfWays(d.details.cbmHex, d.amount)
    && TrueOfDomain(plan, id, d.amount, d.details.totalWays, d.details.sizeBytes, d.details.level, d.numaNode,
                    d.details.sizes, d.details.cpuList)
    && d.details.l2 == (if settings.l2Ways > 0
                        then Some(L2Attributes(settings.l2Ways, settings.l2TotalWays, settings.l2CBM)) else None)
  }

  lemma {:induction false} RunIsTrue(start: nat, ways: nat)
    requires start + ways <= 64
    ensures MaskOfWays(MaskHex(WayMask(start, ways)), ways)
  {
    ParsePrintNat(WayMask(start, ways), 16);
    MaskIsInterval(start, ways);
    IntervalSize(start, ways);
  }

  lemma {:induction false} LayoutMaskIsTrue(d: Domain, widths: seq<int>, k: nat)
    requires k < |widths| && NonNegative(widths) && Sum(widths) <= d.totalWays <= 64
    ensures MaskOfWays(Layout(d, widths)[k].cbm, widths[k]) && widths[k] <= d.totalWays
  {
    LayoutAt(d, widths, k);
    LayoutBits(d, widths, k);
    RunIsTrue(Sum(widths[..k]), widths[k]);
  }

  lemma {:induction false} MaskIsTrue(plan: Plan, c: nat, k: nat)
    requires plan.Works() && Listing(plan.PerCache(), c, k)
    ensures var p := plan.PerCache()[c][k]; MaskOfWays(p.cbm, p.ways) && 0 <= p.ways <= p.totalWays
  {
    var d, widths := DomainOf(plan.info, TotalWays(plan.info), plan.tables, plan.info.cacheIDs[c]), Widths(plan.specs);
    PlanDomain(plan, c, k);
    PartitionsTile(plan.info, plan.specs, plan.tables, c);
    WidthsFacts(plan.specs);
    TotalAtMost64(plan.info);
    LayoutAt(d, widths, k);
    LayoutMaskIsTrue(d, widths, k);
  }

  /** The attributes published for a partition of a plan are true, whatever settings it was given. */
  lemma {:induction false} PublishedAttributesAreTrue(plan: Plan, settings: Settings, c: nat, k: nat)
    requires plan.Works() && Listing(plan.PerCache(), c, k)
    ensures c < |plan.info.cacheIDs|
    ensures TrueOfPartition(plan, settings, plan.info.cacheIDs[c], k,
                            CacheEntry(plan.PerCache()[c][k].(settings := settings)))
  {
    var p := plan.PerCache()[c][k];
    MaskIsTrue(plan, c, k);
    PlanFromDomain(plan, c, k);
    DomainFacts(plan, p.cacheID, p, p.ways, p.sizeBytes);
  }

  // ---- Bandwidth devices ---------------------------------------------------------------------

  lemma {:induction false} InventoryMember(all: seq<CachePartition>, d: PublishedDevice)
    ensures d in Inventory(all) <==> exists p | p in all :: d in Entries(p)
  {
    if all != [] {
      var before, last := all[..|all| - 1], all[|all| - 1];
      InventoryMember(before, d);
      assert Inventory(all) == Inventory(before) + Entries(last);
      assert forall p :: p in all <==> p in before || p == last;
    }
  }

  lemma {:induction false} PartitionMember(perCache: seq<seq<CachePartition>>, p: CachePartition)
    ensures p in AllPartitions(perCache) <==> exists c: nat, k: nat | Listing(perCache, c, k) :: perCache[c][k] == p
  {
    if perCache != [] {
      var n := |perCache| - 1;
      PartitionMember(perCache[..n], p);
      if p in perCache[n] {
        var k: nat :| k < |perCache[n]| && perCache[n][k] == p;
        assert Listing(perCache, n, k);
      }
      if c: nat, k: nat :| Listing(perCache[..n], c, k) && perCache[..n][c][k] == p { assert Listing(perCache, c, k); }
      if c: nat, k: nat :| Listing(perCache, c, k) && perCache[c][k] == p {
        assert c < n ==> Listing(perCache[..n], c, k);
      }
    }
  }

  /** The devices of a plan, as published with the given settings. */
  ghost function Published(plan: Plan, settings: Settings): seq<PublishedDevice>
    requires plan.Works()
  {
    Inventory(AllPartitions(WithSettings(plan.PerCache(), settings)))
  }

  lemma {:induction false} PublishedExactly(plan: Plan, settings: Settings, d: PublishedDevice)
    requires plan.Works()
    ensures d in Published(plan, settings)
            <==> exists c: nat, k: nat | Listing(plan.PerCache(), c, k) ::
                   d in Entries(plan.PerCache()[c][k].(settings := settings))
  {
    var shown := WithSettings(plan.PerCache(), settings);
    InventoryMember(AllPartitions(shown), d);
    if d in Published(plan, settings) {
      var p :| p in AllPartitions(shown) && d in Entries(p);
      var c, k := ShownOrigin(plan.PerCache(), settings, p);
    }
    if c: nat, k: nat :| Listing(plan.PerCache(), c, k) && d in Entries(plan.PerCache()[c][k].(settings := settings)) {
      ShownIsListed(plan.PerCache(), settings, c, k);
    }
  }

  lemma {:induction false} ShownOrigin(perCache: seq<seq<CachePartition>>, settings: Settings, p: CachePartition)
    returns (c: nat, k: nat)
    requires p in AllPartitions(WithSettings(perCache, settings))
    ensures Listing(perCache, c, k) && p == perCache[c][k].(settings := settings)
  {
    var shown := WithSettings(perCache, settings);
    PartitionMember(shown, p);
    c, k :| Listing(shown, c, k) && shown[c][k] == p;
  }

  lemma {:induction false} ShownIsListed(perCache: seq<seq<CachePartition>>, settings: Settings, c: nat, k: nat)
    requires Listing(perCache, c, k)
    ensures perCache[c][k].(settings := settings) in AllPartitions(WithSettings(perCache, settings))
  {
    var shown := WithSettings(perCache, settings);
    assert Listing(shown, c, k) && shown[c][k] == perCache[c][k].(settings := settings);
    PartitionMember(shown, shown[c][k]);
  }

  /** The bandwidth value and the mode that the settings have for a kind of device. */
  function Bandwidth(settings: Settings, kind: DeviceKind): (int, string)
    requires kind != CacheDevice
  {
    if kind == MBADevice then (settings.mbaThrottle, settings.mbaMode) else (settings.smbaThrottle, settings.smbaMode)
  }

  /** A device under the name of a bandwidth device of partition `k` of a domain says what the settings
      say, and belongs to the group of that partition. */
  predicate TrueOfBandwidth(plan: Plan, settings: Settings, kind: DeviceKind, id: int, k: nat, d: PublishedDevice)
    requires kind != CacheDevice
  {
    var (value, mode) := Bandwidth(settings, kind);
    && d.name == DeviceName(kind, id, k) && d.domain == id && d.amount == value
    && d.group == Some("dra-" + DeviceName(CacheDevice, id, k)) && d.details == BandwidthDetails(mode)
    && NodeIs(plan, id, d.numaNode)
  }

  lemma {:induction false} EntryByName(plan: Plan, settings: Settings, c: nat, k: nat, kind: DeviceKind, d: PublishedDevice)
    requires plan.Works() && Listing(plan.PerCache(), c, k) && kind != CacheDevice && c < |plan.info.cacheIDs|
    ensures var id := plan.info.cacheIDs[c];
            d in Entries(plan.PerCache()[c][k].(settings := settings)) && d.name == DeviceName(kind, id, k)
            <==> TrueOfBandwidth(plan, settings, kind, id, k, d) && Bandwidth(settings, kind).0 > 0
  {
    PlanFromDomain(plan, c, k);
    NodeOfDomain(plan, plan.info.cacheIDs[c]);
    EntryOfKind(plan.PerCache()[c][k].(settings := settings), kind, d);
  }

  lemma {:induction false} EntryOfKind(p: CachePartition, kind: DeviceKind, d: PublishedDevice)
    requires kind != CacheDevice && p.id == DeviceName(CacheDevice, p.cacheID, p.index)
    ensures d in Entries(p) && d.name == DeviceName(kind, p.cacheID, p.index)
            <==> Bandwidth(p.settings, kind).0 > 0 && d == if kind == MBADevice then MBAEntry(p) else SMBAEntry(p)
  {
    var id, k := p.cacheID, p.index;
    if DeviceName(kind, id, k) == DeviceName(CacheDevice, id, k) { DeviceNameInjective(kind, id, k, CacheDevice, id, k); }
    if DeviceName(MBADevice, id, k) == DeviceName(SMBADevice, id, k) {
      DeviceNameInjective(MBADevice, id, k, SMBADevice, id, k);
    }
    assert Entries(p) == [CacheEntry(p)]
                         + (if p.settings.mbaThrottle > 0 then [MBAEntry(p)] else [])
                         + (if p.settings.smbaThrottle > 0 then [SMBAEntry(p)] else []);
  }

  lemma {:induction false} NodeOfDomain(plan: Plan, id: int)
    ensures forall node :: NodeIs(plan, id, node)
                           <==> node == DomainOf(plan.info, TotalWays(plan.info), plan.tables, id).numaNode
  {
  }

  /** A bandwidth device is published for a partition exactly when the settings have a positive value of
      its kind; and under its name nothing else is published than what the settings say. */
  lemma {:induction false} BandwidthDevicesExactly(plan: Plan, settings: Settings, kind: DeviceKind, c: nat, k: nat,
        d: PublishedDevice)
    requires plan.Works() && Listing(plan.PerCache(), c, k) && kind != CacheDevice
    ensures c < |plan.info.cacheIDs|
    ensures var id := plan.info.cacheIDs[c];
            d in Published(plan, settings) && d.name == DeviceName(kind, id, k)
            <==> TrueOfBandwidth(plan, settings, kind, id, k, d) && Bandwidth(settings, kind).0 > 0
  {
    PlanDomain(plan, c, k);
    PublishedExactly(plan, settings, d);
    EntryByName(plan, settings, c, k, kind, d);
    var id := plan.info.cacheIDs[c];
    if d in Published(plan, settings) && d.name == DeviceName(kind, id, k) {
      var e: nat, j: nat :| Listing(plan.PerCache(), e, j)
                            && d in Entries(plan.PerCache()[e][j].(settings := settings));
      SamePlaceOfName(plan, settings, e, j, kind, id, k, d);
      assert plan.PerCache()[e] == plan.PerCache()[c];
    }
  }

  lemma {:induction false} SamePlaceOfName(plan: Plan, settings: Settings, e: nat, j: nat, kind: DeviceKind, id: int,
        k: nat, d: PublishedDevice)
    requires plan.Works() && Listing(plan.PerCache(), e, j) && d.name == DeviceName(kind, id, k)
    requires d in Entries(plan.PerCache()[e][j].(settings := settings))
    ensures e < |plan.info.cacheIDs| && plan.info.cacheIDs[e] == id && j == k
  {
    PlanDomain(plan, e, j);
    var p := plan.PerCache()[e][j].(settings := settings);
    var m :| 0 <= m < |Entries(p)| && Entries(p)[m] == d;
    var other := EntryName(p, m);
    DeviceNameInjective(kind, id, k, other, p.cacheID, j);
  }
}
