/** What the driver tells the scheduler (`pkg/driver/discovery.go`) and the container runtime
    (`pkg/driver/cdi.go`) about the same partitions. */
module Publishing {
  import opened Options
  import opened Masks
  import opened Text
  import opened Schemata
  import opened Names
  import opened Partitions
  import opened SizeLabel
  import opened WayAllocation
  import opened Fragmentation
  import opened Isolation

  // ---- Basic inventory -----------------------------------------------------------------------

  /** The attributes about the size of a way, published when that size is known. */
  datatype WaySizes = WaySizes(waySizeBytes: int, sizeLabel: string, minPartitionSizeBytes: Option<int>)

  datatype L2Attributes = L2Attributes(ways: int, totalWays: int, cbmHex: string)

  /** The attributes of one kind of device only. */
  datatype Details =
    | CacheDetails(totalWays: int, sizeBytes: int, cbmHex: string, level: string, sizes: Option<WaySizes>,
                   cpuList: Option<string>, l2: Option<L2Attributes>)
    | BandwidthDetails(mode: string)

  /** A device of the resource slice; `amount` is its way count or its bandwidth value. */
  datatype PublishedDevice = PublishedDevice(
    name: string, domain: int, amount: int, numaNode: int, group: Option<string>, details: Details)

  /** What the environment of the container says besides. */
  datatype CDIDetails = CDICache(level: string, cbm: string) | CDIBandwidth(mode: string, domain: int)

  /** A device of the CDI spec; `hookGroup` is the group its hook joins. */
  datatype CDIDevice = CDIDevice(name: string, amount: int, numaNode: int, hookGroup: string, details: CDIDetails)

  function MBADeviceID(p: CachePartition): string {
    DeviceName(MBADevice, p.cacheID, p.index)
  }

  function SMBADeviceID(p: CachePartition): string {
    DeviceName(SMBADevice, p.cacheID, p.index)
  }

  /** An attribute with text is published only when there is some. */
  function Present(text: string): Option<string> {
    if text != "" then Some(text) else None
  }

  function SizesOf(p: CachePartition, sizeBytes: int): Option<WaySizes> {
    if p.waySizeBytes > 0 then
      Some(WaySizes(p.waySizeBytes, FormatCacheSize(sizeBytes),
                    if p.minCBMBits > 0 then Some(p.minCBMBits * p.waySizeBytes) else None))
    else None
  }

  function CacheEntry(p: CachePartition): PublishedDevice {
    PublishedDevice(
      p.id, p.cacheID, p.ways, p.numaNode, Present(p.resctrlGroup),
      CacheDetails(p.totalWays, p.sizeBytes, p.cbm, p.level, SizesOf(p, p.sizeBytes), Present(p.cpuList),
                   if p.settings.l2Ways > 0
                   then Some(L2Attributes(p.settings.l2Ways, p.settings.l2TotalWays, p.settings.l2CBM)) else None))
  }

  function BandwidthEntry(p: CachePartition, name: string, throttle: int, mode: string): PublishedDevice {
    PublishedDevice(name, p.cacheID, throttle, p.numaNode, Some(p.resctrlGroup), BandwidthDetails(mode))
  }

  function MBAEntry(p: CachePartition): PublishedDevice {
    BandwidthEntry(p, MBADeviceID(p), p.settings.mbaThrottle, p.settings.mbaMode)
  }

  function SMBAEntry(p: CachePartition): PublishedDevice {
    BandwidthEntry(p, SMBADeviceID(p), p.settings.smbaThrottle, p.settings.smbaMode)
  }

  /** The devices published for one partition. */
  function Entries(p: CachePartition): seq<PublishedDevice> {
    [CacheEntry(p)]
    + (if p.settings.mbaThrottle > 0 then [MBAEntry(p)] else [])
    + (if p.settings.smbaThrottle > 0 then [SMBAEntry(p)] else [])
  }

  function Inventory(all: seq<CachePartition>): seq<PublishedDevice> {
    if all == [] then [] else Inventory(all[..|all| - 1]) + Entries(all[|all| - 1])
  }

  function CacheHook(p: CachePartition): CDIDevice {
    CDIDevice(p.id, p.ways, p.numaNode, p.resctrlGroup, CDICache(p.level, p.cbm))
  }

  function MBAHook(p: CachePartition): CDIDevice {
    CDIDevice(MBADeviceID(p), p.settings.mbaThrottle, p.numaNode, p.resctrlGroup,
              CDIBandwidth(p.settings.mbaMode, p.cacheID))
  }

  function SMBAHook(p: CachePartition): CDIDevice {
    CDIDevice(SMBADeviceID(p), p.settings.smbaThrottle, p.numaNode, p.resctrlGroup,
              CDIBandwidth(p.settings.smbaMode, p.cacheID))
  }

  /** The CDI devices of one partition. */
  function Hooks(p: CachePartition): seq<CDIDevice> {
    [CacheHook(p)]
    + (if p.settings.mbaThrottle > 0 then [MBAHook(p)] else [])
    + (if p.settings.smbaThrottle > 0 then [SMBAHook(p)] else [])
  }

  function HooksOfDomain(parts: seq<CachePartition>): seq<CDIDevice> {
    if parts == [] then [] else HooksOfDomain(parts[..|parts| - 1]) + Hooks(parts[|parts| - 1])
  }

  function HooksOfAll(perCache: seq<seq<CachePartition>>): seq<CDIDevice> {
    if perCache == [] then [] else HooksOfAll(perCache[..|perCache| - 1]) + HooksOfDomain(perCache[|perCache| - 1])
  }

  function AllPartitions(perCache: seq<seq<CachePartition>>): seq<CachePartition> {
    if perCache == [] then [] else AllPartitions(perCache[..|perCache| - 1]) + perCache[|perCache| - 1]
  }

  lemma {:induction false} Regroup<T>(a: seq<T>, b: seq<T>, c: seq<T>)
    ensures a + b + c == a + (b + c)
  {
  }

  lemma {:induction false} HooksStep(parts: seq<CachePartition>, k: nat)
    requires k < |parts|
    ensures HooksOfDomain(parts[..k + 1]) == HooksOfDomain(parts[..k]) + Hooks(parts[k])
  {
    assert parts[..k + 1][..k] == parts[..k];
  }

  method FlattenPartitions(perCache: seq<seq<CachePartition>>) returns (all: seq<CachePartition>)
    ensures all == AllPartitions(perCache)
  {
    all := [];
    var c := 0;
    while c < |perCache|
      invariant 0 <= c <= |perCache| && all == AllPartitions(perCache[..c])
    {
      assert perCache[..c + 1][..c] == perCache[..c];
      all := all + perCache[c];
      c := c + 1;
    }
    assert perCache[..c] == perCache;
  }

  method BuildDevices(perCache: seq<seq<CachePartition>>) returns (devices: seq<PublishedDevice>)
    ensures devices == Inventory(AllPartitions(perCache))
  {
    var all := FlattenPartitions(perCache);
    devices := [];
    var k := 0;
    while k < |all|
      invariant 0 <= k <= |all| && devices == Inventory(all[..k])
    {
      devices := AddEntries(devices, all[k]);
      assert all[..k + 1][..k] == all[..k];
      k := k + 1;
    }
    assert all[..k] == all;
  }

  /** The body of the publishing loop. */
  method AddEntries(before: seq<PublishedDevice>, p: CachePartition) returns (devices: seq<PublishedDevice>)
    ensures devices == before + Entries(p)
  {
    devices := before + [CacheEntry(p)];
    if p.settings.mbaThrottle > 0 {
      devices := devices + [MBAEntry(p)];
    }
    if p.settings.smbaThrottle > 0 {
      devices := devices + [SMBAEntry(p)];
    }
  }

  /** The spec file: `None` when its directory or the file itself cannot be written. */
  method WriteCDISpecs(perCache: seq<seq<CachePartition>>, dirMade: bool, fileWritten: bool)
    returns (spec: Option<seq<CDIDevice>>)
    ensures spec == if dirMade && fileWritten then Some(HooksOfAll(perCache)) else None
  {
    if !dirMade { return None; }
    var devices := CollectHooks(perCache);
    if !fileWritten { return None; }
    return Some(devices);
  }

  /** The devices of the spec file, in the order of the nested loops. */
  method CollectHooks(perCache: seq<seq<CachePartition>>) returns (devices: seq<CDIDevice>)
    ensures devices == HooksOfAll(perCache)
  {
    devices := [];
    var c := 0;
    while c < |perCache|
      invariant 0 <= c <= |perCache| && devices == HooksOfAll(perCache[..c])
    {
      devices := AddDomainHooks(devices, perCache[c]);
      assert perCache[..c + 1][..c] == perCache[..c];
      c := c + 1;
    }
    assert perCache[..c] == perCache;
  }

  /** The inner loop of the CDI writer. */
  method AddDomainHooks(before: seq<CDIDevice>, parts: seq<CachePartition>) returns (devices: seq<CDIDevice>)
    ensures devices == before + HooksOfDomain(parts)
  {
    devices := before;
    var k := 0;
    while k < |parts|
      invariant 0 <= k <= |parts| && devices == before + HooksOfDomain(parts[..k])
    {
      devices := AddHooks(devices, parts[k]);
      HooksStep(parts, k);
      Regroup(before, HooksOfDomain(parts[..k]), Hooks(parts[k]));
      k := k + 1;
    }
    assert parts[..k] == parts;
  }

  method AddHooks(before: seq<CDIDevice>, p: CachePartition) returns (devices: seq<CDIDevice>)
    ensures devices == before + Hooks(p)
  {
    devices := before + [CacheHook(p)];
    if p.settings.mbaThrottle > 0 {
      devices := devices + [MBAHook(p)];
    }
    if p.settings.smbaThrottle > 0 {
      devices := devices + [SMBAHook(p)];
    }
  }

  // ---- The two lists agree -------------------------------------------------------------------

  /** Everything that both lists say of a device is the same in both: name, amount, NUMA node, the group
      that the hook joins, and the mask and level, or the mode and domain. */
  predicate Matches(d: PublishedDevice, h: CDIDevice) {
    && d.name == h.name && d.amount == h.amount && d.numaNode == h.numaNode
    && h.hookGroup == (if d.group.Some? then d.group.value else "")
    && h.details == match d.details
                    case CacheDetails(_, _, cbmHex, level, _, _, _) => CDICache(level, cbmHex)
                    case BandwidthDetails(mode) => CDIBandwidth(mode, d.domain)
  }

  predicate Agree(ds: seq<PublishedDevice>, hs: seq<CDIDevice>) {
    |ds| == |hs| && forall k | 0 <= k < |ds| :: Matches(ds[k], hs[k])
  }

  lemma {:induction false} PartitionAgrees(p: CachePartition)
    ensures Agree(Entries(p), Hooks(p))
  {
  }

  lemma {:induction false} AgreeConcat(ds: seq<PublishedDevice>, hs: seq<CDIDevice>, ds': seq<PublishedDevice>,
        hs': seq<CDIDevice>)
    requires Agree(ds, hs) && Agree(ds', hs')
    ensures Agree(ds + ds', hs + hs')
  {
  }

  lemma {:induction false} DomainAgrees(parts: seq<CachePartition>)
    ensures Agree(Inventory(parts), HooksOfDomain(parts))
  {
    if parts != [] {
      var before, last := parts[..|parts| - 1], parts[|parts| - 1];
      DomainAgrees(before);
      PartitionAgrees(last);
      AgreeConcat(Inventory(before), HooksOfDomain(before), Entries(last), Hooks(last));
    }
  }

  lemma {:induction false} InventoryConcat(a: seq<CachePartition>, b: seq<CachePartition>)
    ensures Inventory(a + b) == Inventory(a) + Inventory(b)
  {
    if b == [] {
      assert a + b == a;
    } else {
      var rest, last := b[..|b| - 1], b[|b| - 1];
      assert (a + b)[..|a + b| - 1] == a + rest && (a + b)[|a + b| - 1] == last;
      InventoryConcat(a, rest);
      Regroup(Inventory(a), Inventory(rest), Entries(last));
    }
  }

  /** For every layout, the published devices and the CDI devices are the same list, device by
      device. */
  lemma {:induction false} PublisherAndCDIAgree(perCache: seq<seq<CachePartition>>)
    ensures Agree(Inventory(AllPartitions(perCache)), HooksOfAll(perCache))
  {
    if perCache != [] {
      var before, last := perCache[..|perCache| - 1], perCache[|perCache| - 1];
      PublisherAndCDIAgree(before);
      DomainAgrees(last);
      InventoryConcat(AllPartitions(before), last);
      AgreeConcat(Inventory(AllPartitions(before)), HooksOfAll(before), Inventory(last), HooksOfDomain(last));
    }
  }

  // ---- Names are distinct --------------------------------------------------------------------

  predicate WellNamed(all: seq<CachePartition>) {
    forall k | 0 <= k < |all| :: all[k].id == DeviceName(CacheDevice, all[k].cacheID, all[k].index)
  }

  predicate SamePlace(p: CachePartition, q: CachePartition) {
    p.cacheID == q.cacheID && p.index == q.index
  }

  predicate PlacesDistinct(all: seq<CachePartition>) {
    forall j, k | 0 <= j < k < |all| :: !SamePlace(all[j], all[k])
  }

  predicate NamesDistinct(ds: seq<PublishedDevice>) {
    forall j, k | 0 <= j < k < |ds| :: ds[j].name != ds[k].name
  }

  /** Every published name belongs to a partition of the list. */
  lemma {:induction false} NameOrigin(all: seq<CachePartition>, m: nat) returns (k: nat, kind: DeviceKind)
    requires WellNamed(all) && m < |Inventory(all)|
    ensures k < |all| && Inventory(all)[m].name == DeviceName(kind, all[k].cacheID, all[k].index)
  {
    var before, last := all[..|all| - 1], all[|all| - 1];
    ConcatAt(Inventory(before), Entries(last), m);
    if m < |Inventory(before)| {
      k, kind := NameOrigin(before, m);
    } else {
      k := |before|;
      kind := EntryName(last, m - |Inventory(before)|);
    }
  }

  lemma {:induction false} ConcatAt<T>(a: seq<T>, b: seq<T>, m: nat)
    requires m < |a + b|
    ensures (a + b)[m] == if m < |a| then a[m] else b[m - |a|]
  {
  }

  lemma {:induction false} EntryName(p: CachePartition, m: nat) returns (kind: DeviceKind)
    requires p.id == DeviceName(CacheDevice, p.cacheID, p.index) && m < |Entries(p)|
    ensures Entries(p)[m].name == DeviceName(kind, p.cacheID, p.index)
  {
    kind := if m == 0 then CacheDevice else if m == 1 && p.settings.mbaThrottle > 0 then MBADevice else SMBADevice;
  }

  /** Each partition publishes a device under its own id. */
  lemma {:induction false} OwnEntry(all: seq<CachePartition>, k: nat) returns (m: nat)
    requires k < |all|
    ensures m < |Inventory(all)| && Inventory(all)[m] == CacheEntry(all[k])
  {
    var before := all[..|all| - 1];
    if k < |before| {
      m := OwnEntry(before, k);
    } else {
      m := |Inventory(before)|;
    }
  }

  lemma {:induction false} LastIsNew(before: seq<CachePartition>, last: CachePartition, m: nat, e: nat)
    requires WellNamed(before) && last.id == DeviceName(CacheDevice, last.cacheID, last.index)
    requires forall k | 0 <= k < |before| :: !SamePlace(before[k], last)
    requires m < |Inventory(before)| && e < |Entries(last)|
    ensures Inventory(before)[m].name != Entries(last)[e].name
  {
    var k, kind := NameOrigin(before, m);
    var kind' := EntryName(last, e);
    if Inventory(before)[m].name == Entries(last)[e].name {
      DeviceNameInjective(kind, before[k].cacheID, before[k].index, kind', last.cacheID, last.index);
    }
  }

  lemma {:induction false} AllNew(before: seq<CachePartition>, last: CachePartition)
    requires WellNamed(before) && last.id == DeviceName(CacheDevice, last.cacheID, last.index)
    requires forall k | 0 <= k < |before| :: !SamePlace(before[k], last)
    requires NamesDistinct(Inventory(before))
    ensures NamesDistinct(Inventory(before) + Entries(last))
  {
    forall m: nat, e: nat | m < |Inventory(before)| && e < |Entries(last)|
      ensures Inventory(before)[m].name != Entries(last)[e].name
    {
      LastIsNew(before, last, m, e);
    }
    DistinctConcat(Inventory(before), Entries(last));
  }

  lemma {:induction false} DistinctConcat(a: seq<PublishedDevice>, b: seq<PublishedDevice>)
    requires NamesDistinct(a) && NamesDistinct(b)
    requires forall m, e | 0 <= m < |a| && 0 <= e < |b| :: a[m].name != b[e].name
    ensures NamesDistinct(a + b)
  {
  }

  lemma {:induction false} LastClashes(before: seq<CachePartition>, last: CachePartition, j: nat)
    requires j < |before| && before[j].id == last.id
    ensures !NamesDistinct(Inventory(before) + Entries(last))
  {
    var m := OwnEntry(before, j);
    var names := Inventory(before) + Entries(last);
    assert names[m].name == last.id && names[|Inventory(before)|].name == last.id;
  }

  lemma {:induction false} DistinctPrefix(a: seq<PublishedDevice>, b: seq<PublishedDevice>)
    requires NamesDistinct(a + b)
    ensures NamesDistinct(a)
  {
    forall m, n | 0 <= m < n < |a| ensures a[m].name != a[n].name {
      assert (a + b)[m] == a[m] && (a + b)[n] == a[n];
    }
  }

  lemma {:induction false} OneMoreName(before: seq<CachePartition>, last: CachePartition)
    requires WellNamed(before) && last.id == DeviceName(CacheDevice, last.cacheID, last.index)
    requires NamesDistinct(Inventory(before)) <==> PlacesDistinct(before)
    ensures NamesDistinct(Inventory(before) + Entries(last))
            <==> PlacesDistinct(before) && forall k | 0 <= k < |before| :: !SamePlace(before[k], last)
  {
    if j :| 0 <= j < |before| && SamePlace(before[j], last) {
      LastClashes(before, last, j);
    } else if PlacesDistinct(before) {
      AllNew(before, last);
    } else if NamesDistinct(Inventory(before) + Entries(last)) {
      DistinctPrefix(Inventory(before), Entries(last));
    }
  }

  lemma {:induction false} OneMorePlace(before: seq<CachePartition>, last: CachePartition)
    ensures PlacesDistinct(before + [last])
            <==> PlacesDistinct(before) && forall k | 0 <= k < |before| :: !SamePlace(before[k], last)
  {
    var all := before + [last];
    assert forall k | 0 <= k < |before| :: all[k] == before[k];
    if PlacesDistinct(all) {
      forall k | 0 <= k < |before| ensures !SamePlace(before[k], last) { assert !SamePlace(all[k], all[|before|]); }
    }
  }

  /** The published names are pairwise distinct exactly when no two partitions have both their cache
      id and their index in common. */
  lemma {:induction false} NamesDistinctExactly(all: seq<CachePartition>)
    requires WellNamed(all)
    ensures NamesDistinct(Inventory(all)) <==> PlacesDistinct(all)
  {
    if all != [] {
      var before, last := all[..|all| - 1], all[|all| - 1];
      assert all == before + [last];
      NamesDistinctExactly(before);
      OneMoreName(before, last);
      OneMorePlace(before, last);
    }
  }

  // ---- Names of a whole plan -----------------------------------------------------------------

  /** Every domain holds `n` partitions, numbered from zero, under its id. */
  predicate Numbered(perCache: seq<seq<CachePartition>>, ids: seq<int>, n: nat) {
    && |perCache| == |ids|
    && forall c | 0 <= c < |ids| :: NumberedDomain(perCache[c], ids[c], n)
  }

  predicate NumberedDomain(parts: seq<CachePartition>, id: int, n: nat) {
    |parts| == n && forall k | 0 <= k < n :: parts[k].cacheID == id && parts[k].index == k
  }

  predicate Distinct(ids: seq<int>) {
    forall j, k | 0 <= j < k < |ids| :: ids[j] != ids[k]
  }

  lemma {:induction false} PlaceOrigin(perCache: seq<seq<CachePartition>>, ids: seq<int>, n: nat, m: nat)
    requires Numbered(perCache, ids, n) && m < |AllPartitions(perCache)|
    ensures AllPartitions(perCache)[m].cacheID in ids
  {
    var before, last := perCache[..|perCache| - 1], perCache[|perCache| - 1];
    if m < |AllPartitions(before)| {
      PlaceOrigin(before, ids[..|ids| - 1], n, m);
      assert ids == ids[..|ids| - 1] + [ids[|ids| - 1]];
    } else {
      assert NumberedDomain(last, ids[|ids| - 1], n);
      assert AllPartitions(perCache)[m] == last[m - |AllPartitions(before)|];
    }
  }

  lemma {:induction false} FirstPlace(perCache: seq<seq<CachePartition>>, ids: seq<int>, n: nat, id: int)
    returns (m: nat)
    requires Numbered(perCache, ids, n) && n > 0 && id in ids
    ensures m < |AllPartitions(perCache)|
    ensures AllPartitions(perCache)[m].cacheID == id && AllPartitions(perCache)[m].index == 0
  {
    var before, last := perCache[..|perCache| - 1], perCache[|perCache| - 1];
    assert ids == ids[..|ids| - 1] + [ids[|ids| - 1]];
    assert NumberedDomain(last, ids[|ids| - 1], n);
    if id == ids[|ids| - 1] {
      m := |AllPartitions(before)|;
    } else {
      m := FirstPlace(before, ids[..|ids| - 1], n, id);
    }
  }

  lemma {:induction false} PlacesConcat(a: seq<CachePartition>, b: seq<CachePartition>, id: int, n: nat)
    requires NumberedDomain(b, id, n)
    ensures PlacesDistinct(a + b)
            <==> PlacesDistinct(a) && forall j, k | 0 <= j < |a| && 0 <= k < n :: !SamePlace(a[j], b[k])
  {
    var all := a + b;
    assert forall j | 0 <= j < |a| :: all[j] == a[j];
    if PlacesDistinct(all) {
      forall j, k | 0 <= j < |a| && 0 <= k < n ensures !SamePlace(a[j], b[k]) {
        assert !SamePlace(all[j], all[|a| + k]);
      }
    }
  }

  lemma {:induction false} DistinctStep(before: seq<int>, last: int)
    ensures Distinct(before + [last]) <==> Distinct(before) && last !in before
  {
    var ids := before + [last];
    assert forall j | 0 <= j < |before| :: ids[j] == before[j];
    if j :| 0 <= j < |before| && before[j] == last { assert ids[j] == ids[|before|]; }
  }

  lemma {:induction false} NumberedPlaces(perCache: seq<seq<CachePartition>>, ids: seq<int>, n: nat)
    requires Numbered(perCache, ids, n)
    ensures PlacesDistinct(AllPartitions(perCache)) <==> n == 0 || Distinct(ids)
  {
    if ids != [] {
      var before, last := perCache[..|perCache| - 1], perCache[|perCache| - 1];
      var ids', id := ids[..|ids| - 1], ids[|ids| - 1];
      assert ids == ids' + [id];
      assert NumberedDomain(last, id, n);
      NumberedPlaces(before, ids', n);
      DistinctStep(ids', id);
      PlacesConcat(AllPartitions(before), last, id, n);
      if id in ids' && n > 0 {
        var m := FirstPlace(before, ids', n, id);
        assert SamePlace(AllPartitions(before)[m], last[0]);
      } else {
        forall j, k | 0 <= j < |AllPartitions(before)| && 0 <= k < n ensures !SamePlace(AllPartitions(before)[j], last[k]) {
          PlaceOrigin(before, ids', n, j);
        }
      }
    }
  }

  /** `ApplyMBA`, `ApplySMBA` and `ApplyL2` set the same values on every partition. */
  function WithSettings(perCache: seq<seq<CachePartition>>, settings: Settings): seq<seq<CachePartition>> {
    seq(|perCache|, c requires 0 <= c < |perCache| =>
      seq(|perCache[c]|, k requires 0 <= k < |perCache[c]| => perCache[c][k].(settings := settings)))
  }

  lemma {:induction false} NamedThroughout(perCache: seq<seq<CachePartition>>)
    requires forall c | 0 <= c < |perCache| :: WellNamed(perCache[c])
    ensures WellNamed(AllPartitions(perCache))
  {
    if perCache != [] {
      NamedThroughout(perCache[..|perCache| - 1]);
      assert WellNamed(perCache[|perCache| - 1]);
    }
  }

  lemma {:induction false} PlanShape(plan: Plan, settings: Settings)
    requires plan.Works()
    ensures var shown := WithSettings(plan.PerCache(), settings);
            && Numbered(shown, plan.info.cacheIDs, |Widths(plan.specs)|)
            && forall c | 0 <= c < |shown| :: WellNamed(shown[c])
  {
    var shown := WithSettings(plan.PerCache(), settings);
    forall c | 0 <= c < |shown|
      ensures NumberedDomain(shown[c], plan.info.cacheIDs[c], |Widths(plan.specs)|) && WellNamed(shown[c])
    {
      forall k | 0 <= k < |shown[c]|
        ensures shown[c][k].cacheID == plan.info.cacheIDs[c] && shown[c][k].index == k
        ensures shown[c][k].id == DeviceName(CacheDevice, shown[c][k].cacheID, shown[c][k].index)
      {
        PlanDomain(plan, c, k);
      }
    }
  }

  /** The device names published for a plan are pairwise distinct, with any settings,
      exactly when no cache id is listed twice or there is nothing to publish. */
  lemma {:induction false} PlanNamesDistinctExactly(plan: Plan, settings: Settings)
    requires plan.Works()
    ensures NamesDistinct(Inventory(AllPartitions(WithSettings(plan.PerCache(), settings))))
            <==> Widths(plan.specs) == [] || Distinct(plan.info.cacheIDs)
  {
    var shown := WithSettings(plan.PerCache(), settings);
    PlanShape(plan, settings);
    NamedThroughout(shown);
    NamesDistinctExactly(AllPartitions(shown));
    NumberedPlaces(shown, plan.info.cacheIDs, |Widths(plan.specs)|);
  }

  // ---- Structured inventory ------------------------------------------------------------------

  /** A device of structured mode and what it takes from the shared way pool. */
  datatype WayDevice = WayDevice(name: string, cacheID: int, ways: int, counterKey: string, consumes: int,
                                 attributes: WayAttributes)

  datatype WayAttributes = WayAttributes(totalWays: int, sizeBytes: int, level: string, numaNode: int,
                                         sizes: Option<WaySizes>, cpuList: Option<string>)

  function WayAttributesOf(p: CachePartition, ways: int): WayAttributes {
    WayAttributes(p.totalWays, p.waySizeBytes * ways, "L3", p.numaNode, SizesOf(p, p.waySizeBytes * ways), Present(p.cpuList))
  }

  function CounterKey(cacheID: int): string {
    "cache" + PrintInt(cacheID)
  }

  function WayDeviceOf(p: CachePartition, ways: int): WayDevice {
    WayDevice(CacheWayName(p.cacheID, ways), p.cacheID, ways, CounterKey(p.cacheID), ways, WayAttributesOf(p, ways))
  }

  /** The devices for 1 to `n` ways. */
  function WayDevicesUpTo(p: CachePartition, n: nat): seq<WayDevice> {
    if n == 0 then [] else WayDevicesUpTo(p, n - 1) + [WayDeviceOf(p, n)]
  }

  /** The first partition of a domain, if it has one. */
  function Reference(parts: seq<CachePartition>): seq<CachePartition> {
    if parts == [] then [] else [parts[0]]
  }

  /** The first partition of each domain stands for it; domains without partitions are skipped. */
  function References(perCache: seq<seq<CachePartition>>): seq<CachePartition> {
    if perCache == [] then [] else References(perCache[..|perCache| - 1]) + Reference(perCache[|perCache| - 1])
  }

  function WayDevices(refs: seq<CachePartition>): seq<WayDevice> {
    if refs == [] then []
    else WayDevices(refs[..|refs| - 1]) + WayDevicesUpTo(refs[|refs| - 1], refs[|refs| - 1].totalWays)
  }

  function Counters(refs: seq<CachePartition>): map<string, int> {
    if refs == [] then map[]
    else Counters(refs[..|refs| - 1])[CounterKey(refs[|refs| - 1].cacheID) := refs[|refs| - 1].totalWays]
  }

  method BuildStructuredDevices(perCache: seq<seq<CachePartition>>)
    returns (devices: seq<WayDevice>, sharedCounters: Option<map<string, int>>)
    ensures devices == WayDevices(References(perCache))
    ensures sharedCounters == if perCache == [] then None else Some(Counters(References(perCache)))
  {
    if |perCache| == 0 { return [], None; }
    var counters := BuildCounters(perCache);
    devices := BuildWayDevices(perCache);
    return devices, Some(counters);
  }

  /** One more domain, in both specifications. */
  lemma {:induction false} ReferencesStep(perCache: seq<seq<CachePartition>>, c: nat)
    requires c < |perCache|
    ensures References(perCache[..c + 1]) == References(perCache[..c]) + Reference(perCache[c])
  {
    assert perCache[..c + 1][..c] == perCache[..c];
  }

  /** The first loop: one counter per domain. */
  method BuildCounters(perCache: seq<seq<CachePartition>>) returns (counters: map<string, int>)
    ensures counters == Counters(References(perCache))
  {
    counters := map[];
    var c := 0;
    while c < |perCache|
      invariant 0 <= c <= |perCache| && counters == Counters(References(perCache[..c]))
    {
      ReferencesStep(perCache, c);
      counters := AddCounter(counters, perCache[c], References(perCache[..c]));
      c := c + 1;
    }
    assert perCache[..c] == perCache;
  }

  method AddCounter(before: map<string, int>, parts: seq<CachePartition>, ghost refs: seq<CachePartition>)
    returns (counters: map<string, int>)
    requires before == Counters(refs)
    ensures counters == Counters(refs + Reference(parts))
  {
    if |parts| == 0 {
      assert refs + [] == refs;
      return before;
    }
    counters := before[CounterKey(parts[0].cacheID) := parts[0].totalWays];
  }

  /** The second loop: the devices of each domain. */
  method BuildWayDevices(perCache: seq<seq<CachePartition>>) returns (devices: seq<WayDevice>)
    ensures devices == WayDevices(References(perCache))
  {
    devices := [];
    var c := 0;
    while c < |perCache|
      invariant 0 <= c <= |perCache| && devices == WayDevices(References(perCache[..c]))
    {
      ReferencesStep(perCache, c);
      devices := AddDomainDevices(devices, perCache[c], References(perCache[..c]));
      c := c + 1;
    }
    assert perCache[..c] == perCache;
  }

  method AddDomainDevices(before: seq<WayDevice>, parts: seq<CachePartition>, ghost refs: seq<CachePartition>)
    returns (devices: seq<WayDevice>)
    requires before == WayDevices(refs)
    ensures devices == WayDevices(refs + Reference(parts))
  {
    if |parts| == 0 {
      assert refs + [] == refs;
      return before;
    }
    devices := AddWayDevices(before, parts[0]);
  }

  /** The loop over the way counts of one domain. */
  method AddWayDevices(before: seq<WayDevice>, p: CachePartition) returns (devices: seq<WayDevice>)
    ensures devices == before + WayDevicesUpTo(p, p.totalWays)
  {
    devices := before;
    var ways := 0;
    while ways < p.totalWays
      invariant 0 <= ways <= p.totalWays && devices == before + WayDevicesUpTo(p, ways)
    {
      ways := ways + 1;
      devices := devices + [WayDeviceOf(p, ways)];
    }
  }

  ghost predicate Offers(p: CachePartition, d: WayDevice) {
    d.ways >= 1 && d.ways <= p.totalWays && d == WayDeviceOf(p, d.ways)
  }

  lemma {:induction false} UpToExactly(p: CachePartition, n: nat, d: WayDevice)
    ensures d in WayDevicesUpTo(p, n) <==> 1 <= d.ways <= n && d == WayDeviceOf(p, d.ways)
  {
    if n > 0 { UpToExactly(p, n - 1, d); }
  }

  lemma {:induction false} OfferedBy(refs: seq<CachePartition>, d: WayDevice) returns (p: CachePartition)
    requires d in WayDevices(refs)
    ensures p in refs && Offers(p, d)
  {
    var before, last := refs[..|refs| - 1], refs[|refs| - 1];
    if d in WayDevices(before) {
      p := OfferedBy(before, d);
    } else {
      p := last;
      UpToExactly(last, last.totalWays, d);
    }
  }

  lemma {:induction false} OfferedFrom(refs: seq<CachePartition>, p: CachePartition, d: WayDevice)
    requires p in refs && Offers(p, d)
    ensures d in WayDevices(refs)
  {
    var before, last := refs[..|refs| - 1], refs[|refs| - 1];
    if p == last {
      UpToExactly(last, last.totalWays, d);
    } else {
      OfferedFrom(before, p, d);
    }
  }

  /** A device for each domain and each way count up to its total is on offer, and nothing else. */
  lemma {:induction false} OfferExactly(refs: seq<CachePartition>, d: WayDevice)
    ensures d in WayDevices(refs) <==> exists p | p in refs :: Offers(p, d)
  {
    if d in WayDevices(refs) {
      var p := OfferedBy(refs, d);
    } else if p :| p in refs && Offers(p, d) {
      OfferedFrom(refs, p, d);
    }
  }

  // ---- From the published counter to the allocator -------------------------------------------

  /** What the picked devices take together from one counter. */
  function Consumption(picks: seq<WayDevice>, key: string): int {
    if picks == [] then 0
    else (if picks[0].counterKey == key then picks[0].consumes else 0) + Consumption(picks[1..], key)
  }

  /** The scheduler's rule: no counter is overdrawn. */
  predicate Admitted(counters: map<string, int>, picks: seq<WayDevice>) {
    forall key | key in counters :: Consumption(picks, key) <= counters[key]
  }

  predicate Readable(picks: seq<WayDevice>) {
    forall k | 0 <= k < |picks| :: ParseCacheWayName(picks[k].name).Ok?
  }

  /** The requests the driver makes of the allocator for the picked devices. */
  function Requests(picks: seq<WayDevice>): seq<(int, int)>
    requires Readable(picks)
  {
    if picks == [] then []
    else
      assert forall k | 0 <= k < |picks[1..]| :: picks[1..][k] == picks[k + 1];
      [ParseCacheWayName(picks[0].name).value] + Requests(picks[1..])
  }

  /** A device that the plan publishes: its name says what it takes from the counter of its domain. */
  predicate Sound(d: WayDevice, info: CATInfo) {
    && d.cacheID in info.cacheIDs && d.ways >= 1
    && ParseCacheWayName(d.name) == Ok((d.cacheID, d.ways))
    && d.counterKey == CounterKey(d.cacheID) && d.consumes == d.ways
  }

  predicate UsualIDs(info: CATInfo) {
    forall id | id in info.cacheIDs :: 0 <= id && IsInt64(id)
  }

  lemma {:induction false} PublishedIsSound(plan: Plan, d: WayDevice)
    requires plan.Works() && UsualIDs(plan.info) && d in WayDevices(References(plan.PerCache()))
    ensures Sound(d, plan.info)
  {
    OfferExactly(References(plan.PerCache()), d);
    var p :| p in References(plan.PerCache()) && Offers(p, d);
    ReferenceOf(plan, p);
    TotalAtMost64(plan.info);
    CacheWayRoundTrip(d.cacheID, d.ways);
  }

  lemma {:induction false} ReferenceOrigin(perCache: seq<seq<CachePartition>>, p: CachePartition) returns (c: nat)
    requires p in References(perCache)
    ensures c < |perCache| && perCache[c] != [] && perCache[c][0] == p
  {
    var before, last := perCache[..|perCache| - 1], perCache[|perCache| - 1];
    if p in References(before) {
      c := ReferenceOrigin(before, p);
    } else {
      c := |before|;
    }
  }

  lemma {:induction false} ReferenceOf(plan: Plan, p: CachePartition)
    requires plan.Works() && p in References(plan.PerCache())
    ensures p.cacheID in plan.info.cacheIDs && p.totalWays == TotalWays(plan.info)
  {
    var c := ReferenceOrigin(plan.PerCache(), p);
    PlanDomain(plan, c, 0);
    LayoutAt(DomainOf(plan.info, TotalWays(plan.info), plan.tables, plan.info.cacheIDs[c]), Widths(plan.specs), 0);
  }

  lemma {:induction false} CounterKeyInjective(a: int, b: int)
    requires CounterKey(a) == CounterKey(b)
    ensures a == b
  {
    assert CounterKey(a)[5..] == PrintInt(a) && CounterKey(b)[5..] == PrintInt(b);
    PrintIntInjective(a, b);
  }

  lemma {:induction false} DemandIsConsumption(picks: seq<WayDevice>, info: CATInfo, cacheID: int)
    requires forall k | 0 <= k < |picks| :: Sound(picks[k], info)
    ensures Readable(picks) && Demand(Requests(picks), cacheID) == Consumption(picks, CounterKey(cacheID))
    ensures forall r | r in Requests(picks) :: r.0 in info.cacheIDs && r.1 >= 1
  {
    if picks != [] {
      DemandIsConsumption(picks[1..], info, cacheID);
      if picks[0].counterKey == CounterKey(cacheID) { CounterKeyInjective(picks[0].cacheID, cacheID); }
      assert Requests(picks) == [(picks[0].cacheID, picks[0].ways)] + Requests(picks[1..]);
    }
  }

  /** One counter of the given value for each of the domains. */
  ghost predicate CounterPerDomain(counters: map<string, int>, ids: seq<int>, total: nat) {
    && (forall id | id in ids :: CounterKey(id) in counters)
    && (forall key | key in counters :: counters[key] == total && exists id | id in ids :: key == CounterKey(id))
  }

  predicate RefersTo(refs: seq<CachePartition>, ids: seq<int>, total: nat) {
    |refs| == |ids| && forall c | 0 <= c < |ids| :: refs[c].cacheID == ids[c] && refs[c].totalWays == total
  }

  lemma {:induction false} CountersOf(refs: seq<CachePartition>, ids: seq<int>, total: nat)
    requires RefersTo(refs, ids, total)
    ensures CounterPerDomain(Counters(refs), ids, total)
  {
    if ids != [] {
      assert ids == ids[..|ids| - 1] + [ids[|ids| - 1]];
      CountersOf(refs[..|refs| - 1], ids[..|ids| - 1], total);
    }
  }

  /** `totalWaysPerDomain`, with which the allocator is created. */
  ghost function AllocatorTotals(info: CATInfo): map<int, nat> {
    map id | id in info.cacheIDs :: TotalWays(info)
  }

  lemma {:induction false} LayoutsRefer(info: CATInfo, total: nat, specs: seq<PartitionSpec>, tables: Tables,
        ids: seq<int>)
    requires Widths(specs) != []
    ensures RefersTo(References(Layouts(info, total, specs, tables, ids)), ids, total)
  {
    if ids != [] {
      var before, last := ids[..|ids| - 1], ids[|ids| - 1];
      LayoutsRefer(info, total, specs, tables, before);
      LayoutAt(DomainOf(info, total, tables, last), Widths(specs), 0);
      var all := Layouts(info, total, specs, tables, ids);
      assert all[..|all| - 1] == Layouts(info, total, specs, tables, before);
    }
  }

  lemma {:induction false} PlanCounters(plan: Plan)
    requires plan.Works() && Widths(plan.specs) != []
    ensures CounterPerDomain(Counters(References(plan.PerCache())), plan.info.cacheIDs, TotalWays(plan.info))
  {
    LayoutsRefer(plan.info, TotalWays(plan.info), plan.specs, plan.tables, plan.info.cacheIDs);
    CountersOf(References(plan.PerCache()), plan.info.cacheIDs, TotalWays(plan.info));
  }

  lemma {:induction false} PublishedAreSound(plan: Plan, picks: seq<WayDevice>)
    requires plan.Works() && UsualIDs(plan.info)
    requires forall d | d in picks :: d in WayDevices(References(plan.PerCache()))
    ensures forall k | 0 <= k < |picks| :: Sound(picks[k], plan.info)
  {
    forall k | 0 <= k < |picks| ensures Sound(picks[k], plan.info) { PublishedIsSound(plan, picks[k]); }
  }

  /** The allocator of the given domains, with `total` ways in each. */
  ghost predicate UniformTotals(totals: map<int, nat>, ids: seq<int>, total: nat) {
    total <= 64 && (forall c :: c in totals <==> c in ids) && forall c | c in totals :: totals[c] == total
  }

  ghost predicate DemandsAre(requests: seq<(int, int)>, picks: seq<WayDevice>) {
    forall c :: Demand(requests, c) == Consumption(picks, CounterKey(c))
  }

  lemma {:induction false} WithinTotals(totals: map<int, nat>, ids: seq<int>, total: nat,
        requests: seq<(int, int)>, picks: seq<WayDevice>)
    requires UniformTotals(totals, ids, total) && DemandsAre(requests, picks)
    ensures (forall c | c in totals :: Demand(requests, c) <= totals[c])
            <==> forall c | c in ids :: Consumption(picks, CounterKey(c)) <= total
  {
  }

  lemma {:induction false} PicksDemand(picks: seq<WayDevice>, info: CATInfo)
    requires forall k | 0 <= k < |picks| :: Sound(picks[k], info)
    ensures Readable(picks) && DemandsAre(Requests(picks), picks)
    ensures forall r | r in Requests(picks) :: r.0 in info.cacheIDs && r.1 >= 1
  {
    DemandIsConsumption(picks, info, 0);
    forall c ensures Demand(Requests(picks), c) == Consumption(picks, CounterKey(c)) {
      DemandIsConsumption(picks, info, c);
    }
  }

  lemma {:induction false} RequestsKnown(requests: seq<(int, int)>, ids: seq<int>, totals: map<int, nat>)
    requires forall r | r in requests :: r.0 in ids && r.1 >= 1
    requires forall c | c in ids :: c in totals
    ensures forall r | r in requests :: r.0 in totals && r.1 >= 1
  {
    forall r | r in requests ensures r.0 in totals && r.1 >= 1 {
      var c := r.0;
      assert c in ids;
    }
  }

  lemma {:induction false} GrantedExactlyWithin(picks: seq<WayDevice>, info: CATInfo, totals: map<int, nat>, total: nat)
    requires forall k | 0 <= k < |picks| :: Sound(picks[k], info)
    requires UniformTotals(totals, info.cacheIDs, total)
    ensures Readable(picks) && ValidTotals(totals)
    ensures AllGranted(totals, Fresh(totals).alloc, Requests(picks))
            <==> forall c | c in info.cacheIDs :: Consumption(picks, CounterKey(c)) <= total
  {
    PicksDemand(picks, info);
    RequestsKnown(Requests(picks), info.cacheIDs, totals);
    CounterSufficesWithoutReleases(totals, Requests(picks));
    WithinTotals(totals, info.cacheIDs, total, Requests(picks), picks);
  }

  /** The scheduler's rule and the allocator's answer coincide. */
  ghost predicate RuleFits(counters: map<string, int>, totals: map<int, nat>, picks: seq<WayDevice>) {
    && Readable(picks) && ValidTotals(totals)
    && (AllGranted(totals, Fresh(totals).alloc, Requests(picks)) <==> Admitted(counters, picks))
  }

  lemma {:induction false} CountersFit(counters: map<string, int>, totals: map<int, nat>, total: nat,
        picks: seq<WayDevice>, info: CATInfo)
    requires forall k | 0 <= k < |picks| :: Sound(picks[k], info)
    requires UniformTotals(totals, info.cacheIDs, total) && CounterPerDomain(counters, info.cacheIDs, total)
    ensures RuleFits(counters, totals, picks)
  {
    GrantedExactlyWithin(picks, info, totals, total);
  }

  lemma {:induction false} TotalsAreUniform(info: CATInfo)
    ensures UniformTotals(AllocatorTotals(info), info.cacheIDs, TotalWays(info))
  {
    TotalAtMost64(info);
  }

  lemma {:induction false} NothingPicked(totals: map<int, nat>, picks: seq<WayDevice>)
    requires ValidTotals(totals) && forall d | d in picks :: d in WayDevices([])
    ensures RuleFits(Counters([]), totals, picks)
  {
    assert forall k | 0 <= k < |picks| :: picks[k] in picks;
  }

  /** From the published counters to the allocator. Take any sequence of published devices. Without
      releases, the driver reads every name, and the allocator grants every request exactly when the
      scheduler's counters admit the sequence. */
  lemma {:induction false} AdmittedExactlyGranted(plan: Plan, picks: seq<WayDevice>)
    requires plan.Works() && UsualIDs(plan.info)
    requires forall d | d in picks :: d in WayDevices(References(plan.PerCache()))
    ensures RuleFits(Counters(References(plan.PerCache())), AllocatorTotals(plan.info), picks)
  {
    TotalsAreUniform(plan.info);
    if Widths(plan.specs) != [] {
      PublishedAreSound(plan, picks);
      PlanCounters(plan);
      CountersFit(Counters(References(plan.PerCache())), AllocatorTotals(plan.info), TotalWays(plan.info), picks, plan.info);
    } else {
      EmptyDomains(plan.PerCache());
      NothingPicked(AllocatorTotals(plan.info), picks);
    }
  }

  lemma {:induction false} EmptyDomains(perCache: seq<seq<CachePartition>>)
    requires forall c | 0 <= c < |perCache| :: perCache[c] == []
    ensures References(perCache) == []
  {
    if perCache != [] { EmptyDomains(perCache[..|perCache| - 1]); }
  }
}
