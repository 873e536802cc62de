/** From the answer of basic mode to the container: the CDI id handed out is in the spec file, and the
    hook there joins the group of the claim's partition. */
module Serving {
  import opened Options
  import opened Masks
  import opened Text
  import opened Schemata
  import opened Names
  import opened Partitions
  import opened PartitionOwnership
  import Protocol
  import opened BasicMode
  import opened ReplayOrder
  import opened WayAllocation
  import opened Isolation
  import opened Registration
  import opened Publishing
  import opened Attributes
  import opened DomainLines

  // ---- The answer ----------------------------------------------------------------------------

  lemma {:induction false} BasicDeviceAt(got: seq<Protocol.DeviceResult>, k: nat)
    requires k < |got|
    ensures |BasicDevices(got)| == |got| && BasicDevices(got)[k] == BasicDevice(got[k])
  {
    var n := |got| - 1;
    BasicDevicesEmpty(got[..n]);
    if k < n { BasicDeviceAt(got[..n], k); }
  }

  /** The answer lists the granted results, in order, each with its request, its pool, its device and the
      CDI id made of that device. */
  lemma {:induction false} AnswerListsGrants(me: Identity, o: Owners, uid: string, results: seq<Protocol.DeviceResult>)
    ensures var answer, granted := PrepareBasic(me, o, uid, Protocol.Allocation(results)).1, Granted(me, o, uid, results);
            answer.Prepared? ==>
              |answer.devices| == |granted|
              && forall k | 0 <= k < |granted| ::
                   Protocol.AnswersResult(answer.devices[k], granted[k])
                   && answer.devices[k].cdiDevice == "resctrl.fabiendupont.io/partition=" + granted[k].device
  {
    var granted := Granted(me, o, uid, results);
    TakeMeaning(me, o, uid, results);
    forall k | 0 <= k < |granted|
      ensures |BasicDevices(granted)| == |granted| && BasicDevices(granted)[k] == BasicDevice(granted[k])
    {
      BasicDeviceAt(granted, k);
    }
    BasicDevicesEmpty(granted);
  }

  // ---- The spec file -------------------------------------------------------------------------

  lemma {:induction false} HookOfDomain(parts: seq<CachePartition>, k: nat, n: nat)
    requires k < n <= |parts|
    ensures CacheHook(parts[k]) in HooksOfDomain(parts[..n])
    decreases n
  {
    HooksStep(parts, n - 1);
    if k < n - 1 { HookOfDomain(parts, k, n - 1); } else { assert Hooks(parts[k])[0] == CacheHook(parts[k]); }
    InConcat(HooksOfDomain(parts[..n - 1]), Hooks(parts[n - 1]), CacheHook(parts[k]));
  }

  lemma {:induction false} InConcat<T>(a: seq<T>, b: seq<T>, x: T)
    ensures x in a + b <==> x in a || x in b
  {
  }

  lemma {:induction false} HooksSnoc(perCache: seq<seq<CachePartition>>, n: nat)
    requires n < |perCache|
    ensures HooksOfAll(perCache[..n + 1]) == HooksOfAll(perCache[..n]) + HooksOfDomain(perCache[n])
  {
    assert perCache[..n + 1][..n] == perCache[..n];
  }

  lemma {:induction false} DomainInFile(perCache: seq<seq<CachePartition>>, c: nat, h: CDIDevice, n: nat)
    requires c < n <= |perCache| && h in HooksOfDomain(perCache[c])
    ensures h in HooksOfAll(perCache[..n])
    decreases n
  {
    HooksSnoc(perCache, n - 1);
    if c < n - 1 { DomainInFile(perCache, c, h, n - 1); }
    InConcat(HooksOfAll(perCache[..n - 1]), HooksOfDomain(perCache[n - 1]), h);
  }

  lemma {:induction false} HookListed(perCache: seq<seq<CachePartition>>, c: nat, k: nat)
    requires Listing(perCache, c, k)
    ensures CacheHook(perCache[c][k]) in HooksOfAll(perCache)
  {
    HookOfDomain(perCache[c], k, |perCache[c]|);
    assert perCache[c][..|perCache[c]|] == perCache[c];
    DomainInFile(perCache, c, CacheHook(perCache[c][k]), |perCache|);
    assert perCache[..|perCache|] == perCache;
  }

  /** What the spec file holds for a plan, with the given settings. */
  ghost function SpecFile(plan: Plan, settings: Settings): seq<CDIDevice>
    requires plan.Works()
  {
    HooksOfAll(WithSettings(plan.PerCache(), settings))
  }

  /** Names in the file are distinct exactly when the published ones are. */
  lemma {:induction false} FileNamesDistinctExactly(plan: Plan, settings: Settings)
    requires plan.Works()
    ensures (forall i, j | 0 <= i < j < |SpecFile(plan, settings)| ::
               SpecFile(plan, settings)[i].name != SpecFile(plan, settings)[j].name)
            <==> Widths(plan.specs) == [] || Distinct(plan.info.cacheIDs)
  {
    var shown := WithSettings(plan.PerCache(), settings);
    PublisherAndCDIAgree(shown);
    PlanNamesDistinctExactly(plan, settings);
    SameNames(Inventory(AllPartitions(shown)), SpecFile(plan, settings));
  }

  lemma {:induction false} SameNames(ds: seq<PublishedDevice>, hs: seq<CDIDevice>)
    requires Agree(ds, hs)
    ensures NamesDistinct(ds) <==> forall i, j | 0 <= i < j < |hs| :: hs[i].name != hs[j].name
  {
    assert forall k | 0 <= k < |ds| :: Matches(ds[k], hs[k]);
  }

  /** The device of the file with the given name: the partition's ways, its mask and its group. */
  predicate HookFor(h: CDIDevice, p: CachePartition) {
    h.name == p.id && h.amount == p.ways && h.hookGroup == p.resctrlGroup && h.details == CDICache("L3", p.cbm)
  }

  /** Every device in an answer of basic mode is a known partition of the plan; its CDI id is the kind and
      the name of a device of the spec file; and that device's hook joins the group of the partition. */
  lemma {:induction false} AnswerIsInFile(me: Identity, plan: Plan, settings: Settings, o: Owners, uid: string,
        fetched: Protocol.Fetched, d: Protocol.PreparedDevice)
    returns (h: CDIDevice)
    requires plan.Works() && o.Keys == plan.Known().Keys
    requires PrepareBasic(me, o, uid, fetched).1.Prepared? && d in PrepareBasic(me, o, uid, fetched).1.devices
    ensures d.device in plan.Known() && h in SpecFile(plan, settings)
    ensures d.cdiDevice == "resctrl.fabiendupont.io/partition=" + h.name
    ensures h.name == d.device && HookFor(h, plan.Known()[d.device])
  {
    var p := AnsweredPartition(me, plan, o, uid, fetched, d);
    var c, k := RegisteredOrigin(plan.PerCache(), d.device);
    var shown := WithSettings(plan.PerCache(), settings);
    PlanFromDomain(plan, c, k);
    assert Listing(shown, c, k);
    HookListed(shown, c, k);
    h := CacheHook(shown[c][k]);
  }

  lemma {:induction false} AnsweredPartition(me: Identity, plan: Plan, o: Owners, uid: string,
        fetched: Protocol.Fetched, d: Protocol.PreparedDevice)
    returns (p: CachePartition)
    requires plan.Works() && o.Keys == plan.Known().Keys
    requires PrepareBasic(me, o, uid, fetched).1.Prepared? && d in PrepareBasic(me, o, uid, fetched).1.devices
    ensures d.device in plan.Known() && p == plan.Known()[d.device]
    ensures d.cdiDevice == "resctrl.fabiendupont.io/partition=" + d.device
  {
    AnswerIsOwned(me, o, uid, fetched, d);
    TakeMeaning(me, o, uid, fetched.results);
    var r := BasicDeviceOf(Granted(me, o, uid, fetched.results), d);
    CDIIdOf(r);
    p := plan.Known()[d.device];
  }

  lemma {:induction false} CDIIdOf(r: Protocol.DeviceResult)
    ensures BasicDevice(r).device == r.device
    ensures BasicDevice(r).cdiDevice == "resctrl.fabiendupont.io/partition=" + r.device
  {
  }

  /** And the text of that group claims exactly the ways that the file announces, as many as it says, and
      none in another domain. */
  lemma {:induction false} AnswerDeliversWays(me: Identity, plan: Plan, settings: Settings, o: Owners, uid: string,
        fetched: Protocol.Fetched, d: Protocol.PreparedDevice, l2: Option<Word>, mba: int, smba: int, domain: int)
    returns (h: CDIDevice, p: CachePartition)
    requires plan.Works() && o.Keys == plan.Known().Keys && forall id | id in plan.info.cacheIDs :: IsInt64(id)
    requires PrepareBasic(me, o, uid, fetched).1.Prepared? && d in PrepareBasic(me, o, uid, fetched).1.devices
    ensures h in SpecFile(plan, settings) && d.cdiDevice == "resctrl.fabiendupont.io/partition=" + h.name
    ensures d.device in plan.Known() && p == plan.Known()[d.device] && h.hookGroup == p.resctrlGroup
    ensures |Bits(MaskOf(p))| == h.amount
    ensures GroupWays(p, l2, mba, smba, domain) == if domain == p.cacheID then Bits(MaskOf(p)) else {}
  {
    h := AnswerIsInFile(me, plan, settings, o, uid, fetched, d);
    p := plan.Known()[d.device];
    KnownInDomain(plan, d.device);
    GroupWaysAreMask(plan, d.device, l2, mba, smba, domain);
    var c, k := RegisteredOrigin(plan.PerCache(), d.device);
    MaskIsTrue(plan, c, k);
  }

  // ---- A change of modes ---------------------------------------------------------------------

  /** The group of a partition, as basic mode leaves it in the resctrl root. */
  function PartitionEntry(p: CachePartition, l2: Option<Word>, mba: int, smba: int): DirEntry {
    DirEntry(p.resctrlGroup, true, Some(FileText(CombinedSchemata(p.cacheID, p.cbm, l2, mba, smba))))
  }

  lemma {:induction false} PartitionGroupPrefix(cacheID: int, index: int)
    ensures HasPrefix("dra-" + DeviceName(CacheDevice, cacheID, index), Protocol.GROUP_PREFIX)
  {
    var name := DeviceName(CacheDevice, cacheID, index);
    assert name == "cache" + (PrintInt(cacheID) + "-" + ("part" + PrintInt(index)));
    assert ("dra-" + name)[..5] == "dra-c";
  }

  /** The groups of basic mode also carry the prefix that the recovery of structured mode looks for: left
      in the directory, they are scanned, and their ways count as used. */
  lemma {:induction false} LeftoverPartitionsAreScanned(plan: Plan, id: string, l2: Option<Word>, mba: int, smba: int,
        domain: int)
    requires plan.Works() && id in plan.Known() && IsInt64(plan.Known()[id].cacheID)
    ensures var p := plan.Known()[id]; var e := PartitionEntry(p, l2, mba, smba);
            && Scanned(e, Protocol.GROUP_PREFIX)
            && EntryBits(e, Protocol.GROUP_PREFIX, domain) == if domain == p.cacheID then Bits(MaskOf(p)) else {}
  {
    var p := plan.Known()[id];
    GroupWaysAreMask(plan, id, l2, mba, smba, domain);
    var c, k := RegisteredOrigin(plan.PerCache(), id);
    PlanDomain(plan, c, k);
    PartitionGroupPrefix(p.cacheID, k);
    assert EntryMasks(PartitionEntry(p, l2, mba, smba), Protocol.GROUP_PREFIX)
           == TextMasks(FileText(CombinedSchemata(p.cacheID, p.cbm, l2, mba, smba)));
  }

  /** No other group does: whatever else is in the directory, a restart sees only names with that prefix. */
  lemma {:induction false} OtherGroupsAreIgnored(cfg: Protocol.Config, s: Protocol.Shared, a: seq<DirEntry>, e: DirEntry,
        b: seq<DirEntry>)
    requires !("dra-c" <= e.name)
    ensures Protocol.Restart(cfg, s, Some(a + [e] + b)) == Protocol.Restart(cfg, s, Some(a + b))
  {
    OtherEntriesLeaveNoTrace(Protocol.Empty(cfg.totals), a, e, b, Protocol.GROUP_PREFIX);
  }
}
