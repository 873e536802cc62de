/** Isolation in basic mode over whole runs of recovery, prepare and unprepare calls. */
module Isolation {
  import opened Options
  import opened Masks
  import opened Text
  import opened Schemata
  import opened Names
  import opened Partitions
  import opened PartitionOwnership
  import opened Protocol
  import opened BasicMode
  import opened ReplayOrder
  import opened WayAllocation

  // ---- Runs ----------------------------------------------------------------------------------

  /** `Grab` is one device of a prepare that runs interleaved with other calls: the state is locked
      device by device. `Prepare` is a whole call that runs undisturbed. */
  datatype Op =
    | Prepare(uid: string, fetched: Fetched)
    | Grab(uid: string, device: string)
    | Unprepare(uid: string)
    | Recover(claims: seq<Claim>)

  function Apply(me: Identity, o: Owners, op: Op): Owners {
    match op
    case Prepare(uid, fetched) => PrepareBasic(me, o, uid, fetched).0
    case Grab(uid, device) => Assign(o, device, uid).1
    case Unprepare(uid) => UnassignClaim(o, uid)
    case Recover(claims) => Replay(me, o, claims).0
  }

  function After(me: Identity, o: Owners, ops: seq<Op>): Owners {
    if ops == [] then o else Apply(me, After(me, o, ops[..|ops| - 1]), ops[|ops| - 1])
  }

  lemma {:induction false} ApplyKeys(me: Identity, o: Owners, op: Op)
    ensures Apply(me, o, op).Keys == o.Keys
  {
    match op
    case Prepare(uid, fetched) => if fetched.Allocation? { TakeMeaning(me, o, uid, fetched.results); }
    case Grab(uid, device) => AssignExactly(o, device, uid);
    case Unprepare(_) =>
    case Recover(claims) => ReplayKeys(me, o, claims);
  }

  lemma {:induction false} AfterKeys(me: Identity, o: Owners, ops: seq<Op>)
    ensures After(me, o, ops).Keys == o.Keys
  {
    if ops != [] {
      AfterKeys(me, o, ops[..|ops| - 1]);
      ApplyKeys(me, After(me, o, ops[..|ops| - 1]), ops[|ops| - 1]);
    }
  }

  // ---- Ownership over a run ------------------------------------------------------------------

  /** A held partition changes hands by no call but an unprepare of its holder. */
  lemma {:induction false} ApplyKeepsOwner(me: Identity, o: Owners, op: Op, p: string, uid: string)
    requires p in o && o[p] == Some(uid)
    ensures p in Apply(me, o, op)
    ensures Apply(me, o, op)[p] == if op == Op.Unprepare(uid) then None else Some(uid)
  {
    ApplyKeys(me, o, op);
    match op
    case Prepare(u, fetched) => if fetched.Allocation? { TakeMeaning(me, o, u, fetched.results); }
    case Grab(u, device) => AssignExactly(o, device, u);
    case Unprepare(_) =>
    case Recover(claims) => FirstClaimWins(me, o, claims, p);
  }

  /** A partition stays with its holder over every run without an unprepare of that holder. */
  lemma {:induction false} OwnershipPersists(me: Identity, o: Owners, ops: seq<Op>, p: string, uid: string)
    requires p in o && o[p] == Some(uid) && Op.Unprepare(uid) !in ops
    ensures p in After(me, o, ops) && After(me, o, ops)[p] == Some(uid)
  {
    if ops != [] {
      OwnershipPersists(me, o, ops[..|ops| - 1], p, uid);
      ApplyKeepsOwner(me, After(me, o, ops[..|ops| - 1]), ops[|ops| - 1], p, uid);
    }
  }

  lemma {:induction false} BasicDeviceOf(got: seq<DeviceResult>, d: PreparedDevice) returns (r: DeviceResult)
    requires d in BasicDevices(got)
    ensures r in got && d == BasicDevice(r)
  {
    r := got[|got| - 1];
    if d != BasicDevice(r) {
      r := BasicDeviceOf(got[..|got| - 1], d);
    }
  }

  /** Every device in the answer to a prepare call is owned by the claim when the call returns, and
      comes from a result for this driver and node. */
  lemma {:induction false} AnswerIsOwned(me: Identity, o: Owners, uid: string, fetched: Fetched, d: PreparedDevice)
    requires PrepareBasic(me, o, uid, fetched).1.Prepared? && d in PrepareBasic(me, o, uid, fetched).1.devices
    ensures var o' := PrepareBasic(me, o, uid, fetched).0; d.device in o' && o'[d.device] == Some(uid)
    ensures fetched.Allocation?
    ensures exists r | r in fetched.results ::
              r.driver == me.driverName && r.pool == me.nodeName && AnswersResult(d, r)
  {
    var results := fetched.results;
    TakeMeaning(me, o, uid, results);
    GrantedMembers(me, o, uid, results);
    var r := BasicDeviceOf(Granted(me, o, uid, results), d);
    assert NamedIn(me, results, r.device);
    assert AnswersResult(d, r);
  }

  // ---- The partitions behind the names -------------------------------------------------------

  ghost predicate Listing(perCache: seq<seq<CachePartition>>, c: nat, k: nat) {
    c < |perCache| && k < |perCache[c]|
  }

  lemma {:induction false} RegisterOrigin(known: map<string, CachePartition>, parts: seq<CachePartition>, id: string)
    returns (k: nat)
    requires id in Register(known, parts)
    ensures k <= |parts|
    ensures k < |parts| ==> parts[k].id == id && Register(known, parts)[id] == parts[k]
    ensures k == |parts| ==> id in known && Register(known, parts)[id] == known[id]
  {
    if parts == [] {
      k := 0;
    } else if parts[|parts| - 1].id == id {
      k := |parts| - 1;
    } else {
      var before := parts[..|parts| - 1];
      k := RegisterOrigin(known, before, id);
      if k == |before| { k := |parts|; }
    }
  }

  /** Every registered partition is one of the list, under its own id. */
  lemma {:induction false} RegisteredOrigin(perCache: seq<seq<CachePartition>>, id: string) returns (c: nat, k: nat)
    requires id in RegisterAll(perCache)
    ensures Listing(perCache, c, k) && perCache[c][k].id == id && RegisterAll(perCache)[id] == perCache[c][k]
  {
    var before, last := perCache[..|perCache| - 1], perCache[|perCache| - 1];
    k := RegisterOrigin(RegisterAll(before), last, id);
    if k < |last| {
      c := |before|;
    } else {
      c, k := RegisteredOrigin(before, id);
    }
  }

  /** A successful partitioning, with the specs the flag parser and `SpecsFromCount` produce. */
  datatype Plan = Plan(info: CATInfo, specs: seq<PartitionSpec>, tables: Tables) {
    ghost predicate Works() {
      PlainSpecs(specs) && Partitioned(info, specs, tables).Ok?
    }

    ghost function PerCache(): seq<seq<CachePartition>>
      requires Works()
    {
      Partitioned(info, specs, tables).value
    }

    ghost function Known(): map<string, CachePartition>
      requires Works()
    {
      RegisterAll(PerCache())
    }
  }

  lemma {:induction false} PlanDomain(plan: Plan, c: nat, k: nat)
    requires plan.Works() && Listing(plan.PerCache(), c, k)
    ensures |plan.PerCache()| == |plan.info.cacheIDs|
    ensures var d := DomainOf(plan.info, TotalWays(plan.info), plan.tables, plan.info.cacheIDs[c]);
            plan.PerCache()[c] == Layout(d, Widths(plan.specs))
    ensures var p := plan.PerCache()[c][k];
            p.cacheID == plan.info.cacheIDs[c] && p.index == k && p.id == DeviceName(CacheDevice, p.cacheID, k)
  {
    var d := DomainOf(plan.info, TotalWays(plan.info), plan.tables, plan.info.cacheIDs[c]);
    LayoutAt(d, Widths(plan.specs), k);
  }

  /** Two registered partitions of one cache domain have disjoint masks, even if the domain is listed
      more than once. */
  lemma {:induction false} KnownApart(plan: Plan, p: string, q: string)
    requires plan.Works() && p in plan.Known() && q in plan.Known() && p != q
    requires plan.Known()[p].cacheID == plan.Known()[q].cacheID
    ensures Bits(MaskOf(plan.Known()[p])) !! Bits(MaskOf(plan.Known()[q]))
  {
    var c, k := RegisteredOrigin(plan.PerCache(), p);
    var e, j := RegisteredOrigin(plan.PerCache(), q);
    PlanDomain(plan, c, k);
    PlanDomain(plan, e, j);
    PartitionsTile(plan.info, plan.specs, plan.tables, c);
    assert plan.PerCache()[c] == plan.PerCache()[e];
    assert j != k;
  }

  /** No partition is registered under the name of a bandwidth device. */
  lemma {:induction false} BandwidthNamesUnknown(plan: Plan, kind: DeviceKind, cacheID: int, index: int)
    requires plan.Works() && kind != CacheDevice
    ensures DeviceName(kind, cacheID, index) !in plan.Known()
  {
    var name := DeviceName(kind, cacheID, index);
    if name in plan.Known() {
      var c, k := RegisteredOrigin(plan.PerCache(), name);
      PlanDomain(plan, c, k);
      DeviceNameInjective(kind, cacheID, index, CacheDevice, plan.info.cacheIDs[c], k);
    }
  }

  predicate BandwidthName(name: string, kind: DeviceKind, cacheID: int, index: int) {
    kind != CacheDevice && name == DeviceName(kind, cacheID, index)
  }

  lemma {:induction false} UnknownRefused(me: Identity, o: Owners, uid: string, results: seq<DeviceResult>)
    requires forall r | r in results :: r.device !in o
    ensures Take(me, o, uid, results) == (o, [])
  {
    if results != [] {
      UnknownRefused(me, o, uid, results[..|results| - 1]);
      assert results[|results| - 1] in results;
    }
  }

  /** A claim for bandwidth devices only is refused and changes nothing, in every state. */
  lemma {:induction false} BandwidthClaimRefused(me: Identity, plan: Plan, o: Owners, uid: string,
        results: seq<DeviceResult>)
    requires plan.Works() && o.Keys == plan.Known().Keys
    requires forall r | r in results :: exists kind, c, i :: BandwidthName(r.device, kind, c, i)
    ensures PrepareBasic(me, o, uid, Allocation(results)) == (o, Failed(NoDevices))
  {
    forall r | r in results ensures r.device !in plan.Known() {
      var kind, c, i :| BandwidthName(r.device, kind, c, i);
      BandwidthNamesUnknown(plan, kind, c, i);
    }
    UnknownRefused(me, o, uid, results);
  }

  // ---- The end-to-end statement --------------------------------------------------------------

  ghost function Start(plan: Plan): Owners
    requires plan.Works()
  {
    AllFree(plan.Known())
  }

  /** The call hands the device to the claim. */
  ghost predicate Obtains(me: Identity, o: Owners, op: Op, uid: string, device: string) {
    match op
    case Prepare(u, fetched) =>
      var answer := PrepareBasic(me, o, u, fetched).1;
      u == uid && answer.Prepared? && exists d | d in answer.devices :: d.device == device
    case Grab(u, d) => u == uid && d == device && Assign(o, d, u).0.None?
    case _ => false
  }

  /** Call `n` of the run handed the device to the claim, and the claim has not been unprepared
      since. */
  ghost predicate Holds(me: Identity, o: Owners, ops: seq<Op>, n: nat, uid: string, device: string) {
    n < |ops| && Obtains(me, After(me, o, ops[..n]), ops[n], uid, device) && Op.Unprepare(uid) !in ops[n + 1..]
  }

  lemma {:induction false} ObtainedIsOwned(me: Identity, o: Owners, op: Op, uid: string, device: string)
    requires Obtains(me, o, op, uid, device)
    ensures device in Apply(me, o, op) && Apply(me, o, op)[device] == Some(uid)
  {
    match op
    case Prepare(u, fetched) =>
      var d :| d in PrepareBasic(me, o, u, fetched).1.devices && d.device == device;
      AnswerIsOwned(me, o, u, fetched, d);
    case Grab(u, d) => AssignExactly(o, d, u);
  }

  /** The single steps of a prepare. */
  function Grabs(me: Identity, uid: string, results: seq<DeviceResult>): seq<Op> {
    if results == [] then []
    else
      var r := results[|results| - 1];
      Grabs(me, uid, results[..|results| - 1]) + if Ours(me, r) then [Grab(uid, r.device)] else []
  }

  /** An undisturbed prepare is the run of its single steps. */
  lemma {:induction false} PrepareIsItsGrabs(me: Identity, o: Owners, uid: string, results: seq<DeviceResult>)
    ensures Apply(me, o, Op.Prepare(uid, Allocation(results))) == After(me, o, Grabs(me, uid, results))
  {
    if results != [] {
      var before := results[..|results| - 1];
      PrepareIsItsGrabs(me, o, uid, before);
      var r, steps := results[|results| - 1], Grabs(me, uid, before);
      assert Grabs(me, uid, results) == if Ours(me, r) then steps + [Grab(uid, r.device)] else steps;
      assert After(me, o, steps) == Take(me, o, uid, before).0;
    }
  }

  lemma {:induction false} AfterSplit(me: Identity, o: Owners, a: seq<Op>, b: seq<Op>)
    ensures After(me, o, a + b) == After(me, After(me, o, a), b)
  {
    if b == [] {
      assert a + b == a;
    } else {
      assert (a + b)[..|a + b| - 1] == a + b[..|b| - 1];
      AfterSplit(me, o, a, b[..|b| - 1]);
    }
  }

  /** A device handed to a claim is owned by it until that claim's unprepare. */
  lemma {:induction false} HeldIsOwned(me: Identity, o: Owners, ops: seq<Op>, n: nat, uid: string, device: string)
    requires Holds(me, o, ops, n, uid, device)
    ensures device in After(me, o, ops) && After(me, o, ops)[device] == Some(uid)
  {
    var earlier := After(me, o, ops[..n]);
    ObtainedIsOwned(me, earlier, ops[n], uid, device);
    assert ops[..n + 1][..n] == ops[..n];
    assert After(me, o, ops[..n + 1]) == Apply(me, earlier, ops[n]);
    OwnershipPersists(me, After(me, o, ops[..n + 1]), ops[n + 1..], device, uid);
    AfterSplit(me, o, ops[..n + 1], ops[n + 1..]);
    assert ops[..n + 1] + ops[n + 1..] == ops;
  }

  /** The ways of a domain that the text of the partition's group claims, whatever L2 mask and
      bandwidths are written with it. */
  ghost function GroupWays(p: CachePartition, l2: Option<Word>, mba: int, smba: int, domain: int): set<nat> {
    TextBits(FileText(CombinedSchemata(p.cacheID, p.cbm, l2, mba, smba)), domain)
  }

  lemma {:induction false} GroupWaysAreMask(plan: Plan, id: string, l2: Option<Word>, mba: int, smba: int, domain: int)
    requires plan.Works() && id in plan.Known() && IsInt64(plan.Known()[id].cacheID)
    ensures var p := plan.Known()[id];
            && GroupWays(p, l2, mba, smba, domain) == (if domain == p.cacheID then Bits(MaskOf(p)) else {})
            && p.resctrlGroup == "dra-" + id
  {
    var c, k := RegisteredOrigin(plan.PerCache(), id);
    PlanDomain(plan, c, k);
    var d, widths := DomainOf(plan.info, TotalWays(plan.info), plan.tables, plan.info.cacheIDs[c]), Widths(plan.specs);
    LayoutAt(d, widths, k);
    MaskOfPartition(d, k, Sum(widths[..k]), widths[k]);
    var m := WayMask(Sum(widths[..k]), widths[k]);
    CombinedRoundTrip(d.cacheID, m, l2, mba, smba);
    WrittenBits(FileText(CombinedSchemata(d.cacheID, MaskHex(m), l2, mba, smba)), d.cacheID, m, domain);
  }

  /** Isolation. In every run, with prepares interleaved device by device, the devices of different
      claims that have not been unprepared since stand for different partitions with different
      groups, and the texts of the two groups claim no way in common, in any domain. */
  lemma {:induction false} IsolationOverAllRuns(me: Identity, plan: Plan, ops: seq<Op>,
        m: nat, u: string, a: string, n: nat, v: string, b: string,
        l2: Option<Word>, mba: int, smba: int, domain: int)
    requires plan.Works() && u != v && forall id | id in plan.info.cacheIDs :: IsInt64(id)
    requires Holds(me, Start(plan), ops, m, u, a) && Holds(me, Start(plan), ops, n, v, b)
    ensures a in plan.Known() && b in plan.Known()
    ensures var p, q := plan.Known()[a], plan.Known()[b];
            && p.resctrlGroup != q.resctrlGroup
            && GroupWays(p, l2, mba, smba, domain) !! GroupWays(q, l2, mba, smba, domain)
  {
    HeldIsOwned(me, Start(plan), ops, m, u, a);
    HeldIsOwned(me, Start(plan), ops, n, v, b);
    AfterKeys(me, Start(plan), ops);
    KnownGroupsApart(plan, a, b, l2, mba, smba, domain);
  }

  lemma {:induction false} KnownGroupsApart(plan: Plan, a: string, b: string, l2: Option<Word>, mba: int,
        smba: int, domain: int)
    requires plan.Works() && a in plan.Known() && b in plan.Known() && a != b
    requires forall id | id in plan.info.cacheIDs :: IsInt64(id)
    ensures plan.Known()[a].resctrlGroup != plan.Known()[b].resctrlGroup
    ensures GroupWays(plan.Known()[a], l2, mba, smba, domain) !! GroupWays(plan.Known()[b], l2, mba, smba, domain)
  {
    KnownInDomain(plan, a);
    KnownInDomain(plan, b);
    GroupWaysAreMask(plan, a, l2, mba, smba, domain);
    GroupWaysAreMask(plan, b, l2, mba, smba, domain);
    assert ("dra-" + a)[4..] == a && ("dra-" + b)[4..] == b;
    if plan.Known()[a].cacheID == plan.Known()[b].cacheID { KnownApart(plan, a, b); }
  }

  lemma {:induction false} KnownInDomain(plan: Plan, id: string)
    requires plan.Works() && id in plan.Known()
    ensures plan.Known()[id].cacheID in plan.info.cacheIDs
  {
    var c, k := RegisteredOrigin(plan.PerCache(), id);
    PlanDomain(plan, c, k);
  }

  /** After a restart, a listed claim owns again a known partition that it names exactly when the first
      claim of the list to name it carries the same UID. */
  lemma {:induction false} RestartRestores(me: Identity, plan: Plan, claims: seq<Claim>, k: nat, p: string)
    requires plan.Works() && k < |claims| && p in plan.Known() && Wants(me, claims[k], p)
    ensures p in Replay(me, Start(plan), claims).0
    ensures Replay(me, Start(plan), claims).0[p] == Some(claims[k].uid)
            <==> exists j: nat | FirstAt(me, claims, p, j) :: claims[j].uid == claims[k].uid
  {
    FirstClaimWins(me, Start(plan), claims, p);
    var j := FirstWanting(me, claims, p);
    assert FirstAt(me, claims, p, j);
  }

  /** The list gives the partition back to its owner of before. */
  ghost predicate GivenBack(me: Identity, claims: seq<Claim>, p: string, owner: Option<string>) {
    match owner
    case None => Unwanted(me, claims, p)
    case Some(uid) => exists j: nat | FirstAt(me, claims, p, j) :: claims[j].uid == uid
  }

  /** Recovery ends in the owners from before the crash exactly when, for each partition, nobody in the
      list names a free one and the first claim to name a held one is its holder. */
  lemma {:induction false} RecoveryIsExact(me: Identity, plan: Plan, before: Owners, claims: seq<Claim>)
    requires plan.Works() && before.Keys == plan.Known().Keys
    ensures Replay(me, Start(plan), claims).0 == before
            <==> forall p | p in before :: GivenBack(me, claims, p, before[p])
  {
    var after := Replay(me, Start(plan), claims).0;
    ReplayKeys(me, Start(plan), claims);
    forall p | p in before ensures after[p] == before[p] <==> GivenBack(me, claims, p, before[p]) {
      PartitionGivenBack(me, Start(plan), claims, p, before[p]);
    }
  }

  lemma {:induction false} PartitionGivenBack(me: Identity, o: Owners, claims: seq<Claim>, p: string,
        owner: Option<string>)
    requires p in o && o[p] == None
    ensures p in Replay(me, o, claims).0
    ensures Replay(me, o, claims).0[p] == owner <==> GivenBack(me, claims, p, owner)
  {
    FirstClaimWins(me, o, claims, p);
    if !Unwanted(me, claims, p) {
      var j := FirstWanting(me, claims, p);
      assert FirstAt(me, claims, p, j);
    }
  }
}
