/** Which partitions the allocation state knows, and that each of them can be prepared
    (`pkg/driver/state.go`). */
module Registration {
  import opened Options
  import opened Names
  import opened Partitions
  import opened PartitionOwnership
  import opened Protocol
  import opened BasicMode
  import opened ReplayOrder
  import opened Isolation

  // ---- Any list ------------------------------------------------------------------------------

  lemma {:induction false} RegisterExactly(known: map<string, CachePartition>, parts: seq<CachePartition>, id: string)
    ensures id in Register(known, parts) <==> id in known || exists k | 0 <= k < |parts| :: parts[k].id == id
  {
    if parts != [] {
      var n := |parts| - 1;
      RegisterExactly(known, parts[..n], id);
      assert forall k | 0 <= k < n :: parts[..n][k] == parts[k];
    }
  }

  ghost predicate ListedAs(perCache: seq<seq<CachePartition>>, c: nat, k: nat, id: string) {
    Listing(perCache, c, k) && perCache[c][k].id == id
  }

  /** An id is registered if and only if some listed partition has it. */
  lemma {:induction false} RegisteredExactly(perCache: seq<seq<CachePartition>>, id: string)
    ensures id in RegisterAll(perCache) <==> exists c: nat, k: nat :: ListedAs(perCache, c, k, id)
  {
    if perCache != [] {
      var n := |perCache| - 1;
      var before, last := perCache[..n], perCache[n];
      RegisteredExactly(before, id);
      RegisterExactly(RegisterAll(before), last, id);
      if k :| 0 <= k < |last| && last[k].id == id { assert ListedAs(perCache, n, k, id); }
      if c: nat, k: nat :| ListedAs(before, c, k, id) { assert ListedAs(perCache, c, k, id); }
      if c: nat, k: nat :| ListedAs(perCache, c, k, id) { assert c < n ==> ListedAs(before, c, k, id); }
    }
  }

  /** No later partition of the list has the same id. */
  ghost predicate LastListed(perCache: seq<seq<CachePartition>>, c: nat, k: nat) {
    Listing(perCache, c, k)
    && forall e: nat, j: nat | ListedAs(perCache, e, j, perCache[c][k].id) :: e < c || (e == c && j <= k)
  }

  lemma {:induction false} RegisterLast(known: map<string, CachePartition>, parts: seq<CachePartition>, k: nat)
    requires k < |parts| && forall j | k < j < |parts| :: parts[j].id != parts[k].id
    ensures parts[k].id in Register(known, parts) && Register(known, parts)[parts[k].id] == parts[k]
  {
    var n := |parts| - 1;
    if k < n {
      assert forall j | 0 <= j < n :: parts[..n][j] == parts[j];
      RegisterLast(known, parts[..n], k);
    }
  }

  lemma {:induction false} RegisterKeeps(known: map<string, CachePartition>, parts: seq<CachePartition>, id: string)
    requires id in known && forall j | 0 <= j < |parts| :: parts[j].id != id
    ensures id in Register(known, parts) && Register(known, parts)[id] == known[id]
  {
    if parts != [] {
      var n := |parts| - 1;
      assert forall j | 0 <= j < n :: parts[..n][j] == parts[j];
      RegisterKeeps(known, parts[..n], id);
    }
  }

  /** It is then registered for the last partition that has it. */
  lemma {:induction false} LastRegistrationWins(perCache: seq<seq<CachePartition>>, c: nat, k: nat)
    requires LastListed(perCache, c, k)
    ensures var p := perCache[c][k]; p.id in RegisterAll(perCache) && RegisterAll(perCache)[p.id] == p
  {
    var n := |perCache| - 1;
    var before, last, p := perCache[..n], perCache[n], perCache[c][k];
    if c == n {
      forall j | k < j < |last| ensures last[j].id != p.id {
        assert ListedAs(perCache, n, j, last[j].id);
      }
      RegisterLast(RegisterAll(before), last, k);
    } else {
      forall e: nat, j: nat | ListedAs(before, e, j, p.id) ensures e < c || (e == c && j <= k) {
        assert ListedAs(perCache, e, j, p.id);
      }
      LastRegistrationWins(before, c, k);
      forall j | 0 <= j < |last| ensures last[j].id != p.id {
        assert ListedAs(perCache, n, j, last[j].id);
      }
      RegisterKeeps(RegisterAll(before), last, p.id);
    }
  }

  // ---- The partitions of a plan --------------------------------------------------------------

  /** Every partition of a plan is known under its own id, even if a domain is listed twice. */
  lemma {:induction false} PlanKnowsItsPartitions(plan: Plan, c: nat, k: nat)
    requires plan.Works() && Listing(plan.PerCache(), c, k)
    ensures var p := plan.PerCache()[c][k];
            && p.id == DeviceName(CacheDevice, plan.info.cacheIDs[c], k)
            && p.id in plan.Known() && plan.Known()[p.id] == p
  {
    var p := plan.PerCache()[c][k];
    PlanDomain(plan, c, k);
    assert ListedAs(plan.PerCache(), c, k, p.id);
    RegisteredExactly(plan.PerCache(), p.id);
    var e, j := RegisteredOrigin(plan.PerCache(), p.id);
    PlanDomain(plan, e, j);
    DeviceNameInjective(CacheDevice, p.cacheID, k, CacheDevice, plan.info.cacheIDs[e], j);
    assert plan.PerCache()[e] == plan.PerCache()[c];
  }

  /** The name of a partition of the plan: a listed domain and an index below the number of partitions. */
  ghost predicate PartitionName(plan: Plan, name: string)
    requires plan.Works()
  {
    exists c: nat, k: nat | Listing(plan.PerCache(), c, k) :: name == DeviceName(CacheDevice, plan.info.cacheIDs[c], k)
  }

  lemma {:induction false} KnownNames(plan: Plan, name: string)
    requires plan.Works()
    ensures name in plan.Known() <==> PartitionName(plan, name)
  {
    if name in plan.Known() {
      var c, k := RegisteredOrigin(plan.PerCache(), name);
      PlanDomain(plan, c, k);
    }
    if PartitionName(plan, name) {
      var c: nat, k: nat :| Listing(plan.PerCache(), c, k) && name == DeviceName(CacheDevice, plan.info.cacheIDs[c], k);
      PlanKnowsItsPartitions(plan, c, k);
    }
  }

  /** The result is for this driver and node and names a partition of the plan. */
  ghost predicate Servable(me: Identity, plan: Plan, r: DeviceResult)
    requires plan.Works()
  {
    r.driver == me.driverName && r.pool == me.nodeName && PartitionName(plan, r.device)
  }

  lemma {:induction false} GrantedFresh(me: Identity, plan: Plan, uid: string, results: seq<DeviceResult>)
    requires plan.Works()
    ensures forall r :: r in Granted(me, Start(plan), uid, results) <==> r in results && Servable(me, plan, r)
  {
    GrantedMembers(me, Start(plan), uid, results);
    forall r: DeviceResult ensures r.device in Start(plan) <==> PartitionName(plan, r.device) { KnownNames(plan, r.device); }
  }

  /** Exactly the results that are granted are owned and answered. */
  lemma {:induction false} PrepareAnswersGranted(me: Identity, o: Owners, uid: string, results: seq<DeviceResult>)
    ensures var (o', answer) := PrepareBasic(me, o, uid, Allocation(results));
            var granted := Granted(me, o, uid, results);
            && (answer.Prepared? <==> granted != [])
            && forall r | r in granted ::
                 r.device in o' && o'[r.device] == Some(uid)
                 && answer.Prepared? && exists d | d in answer.devices :: AnswersResult(d, r)
  {
    var granted := Granted(me, o, uid, results);
    TakeMeaning(me, o, uid, results);
    GrantedMembers(me, o, uid, results);
    forall r | r in granted
      ensures NamedIn(me, results, r.device) && exists d | d in BasicDevices(granted) :: AnswersResult(d, r)
    {
      AnsweredFor(granted, r);
    }
  }

  /** On a fresh node, a claim is prepared if and only if one of its results names a partition, and it
      then owns and is answered each partition it names. */
  lemma {:induction false} FreshPrepareExactly(me: Identity, plan: Plan, uid: string, results: seq<DeviceResult>)
    requires plan.Works()
    ensures var (o, answer) := PrepareBasic(me, Start(plan), uid, Allocation(results));
            && (answer.Prepared? <==> exists r | r in results :: Servable(me, plan, r))
            && forall r | r in results && Servable(me, plan, r) ::
                 r.device in o && o[r.device] == Some(uid)
                 && answer.Prepared? && exists d | d in answer.devices :: AnswersResult(d, r)
  {
    var granted := Granted(me, Start(plan), uid, results);
    GrantedFresh(me, plan, uid, results);
    PrepareAnswersGranted(me, Start(plan), uid, results);
    if granted != [] { assert granted[0] in granted; }
  }

  lemma {:induction false} AnsweredFor(got: seq<DeviceResult>, r: DeviceResult)
    requires r in got
    ensures exists d | d in BasicDevices(got) :: AnswersResult(d, r)
  {
    var n := |got| - 1;
    if got[n] == r {
      assert BasicDevice(r) in BasicDevices(got) && AnswersResult(BasicDevice(r), r);
    } else {
      AnsweredFor(got[..n], r);
    }
  }
}
