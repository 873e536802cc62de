/** When a prepare of structured mode succeeds: for any devices and any outcomes of the file operations,
    and, when these succeed, from the scheduler's counters. */
module Admission {
  import opened Options
  import opened Names
  import opened WayAllocation
  import opened Protocol
  import opened Accounting
  import opened StructuredDriver
  import opened Rollback
  import opened Delivery
  import opened Fragmentation
  import opened Isolation
  import Publishing

  // ---- Any outcomes --------------------------------------------------------------------------

  /** Every cache-way device is recorded, each starting from the state that the one before leaves. */
  predicate AllRecorded(cfg: Config, s: Shared, uid: string, todo: seq<DeviceResult>, done: seq<PreparedDevice>,
                        ok: nat -> bool, k: nat)
    requires ValidTotals(cfg.totals)
    decreases |todo|
  {
    todo == []
    || if !Matches(cfg, todo[0]) then AllRecorded(cfg, s, uid, todo[1..], done, ok, k + 1)
       else
         var job := JobFor(cfg, s, uid, todo[0], todo[1..], done);
         FateOf(cfg, s, uid, todo[0], ok, k) == Recorded
         && AllRecorded(cfg, AfterDevice(cfg, s, job), uid, todo[1..], done + [DeviceOf(job)], ok, k + 5)
  }

  predicate Succeeds(t: Thread) {
    t.Finished? && t.response.Prepared?
  }

  lemma {:induction false} ScanSucceedsExactly(cfg: Config, s: Shared, uid: string, todo: seq<DeviceResult>,
        done: seq<PreparedDevice>, ok: nat -> bool, k: nat)
    requires ValidTotals(cfg.totals) && cfg.totals.Keys <= s.inUse.Keys
    ensures Succeeds(RunThread(cfg, s, Scanning(uid, todo, done), ok, k).1)
            <==> AllRecorded(cfg, s, uid, todo, done, ok, k) && (done != [] || CountMatches(cfg, todo) > 0)
    decreases |todo|
  {
    if todo == [] {
      NothingToReserve(cfg, s, uid, todo, done, ok, k);
    } else {
      var r, rest := todo[0], todo[1..];
      assert todo == [r] + rest;
      if !Matches(cfg, r) {
        ScanSteps(cfg, s, uid, r, rest, done, ok, k);
        ScanSucceedsExactly(cfg, s, uid, rest, done, ok, k + 1);
      } else {
        DeviceRun(cfg, s, uid, r, rest, done, ok, k);
        if FateOf(cfg, s, uid, r, ok, k) == Recorded {
          var job := JobFor(cfg, s, uid, r, rest, done);
          ReserveGrants(cfg.totals, s.inUse, job.cacheID, job.ways);
          ScanSucceedsExactly(cfg, AfterDevice(cfg, s, job), uid, rest, done + [DeviceOf(job)], ok, k + 5);
        }
      }
    }
  }

  /** A prepare succeeds if and only if the claim was fetched, has an allocation, names a cache-way device,
      and every device it names is recorded. */
  lemma {:induction false} PrepareSucceedsExactly(cfg: Config, s: Shared, uid: string, fetched: Fetched, ok: nat -> bool)
    requires ValidTotals(cfg.totals) && cfg.totals.Keys <= s.inUse.Keys
    ensures Succeeds(RunThread(cfg, s, BeginPrepare(uid, fetched), ok, 0).1)
            <==> fetched.Allocation? && CountMatches(cfg, fetched.results) > 0
                 && AllRecorded(cfg, s, uid, fetched.results, [], ok, 0)
  {
    if fetched.Allocation? { ScanSucceedsExactly(cfg, s, uid, fetched.results, [], ok, 0); }
  }

  // ---- When the file operations succeed ------------------------------------------------------

  /** The requests for ways that the cache-way devices stand for. */
  function WayRequests(cfg: Config, results: seq<DeviceResult>): seq<(int, int)> {
    if results == [] then []
    else
      (if Matches(cfg, results[0]) then [ParseCacheWayName(results[0].device).value] else [])
      + WayRequests(cfg, results[1..])
  }

  lemma {:induction false} RecordedWhenGranted(cfg: Config, s: Shared, uid: string, todo: seq<DeviceResult>,
        done: seq<PreparedDevice>, ok: nat -> bool, k: nat)
    requires ValidTotals(cfg.totals) && |uid| >= 8 && forall j: nat :: ok(j)
    ensures AllRecorded(cfg, s, uid, todo, done, ok, k) <==> AllGranted(cfg.totals, s.inUse, WayRequests(cfg, todo))
    decreases |todo|
  {
    if todo != [] {
      var r, rest := todo[0], todo[1..];
      if !Matches(cfg, r) {
        RecordedWhenGranted(cfg, s, uid, rest, done, ok, k + 1);
        assert [] + WayRequests(cfg, rest) == WayRequests(cfg, rest);
      } else {
        var job, request := JobFor(cfg, s, uid, r, rest, done), ParseCacheWayName(r.device).value;
        FirstRequest(cfg.totals, s.inUse, request, WayRequests(cfg, rest));
        if Reserve(cfg.totals, s.inUse, request.0, request.1).0.Ok? {
          RecordedWhenGranted(cfg, AfterDevice(cfg, s, job), uid, rest, done + [DeviceOf(job)], ok, k + 5);
        }
      }
    }
  }

  lemma {:induction false} FirstRequest(totals: map<int, nat>, alloc: Occupancy, request: (int, int), rest: seq<(int, int)>)
    requires ValidTotals(totals)
    ensures AllGranted(totals, alloc, [request] + rest)
            <==> Reserve(totals, alloc, request.0, request.1).0.Ok?
                 && AllGranted(totals, Reserve(totals, alloc, request.0, request.1).1, rest)
  {
    assert ([request] + rest)[1..] == rest;
  }

  // ---- From the scheduler to the answer ------------------------------------------------------

  /** Each cache-way device of the claim is one of the published devices, as picked by the scheduler. */
  ghost predicate Picked(cfg: Config, plan: Plan, results: seq<DeviceResult>, picks: seq<Publishing.WayDevice>)
    requires plan.Works()
  {
    var chosen := Chosen(cfg, results);
    |picks| == |chosen|
    && forall k | 0 <= k < |picks| ::
         picks[k].name == chosen[k].device && picks[k] in Publishing.WayDevices(Publishing.References(plan.PerCache()))
  }

  lemma {:induction false} PicksAreRequests(cfg: Config, results: seq<DeviceResult>, picks: seq<Publishing.WayDevice>)
    requires |picks| == |Chosen(cfg, results)|
    requires forall k | 0 <= k < |picks| :: picks[k].name == Chosen(cfg, results)[k].device
    requires Publishing.Readable(picks)
    ensures Publishing.Requests(picks) == WayRequests(cfg, results)
  {
    if results != [] {
      var rest := results[1..];
      if Matches(cfg, results[0]) {
        assert forall k | 0 <= k < |picks[1..]| :: picks[1..][k] == picks[k + 1];
        assert Chosen(cfg, results)[1..] == Chosen(cfg, rest);
        PicksAreRequests(cfg, rest, picks[1..]);
      } else {
        assert Chosen(cfg, results) == Chosen(cfg, rest);
        PicksAreRequests(cfg, rest, picks);
      }
    }
  }

  /** From the published counters to the answer. On a fresh node, with file operations that succeed, a
      claim for published devices is prepared if and only if it names one and the scheduler's counters
      admit them together. */
  lemma {:induction false} AdmittedExactlyPrepared(cfg: Config, plan: Plan, s: Shared, uid: string,
        results: seq<DeviceResult>, picks: seq<Publishing.WayDevice>, ok: nat -> bool)
    requires plan.Works() && Publishing.UsualIDs(plan.info) && cfg.totals == Publishing.AllocatorTotals(plan.info)
    requires ValidTotals(cfg.totals) && s.inUse == Fresh(cfg.totals).alloc
    requires Picked(cfg, plan, results, picks)
    requires |uid| >= 8 && forall j: nat :: ok(j)
    ensures Succeeds(RunThread(cfg, s, BeginPrepare(uid, Allocation(results)), ok, 0).1)
            <==> picks != []
                 && Publishing.Admitted(Publishing.Counters(Publishing.References(plan.PerCache())), picks)
  {
    forall d | d in picks ensures d in Publishing.WayDevices(Publishing.References(plan.PerCache())) {
      var k: nat :| k < |picks| && picks[k] == d;
    }
    Publishing.AdmittedExactlyGranted(plan, picks);
    PicksAreRequests(cfg, results, picks);
    ChosenCount(cfg, results);
    PrepareSucceedsExactly(cfg, s, uid, Allocation(results), ok);
    RecordedWhenGranted(cfg, s, uid, results, [], ok, 0);
  }
}
