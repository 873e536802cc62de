/** The structured-mode request handlers as the driver runs them, one request at a time.

  `RunThread` executes one thread of the state machine to its end. The methods below keep the
  source's control flow and are proved to do exactly what that thread does, step for step, so what
  is proved of the machine under any interleaving is about these methods.
*/
module StructuredDriver {
  import opened Options
  import opened Masks
  import opened Names
  import opened Schemata
  import opened WayAllocation
  import opened Protocol

  predicate Done(t: Thread) {
    t.Finished? || t.Panicked?
  }

  /** Steps left at most, with `|todo|` devices still to scan. */
  function Rank(t: Thread): nat {
    match t
    case Scanning(_, todo, _) => 10 * |todo| + 1
    case Reserved(job) => 10 * |job.rest| + 10
    case DirMade(job) => 10 * |job.rest| + 9
    case Written(job) => 10 * |job.rest| + 8
    case Described(job) => 10 * |job.rest| + 7
    case WriteFailed(job) => 3
    case SpecFailed(job) => 3
    case Undoing(_, _) => 2
    case Forgetting(_) => 5
    case Deleting(_, _) => 4
    case Releasing(_, _) => 3
    case Unlinking(_, _) => 2
    case _ => 0
  }

  /** Runs a thread to its end; the file operation of step `k` succeeds when `ok(k)`. */
  function RunThread(cfg: Config, s: Shared, t: Thread, ok: nat -> bool, k: nat): (Shared, Thread)
    requires ValidTotals(cfg.totals)
    decreases Rank(t)
  {
    if Done(t) then (s, t)
    else var (s', t') := Step(cfg, s, t, ok(k)); RunThread(cfg, s', t', ok, k + 1)
  }

  /** The answer of a finished thread; None when the handler panicked. */
  function Answer(t: Thread): Option<Response> {
    if t.Finished? then Some(t.response) else None
  }

  // ---- The resctrl file system ---------------------------------------------------------------

  class Resctrl {
    var groups: map<string, Option<string>>

    constructor (groups: map<string, Option<string>>)
      ensures this.groups == groups
    {
      this.groups := groups;
    }

    /** `CreateGroup`. The outcomes of its directory, file and clean-up operations are
        `ok(k)`, `ok(k + 1)` and `ok(k + 2)`. */
    method CreateGroup(name: string, schemata: string, ok: nat -> bool, k: nat) returns (created: bool)
      modifies this
      ensures created <==> ok(k) && (schemata == "" || ok(k + 1))
      ensures created ==> groups == if schemata == "" then MakeDir(old(groups), name)
                                    else old(groups)[name := Some(FileText(schemata))]
      ensures !created ==> groups == if ok(k) && ok(k + 2) then old(groups) - {name}
                                     else if ok(k) then MakeDir(old(groups), name)
                                     else old(groups)
    {
      if !ok(k) { return false; }
      groups := MakeDir(groups, name);
      if schemata != "" {
        if !ok(k + 1) {
          if ok(k + 2) {
            groups := groups - {name};
          }
          return false;
        }
        groups := groups[name := Some(FileText(schemata))];
      }
      return true;
    }

    /** `DeleteGroup`. Removing a group that does not exist is an error. */
    method DeleteGroup(name: string, ok: bool) returns (deleted: bool)
      modifies this
      ensures deleted <==> ok && name in old(groups)
      ensures groups == if ok then old(groups) - {name} else old(groups)
    {
      deleted := ok && name in groups;
      if ok {
        groups := groups - {name};
      }
    }
  }

  // ---- The driver object ---------------------------------------------------------------------

  class Driver {
    const cfg: Config
    const wayAlloc: WayAllocator
    const resctrl: Resctrl
    var specs: map<string, ClaimSpec>
    var structuredAllocs: map<string, Record>

    ghost predicate Valid()
      reads this, wayAlloc
    {
      wayAlloc.Valid() && wayAlloc.totalWays == cfg.totals
    }

    ghost function State(): Shared
      reads this, wayAlloc, resctrl
    {
      Shared(wayAlloc.inUse, resctrl.groups, specs, structuredAllocs)
    }

    constructor (cfg: Config, wayAlloc: WayAllocator, resctrl: Resctrl)
      requires wayAlloc.Valid() && wayAlloc.totalWays == cfg.totals
      ensures Valid() && this.cfg == cfg && this.wayAlloc == wayAlloc && this.resctrl == resctrl
      ensures State() == Shared(wayAlloc.inUse, resctrl.groups, map[], map[])
    {
      this.cfg := cfg;
      this.wayAlloc := wayAlloc;
      this.resctrl := resctrl;
      this.specs := map[];
      this.structuredAllocs := map[];
    }

    method PrepareClaimStructured(uid: string, fetched: Fetched, ok: nat -> bool) returns (answer: Option<Response>)
      requires Valid()
      modifies this, wayAlloc, resctrl
      ensures Valid()
      ensures var (s, t) := RunThread(cfg, old(State()), BeginPrepare(uid, fetched), ok, 0);
              State() == s && answer == Answer(t)
    {
      if fetched.FetchFailed? { return Some(Failed(FetchError)); }
      if fetched.Unallocated? { return Some(Failed(NoAllocation)); }
      var results, devices, k := fetched.results, [], 0;
      ghost var goal := RunThread(cfg, State(), BeginPrepare(uid, fetched), ok, 0);
      var n := 0;
      while n < |results|
        invariant Valid() && 0 <= n <= |results|
        invariant RunThread(cfg, State(), Scanning(uid, results[n..], devices), ok, k) == goal
      {
        var result := results[n];
        ghost var rest := results[n + 1..];
        assert results[n..] == [result] + rest;
        n := n + 1;
        ScanSteps(cfg, State(), uid, result, rest, devices, ok, k);
        if result.driver != cfg.driverName || result.pool != cfg.nodeName {
          k := k + 1;
          continue;
        }
        var parsed := ParseCacheWayName(result.device);
        if parsed.Err? {
          k := k + 1;
          continue;
        }
        var outcome;
        outcome, k := PrepareDevice(uid, result, parsed.value.0, parsed.value.1, ok, k, rest, devices);
        if outcome.Stop? { return outcome.answer; }
        devices := devices + [outcome.device];
      }
      if devices == [] { return Some(Failed(NoDevices)); }
      return Some(Prepared(devices));
    }

    /** The body of the loop over the results, for a cache-way device. */
    method PrepareDevice(uid: string, result: DeviceResult, cacheID: int, ways: int, ok: nat -> bool, k: nat,
                         ghost rest: seq<DeviceResult>, ghost done: seq<PreparedDevice>)
      returns (outcome: Outcome, next: nat)
      requires Valid() && Matches(cfg, result) && ParseCacheWayName(result.device) == Ok((cacheID, ways))
      modifies this, wayAlloc, resctrl
      ensures Valid()
      ensures outcome.Device? ==>
                RunThread(cfg, old(State()), Scanning(uid, [result] + rest, done), ok, k)
                == RunThread(cfg, State(), Scanning(uid, rest, done + [outcome.device]), ok, next)
      ensures outcome.Stop? ==>
                var (s, t) := RunThread(cfg, old(State()), Scanning(uid, [result] + rest, done), ok, k);
                s == State() && Answer(t) == outcome.answer
    {
      ScanSteps(cfg, State(), uid, result, rest, done, ok, k);
      var granted := wayAlloc.Allocate(cacheID, ways);
      if granted.Err? { return Stop(Some(Failed(WaysUnavailable(result.device, granted.error)))), k; }
      outcome, next := PrepareGroup(uid, result, cacheID, ways, granted.value, ok, k + 1,
                                    Job(uid, rest, done, result, cacheID, ways, granted.value));
    }

    /** The body from the granted ways on: the group, or its roll-back. */
    method PrepareGroup(uid: string, result: DeviceResult, cacheID: int, ways: int, cbm: Word, ok: nat -> bool, k: nat,
                        ghost job: Job)
      returns (outcome: Outcome, next: nat)
      requires Valid() && job == Job(uid, job.rest, job.done, result, cacheID, ways, cbm)
      modifies this, wayAlloc, resctrl
      ensures Valid()
      ensures outcome.Device? ==>
                RunThread(cfg, old(State()), Reserved(job), ok, k)
                == RunThread(cfg, State(), Scanning(uid, job.rest, job.done + [outcome.device]), ok, next)
      ensures outcome.Stop? ==>
                var (s, t) := RunThread(cfg, old(State()), Reserved(job), ok, k);
                s == State() && Answer(t) == outcome.answer
    {
      var groupName := GroupName(cacheID, uid);
      var schemata := StructuredSchemata(cacheID, MaskHex(cbm), 0);
      CreateSteps(cfg, State(), job, ok, k);
      var created := resctrl.CreateGroup(groupName, schemata, ok, k);
      if !created {
        wayAlloc.Release(cacheID, cbm);
        return Stop(Some(Failed(GroupNotCreated(groupName)))), k;
      }
      outcome, next := DescribeDevice(uid, result, cacheID, ways, cbm, ok, k + 2, job);
    }

    /** The second half of the body: the per-claim CDI file and the claim record. */
    method DescribeDevice(uid: string, result: DeviceResult, cacheID: int, ways: int, cbm: Word, ok: nat -> bool, k: nat,
                          ghost job: Job)
      returns (outcome: Outcome, next: nat)
      requires Valid() && job == Job(uid, job.rest, job.done, result, cacheID, ways, cbm)
      modifies this, wayAlloc, resctrl
      ensures Valid()
      ensures outcome.Device? ==>
                RunThread(cfg, old(State()), Written(job), ok, k)
                == RunThread(cfg, State(), Scanning(uid, job.rest, job.done + [outcome.device]), ok, next)
      ensures outcome.Stop? ==>
                var (s, t) := RunThread(cfg, old(State()), Written(job), ok, k);
                s == State() && Answer(t) == outcome.answer
    {
      DescribeSteps(cfg, State(), job, ok, k);
      var groupName := GroupName(cacheID, uid);
      if !ok(k) {
        var _ := resctrl.DeleteGroup(groupName, ok(k + 1));
        wayAlloc.Release(cacheID, cbm);
        return Stop(Some(Failed(SpecNotWritten(uid)))), k;
      }
      if |uid| < 8 { return Stop(None), k; }
      var deviceName := CacheWayName(cacheID, ways) + "-" + uid[..8];
      var specPath := SpecPath(cfg.cdiDir, uid);
      specs := specs[specPath := ClaimSpec(deviceName, ways, MaskHex(cbm), cacheID, groupName)];

      structuredAllocs := structuredAllocs[uid := Record(cacheID, ways, cbm, groupName, specPath)];
      return Device(PreparedDevice(result.request, result.pool, result.device, CDI_KIND + "=" + deviceName)), k + 2;
    }

    method UnprepareClaimStructured(uid: string, ok: nat -> bool) returns (answer: Response)
      requires Valid()
      modifies this, wayAlloc, resctrl
      ensures Valid()
      ensures var (s, t) := RunThread(cfg, old(State()), BeginUnprepare(uid), ok, 0);
              State() == s && Some(answer) == Answer(t)
    {
      UnprepareSteps(cfg, State(), uid, ok);
      if uid !in structuredAllocs { return Unprepared; }
      var record := structuredAllocs[uid];
      structuredAllocs := structuredAllocs - {uid};
      var _ := resctrl.DeleteGroup(record.group, ok(1));
      wayAlloc.Release(record.cacheID, record.cbm);
      if ok(3) {
        specs := specs - {record.specPath};
      }
      return Unprepared;
    }

    /** Startup after a crash: the claim records are not rebuilt. */
    method RecoverStructuredAllocs(listing: Option<seq<DirEntry>>)
      requires Valid() && wayAlloc.inUse == Empty(cfg.totals) && structuredAllocs == map[]
      modifies wayAlloc
      ensures Valid()
      ensures State() == Restart(cfg, old(State()), listing).shared
    {
      var _ := wayAlloc.RebuildFromResctrl(listing, GROUP_PREFIX);
    }
  }

  /** What became of one device: handed out, or the whole request stops with this answer. */
  datatype Outcome = Device(device: PreparedDevice) | Stop(answer: Option<Response>)

  // ---- Unfolding runs ------------------------------------------------------------------------

  lemma {:induction false} OneStep(cfg: Config, s: Shared, t: Thread, ok: nat -> bool, k: nat)
    requires ValidTotals(cfg.totals) && !Done(t)
    ensures var (s', t') := Step(cfg, s, t, ok(k)); RunThread(cfg, s, t, ok, k) == RunThread(cfg, s', t', ok, k + 1)
  {
  }

  lemma {:induction false} AtEnd(cfg: Config, s: Shared, t: Thread, ok: nat -> bool, k: nat)
    requires ValidTotals(cfg.totals) && Done(t)
    ensures RunThread(cfg, s, t, ok, k) == (s, t)
  {
  }

  lemma {:induction false} ScanSteps(cfg: Config, s: Shared, uid: string, r: DeviceResult, rest: seq<DeviceResult>,
                  done: seq<PreparedDevice>, ok: nat -> bool, k: nat)
    requires ValidTotals(cfg.totals)
    ensures RunThread(cfg, s, Scanning(uid, [r] + rest, done), ok, k)
            == if !Matches(cfg, r) then RunThread(cfg, s, Scanning(uid, rest, done), ok, k + 1)
               else var (cacheID, ways) := ParseCacheWayName(r.device).value;
                    var (granted, inUse) := Reserve(cfg.totals, s.inUse, cacheID, ways);
                    if granted.Err? then (s, Finished(Failed(WaysUnavailable(r.device, granted.error))))
                    else RunThread(cfg, s.(inUse := inUse),
                                   Reserved(Job(uid, rest, done, r, cacheID, ways, granted.value)), ok, k + 1)
  {
    assert ([r] + rest)[1..] == rest;
    var t := Scanning(uid, [r] + rest, done);
    OneStep(cfg, s, t, ok, k);
    var (s', t') := Scan(cfg, s, t);
    if Done(t') { AtEnd(cfg, s', t', ok, k + 1); }
  }

  /** The steps that `CreateGroup` and its error branch stand for. */
  lemma {:induction false} CreateSteps(cfg: Config, s: Shared, job: Job, ok: nat -> bool, k: nat)
    requires ValidTotals(cfg.totals)
    ensures var made := s.(groups := MakeDir(s.groups, job.Group()));
            var written := s.(groups := s.groups[job.Group() := Some(JobText(job))]);
            var failed := Finished(Failed(GroupNotCreated(job.Group())));
            RunThread(cfg, s, Reserved(job), ok, k)
            == if !ok(k) then (s.(inUse := Free(s.inUse, job.cacheID, job.cbm)), failed)
               else if !ok(k + 1) then
                 (RemoveGroup(made, job.Group(), ok(k + 2)).(inUse := Free(s.inUse, job.cacheID, job.cbm)), failed)
               else RunThread(cfg, written, Written(job), ok, k + 2)
  {
    var made := s.(groups := MakeDir(s.groups, job.Group()));
    OneStep(cfg, s, Reserved(job), ok, k);
    if !ok(k) {
    } else {
      OneStep(cfg, made, DirMade(job), ok, k + 1);
      if !ok(k + 1) {
        OneStep(cfg, made, WriteFailed(job), ok, k + 2);
      } else {
        assert made.groups[job.Group() := Some(JobText(job))] == s.groups[job.Group() := Some(JobText(job))];
      }
    }
  }

  /** The steps from a written group to the recorded claim, or back. */
  lemma {:induction false} DescribeSteps(cfg: Config, s: Shared, job: Job, ok: nat -> bool, k: nat)
    requires ValidTotals(cfg.totals)
    ensures RunThread(cfg, s, Written(job), ok, k)
            == if !ok(k) then
                 (RemoveGroup(s, job.Group(), ok(k + 1)).(inUse := Free(s.inUse, job.cacheID, job.cbm)),
                  Finished(Failed(SpecNotWritten(job.uid))))
               else if |job.uid| < 8 then (s, Panicked(job))
               else RunThread(cfg, s.(specs := s.specs[SpecPath(cfg.cdiDir, job.uid) := SpecOf(job)],
                                      records := s.records[job.uid := RecordOf(cfg, job)]),
                              Scanning(job.uid, job.rest, job.done + [DeviceOf(job)]), ok, k + 2)
  {
    OneStep(cfg, s, Written(job), ok, k);
    if !ok(k) {
      OneStep(cfg, s, SpecFailed(job), ok, k + 1);
    } else if |job.uid| < 8 {
      AtEnd(cfg, s, Panicked(job), ok, k + 1);
    } else {
      var described := s.(specs := s.specs[SpecPath(cfg.cdiDir, job.uid) := SpecOf(job)]);
      OneStep(cfg, described, Described(job), ok, k + 1);
    }
  }

  lemma {:induction false} UnprepareSteps(cfg: Config, s: Shared, uid: string, ok: nat -> bool)
    requires ValidTotals(cfg.totals)
    ensures RunThread(cfg, s, BeginUnprepare(uid), ok, 0)
            == if uid !in s.records then (s, Finished(Unprepared))
               else var r := s.records[uid];
                    (Shared(Free(s.inUse, r.cacheID, r.cbm),
                            if ok(1) then s.groups - {r.group} else s.groups,
                            if ok(3) then s.specs - {r.specPath} else s.specs,
                            s.records - {uid}),
                     Finished(Unprepared))
  {
    OneStep(cfg, s, Forgetting(uid), ok, 0);
    if uid !in s.records {
      AtEnd(cfg, s, Finished(Unprepared), ok, 1);
    } else {
      var r := s.records[uid];
      var s1 := s.(records := s.records - {uid});
      var s2 := RemoveGroup(s1, r.group, ok(1));
      var s3 := s2.(inUse := Free(s2.inUse, r.cacheID, r.cbm));
      var s4 := if ok(3) then s3.(specs := s3.specs - {r.specPath}) else s3;
      OneStep(cfg, s1, Deleting(uid, r), ok, 1);
      OneStep(cfg, s2, Releasing(uid, r), ok, 2);
      OneStep(cfg, s3, Unlinking(uid, r), ok, 3);
      AtEnd(cfg, s4, Finished(Unprepared), ok, 4);
    }
  }
}
