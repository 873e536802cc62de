/** What a successful prepare with any number of cache-way devices hands out. Every device gets ways
    of its own, but the devices of a claim share one CDI file, one record and, within a domain, one
    group: exactly the last device can be used. */
module Delivery {
  import opened Options
  import opened Masks
  import opened Text
  import opened Names
  import opened WayAllocation
  import opened Protocol
  import opened ProtocolSafety
  import opened Accounting
  import opened StructuredDriver
  import opened Rollback

  // ---- The devices of one call ---------------------------------------------------------------

  ghost predicate Granted(cfg: Config, s: Shared, uid: string, job: Job)
    requires ValidTotals(cfg.totals)
  {
    && job.uid == uid && |uid| >= 8 && IsInt64(job.cacheID)
    && ParseCacheWayName(job.result.device) == Ok((job.cacheID, job.ways))
    && Reserve(cfg.totals, s.inUse, job.cacheID, job.ways).0 == Ok(job.cbm)
  }

  /** The devices are granted their ways one after the other, starting from `s`. */
  ghost predicate Served(cfg: Config, s: Shared, uid: string, jobs: seq<Job>)
    requires ValidTotals(cfg.totals)
    decreases |jobs|
  {
    jobs == [] || (Granted(cfg, s, uid, jobs[0]) && Served(cfg, AfterDevice(cfg, s, jobs[0]), uid, jobs[1..]))
  }

  /** The state after all of them. */
  ghost function AfterAll(cfg: Config, s: Shared, uid: string, jobs: seq<Job>): Shared
    requires ValidTotals(cfg.totals) && Served(cfg, s, uid, jobs)
    decreases |jobs|
  {
    if jobs == [] then s else AfterAll(cfg, AfterDevice(cfg, s, jobs[0]), uid, jobs[1..])
  }

  function Map<T, R>(f: T -> R, xs: seq<T>): (ys: seq<R>)
    ensures |ys| == |xs| && forall k | 0 <= k < |xs| :: ys[k] == f(xs[k])
  {
    seq(|xs|, k requires 0 <= k < |xs| => f(xs[k]))
  }

  /** The entries of the claim that are cache-way devices of this driver on this node. */
  function Chosen(cfg: Config, results: seq<DeviceResult>): seq<DeviceResult> {
    if results == [] then []
    else (if Matches(cfg, results[0]) then [results[0]] else []) + Chosen(cfg, results[1..])
  }

  function AnswerFor(job: Job): PreparedDevice {
    if |job.uid| >= 8 then DeviceOf(job) else PreparedDevice("", "", "", "")
  }

  function ResultFor(job: Job): DeviceResult {
    job.result
  }

  /** A successful prepare serves the claim's cache-way devices, all of them and in order. */
  lemma {:induction false} ScanServes(cfg: Config, s: Shared, uid: string, todo: seq<DeviceResult>,
        done: seq<PreparedDevice>, ok: nat -> bool, k: nat)
    returns (jobs: seq<Job>)
    requires ValidTotals(cfg.totals) && cfg.totals.Keys <= s.inUse.Keys
    requires var t := RunThread(cfg, s, Scanning(uid, todo, done), ok, k).1; t.Finished? && t.response.Prepared?
    ensures Served(cfg, s, uid, jobs) && Map(ResultFor, jobs) == Chosen(cfg, todo)
    ensures done + Map(AnswerFor, jobs) != []
    ensures RunThread(cfg, s, Scanning(uid, todo, done), ok, k)
            == (AfterAll(cfg, s, uid, jobs), Finished(Prepared(done + Map(AnswerFor, jobs))))
    decreases |todo|
  {
    if todo == [] {
      jobs := [];
      NothingToReserve(cfg, s, uid, todo, done, ok, k);
      assert done + Map(AnswerFor, jobs) == done;
    } else {
      var r, rest := todo[0], todo[1..];
      assert todo == [r] + rest;
      if !Matches(cfg, r) {
        ScanSteps(cfg, s, uid, r, rest, done, ok, k);
        jobs := ScanServes(cfg, s, uid, rest, done, ok, k + 1);
      } else {
        DeviceRun(cfg, s, uid, r, rest, done, ok, k);
        var job := JobFor(cfg, s, uid, r, rest, done);
        ReserveGrants(cfg.totals, s.inUse, job.cacheID, job.ways);
        var more := ScanServes(cfg, AfterDevice(cfg, s, job), uid, rest, done + [DeviceOf(job)], ok, k + 5);
        jobs := [job] + more;
        OneMoreAnswer(job, more, done);
      }
    }
  }

  lemma {:induction false} MapCons<T, R>(f: T -> R, x: T, xs: seq<T>)
    ensures Map(f, [x] + xs) == [f(x)] + Map(f, xs)
  {
  }

  lemma {:induction false} OneMoreAnswer(job: Job, more: seq<Job>, done: seq<PreparedDevice>)
    requires |job.uid| >= 8
    ensures Map(ResultFor, [job] + more) == [job.result] + Map(ResultFor, more)
    ensures done + Map(AnswerFor, [job] + more) == done + [DeviceOf(job)] + Map(AnswerFor, more)
  {
    MapCons(ResultFor, job, more);
    MapCons(AnswerFor, job, more);
    assert AnswerFor(job) == DeviceOf(job);
  }

  // ---- Ways ----------------------------------------------------------------------------------

  /** The ways of a domain that the devices got. */
  ghost function JobWays(jobs: seq<Job>, c: int): set<nat> {
    set j, i | 0 <= j < |jobs| && jobs[j].cacheID == c && i in Bits(jobs[j].cbm) :: i
  }

  lemma {:induction false} DeviceWays(cfg: Config, s: Shared, uid: string, job: Job, c: int)
    requires ValidTotals(cfg.totals) && Granted(cfg, s, uid, job)
    ensures |Bits(job.cbm)| == job.ways && job.ways >= 1 && Bits(job.cbm) !! UsedBits(s.inUse, job.cacheID)
    ensures UsedBits(AfterDevice(cfg, s, job).inUse, c)
            == UsedBits(s.inUse, c) + if c == job.cacheID then Bits(job.cbm) else {}
  {
    ReserveGrants(cfg.totals, s.inUse, job.cacheID, job.ways);
    var start: nat :| Bits(job.cbm) == Interval(start, job.ways);
    IntervalSize(start, job.ways);
  }

  /** What a device got: as many ways as its name says, and all of them free before the call. */
  ghost predicate WellServed(s: Shared, uid: string, job: Job) {
    && job.uid == uid && |uid| >= 8 && IsInt64(job.cacheID)
    && ParseCacheWayName(job.result.device) == Ok((job.cacheID, job.ways))
    && |Bits(job.cbm)| == job.ways >= 1 && Bits(job.cbm) !! UsedBits(s.inUse, job.cacheID)
  }

  lemma {:induction false} OwnWays(cfg: Config, s: Shared, uid: string, jobs: seq<Job>, j: nat)
    requires ValidTotals(cfg.totals) && Served(cfg, s, uid, jobs) && j < |jobs|
    ensures WellServed(s, uid, jobs[j])
    decreases |jobs|
  {
    DeviceWays(cfg, s, uid, jobs[0], jobs[j].cacheID);
    if j > 0 { OwnWays(cfg, AfterDevice(cfg, s, jobs[0]), uid, jobs[1..], j - 1); }
  }

  /** Two devices in one domain have no way in common. */
  ghost predicate Apart(jobs: seq<Job>) {
    forall i, j | 0 <= i < j < |jobs| && jobs[i].cacheID == jobs[j].cacheID :: Bits(jobs[i].cbm) !! Bits(jobs[j].cbm)
  }

  lemma {:induction false} FirstApart(cfg: Config, s: Shared, uid: string, jobs: seq<Job>, j: nat)
    requires ValidTotals(cfg.totals) && Served(cfg, s, uid, jobs) && 0 < j < |jobs|
    ensures jobs[0].cacheID == jobs[j].cacheID ==> Bits(jobs[0].cbm) !! Bits(jobs[j].cbm)
  {
    OwnWays(cfg, AfterDevice(cfg, s, jobs[0]), uid, jobs[1..], j - 1);
    LaterApart(cfg, s, uid, jobs[0], jobs[j]);
  }

  lemma {:induction false} LaterApart(cfg: Config, s: Shared, uid: string, first: Job, later: Job)
    requires ValidTotals(cfg.totals) && Granted(cfg, s, uid, first)
    requires WellServed(AfterDevice(cfg, s, first), uid, later)
    ensures first.cacheID == later.cacheID ==> Bits(first.cbm) !! Bits(later.cbm)
  {
    DeviceWays(cfg, s, uid, first, later.cacheID);
  }

  lemma {:induction false} WaysApart(cfg: Config, s: Shared, uid: string, jobs: seq<Job>)
    requires ValidTotals(cfg.totals) && Served(cfg, s, uid, jobs)
    ensures Apart(jobs)
    decreases |jobs|
  {
    if jobs != [] {
      WaysApart(cfg, AfterDevice(cfg, s, jobs[0]), uid, jobs[1..]);
      forall j | 0 < j < |jobs| && jobs[0].cacheID == jobs[j].cacheID ensures Bits(jobs[0].cbm) !! Bits(jobs[j].cbm) {
        FirstApart(cfg, s, uid, jobs, j);
      }
    }
  }

  /** The call puts the ways of its devices in use, and no others. */
  lemma {:induction false} WaysAdded(cfg: Config, s: Shared, uid: string, jobs: seq<Job>, c: int)
    requires ValidTotals(cfg.totals) && Served(cfg, s, uid, jobs)
    ensures UsedBits(AfterAll(cfg, s, uid, jobs).inUse, c) == UsedBits(s.inUse, c) + JobWays(jobs, c)
    decreases |jobs|
  {
    if jobs == [] {
      assert JobWays(jobs, c) == {};
    } else {
      DeviceWays(cfg, s, uid, jobs[0], c);
      WaysAdded(cfg, AfterDevice(cfg, s, jobs[0]), uid, jobs[1..], c);
    }
  }

  // ---- The files and the record --------------------------------------------------------------

  /** The device is the one in the claim's CDI file, in the claim's record, and in its group. */
  ghost predicate Shows(cfg: Config, s: Shared, job: Job) {
    && |job.uid| >= 8
    && SpecPath(cfg.cdiDir, job.uid) in s.specs && s.specs[SpecPath(cfg.cdiDir, job.uid)] == SpecOf(job)
    && job.Group() in s.groups && s.groups[job.Group()] == Some(JobText(job))
    && job.uid in s.records && s.records[job.uid] == RecordOf(cfg, job)
  }

  lemma {:induction false} LastShows(cfg: Config, s: Shared, uid: string, jobs: seq<Job>)
    requires ValidTotals(cfg.totals) && Served(cfg, s, uid, jobs) && jobs != []
    ensures Shows(cfg, AfterAll(cfg, s, uid, jobs), jobs[|jobs| - 1]) && jobs[|jobs| - 1].uid == uid
    decreases |jobs|
  {
    if |jobs| > 1 {
      LastShows(cfg, AfterDevice(cfg, s, jobs[0]), uid, jobs[1..]);
    } else {
      assert AfterAll(cfg, s, uid, jobs) == AfterDevice(cfg, s, jobs[0]);
    }
  }

  lemma {:induction false} DeviceTellsDomain(a: Job, b: Job)
    requires |a.uid| >= 8 && |b.uid| >= 8 && SpecDevice(a) == SpecDevice(b)
    ensures a.cacheID == b.cacheID
  {
    var x, y := PrintInt(a.ways) + "way" + "-" + a.uid[..8], PrintInt(b.ways) + "way" + "-" + b.uid[..8];
    NameTail(PrintInt(a.cacheID), PrintInt(a.ways), a.uid[..8]);
    NameTail(PrintInt(b.cacheID), PrintInt(b.ways), b.uid[..8]);
    NumberThenHyphen(a.cacheID, x, b.cacheID, y);
  }

  lemma {:induction false} NameTail(id: string, count: string, claim: string)
    ensures ("cache" + id + "-" + count + "way" + "-" + claim)[5..] == id + "-" + (count + "way" + "-" + claim)
  {
    assert "cache" + id + "-" + count + "way" + "-" + claim == "cache" + (id + "-" + (count + "way" + "-" + claim));
  }

  // ---- Which devices can be used -------------------------------------------------------------

  /** The CDI id handed out for the device is found in the claim's CDI file, and the hook there joins
      a group whose text claims exactly the ways of the device in its domain. */
  ghost predicate Usable(cfg: Config, s: Shared, job: Job) {
    && |job.uid| >= 8 && SpecPath(cfg.cdiDir, job.uid) in s.specs
    && var spec := s.specs[SpecPath(cfg.cdiDir, job.uid)];
       && AnswerFor(job).cdiDevice == CDI_KIND + "=" + spec.device
       && ParseCacheWayName(job.result.device) == Ok((spec.cacheID, spec.ways))
       && ParseUint(spec.cbmHex, 16) == Some(job.cbm)
       && spec.group in s.groups && s.groups[spec.group].Some?
       && TextBits(s.groups[spec.group].value, job.cacheID) == Bits(job.cbm)
  }

  /** A device of the claim can be used exactly when it has the domain, the ways and the CDI id of the
      device that the files show. */
  lemma {:induction false} UsableExactly(cfg: Config, start: Shared, s: Shared, uid: string, job: Job, shown: Job)
    requires WellServed(start, uid, job) && WellServed(start, uid, shown) && Shows(cfg, s, shown)
    ensures Usable(cfg, s, job) <==> AnswerFor(job).cdiDevice == AnswerFor(shown).cdiDevice
                                     && job.cacheID == shown.cacheID && Bits(job.cbm) == Bits(shown.cbm)
  {
    JobTextBits(shown, job.cacheID);
    ParsePrintNat(shown.cbm, 16);
    if Bits(job.cbm) == Bits(shown.cbm) { SameBits(job.cbm, shown.cbm); }
    if AnswerFor(job).cdiDevice == CDI_KIND + "=" + SpecDevice(shown) { SameCDIName(job, shown); }
  }

  /** Of the devices that one call hands out, exactly the last can be used. */
  lemma {:induction false} LastIsUsableExactly(cfg: Config, s: Shared, s': Shared, uid: string, jobs: seq<Job>, j: nat)
    requires j < |jobs| && WellServed(s, uid, jobs[j]) && WellServed(s, uid, jobs[|jobs| - 1]) && Apart(jobs)
    requires Shows(cfg, s', jobs[|jobs| - 1])
    ensures Usable(cfg, s', jobs[j]) <==> j == |jobs| - 1
  {
    UsableExactly(cfg, s, s', uid, jobs[j], jobs[|jobs| - 1]);
  }

  lemma {:induction false} SameCDIName(a: Job, b: Job)
    requires |a.uid| >= 8 && |b.uid| >= 8 && AnswerFor(a).cdiDevice == CDI_KIND + "=" + SpecDevice(b)
    ensures a.cacheID == b.cacheID
  {
    var n := |CDI_KIND + "="|;
    assert (CDI_KIND + "=" + SpecDevice(a))[n..] == SpecDevice(a);
    assert (CDI_KIND + "=" + SpecDevice(b))[n..] == SpecDevice(b);
    DeviceTellsDomain(a, b);
  }

  // ---- The theorem ---------------------------------------------------------------------------

  /** A successful prepare, with any devices: it answers the claim's cache-way devices, all and in
      order; each has formerly free ways of its own, as many as its name says; exactly those ways come
      into use; the claim's record and files show the last device; and exactly that one can be used. */
  lemma {:induction false} PrepareServesAll(cfg: Config, s: Shared, uid: string, results: seq<DeviceResult>,
        ok: nat -> bool)
    returns (jobs: seq<Job>)
    requires ValidTotals(cfg.totals) && cfg.totals.Keys <= s.inUse.Keys
    requires var t := RunThread(cfg, s, BeginPrepare(uid, Allocation(results)), ok, 0).1;
             t.Finished? && t.response.Prepared?
    ensures jobs != [] && Map(ResultFor, jobs) == Chosen(cfg, results)
    ensures RunThread(cfg, s, BeginPrepare(uid, Allocation(results)), ok, 0).1
            == Finished(Prepared(Map(AnswerFor, jobs)))
    ensures forall j | 0 <= j < |jobs| :: AnswersResult(Map(AnswerFor, jobs)[j], Chosen(cfg, results)[j])
    ensures (forall j | 0 <= j < |jobs| :: WellServed(s, uid, jobs[j])) && Apart(jobs)
    ensures var s' := RunThread(cfg, s, BeginPrepare(uid, Allocation(results)), ok, 0).0;
            && (forall c :: UsedBits(s'.inUse, c) == UsedBits(s.inUse, c) + JobWays(jobs, c))
            && Shows(cfg, s', jobs[|jobs| - 1])
            && forall j | 0 <= j < |jobs| :: Usable(cfg, s', jobs[j]) <==> j == |jobs| - 1
  {
    jobs := ScanServes(cfg, s, uid, results, [], ok, 0);
    assert [] + Map(AnswerFor, jobs) == Map(AnswerFor, jobs);
    AllServed(cfg, s, uid, jobs);
    forall j | 0 <= j < |jobs| ensures AnswersResult(Map(AnswerFor, jobs)[j], Chosen(cfg, results)[j]) {
      assert WellServed(s, uid, jobs[j]) && Map(ResultFor, jobs)[j] == jobs[j].result;
    }
  }

  lemma {:induction false} AllServed(cfg: Config, s: Shared, uid: string, jobs: seq<Job>)
    requires ValidTotals(cfg.totals) && Served(cfg, s, uid, jobs) && jobs != []
    ensures (forall j | 0 <= j < |jobs| :: WellServed(s, uid, jobs[j])) && Apart(jobs)
    ensures var s' := AfterAll(cfg, s, uid, jobs);
            && (forall c :: UsedBits(s'.inUse, c) == UsedBits(s.inUse, c) + JobWays(jobs, c))
            && Shows(cfg, s', jobs[|jobs| - 1])
            && forall j | 0 <= j < |jobs| :: Usable(cfg, s', jobs[j]) <==> j == |jobs| - 1
  {
    var s' := AfterAll(cfg, s, uid, jobs);
    forall j | 0 <= j < |jobs| ensures WellServed(s, uid, jobs[j]) { OwnWays(cfg, s, uid, jobs, j); }
    WaysApart(cfg, s, uid, jobs);
    LastShows(cfg, s, uid, jobs);
    forall c ensures UsedBits(s'.inUse, c) == UsedBits(s.inUse, c) + JobWays(jobs, c) { WaysAdded(cfg, s, uid, jobs, c); }
    forall j | 0 <= j < |jobs| ensures Usable(cfg, s', jobs[j]) <==> j == |jobs| - 1 {
      LastIsUsableExactly(cfg, s, s', uid, jobs, j);
    }
  }

  /** So a claim can use all it is given exactly when it names one cache-way device. */
  lemma {:induction false} AllUsableExactly(cfg: Config, s: Shared, uid: string, results: seq<DeviceResult>,
        ok: nat -> bool)
    returns (jobs: seq<Job>)
    requires ValidTotals(cfg.totals) && cfg.totals.Keys <= s.inUse.Keys
    requires var t := RunThread(cfg, s, BeginPrepare(uid, Allocation(results)), ok, 0).1;
             t.Finished? && t.response.Prepared?
    ensures Map(ResultFor, jobs) == Chosen(cfg, results)
    ensures RunThread(cfg, s, BeginPrepare(uid, Allocation(results)), ok, 0).1
            == Finished(Prepared(Map(AnswerFor, jobs)))
    ensures (forall job | job in jobs :: Usable(cfg, RunThread(cfg, s, BeginPrepare(uid, Allocation(results)), ok, 0).0, job))
            <==> CountMatches(cfg, results) == 1
  {
    jobs := PrepareServesAll(cfg, s, uid, results, ok);
    ChosenCount(cfg, results);
    var s' := RunThread(cfg, s, BeginPrepare(uid, Allocation(results)), ok, 0).0;
    if forall job | job in jobs :: Usable(cfg, s', job) {
      assert Usable(cfg, s', jobs[0]);
    }
  }

  // ---- What unprepare gives back -------------------------------------------------------------

  lemma {:induction false} JobWaysSnoc(before: seq<Job>, last: Job, c: int)
    ensures JobWays(before + [last], c) == JobWays(before, c) + if last.cacheID == c then Bits(last.cbm) else {}
  {
    var all := before + [last];
    forall i | i in JobWays(before, c) ensures i in JobWays(all, c) {
      var j :| 0 <= j < |before| && before[j].cacheID == c && i in Bits(before[j].cbm);
      assert all[j] == before[j];
    }
    forall i | last.cacheID == c && i in Bits(last.cbm) ensures i in JobWays(all, c) {
      assert all[|before|] == last;
    }
  }

  lemma {:induction false} LastIsApart(before: seq<Job>, last: Job)
    requires Apart(before + [last])
    ensures JobWays(before, last.cacheID) !! Bits(last.cbm)
  {
    forall i | i in JobWays(before, last.cacheID) ensures i !in Bits(last.cbm) {
      var j :| 0 <= j < |before| && before[j].cacheID == last.cacheID && i in Bits(before[j].cbm);
      assert (before + [last])[j] == before[j] && (before + [last])[|before|] == last;
    }
  }

  lemma {:induction false} AllButLast(s: Shared, uid: string, jobs: seq<Job>, c: int)
    requires jobs != [] && WellServed(s, uid, jobs[|jobs| - 1]) && Apart(jobs)
    ensures var n := |jobs| - 1;
            UsedBits(s.inUse, c) + JobWays(jobs, c) - (if c == jobs[n].cacheID then Bits(jobs[n].cbm) else {})
            == UsedBits(s.inUse, c) + JobWays(jobs[..n], c)
  {
    var n := |jobs| - 1;
    assert jobs == jobs[..n] + [jobs[n]];
    JobWaysSnoc(jobs[..n], jobs[n], c);
    LastIsApart(jobs[..n], jobs[n]);
  }

  lemma {:induction false} NoWaysExactly(s: Shared, uid: string, jobs: seq<Job>)
    requires forall j | 0 <= j < |jobs| :: WellServed(s, uid, jobs[j])
    ensures (forall c :: UsedBits(s.inUse, c) + JobWays(jobs, c) == UsedBits(s.inUse, c)) <==> jobs == []
  {
    if jobs == [] {
      forall c ensures JobWays(jobs, c) == {} { }
    } else {
      var c := jobs[0].cacheID;
      assert WellServed(s, uid, jobs[0]);
      var i :| i in Bits(jobs[0].cbm);
      assert i in JobWays(jobs, c);
    }
  }

  /** Unprepare gives back the ways of the last device only: after a successful prepare and an
      unprepare, the ways in use are those from before if and only if the claim names one cache-way
      device. */
  lemma {:induction false} UnprepareReturnsLast(cfg: Config, s: Shared, uid: string, results: seq<DeviceResult>,
        ok: nat -> bool, ok': nat -> bool)
    returns (jobs: seq<Job>)
    requires ValidTotals(cfg.totals) && cfg.totals.Keys <= s.inUse.Keys
    requires var t := RunThread(cfg, s, BeginPrepare(uid, Allocation(results)), ok, 0).1;
             t.Finished? && t.response.Prepared?
    ensures jobs != [] && Map(ResultFor, jobs) == Chosen(cfg, results)
    ensures var prepared := RunThread(cfg, s, BeginPrepare(uid, Allocation(results)), ok, 0).0;
            var after := RunThread(cfg, prepared, BeginUnprepare(uid), ok', 0).0;
            && uid !in after.records
            && (forall c :: UsedBits(after.inUse, c) == UsedBits(s.inUse, c) + JobWays(jobs[..|jobs| - 1], c))
            && ((forall c :: UsedBits(after.inUse, c) == UsedBits(s.inUse, c)) <==> CountMatches(cfg, results) == 1)
  {
    jobs := PrepareServesAll(cfg, s, uid, results, ok);
    ChosenCount(cfg, results);
    var n := |jobs| - 1;
    var prepared := RunThread(cfg, s, BeginPrepare(uid, Allocation(results)), ok, 0).0;
    UnprepareShown(cfg, prepared, jobs[n], ok');
    var after := RunThread(cfg, prepared, BeginUnprepare(uid), ok', 0).0;
    forall c ensures UsedBits(after.inUse, c) == UsedBits(s.inUse, c) + JobWays(jobs[..n], c) {
      AllButLast(s, uid, jobs, c);
    }
    NoWaysExactly(s, uid, jobs[..n]);
  }

  lemma {:induction false} UnprepareShown(cfg: Config, s: Shared, job: Job, ok: nat -> bool)
    requires ValidTotals(cfg.totals) && Shows(cfg, s, job)
    ensures var after := RunThread(cfg, s, BeginUnprepare(job.uid), ok, 0).0;
            && job.uid !in after.records
            && forall c :: UsedBits(after.inUse, c)
                           == UsedBits(s.inUse, c) - if c == job.cacheID then Bits(job.cbm) else {}
  {
    UnprepareSteps(cfg, s, job.uid, ok);
    FreeMeaning(s.inUse, job.cacheID, job.cbm);
  }

  /** The results that are served are those for this driver and this node with a cache-way name. */
  lemma {:induction false} ChosenExactly(cfg: Config, results: seq<DeviceResult>, r: DeviceResult)
    ensures r in Chosen(cfg, results)
            <==> r in results && r.driver == cfg.driverName && r.pool == cfg.nodeName && ParseCacheWayName(r.device).Ok?
  {
    if results != [] {
      ChosenExactly(cfg, results[1..], r);
      assert results == [results[0]] + results[1..];
    }
  }

  lemma {:induction false} ChosenCount(cfg: Config, results: seq<DeviceResult>)
    ensures |Chosen(cfg, results)| == CountMatches(cfg, results)
  {
    if results != [] { ChosenCount(cfg, results[1..]); }
  }
}
