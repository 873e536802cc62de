/** What one structured-mode call leaves behind: when exactly a failed prepare rolls back and when a
    prepare panics, what a successful one delivers, that unprepare undoes it, and that a request run
    alone is one of the machine's runs. */
module Rollback {
  import opened Options
  import opened Masks
  import opened Text
  import opened Names
  import opened Schemata
  import opened WayAllocation
  import opened Protocol
  import opened ProtocolSafety
  import opened Accounting
  import opened StructuredDriver

  // ---- A request run alone is a run of the machine -------------------------------------------

  function Advances(cfg: Config, s: Shared, t: Thread, id: nat, ok: nat -> bool, k: nat): seq<Action>
    requires ValidTotals(cfg.totals)
    decreases Rank(t)
  {
    if Done(t) then []
    else var (s', t') := Step(cfg, s, t, ok(k)); [Advance(id, ok(k))] + Advances(cfg, s', t', id, ok, k + 1)
  }

  lemma {:induction false} FirstMove(cfg: Config, s: Shared, threads: map<nat, Thread>, id: nat, ok: bool, tail: seq<Action>)
    requires ValidTotals(cfg.totals) && id in threads
    ensures var (s', t') := Step(cfg, s, threads[id], ok);
            Run(cfg, State(s, threads), [Advance(id, ok)] + tail) == Run(cfg, State(s', threads[id := t']), tail)
  {
    assert ([Advance(id, ok)] + tail)[1..] == tail;
  }

  /** Running a thread to its end is a run in which only that thread moves. */
  lemma {:induction false} RequestIsARun(cfg: Config, s: Shared, threads: map<nat, Thread>, id: nat,
        ok: nat -> bool, k: nat)
    requires ValidTotals(cfg.totals) && id in threads
    ensures var (s', t') := RunThread(cfg, s, threads[id], ok, k);
            Run(cfg, State(s, threads), Advances(cfg, s, threads[id], id, ok, k)) == State(s', threads[id := t'])
    decreases Rank(threads[id])
  {
    var t := threads[id];
    if Done(t) {
      assert threads[id := t] == threads;
    } else {
      var (s', t') := Step(cfg, s, t, ok(k));
      var tail := Advances(cfg, s', t', id, ok, k + 1);
      RequestIsARun(cfg, s', threads[id := t'], id, ok, k + 1);
      FirstMove(cfg, s, threads, id, ok(k), tail);
      assert Advances(cfg, s, t, id, ok, k) == [Advance(id, ok(k))] + tail;
      assert RunThread(cfg, s, t, ok, k) == RunThread(cfg, s', t', ok, k + 1);
    }
  }

  // ---- The first cache-way device ------------------------------------------------------------

  /** The position of the first element that satisfies `p`, or the length without one. */
  function First<T>(p: T -> bool, xs: seq<T>): (i: nat)
    ensures i <= |xs|
    ensures i < |xs| ==> p(xs[i])
    ensures forall j | 0 <= j < i :: !p(xs[j])
  {
    if xs == [] || p(xs[0]) then 0 else 1 + First(p, xs[1..])
  }

  /** The position of the first cache-way device. */
  function FirstMatch(cfg: Config, results: seq<DeviceResult>): (i: nat)
    ensures i <= |results|
    ensures i < |results| ==> Matches(cfg, results[i])
  {
    First(Matcher(cfg), results)
  }

  lemma {:induction false} SkipTo<T, R>(p: T -> bool, run: (seq<T>, nat) -> R, xs: seq<T>, k: nat)
    requires forall x, rest, k: nat | !p(x) :: run([x] + rest, k) == run(rest, k + 1)
    ensures run(xs, k) == run(xs[First(p, xs)..], k + First(p, xs))
  {
    if xs != [] && !p(xs[0]) {
      SkipTo(p, run, xs[1..], k + 1);
      DropOne(xs, First(p, xs[1..]));
    }
  }

  lemma {:induction false} HeadOfRest<T>(xs: seq<T>, i: nat)
    requires i < |xs|
    ensures xs[i..] == [xs[i]] + xs[i + 1..]
  {
  }

  lemma {:induction false} DropOne<T>(xs: seq<T>, j: nat)
    requires xs != [] && j < |xs|
    ensures xs == [xs[0]] + xs[1..] && xs[1..][j..] == xs[1 + j..]
  {
  }

  lemma {:induction false} NoMore<T>(p: T -> bool, xs: seq<T>)
    requires Count(p, xs) <= 1 && First(p, xs) < |xs|
    ensures Count(p, xs[First(p, xs) + 1..]) == 0
  {
    if !p(xs[0]) {
      var j := First(p, xs[1..]);
      NoMore(p, xs[1..]);
      assert xs[1..][j + 1..] == xs[1 + j + 1..];
    }
  }

  lemma {:induction false} PrefixFirst<T>(p: T -> bool, xs: seq<T>)
    requires First(p, xs) < |xs|
    ensures First(p, xs[..First(p, xs) + 1]) == First(p, xs)
  {
    var i := First(p, xs);
    assert xs[..i + 1][i] == xs[i];
    assert forall j | 0 <= j < i :: xs[..i + 1][j] == xs[j];
  }

  /** The results before the first cache-way device take one step each and change nothing. */
  lemma {:induction false} SkipToDevice(cfg: Config, s: Shared, uid: string, results: seq<DeviceResult>,
        done: seq<PreparedDevice>, ok: nat -> bool, k: nat)
    requires ValidTotals(cfg.totals)
    ensures var i := FirstMatch(cfg, results);
            RunThread(cfg, s, Scanning(uid, results, done), ok, k)
            == RunThread(cfg, s, Scanning(uid, results[i..], done), ok, k + i)
  {
    var run := (todo: seq<DeviceResult>, k: nat) => RunThread(cfg, s, Scanning(uid, todo, done), ok, k);
    forall r, rest, k: nat | !Matcher(cfg)(r) ensures run([r] + rest, k) == run(rest, k + 1) {
      ScanSteps(cfg, s, uid, r, rest, done, ok, k);
    }
    SkipTo(Matcher(cfg), run, results, k);
  }

  /** A prepare with a cache-way device runs as from that device on. */
  lemma {:induction false} FromFirst(cfg: Config, s: Shared, uid: string, results: seq<DeviceResult>, ok: nat -> bool)
    requires ValidTotals(cfg.totals) && FirstMatch(cfg, results) < |results|
    ensures var i := FirstMatch(cfg, results);
            RunThread(cfg, s, BeginPrepare(uid, Allocation(results)), ok, 0)
            == RunThread(cfg, s, Scanning(uid, [results[i]] + results[i + 1..], []), ok, i)
  {
    var run := (todo: seq<DeviceResult>, k: nat) => RunThread(cfg, s, Scanning(uid, todo, []), ok, k);
    var i := FirstMatch(cfg, results);
    SkipToDevice(cfg, s, uid, results, [], ok, 0);
    HeadOfRest(results, i);
    assert run(results, 0) == run(results[i..], i) == run([results[i]] + results[i + 1..], i);
  }

  /** A prepare without one fails and changes nothing. */
  lemma {:induction false} NoDevice(cfg: Config, s: Shared, uid: string, results: seq<DeviceResult>, ok: nat -> bool)
    requires ValidTotals(cfg.totals) && FirstMatch(cfg, results) == |results|
    ensures RunThread(cfg, s, BeginPrepare(uid, Allocation(results)), ok, 0) == (s, Finished(Failed(NoDevices)))
  {
    SkipToDevice(cfg, s, uid, results, [], ok, 0);
    NothingToReserve(cfg, s, uid, [], [], ok, |results|);
  }

  lemma {:induction false} NothingToReserve(cfg: Config, s: Shared, uid: string, todo: seq<DeviceResult>,
                                            done: seq<PreparedDevice>, ok: nat -> bool, k: nat)
    requires ValidTotals(cfg.totals) && CountMatches(cfg, todo) == 0
    ensures RunThread(cfg, s, Scanning(uid, todo, done), ok, k)
            == (s, Finished(if done == [] then Failed(NoDevices) else Prepared(done)))
  {
    if todo == [] {
      OneStep(cfg, s, Scanning(uid, todo, done), ok, k);
      AtEnd(cfg, s, Finished(if done == [] then Failed(NoDevices) else Prepared(done)), ok, k + 1);
    } else {
      assert todo == [todo[0]] + todo[1..];
      ScanSteps(cfg, s, uid, todo[0], todo[1..], done, ok, k);
      NothingToReserve(cfg, s, uid, todo[1..], done, ok, k + 1);
    }
  }

  // ---- What becomes of a device --------------------------------------------------------------

  datatype Fate = Refused(reason: AllocError) | NoDirectory | NoText | NoSpec | Panics | Recorded

  /** The fate of a cache-way device whose scanning step is step `k`: steps `k + 1` and `k + 2` make
      the directory and write the text, step `k + 3` writes the CDI file; a clean-up follows the
      failed write it belongs to. */
  function FateOf(cfg: Config, s: Shared, uid: string, r: DeviceResult, ok: nat -> bool, k: nat): Fate
    requires ValidTotals(cfg.totals) && Matches(cfg, r)
  {
    var (cacheID, ways) := ParseCacheWayName(r.device).value;
    var granted := Reserve(cfg.totals, s.inUse, cacheID, ways).0;
    if granted.Err? then Refused(granted.error)
    else if !ok(k + 1) then NoDirectory
    else if !ok(k + 2) then NoText
    else if !ok(k + 3) then NoSpec
    else if |uid| < 8 then Panics
    else Recorded
  }

  /** The job of a device that is granted its ways. */
  function JobFor(cfg: Config, s: Shared, uid: string, r: DeviceResult, rest: seq<DeviceResult>,
                  done: seq<PreparedDevice>): (job: Job)
    requires ValidTotals(cfg.totals) && Matches(cfg, r)
    ensures ParseCacheWayName(job.result.device) == Ok((job.cacheID, job.ways)) && job.uid == uid
  {
    var (cacheID, ways) := ParseCacheWayName(r.device).value;
    var granted := Reserve(cfg.totals, s.inUse, cacheID, ways).0;
    Job(uid, rest, done, r, cacheID, ways, if granted.Ok? then granted.value else 0)
  }

  /** The state after a device has been reserved and its group written. */
  function AfterText(cfg: Config, s: Shared, job: Job): Shared
    requires ValidTotals(cfg.totals)
  {
    s.(inUse := Reserve(cfg.totals, s.inUse, job.cacheID, job.ways).1, groups := s.groups[job.Group() := Some(JobText(job))])
  }

  /** The state after it has been described and recorded as well. */
  function AfterDevice(cfg: Config, s: Shared, job: Job): Shared
    requires ValidTotals(cfg.totals) && |job.uid| >= 8
  {
    AfterText(cfg, s, job).(specs := s.specs[SpecPath(cfg.cdiDir, job.uid) := SpecOf(job)],
                            records := s.records[job.uid := RecordOf(cfg, job)])
  }

  /** The groups that the roll-back of a failed device leaves. */
  function GroupsLeft(s: Shared, job: Job, fate: Fate, ok: nat -> bool, k: nat): map<string, Option<string>> {
    var g := job.Group();
    match fate
    case NoText => if ok(k + 3) then s.groups - {g} else MakeDir(s.groups, g)
    case NoSpec => if ok(k + 4) then s.groups - {g} else s.groups[g := Some(JobText(job))]
    case _ => s.groups
  }

  function FailureOf(job: Job, fate: Fate): PrepareError {
    match fate
    case Refused(reason) => WaysUnavailable(job.result.device, reason)
    case NoSpec => SpecNotWritten(job.uid)
    case _ => GroupNotCreated(job.Group())
  }

  /** A device that comes to scanning, run to the end of the request or to the next device. */
  lemma {:induction false} DeviceRun(cfg: Config, s: Shared, uid: string, r: DeviceResult, rest: seq<DeviceResult>,
        done: seq<PreparedDevice>, ok: nat -> bool, k: nat)
    requires ValidTotals(cfg.totals) && cfg.totals.Keys <= s.inUse.Keys && Matches(cfg, r)
    ensures var job, fate := JobFor(cfg, s, uid, r, rest, done), FateOf(cfg, s, uid, r, ok, k);
            RunThread(cfg, s, Scanning(uid, [r] + rest, done), ok, k)
            == if fate == Recorded then
                 RunThread(cfg, AfterDevice(cfg, s, job), Scanning(uid, rest, done + [DeviceOf(job)]), ok, k + 5)
               else if fate == Panics then (AfterText(cfg, s, job), Panicked(job))
               else (s.(groups := GroupsLeft(s, job, fate, ok, k)), Finished(Failed(FailureOf(job, fate))))
  {
    var job, fate := JobFor(cfg, s, uid, r, rest, done), FateOf(cfg, s, uid, r, ok, k);
    ScanSteps(cfg, s, uid, r, rest, done, ok, k);
    if !fate.Refused? {
      var reserved := s.(inUse := Reserve(cfg.totals, s.inUse, job.cacheID, job.ways).1);
      FreeUndoesReserve(cfg.totals, s.inUse, job.cacheID, job.ways);
      ReservedRun(cfg, s, reserved, job, ok, k);
    }
  }

  lemma {:induction false} ReservedRun(cfg: Config, s: Shared, reserved: Shared, job: Job, ok: nat -> bool, k: nat)
    requires ValidTotals(cfg.totals) && Matches(cfg, job.result)
    requires job == JobFor(cfg, s, job.uid, job.result, job.rest, job.done)
    requires var (granted, inUse) := Reserve(cfg.totals, s.inUse, job.cacheID, job.ways);
             granted == Ok(job.cbm) && reserved == s.(inUse := inUse) && Free(inUse, job.cacheID, job.cbm) == s.inUse
    ensures var fate := FateOf(cfg, s, job.uid, job.result, ok, k);
            RunThread(cfg, reserved, Reserved(job), ok, k + 1)
            == if fate == Recorded then
                 RunThread(cfg, AfterDevice(cfg, s, job), Scanning(job.uid, job.rest, job.done + [DeviceOf(job)]), ok, k + 5)
               else if fate == Panics then (AfterText(cfg, s, job), Panicked(job))
               else (s.(groups := GroupsLeft(s, job, fate, ok, k)), Finished(Failed(FailureOf(job, fate))))
  {
    var g := job.Group();
    CreateSteps(cfg, reserved, job, ok, k + 1);
    assert MakeDir(s.groups, g) - {g} == s.groups - {g};
    if ok(k + 1) && ok(k + 2) {
      DescribeSteps(cfg, AfterText(cfg, s, job), job, ok, k + 3);
      assert s.groups[g := Some(JobText(job))] - {g} == s.groups - {g};
    }
  }

  /** What the error says when the first device of a request fails: its ways were refused, its group could
      not be made or written, or its CDI file could not be written. */
  lemma {:induction false} FailureNamesTheStep(cfg: Config, s: Shared, uid: string, r: DeviceResult,
        rest: seq<DeviceResult>, done: seq<PreparedDevice>, ok: nat -> bool, k: nat)
    requires ValidTotals(cfg.totals) && cfg.totals.Keys <= s.inUse.Keys && Matches(cfg, r)
    requires var fate := FateOf(cfg, s, uid, r, ok, k); fate != Recorded && fate != Panics
    ensures var t := RunThread(cfg, s, Scanning(uid, [r] + rest, done), ok, k).1;
            var request := ParseCacheWayName(r.device).value;
            var granted := Reserve(cfg.totals, s.inUse, request.0, request.1).0;
            && t.Finished? && t.response.Failed?
            && (granted.Err? <==> t.response.error.WaysUnavailable?)
            && (granted.Err? ==> t.response.error == WaysUnavailable(r.device, granted.error))
            && (granted.Ok? ==> t.response.error
                                == if ok(k + 1) && ok(k + 2) then SpecNotWritten(uid)
                                   else GroupNotCreated(GroupName(request.0, uid)))
  {
    DeviceRun(cfg, s, uid, r, rest, done, ok, k);
  }

  /** A request that ends before its first device says why: the claim could not be fetched, has no
      allocation, or names no cache-way device. Nothing changes. */
  lemma {:induction false} EarlyFailureNamesTheReason(cfg: Config, s: Shared, uid: string, fetched: Fetched,
        ok: nat -> bool)
    requires ValidTotals(cfg.totals)
    requires fetched.Allocation? ==> FirstMatch(cfg, fetched.results) == |fetched.results|
    ensures RunThread(cfg, s, BeginPrepare(uid, fetched), ok, 0)
            == (s, Finished(Failed(if fetched.FetchFailed? then FetchError
                                   else if fetched.Unallocated? then NoAllocation else NoDevices)))
  {
    if fetched.Allocation? { NoDevice(cfg, s, uid, fetched.results, ok); }
  }

  // ---- Panics --------------------------------------------------------------------------------

  lemma {:induction false} LongNamesDoNotPanic(cfg: Config, s: Shared, t: Thread, ok: nat -> bool, k: nat)
    requires ValidTotals(cfg.totals) && !t.Panicked?
    requires t.Scanning? ==> |t.uid| >= 8
    requires JobOf(t).Some? ==> |JobOf(t).value.uid| >= 8
    ensures !RunThread(cfg, s, t, ok, k).1.Panicked?
    decreases Rank(t)
  {
    if !Done(t) {
      var (s', t') := Step(cfg, s, t, ok(k));
      LongNamesDoNotPanic(cfg, s', t', ok, k + 1);
    }
  }

  /** A prepare panics exactly when the UID is shorter than 8 characters and its first cache-way device
      gets as far as the CDI file: its ways are reserved, its group is written, and the CDI directory
      can be made. Ways and group are then left behind. */
  lemma {:induction false} PanicsExactly(cfg: Config, s: Shared, uid: string, results: seq<DeviceResult>,
        ok: nat -> bool)
    requires ValidTotals(cfg.totals) && cfg.totals.Keys <= s.inUse.Keys
    ensures var (s', t') := RunThread(cfg, s, BeginPrepare(uid, Allocation(results)), ok, 0);
            var i := FirstMatch(cfg, results);
            && (t'.Panicked? <==> i < |results| && FateOf(cfg, s, uid, results[i], ok, i) == Panics)
            && (t'.Panicked? ==>
                  |uid| < 8 && s' == AfterText(cfg, s, JobFor(cfg, s, uid, results[i], results[i + 1..], [])))
  {
    var i := FirstMatch(cfg, results);
    if i == |results| {
      NoDevice(cfg, s, uid, results, ok);
    } else {
      var r, rest := results[i], results[i + 1..];
      FromFirst(cfg, s, uid, results, ok);
      assert RunThread(cfg, s, BeginPrepare(uid, Allocation(results)), ok, 0)
             == RunThread(cfg, s, Scanning(uid, [r] + rest, []), ok, i);
      HeadPanicsExactly(cfg, s, uid, r, rest, ok, i);
    }
  }

  lemma {:induction false} HeadPanicsExactly(cfg: Config, s: Shared, uid: string, r: DeviceResult,
        rest: seq<DeviceResult>, ok: nat -> bool, k: nat)
    requires ValidTotals(cfg.totals) && cfg.totals.Keys <= s.inUse.Keys && Matches(cfg, r)
    ensures var (s', t') := RunThread(cfg, s, Scanning(uid, [r] + rest, []), ok, k);
            && (t'.Panicked? <==> FateOf(cfg, s, uid, r, ok, k) == Panics)
            && (t'.Panicked? ==> |uid| < 8 && s' == AfterText(cfg, s, JobFor(cfg, s, uid, r, rest, [])))
  {
    DeviceRun(cfg, s, uid, r, rest, [], ok, k);
    if |uid| >= 8 { LongNamesDoNotPanic(cfg, s, Scanning(uid, [r] + rest, []), ok, k); }
  }

  // ---- Roll-back -----------------------------------------------------------------------------

  /** Does the roll-back of the first device restore the groups? A group that did not exist must be
      removed again, one that did must be left alone. */
  predicate Restores(cfg: Config, s: Shared, uid: string, r: DeviceResult, ok: nat -> bool, k: nat)
    requires ValidTotals(cfg.totals) && Matches(cfg, r)
  {
    var job := JobFor(cfg, s, uid, r, [], []);
    var g := job.Group();
    match FateOf(cfg, s, uid, r, ok, k)
    case Refused(_) => true
    case NoDirectory => true
    case NoText => ok(k + 3) <==> g !in s.groups
    case NoSpec => if ok(k + 4) then g !in s.groups else g in s.groups && s.groups[g] == Some(JobText(job))
    case _ => false
  }

  lemma {:induction false} RestoresExactly(cfg: Config, s: Shared, uid: string, r: DeviceResult,
        ok: nat -> bool, k: nat)
    requires ValidTotals(cfg.totals) && Matches(cfg, r)
    ensures var job, fate := JobFor(cfg, s, uid, r, [], []), FateOf(cfg, s, uid, r, ok, k);
            fate != Recorded && fate != Panics ==>
              (GroupsLeft(s, job, fate, ok, k) == s.groups <==> Restores(cfg, s, uid, r, ok, k))
  {
    var job := JobFor(cfg, s, uid, r, [], []);
    var g := job.Group();
    if g in s.groups {
      assert g !in s.groups - {g};
      if s.groups[g] == Some(JobText(job)) { assert s.groups[g := Some(JobText(job))] == s.groups; }
      else { assert s.groups[g := Some(JobText(job))][g] != s.groups[g]; }
    } else {
      assert s.groups - {g} == s.groups;
      assert g in MakeDir(s.groups, g) && g in s.groups[g := Some(JobText(job))];
    }
  }

  /** Roll-back, exactly. Let a claim without a record be prepared, with any devices and any outcomes,
      and let the call end in an error. It leaves the whole state as it was if and only if the claim
      has no cache-way device, or the first one fails and its roll-back restores the groups. Once the
      first device is recorded, a later failure is never rolled back. */
  lemma {:induction false} RollsBackExactly(cfg: Config, s: Shared, uid: string, results: seq<DeviceResult>,
        ok: nat -> bool)
    requires ValidTotals(cfg.totals) && cfg.totals.Keys <= s.inUse.Keys && uid !in s.records
    requires var t := RunThread(cfg, s, BeginPrepare(uid, Allocation(results)), ok, 0).1;
             t.Finished? && t.response.Failed?
    ensures var i := FirstMatch(cfg, results);
            RunThread(cfg, s, BeginPrepare(uid, Allocation(results)), ok, 0).0 == s
            <==> i == |results| || Restores(cfg, s, uid, results[i], ok, i)
  {
    var i := FirstMatch(cfg, results);
    if i == |results| {
      NoDevice(cfg, s, uid, results, ok);
    } else {
      FromFirst(cfg, s, uid, results, ok);
      HeadRollsBackExactly(cfg, s, uid, results[i], results[i + 1..], ok, i);
    }
  }

  lemma {:induction false} HeadRollsBackExactly(cfg: Config, s: Shared, uid: string, r: DeviceResult,
        rest: seq<DeviceResult>, ok: nat -> bool, k: nat)
    requires ValidTotals(cfg.totals) && cfg.totals.Keys <= s.inUse.Keys && uid !in s.records && Matches(cfg, r)
    requires var t := RunThread(cfg, s, Scanning(uid, [r] + rest, []), ok, k).1; t.Finished? && t.response.Failed?
    ensures RunThread(cfg, s, Scanning(uid, [r] + rest, []), ok, k).0 == s <==> Restores(cfg, s, uid, r, ok, k)
  {
    DeviceRun(cfg, s, uid, r, rest, [], ok, k);
    if FateOf(cfg, s, uid, r, ok, k) == Recorded {
      var job := JobFor(cfg, s, uid, r, rest, []);
      RecordOutlivesCall(cfg, AfterDevice(cfg, s, job), Scanning(uid, rest, [] + [DeviceOf(job)]), ok, k + 5, uid);
    } else {
      RestoresExactly(cfg, s, uid, r, ok, k);
    }
  }

  /** The clean-up that follows a failed write succeeds. */
  predicate CleansUp(fate: Fate, ok: nat -> bool, k: nat) {
    (fate == NoText ==> ok(k + 3)) && (fate == NoSpec ==> ok(k + 4))
  }

  /** For a fresh claim whose clean-ups succeed, a failed prepare with any number of devices rolls back
      if and only if the first cache-way device on its own, with the same outcomes, fails already. */
  lemma {:induction false} FailureRollsBackExactly(cfg: Config, s: Shared, uid: string, results: seq<DeviceResult>,
        ok: nat -> bool)
    requires ValidTotals(cfg.totals) && cfg.totals.Keys <= s.inUse.Keys && uid !in s.records
    requires var i := FirstMatch(cfg, results);
             i < |results| ==> CleansUp(FateOf(cfg, s, uid, results[i], ok, i), ok, i)
                               && JobFor(cfg, s, uid, results[i], [], []).Group() !in s.groups
    requires var t := RunThread(cfg, s, BeginPrepare(uid, Allocation(results)), ok, 0).1;
             t.Finished? && t.response.Failed?
    ensures var i := FirstMatch(cfg, results);
            var alone := results[..if i < |results| then i + 1 else i];
            RunThread(cfg, s, BeginPrepare(uid, Allocation(results)), ok, 0).0 == s
            <==> RunThread(cfg, s, BeginPrepare(uid, Allocation(alone)), ok, 0).1.Finished?
                 && RunThread(cfg, s, BeginPrepare(uid, Allocation(alone)), ok, 0).1.response.Failed?
  {
    var i := FirstMatch(cfg, results);
    RollsBackExactly(cfg, s, uid, results, ok);
    if i < |results| {
      FirstDeviceAlone(cfg, s, uid, results, ok);
      PanicsExactly(cfg, s, uid, results, ok);
    } else {
      assert results[..i] == results;
    }
  }

  lemma {:induction false} FirstDeviceAlone(cfg: Config, s: Shared, uid: string, results: seq<DeviceResult>,
        ok: nat -> bool)
    requires ValidTotals(cfg.totals) && cfg.totals.Keys <= s.inUse.Keys
    requires FirstMatch(cfg, results) < |results|
    ensures var i := FirstMatch(cfg, results);
            var t := RunThread(cfg, s, BeginPrepare(uid, Allocation(results[..i + 1])), ok, 0).1;
            var fate := FateOf(cfg, s, uid, results[i], ok, i);
            t.Finished? && t.response.Failed? <==> fate != Recorded && fate != Panics
  {
    var i := FirstMatch(cfg, results);
    var alone := results[..i + 1];
    PrefixFirst(Matcher(cfg), results);
    FromFirst(cfg, s, uid, alone, ok);
    assert alone[i + 1..] == [] && alone[i] == results[i];
    OnlyDevice(cfg, s, uid, results[i], ok, i);
  }

  lemma {:induction false} OnlyDevice(cfg: Config, s: Shared, uid: string, r: DeviceResult, ok: nat -> bool, k: nat)
    requires ValidTotals(cfg.totals) && cfg.totals.Keys <= s.inUse.Keys && Matches(cfg, r)
    ensures var t, fate := RunThread(cfg, s, Scanning(uid, [r] + [], []), ok, k).1, FateOf(cfg, s, uid, r, ok, k);
            t.Finished? && t.response.Failed? <==> fate != Recorded && fate != Panics
  {
    DeviceRun(cfg, s, uid, r, [], [], ok, k);
    if FateOf(cfg, s, uid, r, ok, k) == Recorded {
      var job := JobFor(cfg, s, uid, r, [], []);
      NothingToReserve(cfg, AfterDevice(cfg, s, job), uid, [], [] + [DeviceOf(job)], ok, k + 5);
    }
  }

  // ---- What a prepared claim can rely on -----------------------------------------------------

  /** The CDI id handed out names the device of the claim's CDI file; that file leads to the claim's
      group; and the group's text claims exactly the ways the file and the record show: a run of the
      length in the device name, in its domain, that was free before the call. */
  ghost predicate Delivered(cfg: Config, s: Shared, s': Shared, uid: string, d: PreparedDevice)
  {
    && uid in s'.records
    && (var r := s'.records[uid];
        && ParseCacheWayName(d.device) == Ok((r.cacheID, r.ways))
        && r.specPath in s'.specs && r.group in s'.groups && s'.groups[r.group].Some?
        && (var spec, text := s'.specs[r.specPath], s'.groups[r.group].value;
            && d.cdiDevice == CDI_KIND + "=" + spec.device && spec.group == r.group
            && spec.cacheID == r.cacheID && spec.ways == r.ways && ParseUint(spec.cbmHex, 16) == Some(r.cbm)
            && (forall c :: TextBits(text, c) == if c == r.cacheID then Bits(r.cbm) else {})
            && LinesOf(text) == ["L3:" + PrintInt(r.cacheID) + "=" + MaskHex(r.cbm)]
            && |Bits(r.cbm)| == r.ways
            && Bits(r.cbm) !! UsedBits(s.inUse, r.cacheID)
            && UsedBits(s'.inUse, r.cacheID) == UsedBits(s.inUse, r.cacheID) + Bits(r.cbm)))
  }

  lemma {:induction false} AfterDeviceDelivers(cfg: Config, s: Shared, job: Job)
    requires ValidTotals(cfg.totals) && |job.uid| >= 8 && IsInt64(job.cacheID)
    requires Reserve(cfg.totals, s.inUse, job.cacheID, job.ways).0 == Ok(job.cbm)
    requires ParseCacheWayName(job.result.device) == Ok((job.cacheID, job.ways))
    ensures Delivered(cfg, s, AfterDevice(cfg, s, job), job.uid, DeviceOf(job))
  {
    ReserveGrants(cfg.totals, s.inUse, job.cacheID, job.ways);
    var start: nat :| Bits(job.cbm) == Interval(start, job.ways);
    IntervalSize(start, job.ways);
    ParsePrintNat(job.cbm, 16);
    StructuredIsOneLine(job.cacheID, job.cbm);
    forall c ensures TextBits(JobText(job), c) == if c == job.cacheID then Bits(job.cbm) else {} {
      JobTextBits(job, c);
    }
  }

  // ---- A claim with one device ---------------------------------------------------------------

  /** A prepare with at most one cache-way device that succeeds has recorded exactly that device. */
  lemma {:induction false} PreparedMeansRecorded(cfg: Config, s: Shared, uid: string, results: seq<DeviceResult>,
        ok: nat -> bool)
    returns (job: Job)
    requires ValidTotals(cfg.totals) && cfg.totals.Keys <= s.inUse.Keys && CountMatches(cfg, results) <= 1
    requires var t := RunThread(cfg, s, BeginPrepare(uid, Allocation(results)), ok, 0).1;
             t.Finished? && t.response.Prepared?
    ensures FirstMatch(cfg, results) < |results| && |uid| >= 8
    ensures job == JobFor(cfg, s, uid, results[FirstMatch(cfg, results)], results[FirstMatch(cfg, results) + 1..], [])
    ensures Reserve(cfg.totals, s.inUse, job.cacheID, job.ways).0 == Ok(job.cbm)
    ensures RunThread(cfg, s, BeginPrepare(uid, Allocation(results)), ok, 0)
            == (AfterDevice(cfg, s, job), Finished(Prepared([DeviceOf(job)])))
  {
    var i := FirstMatch(cfg, results);
    if i == |results| { NoDevice(cfg, s, uid, results, ok); }
    FromFirst(cfg, s, uid, results, ok);
    NoMore(Matcher(cfg), results);
    job := JobFor(cfg, s, uid, results[i], results[i + 1..], []);
    HeadPrepared(cfg, s, uid, results[i], results[i + 1..], ok, i);
  }

  lemma {:induction false} HeadPrepared(cfg: Config, s: Shared, uid: string, r: DeviceResult,
        rest: seq<DeviceResult>, ok: nat -> bool, k: nat)
    requires ValidTotals(cfg.totals) && cfg.totals.Keys <= s.inUse.Keys && Matches(cfg, r) && CountMatches(cfg, rest) == 0
    requires var t := RunThread(cfg, s, Scanning(uid, [r] + rest, []), ok, k).1; t.Finished? && t.response.Prepared?
    ensures var job := JobFor(cfg, s, uid, r, rest, []);
            && |uid| >= 8 && Reserve(cfg.totals, s.inUse, job.cacheID, job.ways).0 == Ok(job.cbm)
            && RunThread(cfg, s, Scanning(uid, [r] + rest, []), ok, k)
               == (AfterDevice(cfg, s, job), Finished(Prepared([DeviceOf(job)])))
  {
    DeviceRun(cfg, s, uid, r, rest, [], ok, k);
    var job := JobFor(cfg, s, uid, r, rest, []);
    assert FateOf(cfg, s, uid, r, ok, k) == Recorded;
    assert [] + [DeviceOf(job)] == [DeviceOf(job)];
    NothingToReserve(cfg, AfterDevice(cfg, s, job), uid, rest, [DeviceOf(job)], ok, k + 5);
  }

  /** A successful prepare of a claim with one cache-way device delivers it. */
  lemma {:induction false} PrepareDelivers(cfg: Config, s: Shared, uid: string, results: seq<DeviceResult>,
        ok: nat -> bool)
    requires ValidTotals(cfg.totals) && cfg.totals.Keys <= s.inUse.Keys && CountMatches(cfg, results) <= 1
    ensures var (s', t') := RunThread(cfg, s, BeginPrepare(uid, Allocation(results)), ok, 0);
            t'.Finished? && t'.response.Prepared? ==>
              && |t'.response.devices| == 1 && Delivered(cfg, s, s', uid, t'.response.devices[0])
              && FirstMatch(cfg, results) < |results|
              && AnswersResult(t'.response.devices[0], results[FirstMatch(cfg, results)])
  {
    var t' := RunThread(cfg, s, BeginPrepare(uid, Allocation(results)), ok, 0).1;
    if t'.Finished? && t'.response.Prepared? {
      var job := PreparedMeansRecorded(cfg, s, uid, results, ok);
      AfterDeviceDelivers(cfg, s, job);
    }
  }

  /** Unprepare undoes prepare: from a state without the claim's group, record and CDI file, a
      successful prepare of one device followed by an unprepare whose removals succeed restores the
      state. */
  lemma {:induction false} UnprepareUndoesPrepare(cfg: Config, s: Shared, uid: string, results: seq<DeviceResult>,
                               ok: nat -> bool, ok': nat -> bool)
    requires ValidTotals(cfg.totals) && cfg.totals.Keys <= s.inUse.Keys && CountMatches(cfg, results) <= 1
    requires var i := FirstMatch(cfg, results);
             i < |results| ==> JobFor(cfg, s, uid, results[i], [], []).Group() !in s.groups
    requires uid !in s.records && (|uid| >= 8 ==> SpecPath(cfg.cdiDir, uid) !in s.specs)
    requires ok'(1) && ok'(3)
    requires var t := RunThread(cfg, s, BeginPrepare(uid, Allocation(results)), ok, 0).1;
             t.Finished? && t.response.Prepared?
    ensures var prepared := RunThread(cfg, s, BeginPrepare(uid, Allocation(results)), ok, 0).0;
            RunThread(cfg, prepared, BeginUnprepare(uid), ok', 0) == (s, Finished(Unprepared))
  {
    var job := PreparedMeansRecorded(cfg, s, uid, results, ok);
    DeviceUndone(cfg, s, job, ok');
  }

  lemma {:induction false} DeviceUndone(cfg: Config, s: Shared, job: Job, ok: nat -> bool)
    requires ValidTotals(cfg.totals) && cfg.totals.Keys <= s.inUse.Keys && |job.uid| >= 8
    requires Reserve(cfg.totals, s.inUse, job.cacheID, job.ways).0 == Ok(job.cbm)
    requires job.uid !in s.records && SpecPath(cfg.cdiDir, job.uid) !in s.specs && job.Group() !in s.groups
    requires ok(1) && ok(3)
    ensures RunThread(cfg, AfterDevice(cfg, s, job), BeginUnprepare(job.uid), ok, 0) == (s, Finished(Unprepared))
  {
    var prepared := AfterDevice(cfg, s, job);
    UnprepareSteps(cfg, prepared, job.uid, ok);
    FreeUndoesReserve(cfg.totals, s.inUse, job.cacheID, job.ways);
    assert prepared.groups - {job.Group()} == s.groups;
    assert prepared.specs - {SpecPath(cfg.cdiDir, job.uid)} == s.specs;
    assert prepared.records - {job.uid} == s.records;
  }

  // ---- Several devices do not roll back ------------------------------------------------------

  /** An instance: a claim names the whole of a free domain twice. The first device is recorded, the
      second is refused, and the answer is an error that leaves ways, group, CDI file and record
      behind. */
  lemma {:induction false} TwoDevicesDoNotRollBack(cfg: Config, s: Shared, uid: string, r: DeviceResult)
    requires ValidTotals(cfg.totals) && cfg.totals.Keys <= s.inUse.Keys && uid !in s.records && |uid| >= 8
    requires Matches(cfg, r) && var (c, ways) := ParseCacheWayName(r.device).value;
             c in cfg.totals && ways == cfg.totals[c] && ways >= 1 && UsedBits(s.inUse, c) == {}
    ensures var (s', t') := RunThread(cfg, s, BeginPrepare(uid, Allocation([r, r])), _ => true, 0);
            && t' == Finished(Failed(WaysUnavailable(r.device, NoFreeRun)))
            && s' == AfterDevice(cfg, s, JobFor(cfg, s, uid, r, [r], [])) && s' != s
  {
    var job := JobFor(cfg, s, uid, r, [r], []);
    var c, ways := job.cacheID, job.ways;
    WholeDomain(cfg.totals, s.inUse, c);
    assert [r, r] == [r] + [r];
    DeviceRun(cfg, s, uid, r, [r], [], _ => true, 0);
    var s' := AfterDevice(cfg, s, job);
    assert [r] == [r] + [];
    DeviceRun(cfg, s', uid, r, [], [] + [DeviceOf(job)], _ => true, 5);
  }

  lemma {:induction false} WholeDomain(totals: map<int, nat>, alloc: Occupancy, c: int)
    requires ValidTotals(totals) && c in totals && totals[c] >= 1 && UsedBits(alloc, c) == {}
    ensures Reserve(totals, alloc, c, totals[c]).0.Ok?
    ensures Reserve(totals, Reserve(totals, alloc, c, totals[c]).1, c, totals[c]).0 == Err(NoFreeRun)
  {
    var n := totals[c];
    ReserveRefuses(totals, alloc, c, n);
    assert FreeRun(UsedBits(alloc, c), n, 0, n);
    ReserveGrants(totals, alloc, c, n);
    var after := Reserve(totals, alloc, c, n).1;
    var start: nat :| Bits(Reserve(totals, alloc, c, n).0.value) == Interval(start, n) && start + n <= n;
    ReserveRefuses(totals, after, c, n);
    forall s: nat ensures !FreeRun(UsedBits(after, c), n, s, n) {
      assert 0 in Interval(0, n);
    }
  }

  // ---- Records over a call -------------------------------------------------------------------

  /** The claim of a prepare in flight. */
  function ClaimInFlight(t: Thread): Option<string> {
    if t.Scanning? then Some(t.uid) else if JobOf(t).Some? then Some(JobOf(t).value.uid) else None
  }

  lemma {:induction false} RecordsStep(cfg: Config, s: Shared, t: Thread, ok: bool, uid: string)
    requires ValidTotals(cfg.totals) && uid in s.records && ClaimInFlight(t).Some?
    ensures var (s', t') := Step(cfg, s, t, ok);
            && uid in s'.records && (ClaimInFlight(t) != Some(uid) ==> s'.records[uid] == s.records[uid])
            && if ClaimInFlight(t').Some? then ClaimInFlight(t') == ClaimInFlight(t) else Done(t')
  {
  }

  /** Whatever happens to its devices, a prepare leaves the records of all other claims alone, and a
      record of its own claim is at most overwritten. */
  lemma {:induction false} RecordOutlivesCall(cfg: Config, s: Shared, t: Thread, ok: nat -> bool, k: nat, uid: string)
    requires ValidTotals(cfg.totals) && uid in s.records
    requires ClaimInFlight(t).Some? || Done(t)
    ensures uid in RunThread(cfg, s, t, ok, k).0.records
    ensures ClaimInFlight(t) != Some(uid) ==> RunThread(cfg, s, t, ok, k).0.records[uid] == s.records[uid]
    decreases Rank(t)
  {
    if !Done(t) {
      var (s', t') := Step(cfg, s, t, ok(k));
      RecordsStep(cfg, s, t, ok(k), uid);
      RecordOutlivesCall(cfg, s', t', ok, k + 1, uid);
    }
  }
}
