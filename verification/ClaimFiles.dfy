/** The per-claim CDI files of structured mode (`pkg/driver/cdi.go`): which claims share one, and that
    a claim's file stays as it is, whatever claims with other files do. */
module ClaimFiles {
  import opened Options
  import opened Text
  import opened Names
  import opened WayAllocation
  import opened Protocol
  import opened Accounting
  import opened Holders
  import opened StructuredDriver
  import opened Rollback
  import opened Delivery

  // ---- Which claims share a file -------------------------------------------------------------

  /** A claim's file is a JSON file in the CDI directory; two claims have the same file exactly when the
      first 8 characters of their UIDs agree. */
  lemma {:induction false} SpecPathExactly(cdiDir: string, u: string, v: string)
    requires |u| >= 8 && |v| >= 8
    ensures HasPrefix(SpecPath(cdiDir, u), cdiDir + "/") && HasSuffix(SpecPath(cdiDir, u), ".json")
    ensures SpecPath(cdiDir, u) == SpecPath(cdiDir, v) <==> u[..8] == v[..8]
  {
    var head := cdiDir + "/" + CDI_VENDOR + "-claim-";
    if SpecPath(cdiDir, u) == SpecPath(cdiDir, v) {
      SplitEqual(head, u[..8] + ".json", head, v[..8] + ".json") by {
        assert SpecPath(cdiDir, u) == head + (u[..8] + ".json");
        assert SpecPath(cdiDir, v) == head + (v[..8] + ".json");
      }
      SplitEqual(u[..8], ".json", v[..8], ".json");
    }
  }

  /** The name of the device in the file tells the domain, the way count and those 8 characters. */
  lemma {:induction false} SpecDeviceExactly(a: Job, b: Job)
    requires |a.uid| >= 8 && |b.uid| >= 8
    ensures SpecDevice(a) == SpecDevice(b)
            <==> a.cacheID == b.cacheID && a.ways == b.ways && a.uid[..8] == b.uid[..8]
  {
    if SpecDevice(a) == SpecDevice(b) {
      var x, y := PrintInt(a.ways) + "way" + "-" + a.uid[..8], PrintInt(b.ways) + "way" + "-" + b.uid[..8];
      NameTail(PrintInt(a.cacheID), PrintInt(a.ways), a.uid[..8]);
      NameTail(PrintInt(b.cacheID), PrintInt(b.ways), b.uid[..8]);
      NumberThenHyphen(a.cacheID, x, b.cacheID, y);
      WaysAndClaim(a.ways, a.uid[..8], b.ways, b.uid[..8]);
    }
  }

  lemma {:induction false} WaysAndClaim(m: int, u: string, n: int, v: string)
    requires |u| == |v| && PrintInt(m) + "way" + "-" + u == PrintInt(n) + "way" + "-" + v
    ensures m == n && u == v
  {
    assert PrintInt(m) + "way" + "-" + u == PrintInt(m) + ("way-" + u);
    assert PrintInt(n) + "way" + "-" + v == PrintInt(n) + ("way-" + v);
    SplitEqual(PrintInt(m), "way-" + u, PrintInt(n), "way-" + v);
    SplitEqual("way-", u, "way-", v);
    PrintIntInjective(m, n);
  }

  predicate SharesFile(u: string, v: string) {
    |u| >= 8 && |v| >= 8 && u[..8] == v[..8]
  }

  function FileOf(cfg: Config, s: Shared, uid: string): Option<ClaimSpec>
    requires |uid| >= 8
  {
    var path := SpecPath(cfg.cdiDir, uid);
    if path in s.specs then Some(s.specs[path]) else None
  }

  // ---- Records know their own files ----------------------------------------------------------

  predicate OwnPaths(cfg: Config, s: Shared) {
    forall u | u in s.records :: |u| >= 8 && s.records[u].specPath == SpecPath(cfg.cdiDir, u)
  }

  lemma {:induction false} StepOwnPaths(cfg: Config, s: Shared, t: Thread, ok: bool)
    requires ValidTotals(cfg.totals) && OwnPaths(cfg, s)
    ensures OwnPaths(cfg, Step(cfg, s, t, ok).0)
  {
  }

  lemma {:induction false} RunOwnPaths(cfg: Config, st: State, actions: seq<Action>)
    requires ValidTotals(cfg.totals) && OwnPaths(cfg, st.shared)
    ensures OwnPaths(cfg, Run(cfg, st, actions).shared)
    decreases |actions|
  {
    if actions != [] {
      var a := actions[0];
      if a.Advance? && a.id in st.threads { StepOwnPaths(cfg, st.shared, st.threads[a.id], a.ok); }
      RunOwnPaths(cfg, Next(cfg, st, a), actions[1..]);
    }
  }

  // ---- Requests that leave the file alone ----------------------------------------------------

  /** The thread neither writes nor removes the file of `uid`, now or later. */
  predicate Leaves(cfg: Config, t: Thread, uid: string)
    requires |uid| >= 8
  {
    match t
    case Scanning(u, todo, _) => !SharesFile(u, uid) || CountMatches(cfg, todo) == 0
    case Reserved(job) => !SharesFile(job.uid, uid)
    case DirMade(job) => !SharesFile(job.uid, uid)
    case Written(job) => !SharesFile(job.uid, uid)
    case Described(job) => !SharesFile(job.uid, uid) || CountMatches(cfg, job.rest) == 0
    case Forgetting(u) => !SharesFile(u, uid)
    case Deleting(_, r) => r.specPath != SpecPath(cfg.cdiDir, uid)
    case Releasing(_, r) => r.specPath != SpecPath(cfg.cdiDir, uid)
    case Unlinking(_, r) => r.specPath != SpecPath(cfg.cdiDir, uid)
    case _ => true
  }

  lemma {:induction false} StepLeaves(cfg: Config, s: Shared, t: Thread, ok: bool, uid: string)
    requires ValidTotals(cfg.totals) && |uid| >= 8 && OwnPaths(cfg, s) && Leaves(cfg, t, uid)
    ensures Leaves(cfg, Step(cfg, s, t, ok).1, uid)
  {
    if t.Forgetting? && t.uid in s.records { SpecPathExactly(cfg.cdiDir, t.uid, uid); }
  }

  lemma {:induction false} StepKeepsFile(cfg: Config, s: Shared, t: Thread, ok: bool, uid: string)
    requires ValidTotals(cfg.totals) && |uid| >= 8 && OwnPaths(cfg, s) && Leaves(cfg, t, uid)
    ensures FileOf(cfg, Step(cfg, s, t, ok).0, uid) == FileOf(cfg, s, uid)
  {
    if t.Written? { WritingKeepsFile(cfg, s, t.job, ok, uid); }
  }

  lemma {:induction false} WritingKeepsFile(cfg: Config, s: Shared, job: Job, ok: bool, uid: string)
    requires ValidTotals(cfg.totals) && |uid| >= 8 && !SharesFile(job.uid, uid)
    ensures FileOf(cfg, Step(cfg, s, Written(job), ok).0, uid) == FileOf(cfg, s, uid)
  {
    if |job.uid| >= 8 { SpecPathExactly(cfg.cdiDir, job.uid, uid); }
  }

  ghost predicate AllLeave(cfg: Config, st: State, uid: string)
    requires |uid| >= 8
  {
    OwnPaths(cfg, st.shared) && forall id | id in st.threads :: Leaves(cfg, st.threads[id], uid)
  }

  /** The action starts no request of a claim with the same file. */
  predicate OtherClaim(a: Action, uid: string) {
    match a
    case Prepare(_, u, _) => !SharesFile(u, uid)
    case Unprepare(_, u) => !SharesFile(u, uid)
    case _ => true
  }

  predicate OtherClaims(actions: seq<Action>, uid: string) {
    forall k | 0 <= k < |actions| :: OtherClaim(actions[k], uid)
  }

  lemma {:induction false} NextKeepsFile(cfg: Config, st: State, a: Action, uid: string)
    requires ValidTotals(cfg.totals) && |uid| >= 8 && AllLeave(cfg, st, uid) && OtherClaim(a, uid)
    ensures AllLeave(cfg, Next(cfg, st, a), uid)
    ensures FileOf(cfg, Next(cfg, st, a).shared, uid) == FileOf(cfg, st.shared, uid)
  {
    if a.Advance? && a.id in st.threads { AdvanceKeepsFile(cfg, st, a.id, a.ok, uid); }
  }

  lemma {:induction false} AdvanceKeepsFile(cfg: Config, st: State, id: nat, ok: bool, uid: string)
    requires ValidTotals(cfg.totals) && |uid| >= 8 && AllLeave(cfg, st, uid) && id in st.threads
    ensures AllLeave(cfg, Next(cfg, st, Advance(id, ok)), uid)
    ensures FileOf(cfg, Next(cfg, st, Advance(id, ok)).shared, uid) == FileOf(cfg, st.shared, uid)
  {
    StepOwnPaths(cfg, st.shared, st.threads[id], ok);
    StepLeaves(cfg, st.shared, st.threads[id], ok, uid);
    StepKeepsFile(cfg, st.shared, st.threads[id], ok, uid);
    MovedThread(cfg, st, id, ok);
  }

  /** A claim's CDI file stays as it is, over every run with crashes and failures, as long as no claim
      with the same first 8 characters is prepared or unprepared. */
  lemma {:induction false} FileStays(cfg: Config, st: State, actions: seq<Action>, uid: string)
    requires ValidTotals(cfg.totals) && |uid| >= 8 && AllLeave(cfg, st, uid) && OtherClaims(actions, uid)
    ensures AllLeave(cfg, Run(cfg, st, actions), uid)
    ensures FileOf(cfg, Run(cfg, st, actions).shared, uid) == FileOf(cfg, st.shared, uid)
    decreases |actions|
  {
    if actions != [] {
      NextKeepsFile(cfg, st, actions[0], uid);
      assert forall k | 0 <= k < |actions[1..]| :: actions[1..][k] == actions[k + 1];
      FileStays(cfg, Next(cfg, st, actions[0]), actions[1..], uid);
    }
  }

  // ---- A recorded claim and its file ---------------------------------------------------------

  /** The thread is about to record the claim. */
  predicate Describes(t: Thread, uid: string) {
    t.Described? && t.job.uid == uid
  }

  lemma {:induction false} StepKeepsRecord(cfg: Config, s: Shared, t: Thread, ok: bool, uid: string)
    requires ValidTotals(cfg.totals) && |uid| >= 8 && uid in s.records && Leaves(cfg, t, uid) && !Describes(t, uid)
    ensures var (s', t') := Step(cfg, s, t, ok); uid in s'.records && s'.records[uid] == s.records[uid]
  {
  }

  lemma {:induction false} StepDescribes(cfg: Config, s: Shared, t: Thread, ok: bool, uid: string)
    requires ValidTotals(cfg.totals) && |uid| >= 8 && Leaves(cfg, t, uid) && !Describes(t, uid)
    ensures !Describes(Step(cfg, s, t, ok).1, uid)
  {
  }

  /** No request but `id` will touch the file or record the claim. */
  ghost predicate OthersLeave(cfg: Config, st: State, id: nat, uid: string)
    requires |uid| >= 8
  {
    forall k | k in st.threads && k != id :: Leaves(cfg, st.threads[k], uid) && !Describes(st.threads[k], uid)
  }

  /** Thread `id` is about to record the claim for `job`, or has done so. */
  ghost predicate Tracks(cfg: Config, st: State, id: nat, job: Job, record: Record)
    requires |job.uid| >= 8
  {
    && OthersLeave(cfg, st, id, job.uid) && id in st.threads && Leaves(cfg, st.threads[id], job.uid)
    && (st.threads[id] == Described(job)
        || (!Describes(st.threads[id], job.uid) && job.uid in st.shared.records && st.shared.records[job.uid] == record))
  }

  lemma {:induction false} StepTracks(cfg: Config, st: State, k: nat, ok: bool, id: nat, job: Job, record: Record)
    requires ValidTotals(cfg.totals) && |job.uid| >= 8 && OwnPaths(cfg, st.shared) && Tracks(cfg, st, id, job, record)
    requires k in st.threads && !Describes(st.threads[k], job.uid)
    ensures Tracks(cfg, Next(cfg, st, Advance(k, ok)), id, job, record)
  {
    StepLeaves(cfg, st.shared, st.threads[k], ok, job.uid);
    StepDescribes(cfg, st.shared, st.threads[k], ok, job.uid);
    if job.uid in st.shared.records { StepKeepsRecord(cfg, st.shared, st.threads[k], ok, job.uid); }
    MovedThread(cfg, st, k, ok);
  }

  lemma {:induction false} MovedThread(cfg: Config, st: State, k: nat, ok: bool)
    requires ValidTotals(cfg.totals) && k in st.threads
    ensures var (s, t) := Step(cfg, st.shared, st.threads[k], ok);
            Next(cfg, st, Advance(k, ok)) == State(s, st.threads[k := t])
  {
  }

  lemma {:induction false} RecordingTracks(cfg: Config, st: State, ok: bool, id: nat, job: Job, record: Record)
    requires ValidTotals(cfg.totals) && |job.uid| >= 8 && Tracks(cfg, st, id, job, record) && st.threads[id] == Described(job)
    requires record == RecordOf(cfg, job)
    ensures Tracks(cfg, Next(cfg, st, Advance(id, ok)), id, job, record)
  {
    MovedThread(cfg, st, id, ok);
  }

  lemma {:induction false} ArrivalTracks(cfg: Config, st: State, a: Action, id: nat, job: Job, record: Record)
    requires ValidTotals(cfg.totals) && |job.uid| >= 8 && Tracks(cfg, st, id, job, record)
    requires OtherClaim(a, job.uid) && (a.Prepare? || a.Unprepare?)
    ensures Tracks(cfg, Next(cfg, st, a), id, job, record)
  {
    var t := if a.Prepare? then BeginPrepare(a.uid, a.fetched) else BeginUnprepare(a.uid);
    assert Leaves(cfg, t, job.uid) && !Describes(t, job.uid);
    assert Next(cfg, st, a) == if a.id in st.threads then st else State(st.shared, st.threads[a.id := t]);
  }

  lemma {:induction false} AdvanceTracks(cfg: Config, st: State, k: nat, ok: bool, id: nat, job: Job, record: Record)
    requires ValidTotals(cfg.totals) && |job.uid| >= 8 && OwnPaths(cfg, st.shared) && Tracks(cfg, st, id, job, record)
    requires k in st.threads && record == RecordOf(cfg, job)
    ensures Tracks(cfg, Next(cfg, st, Advance(k, ok)), id, job, record)
  {
    if Describes(st.threads[k], job.uid) {
      RecordingTracks(cfg, st, ok, id, job, record);
    } else {
      StepTracks(cfg, st, k, ok, id, job, record);
    }
  }

  lemma {:induction false} NextTracks(cfg: Config, st: State, a: Action, id: nat, job: Job, record: Record)
    requires ValidTotals(cfg.totals) && |job.uid| >= 8 && OwnPaths(cfg, st.shared) && Tracks(cfg, st, id, job, record)
    requires OtherClaim(a, job.uid) && !a.Crash? && record == RecordOf(cfg, job)
    ensures Tracks(cfg, Next(cfg, st, a), id, job, record)
  {
    if !a.Advance? {
      ArrivalTracks(cfg, st, a, id, job, record);
    } else if a.id in st.threads {
      AdvanceTracks(cfg, st, a.id, a.ok, id, job, record);
    }
  }

  lemma {:induction false} RunTracks(cfg: Config, st: State, actions: seq<Action>, id: nat, job: Job, record: Record)
    requires ValidTotals(cfg.totals) && |job.uid| >= 8 && OwnPaths(cfg, st.shared) && Tracks(cfg, st, id, job, record)
    requires OtherClaims(actions, job.uid) && CrashFree(actions) && record == RecordOf(cfg, job)
    ensures Tracks(cfg, Run(cfg, st, actions), id, job, record)
    decreases |actions|
  {
    if actions != [] {
      NextTracks(cfg, st, actions[0], id, job, record);
      RunOwnPaths(cfg, st, actions[..1]);
      assert Run(cfg, st, actions[..1]) == Next(cfg, st, actions[0]);
      assert forall k | 0 <= k < |actions[1..]| :: actions[1..][k] == actions[k + 1];
      RunTracks(cfg, Next(cfg, st, actions[0]), actions[1..], id, job, record);
    }
  }

  lemma {:induction false} WritesFile(cfg: Config, st: State, id: nat, job: Job)
    requires ValidTotals(cfg.totals) && |job.uid| >= 8 && id in st.threads && st.threads[id] == Written(job)
    ensures var after := Next(cfg, st, Advance(id, true));
            && after.threads == st.threads[id := Described(job)] && after.shared.records == st.shared.records
            && FileOf(cfg, after.shared, job.uid) == Some(SpecOf(job))
  {
    MovedThread(cfg, st, id, true);
  }

  lemma {:induction false} StartsTracking(cfg: Config, st: State, written: State, id: nat, job: Job)
    requires |job.uid| >= 8 && CountMatches(cfg, job.rest) == 0 && OwnPaths(cfg, st.shared)
    requires OthersLeave(cfg, st, id, job.uid)
    requires written.threads == st.threads[id := Described(job)] && written.shared.records == st.shared.records
    ensures AllLeave(cfg, written, job.uid) && Tracks(cfg, written, id, job, RecordOf(cfg, job))
  {
  }

  /** Let a request write the CDI file of its claim's last device, in any state that a run can reach, with
      no other request of a claim with the same file in flight. Over every continuation in which no
      such claim is prepared or unprepared, whatever other claims do, that file keeps showing the
      device, also after crashes; and up to the next crash, once the claim is recorded, its record is
      the one of that device. */
  lemma {:induction false} RecordedClaimKeepsItsFile(cfg: Config, boot: Shared, listing: Option<seq<DirEntry>>,
        earlier: seq<Action>, id: nat, job: Job, later: seq<Action>)
    requires ValidTotals(cfg.totals) && |job.uid| >= 8 && CountMatches(cfg, job.rest) == 0
    requires var st := Run(cfg, Restart(cfg, boot, listing), earlier);
             id in st.threads && st.threads[id] == Written(job) && OthersLeave(cfg, st, id, job.uid)
    requires OtherClaims(later, job.uid)
    ensures var st := Run(cfg, Restart(cfg, boot, listing), earlier);
            var end := Run(cfg, Next(cfg, st, Advance(id, true)), later);
            && FileOf(cfg, end.shared, job.uid) == Some(SpecOf(job))
            && (CrashFree(later) ==>
                  id in end.threads
                  && (end.threads[id] == Described(job)
                      || (job.uid in end.shared.records && end.shared.records[job.uid] == RecordOf(cfg, job))))
  {
    var st := Run(cfg, Restart(cfg, boot, listing), earlier);
    var written := Next(cfg, st, Advance(id, true));
    RunOwnPaths(cfg, Restart(cfg, boot, listing), earlier);
    WritesFile(cfg, st, id, job);
    StartsTracking(cfg, st, written, id, job);
    FileStays(cfg, written, later, job.uid);
    if CrashFree(later) { RunTracks(cfg, written, later, id, job, RecordOf(cfg, job)); }
  }

  // ---- Exactly the claims with the same file get in each other's way -------------------------

  /** What every step keeps, a whole call keeps. */
  lemma {:induction false} CallKeeps(cfg: Config, inv: (Shared, Thread) -> bool, s: Shared, t: Thread, ok: nat -> bool,
        k: nat)
    requires ValidTotals(cfg.totals) && inv(s, t)
    requires forall s, t, b | inv(s, t) :: inv(Step(cfg, s, t, b).0, Step(cfg, s, t, b).1)
    ensures inv(RunThread(cfg, s, t, ok, k).0, RunThread(cfg, s, t, ok, k).1)
    decreases Rank(t)
  {
    if !Done(t) {
      var (s', t') := Step(cfg, s, t, ok(k));
      CallKeeps(cfg, inv, s', t', ok, k + 1);
      assert RunThread(cfg, s, t, ok, k) == RunThread(cfg, s', t', ok, k + 1);
    }
  }

  lemma {:induction false} CallKeepsFile(cfg: Config, s: Shared, t: Thread, ok: nat -> bool, k: nat, uid: string)
    requires ValidTotals(cfg.totals) && |uid| >= 8 && OwnPaths(cfg, s) && Leaves(cfg, t, uid)
    ensures FileOf(cfg, RunThread(cfg, s, t, ok, k).0, uid) == FileOf(cfg, s, uid)
  {
    var file := FileOf(cfg, s, uid);
    var inv := (s: Shared, t: Thread) => OwnPaths(cfg, s) && Leaves(cfg, t, uid) && FileOf(cfg, s, uid) == file;
    forall s, t, b | inv(s, t) ensures inv(Step(cfg, s, t, b).0, Step(cfg, s, t, b).1) {
      StepOwnPaths(cfg, s, t, b);
      StepLeaves(cfg, s, t, b, uid);
      StepKeepsFile(cfg, s, t, b, uid);
    }
    CallKeeps(cfg, inv, s, t, ok, k);
  }

  /** A successful prepare of another claim leaves a claim's file alone if and only if the first 8
      characters of their UIDs differ; otherwise the file shows the other claim's device. */
  lemma {:induction false} OtherPrepareKeepsFileExactly(cfg: Config, s: Shared, u: string, v: string,
        results: seq<DeviceResult>, ok: nat -> bool)
    requires ValidTotals(cfg.totals) && cfg.totals.Keys <= s.inUse.Keys && OwnPaths(cfg, s)
    requires |u| >= 8 && |v| >= 8 && FileOf(cfg, s, u).Some?
    requires forall c :: FileOf(cfg, s, u).value.group != GroupName(c, v)
    requires var t := RunThread(cfg, s, BeginPrepare(v, Allocation(results)), ok, 0).1;
             t.Finished? && t.response.Prepared?
    ensures FileOf(cfg, RunThread(cfg, s, BeginPrepare(v, Allocation(results)), ok, 0).0, u) == FileOf(cfg, s, u)
            <==> u[..8] != v[..8]
  {
    if u[..8] == v[..8] {
      var jobs := PrepareServesAll(cfg, s, v, results, ok);
      var last := jobs[|jobs| - 1];
      SpecPathExactly(cfg.cdiDir, u, v);
      assert WellServed(s, v, last);
      assert SpecOf(last).group == GroupName(last.cacheID, v);
    } else {
      CallKeepsFile(cfg, s, BeginPrepare(v, Allocation(results)), ok, 0, u);
    }
  }

  /** So does an unprepare whose removal of the file succeeds. */
  lemma {:induction false} OtherUnprepareKeepsFileExactly(cfg: Config, s: Shared, u: string, v: string, ok: nat -> bool)
    requires ValidTotals(cfg.totals) && OwnPaths(cfg, s) && |u| >= 8 && FileOf(cfg, s, u).Some?
    requires v in s.records && ok(3)
    ensures FileOf(cfg, RunThread(cfg, s, BeginUnprepare(v), ok, 0).0, u) == FileOf(cfg, s, u) <==> u[..8] != v[..8]
  {
    UnprepareSteps(cfg, s, v, ok);
    SpecPathExactly(cfg.cdiDir, u, v);
  }
}
