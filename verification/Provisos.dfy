/** Runs that break isolation, one for each proviso of the isolation theorem: any two claims, from a
    node without groups, with one removal that fails or one group that recovery cannot read. */
module Provisos {
  import opened Options
  import opened Masks
  import opened Text
  import opened Names
  import opened WayAllocation
  import opened Protocol
  import opened ProtocolSafety
  import opened StructuredDriver
  import opened Accounting
  import opened Rollback

  // ---- Whole requests as runs ----------------------------------------------------------------

  lemma {:induction false} RunConcat(cfg: Config, st: State, a: seq<Action>, b: seq<Action>)
    requires ValidTotals(cfg.totals)
    ensures Run(cfg, st, a + b) == Run(cfg, Run(cfg, st, a), b)
    decreases |a|
  {
    if a == [] {
      assert a + b == b;
    } else {
      assert (a + b)[1..] == a[1..] + b;
      RunConcat(cfg, Next(cfg, st, a[0]), a[1..], b);
    }
  }

  /** A request that runs alone: its arrival and all its steps. */
  function Request(cfg: Config, st: State, arrival: Action, t: Thread, ok: nat -> bool): seq<Action>
    requires ValidTotals(cfg.totals) && (arrival.Prepare? || arrival.Unprepare?)
  {
    [arrival] + Advances(cfg, st.shared, t, arrival.id, ok, 0)
  }

  lemma {:induction false} RequestRun(cfg: Config, st: State, arrival: Action, t: Thread, ok: nat -> bool)
    requires ValidTotals(cfg.totals) && (arrival.Prepare? || arrival.Unprepare?) && arrival.id !in st.threads
    requires t == if arrival.Prepare? then BeginPrepare(arrival.uid, arrival.fetched) else BeginUnprepare(arrival.uid)
    ensures var (s', t') := RunThread(cfg, st.shared, t, ok, 0);
            Run(cfg, st, Request(cfg, st, arrival, t, ok)) == State(s', st.threads[arrival.id := t'])
  {
    var steps := Advances(cfg, st.shared, t, arrival.id, ok, 0);
    var started := st.threads[arrival.id := t];
    assert ([arrival] + steps)[1..] == steps;
    assert Next(cfg, st, arrival) == State(st.shared, started);
    RequestIsARun(cfg, st.shared, started, arrival.id, ok, 0);
    assert started[arrival.id := RunThread(cfg, st.shared, t, ok, 0).1]
           == st.threads[arrival.id := RunThread(cfg, st.shared, t, ok, 0).1];
  }

  // ---- One claim, one device -----------------------------------------------------------------

  /** A request for this device can be served from an empty domain. */
  ghost predicate Servable(cfg: Config, s: Shared, r: DeviceResult) {
    && ValidTotals(cfg.totals) && cfg.totals.Keys <= s.inUse.Keys && Matches(cfg, r)
    && var (c, ways) := ParseCacheWayName(r.device).value;
       c in cfg.totals && 1 <= ways <= cfg.totals[c] && UsedBits(s.inUse, c) == {}
  }

  lemma {:induction false} ServableGranted(cfg: Config, s: Shared, r: DeviceResult)
    requires Servable(cfg, s, r)
    ensures var (c, ways) := ParseCacheWayName(r.device).value;
            var (granted, inUse) := Reserve(cfg.totals, s.inUse, c, ways);
            granted.Ok? && Bits(granted.value) != {} && Free(inUse, c, granted.value) == s.inUse
  {
    var (c, ways) := ParseCacheWayName(r.device).value;
    ReserveRefuses(cfg.totals, s.inUse, c, ways);
    assert FreeRun(UsedBits(s.inUse, c), cfg.totals[c], 0, ways);
    ReserveGrants(cfg.totals, s.inUse, c, ways);
    FreeUndoesReserve(cfg.totals, s.inUse, c, ways);
    var cbm := Reserve(cfg.totals, s.inUse, c, ways).0.value;
    var start: nat :| Bits(cbm) == Interval(start, ways);
    assert start in Interval(start, ways);
  }

  /** The outcomes of a request whose every file operation succeeds. */
  function Fine(): nat -> bool {
    k => true
  }

  lemma {:induction false} PrepareRuns(cfg: Config, s: Shared, uid: string, r: DeviceResult)
    requires Servable(cfg, s, r) && |uid| >= 8
    ensures var job := JobFor(cfg, s, uid, r, [], []);
            RunThread(cfg, s, BeginPrepare(uid, Allocation([r])), Fine(), 0)
            == (AfterDevice(cfg, s, job), Finished(Prepared([DeviceOf(job)])))
  {
    var job := JobFor(cfg, s, uid, r, [], []);
    ServableGranted(cfg, s, r);
    assert [r] == [r] + [];
    DeviceRun(cfg, s, uid, r, [], [], Fine(), 0);
    assert FateOf(cfg, s, uid, r, Fine(), 0) == Recorded;
    assert [] + [DeviceOf(job)] == [DeviceOf(job)];
    NothingToReserve(cfg, AfterDevice(cfg, s, job), uid, [], [DeviceOf(job)], Fine(), 5);
  }

  /** Two groups written for the same ways. */
  lemma {:induction false} SameWaysClash(groups: map<string, Option<string>>, j1: Job, j2: Job)
    requires j1.cacheID == j2.cacheID && j1.cbm == j2.cbm && Bits(j1.cbm) != {} && IsInt64(j1.cacheID)
    requires j1.Group() != j2.Group()
    requires j1.Group() in groups && groups[j1.Group()] == Some(JobText(j1))
    requires j2.Group() in groups && groups[j2.Group()] == Some(JobText(j2))
    ensures !GroupsApart(groups)
  {
    JobTextBits(j1, j1.cacheID);
    JobTextBits(j2, j1.cacheID);
    var i :| i in Bits(j1.cbm);
    assert i in GroupBits(groups, j1.Group(), j1.cacheID) && i in GroupBits(groups, j2.Group(), j1.cacheID);
  }

  /** The starting point: an empty node. */
  function Empty0(cfg: Config): State {
    State(Shared(Empty(cfg.totals), map[], map[], map[]), map[])
  }

  lemma {:induction false} EmptyServes(cfg: Config, s: Shared, r: DeviceResult)
    requires ValidTotals(cfg.totals) && s.inUse == Empty(cfg.totals) && Matches(cfg, r)
    requires var (c, ways) := ParseCacheWayName(r.device).value; c in cfg.totals && 1 <= ways <= cfg.totals[c]
    ensures Servable(cfg, s, r)
  {
    BitsZero();
  }

  // ---- A removal that fails ------------------------------------------------------------------

  /** All outcomes of an unprepare but the removal of its group. */
  function AllButRemoval(): nat -> bool {
    k => k != 1
  }

  /** Prepare one claim, unprepare it with a removal that fails, prepare another claim: the ways are
      handed out again while the first group still claims them. */
  lemma {:induction false} FailedRemovalBreaksIsolation(cfg: Config, r: DeviceResult, u: string, v: string)
    returns (actions: seq<Action>)
    requires ValidTotals(cfg.totals) && Matches(cfg, r)
    requires var (c, ways) := ParseCacheWayName(r.device).value; c in cfg.totals && 1 <= ways <= cfg.totals[c]
    requires IsUUID(u) && IsUUID(v) && u != v
    ensures !GroupsApart(Run(cfg, Empty0(cfg), actions).shared.groups)
    ensures var first := Request(cfg, Empty0(cfg), Prepare(0, u, Allocation([r])), BeginPrepare(u, Allocation([r])), Fine());
            var st1 := Run(cfg, Empty0(cfg), first);
            var undo := Request(cfg, st1, Unprepare(1, u), BeginUnprepare(u), AllButRemoval());
            var st2 := Run(cfg, st1, undo);
            actions == first + undo
                       + Request(cfg, st2, Prepare(2, v, Allocation([r])), BeginPrepare(v, Allocation([r])), Fine())
  {
    var st := Empty0(cfg);
    var first := Request(cfg, st, Prepare(0, u, Allocation([r])), BeginPrepare(u, Allocation([r])), Fine());
    var st1 := Run(cfg, st, first);
    var undo := Request(cfg, st1, Unprepare(1, u), BeginUnprepare(u), AllButRemoval());
    var st2 := Run(cfg, st1, undo);
    var second := Request(cfg, st2, Prepare(2, v, Allocation([r])), BeginPrepare(v, Allocation([r])), Fine());
    actions := first + undo + second;
    RunConcat(cfg, st, first + undo, second);
    RunConcat(cfg, st, first, undo);
    EmptyServes(cfg, st.shared, r);
    PreparedState(cfg, st, 0, u, r);
    LeftByFailedRemoval(cfg, st, st1, u, r);
    EmptyServes(cfg, st2.shared, r);
    PreparedState(cfg, st2, 2, v, r);
    BothClaim(cfg, st.shared, st2.shared, r, u, v);
  }

  lemma {:induction false} PreparedState(cfg: Config, st: State, id: nat, uid: string, r: DeviceResult)
    requires Servable(cfg, st.shared, r) && |uid| >= 8 && id !in st.threads
    ensures var job := JobFor(cfg, st.shared, uid, r, [], []);
            Run(cfg, st, Request(cfg, st, Prepare(id, uid, Allocation([r])), BeginPrepare(uid, Allocation([r])), Fine()))
            == State(AfterDevice(cfg, st.shared, job), st.threads[id := Finished(Prepared([DeviceOf(job)]))])
  {
    RequestRun(cfg, st, Prepare(id, uid, Allocation([r])), BeginPrepare(uid, Allocation([r])), Fine());
    PrepareRuns(cfg, st.shared, uid, r);
  }

  lemma {:induction false} LeftByFailedRemoval(cfg: Config, st: State, st1: State, u: string, r: DeviceResult)
    requires Servable(cfg, st.shared, r) && |u| >= 8 && 1 !in st1.threads
    requires st1.shared == AfterDevice(cfg, st.shared, JobFor(cfg, st.shared, u, r, [], []))
    ensures var st2 := Run(cfg, st1, Request(cfg, st1, Unprepare(1, u), BeginUnprepare(u), AllButRemoval()));
            && st2.shared.inUse == st.shared.inUse && st2.shared.groups == st1.shared.groups
            && st2.threads.Keys == st1.threads.Keys + {1}
  {
    RequestRun(cfg, st1, Unprepare(1, u), BeginUnprepare(u), AllButRemoval());
    UnprepareSteps(cfg, st1.shared, u, AllButRemoval());
    ServableGranted(cfg, st.shared, r);
  }

  /** Two claims prepared from the same way masks, with the first group still there. */
  lemma {:induction false} BothClaim(cfg: Config, s: Shared, s2: Shared, r: DeviceResult, u: string, v: string)
    requires Servable(cfg, s, r) && s2.inUse == s.inUse && IsUUID(u) && IsUUID(v) && u != v
    requires var job := JobFor(cfg, s, u, r, [], []); s2.groups == s.groups[job.Group() := Some(JobText(job))]
    ensures !GroupsApart(AfterDevice(cfg, s2, JobFor(cfg, s2, v, r, [], [])).groups)
  {
    var j1, j2 := JobFor(cfg, s, u, r, [], []), JobFor(cfg, s2, v, r, [], []);
    ServableGranted(cfg, s, r);
    if j1.Group() == j2.Group() { GroupNameInjective(j1.cacheID, u, j2.cacheID, v); }
    SameWaysClash(AfterDevice(cfg, s2, j2).groups, j1, j2);
  }

  // ---- A group that recovery cannot read -----------------------------------------------------

  /** Prepare one claim, crash, restart with its group unreadable, prepare another claim. */
  lemma {:induction false} UnreadableGroupBreaksIsolation(cfg: Config, r: DeviceResult, u: string, v: string)
    returns (actions: seq<Action>)
    requires ValidTotals(cfg.totals) && Matches(cfg, r)
    requires var (c, ways) := ParseCacheWayName(r.device).value; c in cfg.totals && 1 <= ways <= cfg.totals[c]
    requires IsUUID(u) && IsUUID(v) && u != v
    ensures !GroupsApart(Run(cfg, Empty0(cfg), actions).shared.groups)
    ensures var first := Request(cfg, Empty0(cfg), Prepare(0, u, Allocation([r])), BeginPrepare(u, Allocation([r])), Fine());
            var st1 := Run(cfg, Empty0(cfg), first);
            var unread := Some([DirEntry(GroupName(ParseCacheWayName(r.device).value.0, u), true, None)]);
            actions == first + [Crash(unread)]
                       + Request(cfg, Restart(cfg, st1.shared, unread), Prepare(2, v, Allocation([r])),
                                 BeginPrepare(v, Allocation([r])), Fine())
  {
    var st := Empty0(cfg);
    var first := Request(cfg, st, Prepare(0, u, Allocation([r])), BeginPrepare(u, Allocation([r])), Fine());
    var st1 := Run(cfg, st, first);
    var unread := Some([DirEntry(GroupName(ParseCacheWayName(r.device).value.0, u), true, None)]);
    var st2 := Restart(cfg, st1.shared, unread);
    var second := Request(cfg, st2, Prepare(2, v, Allocation([r])), BeginPrepare(v, Allocation([r])), Fine());
    actions := first + [Crash(unread)] + second;
    RunConcat(cfg, st, first + [Crash(unread)], second);
    RunConcat(cfg, st, first, [Crash(unread)]);
    assert [Crash(unread)][1..] == [] && Run(cfg, st1, [Crash(unread)]) == st2;
    EmptyServes(cfg, st.shared, r);
    PreparedState(cfg, st, 0, u, r);
    assert unread.value[1..] == [] && EntriesMasks(unread.value, GROUP_PREFIX) == [];
    assert st2.shared.inUse == Empty(cfg.totals);
    EmptyServes(cfg, st2.shared, r);
    PreparedState(cfg, st2, 2, v, r);
    BothClaim(cfg, st.shared, st2.shared, r, u, v);
  }
}
