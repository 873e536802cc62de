/** Isolation in structured mode, over every interleaving and across crashes.

  The argument follows who holds a mask: a running request from the reservation on, then the
  claim's record, then a running unprepare until the release. `SafeView` says that holders are
  disjoint, that holders and groups lie inside the allocator's map, that groups are disjoint, and
  that a group can overlap a holder only if it is the holder's own, between writing and removal.
*/
module ProtocolSafety {
  import opened Options
  import opened Masks
  import opened Text
  import opened Names
  import opened Schemata
  import opened WayAllocation
  import opened Protocol

  // ---- Holders -------------------------------------------------------------------------------

  datatype Holder = ByThread(id: nat) | ByRecord(uid: string)

  /** `live`: the group text may carry these ways. */
  datatype Hold = Hold(cacheID: int, cbm: Word, group: string, live: bool)

  function JobHold(job: Job, live: bool): Option<Hold> {
    Some(Hold(job.cacheID, job.cbm, job.Group(), live))
  }

  function RecordHold(r: Record, live: bool): Option<Hold> {
    Some(Hold(r.cacheID, r.cbm, r.group, live))
  }

  function ThreadHold(t: Thread): Option<Hold> {
    match t
    case Reserved(job) => JobHold(job, false)
    case DirMade(job) => JobHold(job, false)
    case WriteFailed(job) => JobHold(job, false)
    case Written(job) => JobHold(job, true)
    case SpecFailed(job) => JobHold(job, true)
    case Undoing(job, _) => JobHold(job, false)
    case Described(job) => JobHold(job, true)
    case Panicked(job) => JobHold(job, true)
    case Deleting(_, record) => RecordHold(record, true)
    case Releasing(_, record) => RecordHold(record, false)
    case _ => None
  }

  function HoldOf(st: State, h: Holder): Option<Hold> {
    match h
    case ByThread(id) => if id in st.threads then ThreadHold(st.threads[id]) else None
    case ByRecord(uid) => if uid in st.shared.records then RecordHold(st.shared.records[uid], true) else None
  }

  // ---- The invariant, over uninterpreted views -----------------------------------------------

  /** The ways that each group claims in each domain. */
  type Claims = (string, int) -> set<nat>

  ghost predicate HoldersApart(hold: Holder -> Option<Hold>) {
    forall a, b | a != b && hold(a).Some? && hold(b).Some? && hold(a).value.cacheID == hold(b).value.cacheID ::
      Bits(hold(a).value.cbm) !! Bits(hold(b).value.cbm)
  }

  ghost predicate HoldersCovered(used: int -> set<nat>, hold: Holder -> Option<Hold>) {
    forall a | hold(a).Some? :: Bits(hold(a).value.cbm) <= used(hold(a).value.cacheID)
  }

  ghost predicate OwnGroupOnly(group: Claims, hold: Holder -> Option<Hold>) {
    forall a, g | hold(a).Some? && !(hold(a).value.live && g == hold(a).value.group) ::
      group(g, hold(a).value.cacheID) !! Bits(hold(a).value.cbm)
  }

  ghost predicate Apart(group: Claims) {
    forall g, k, c | g != k :: group(g, c) !! group(k, c)
  }

  ghost predicate Covered(used: int -> set<nat>, group: Claims) {
    forall g, c :: group(g, c) <= used(c)
  }

  ghost predicate SafeView(used: int -> set<nat>, group: Claims, hold: Holder -> Option<Hold>) {
    HoldersApart(hold) && HoldersCovered(used, hold) && OwnGroupOnly(group, hold) && Apart(group) && Covered(used, group)
  }

  /** Reserving free ways. */
  lemma {:induction false} Acquire(used: int -> set<nat>, used': int -> set<nat>, group: Claims,
                hold: Holder -> Option<Hold>, hold': Holder -> Option<Hold>, a: Holder)
    requires SafeView(used, group, hold) && hold(a).None? && hold'(a).Some? && !hold'(a).value.live
    requires Bits(hold'(a).value.cbm) !! used(hold'(a).value.cacheID)
    requires used'(hold'(a).value.cacheID) == used(hold'(a).value.cacheID) + Bits(hold'(a).value.cbm)
    requires forall c | c != hold'(a).value.cacheID :: used'(c) == used(c)
    requires forall b | b != a :: hold'(b) == hold(b)
    ensures SafeView(used', group, hold')
  {
    forall g ensures group(g, hold'(a).value.cacheID) !! Bits(hold'(a).value.cbm) {
      assert group(g, hold'(a).value.cacheID) <= used(hold'(a).value.cacheID);
    }
    forall b | b != a && hold'(b).Some? && hold'(b).value.cacheID == hold'(a).value.cacheID
      ensures Bits(hold'(b).value.cbm) !! Bits(hold'(a).value.cbm)
    {
      assert Bits(hold(b).value.cbm) <= used(hold(b).value.cacheID);
    }
  }

  /** Writing the holder's own group. */
  lemma {:induction false} Publish(used: int -> set<nat>, group: Claims,
        group': Claims, hold: Holder -> Option<Hold>, hold': Holder -> Option<Hold>,
        a: Holder)
    requires SafeView(used, group, hold) && hold(a).Some? && !hold(a).value.live
    requires hold'(a) == Some(hold(a).value.(live := true))
    requires forall b | b != a :: hold'(b) == hold(b)
    requires forall c :: group'(hold(a).value.group, c) == if c == hold(a).value.cacheID then Bits(hold(a).value.cbm) else {}
    requires forall g, c | g != hold(a).value.group :: group'(g, c) == group(g, c)
    ensures SafeView(used, group', hold')
  {
    var h := hold(a).value;
    forall g, k, c | g != k ensures group'(g, c) !! group'(k, c) {
      if c == h.cacheID {
        assert group(g, c) !! Bits(h.cbm) && group(k, c) !! Bits(h.cbm);
      }
      assert group(g, c) !! group(k, c);
    }
  }

  /** Groups shrink, while a holder may give up its claim on a group that no longer carries its
      ways. */
  lemma {:induction false} Withdraw(used: int -> set<nat>, group: Claims,
        group': Claims, hold: Holder -> Option<Hold>, hold': Holder -> Option<Hold>,
        a: Holder)
    requires SafeView(used, group, hold)
    requires forall g, c :: group'(g, c) <= group(g, c)
    requires forall b | b != a :: hold'(b) == hold(b)
    requires hold(a).Some? && hold'(a).Some? && hold'(a).value == hold(a).value.(live := false)
    requires group'(hold(a).value.group, hold(a).value.cacheID) !! Bits(hold(a).value.cbm)
    ensures SafeView(used, group', hold')
  {
    forall b, g | hold'(b).Some? && !(hold'(b).value.live && g == hold'(b).value.group)
      ensures group'(g, hold'(b).value.cacheID) !! Bits(hold'(b).value.cbm)
    {
      if b != a || g != hold(a).value.group { assert group'(g, hold(b).value.cacheID) <= group(g, hold(b).value.cacheID); }
    }
    forall g, k, c | g != k ensures group'(g, c) !! group'(k, c) { assert group(g, c) !! group(k, c); }
    forall g, c ensures group'(g, c) <= used(c) { assert group(g, c) <= used(c); }
  }

  /** A hold changes hands; the receiver's former hold, if any, is forgotten. */
  lemma {:induction false} HandOver(used: int -> set<nat>, group: Claims,
                 hold: Holder -> Option<Hold>, hold': Holder -> Option<Hold>, from: Holder, to: Holder)
    requires SafeView(used, group, hold) && from != to
    requires hold'(to) == hold(from) && hold'(from).None?
    requires forall b | b != from && b != to :: hold'(b) == hold(b)
    ensures SafeView(used, group, hold')
  {
    forall a, b | a != b && hold'(a).Some? && hold'(b).Some? && hold'(a).value.cacheID == hold'(b).value.cacheID
      ensures Bits(hold'(a).value.cbm) !! Bits(hold'(b).value.cbm)
    {
      var x, y := if a == to then from else a, if b == to then from else b;
      assert hold'(a) == hold(x) && hold'(b) == hold(y) && x != y;
    }
  }

  /** Releasing ways that no group may carry. */
  lemma {:induction false} Relinquish(used: int -> set<nat>, used': int -> set<nat>, group: Claims,
                   hold: Holder -> Option<Hold>, hold': Holder -> Option<Hold>, a: Holder)
    requires SafeView(used, group, hold) && hold(a).Some? && !hold(a).value.live && hold'(a).None?
    requires used'(hold(a).value.cacheID) == used(hold(a).value.cacheID) - Bits(hold(a).value.cbm)
    requires forall c | c != hold(a).value.cacheID :: used'(c) == used(c)
    requires forall b | b != a :: hold'(b) == hold(b)
    ensures SafeView(used', group, hold')
  {
    var h := hold(a).value;
    forall g, c ensures group(g, c) <= used'(c) {
      assert group(g, c) <= used(c);
      if c == h.cacheID { assert group(g, c) !! Bits(h.cbm); }
    }
    forall b | hold'(b).Some? ensures Bits(hold'(b).value.cbm) <= used'(hold'(b).value.cacheID) {
      assert Bits(hold(b).value.cbm) <= used(hold(b).value.cacheID);
    }
  }

  /** Nothing changes but the program counter. */
  lemma {:induction false} Stutter(used: int -> set<nat>, group: Claims,
        group': Claims, hold: Holder -> Option<Hold>, hold': Holder -> Option<Hold>)
    requires SafeView(used, group, hold)
    requires forall b :: hold'(b) == hold(b)
    requires forall g, c :: group'(g, c) == group(g, c)
    ensures SafeView(used, group', hold')
  {
    forall g, c ensures group'(g, c) <= used(c) { assert group(g, c) <= used(c); }
    forall g, k, c | g != k ensures group'(g, c) !! group'(k, c) { assert group(g, c) !! group(k, c); }
    forall b, g | hold'(b).Some? && !(hold'(b).value.live && g == hold'(b).value.group)
      ensures group'(g, hold'(b).value.cacheID) !! Bits(hold'(b).value.cbm)
    {
      assert group(g, hold(b).value.cacheID) !! Bits(hold(b).value.cbm);
    }
  }

  // ---- The invariant of the machine ----------------------------------------------------------

  ghost function UsedView(s: Shared): int -> set<nat> {
    c => UsedBits(s.inUse, c)
  }

  ghost function GroupView(s: Shared): Claims {
    (g, c) => GroupBits(s.groups, g, c)
  }

  ghost function HoldView(st: State): Holder -> Option<Hold> {
    h => HoldOf(st, h)
  }

  ghost predicate Safe(st: State) {
    SafeView(UsedView(st.shared), GroupView(st.shared), HoldView(st))
  }

  /** Jobs come from parsed device names, so their cache ids are 64-bit integers. */
  predicate ThreadInRange(t: Thread) {
    (t.Reserved? || t.DirMade?) ==> IsInt64(t.job.cacheID)
  }

  ghost predicate InRange(st: State) {
    forall id | id in st.threads :: ThreadInRange(st.threads[id])
  }

  lemma {:induction false} JobTextBits(job: Job, cacheID: int)
    requires IsInt64(job.cacheID)
    ensures TextBits(JobText(job), cacheID) == if cacheID == job.cacheID then Bits(job.cbm) else {}
  {
    StructuredRoundTrip(job.cacheID, job.cbm, 0);
    WrittenBits(JobText(job), job.cacheID, job.cbm, cacheID);
  }

  // ---- Each step keeps the invariant ---------------------------------------------------------

  lemma {:induction false} OtherHolds(st: State, id: nat, s: Shared, t: Thread)
    requires id in st.threads && s.records == st.shared.records
    ensures var st' := State(s, st.threads[id := t]);
            && HoldOf(st', ByThread(id)) == ThreadHold(t)
            && forall h | h != ByThread(id) :: HoldOf(st', h) == HoldOf(st, h)
  {
  }

  lemma {:induction false} ScanSafe(cfg: Config, st: State, id: nat)
    requires ValidTotals(cfg.totals) && Safe(st) && id in st.threads && st.threads[id].Scanning?
    ensures Safe(Next(cfg, st, Advance(id, true))) && Next(cfg, st, Advance(id, false)) == Next(cfg, st, Advance(id, true))
  {
    var t := st.threads[id];
    var (s, t') := Scan(cfg, st.shared, t);
    var st' := State(s, st.threads[id := t']);
    OtherHolds(st, id, s, t');
    if t'.Reserved? {
      var job := t'.job;
      ReserveGrants(cfg.totals, st.shared.inUse, job.cacheID, job.ways);
      Acquire(UsedView(st.shared), UsedView(s), GroupView(s), HoldView(st), HoldView(st'), ByThread(id));
      assert GroupView(s) == GroupView(st.shared);
    } else {
      ReserveRefusesHere(cfg, st.shared, t);
      assert s == st.shared;
      Stutter(UsedView(s), GroupView(s), GroupView(s), HoldView(st), HoldView(st'));
    }
  }

  lemma {:induction false} ReserveRefusesHere(cfg: Config, s: Shared, t: Thread)
    requires ValidTotals(cfg.totals) && t.Scanning?
    ensures !Scan(cfg, s, t).1.Reserved? ==> Scan(cfg, s, t).0 == s
  {
  }

  lemma {:induction false} MakeDirSafe(cfg: Config, st: State, id: nat, ok: bool)
    requires ValidTotals(cfg.totals) && Safe(st) && id in st.threads && st.threads[id].Reserved?
    ensures Safe(Next(cfg, st, Advance(id, ok)))
  {
    var (s, t') := Step(cfg, st.shared, st.threads[id], ok);
    var st' := State(s, st.threads[id := t']);
    OtherHolds(st, id, s, t');
    forall g, c ensures GroupView(s)(g, c) == GroupView(st.shared)(g, c) { }
    Stutter(UsedView(s), GroupView(st.shared), GroupView(s), HoldView(st), HoldView(st'));
  }

  lemma {:induction false} WriteSafe(cfg: Config, st: State, id: nat, ok: bool)
    requires ValidTotals(cfg.totals) && Safe(st) && id in st.threads && st.threads[id].DirMade?
    requires ThreadInRange(st.threads[id])
    ensures Safe(Next(cfg, st, Advance(id, ok)))
  {
    var (s, t') := Step(cfg, st.shared, st.threads[id], ok);
    var st' := State(s, st.threads[id := t']);
    var job := st.threads[id].job;
    OtherHolds(st, id, s, t');
    if ok {
      forall c ensures GroupView(s)(job.Group(), c) == if c == job.cacheID then Bits(job.cbm) else {} {
        JobTextBits(job, c);
      }
      Publish(UsedView(s), GroupView(st.shared), GroupView(s), HoldView(st), HoldView(st'), ByThread(id));
    } else {
      Stutter(UsedView(s), GroupView(s), GroupView(s), HoldView(st), HoldView(st'));
    }
  }

  /** The clean-up after a failed write may fail: the claim never relied on that group. */
  lemma {:induction false} CleanUpSafe(cfg: Config, st: State, id: nat, ok: bool)
    requires ValidTotals(cfg.totals) && Safe(st) && id in st.threads && st.threads[id].WriteFailed?
    ensures Safe(Next(cfg, st, Advance(id, ok)))
  {
    var job := st.threads[id].job;
    var s, t' := RemoveGroup(st.shared, job.Group(), ok), Undoing(job, GroupNotCreated(job.Group()));
    var st' := State(s, st.threads[id := t']);
    OtherHolds(st, id, s, t');
    assert GroupView(st.shared)(job.Group(), job.cacheID) !! Bits(HoldView(st)(ByThread(id)).value.cbm);
    Withdraw(UsedView(s), GroupView(st.shared), GroupView(s), HoldView(st), HoldView(st'), ByThread(id));
  }

  lemma {:induction false} RemoveSafe(cfg: Config, st: State, id: nat, ok: bool)
    requires ValidTotals(cfg.totals) && Safe(st) && id in st.threads && MustRemove(st.threads[id]).Some?
    requires Reliable(st, Advance(id, ok))
    ensures Safe(Next(cfg, st, Advance(id, ok)))
  {
    var m := MustRemove(st.threads[id]).value;
    var s, t' := RemoveGroup(st.shared, m.group, ok), Step(cfg, st.shared, st.threads[id], ok).1;
    var st' := State(s, st.threads[id := t']);
    OtherHolds(st, id, s, t');
    Withdraw(UsedView(s), GroupView(st.shared), GroupView(s), HoldView(st), HoldView(st'), ByThread(id));
  }

  lemma {:induction false} DescribeSafe(cfg: Config, st: State, id: nat, ok: bool)
    requires ValidTotals(cfg.totals) && Safe(st) && id in st.threads && st.threads[id].Written?
    ensures Safe(Next(cfg, st, Advance(id, ok)))
  {
    var (s, t') := Step(cfg, st.shared, st.threads[id], ok);
    var st' := State(s, st.threads[id := t']);
    OtherHolds(st, id, s, t');
    Stutter(UsedView(s), GroupView(st.shared), GroupView(s), HoldView(st), HoldView(st'));
  }

  lemma {:induction false} ReleaseSafe(cfg: Config, st: State, id: nat, ok: bool)
    requires ValidTotals(cfg.totals) && Safe(st) && id in st.threads
    requires st.threads[id].Undoing? || st.threads[id].Releasing?
    ensures Safe(Next(cfg, st, Advance(id, ok)))
  {
    var (s, t') := Step(cfg, st.shared, st.threads[id], ok);
    var st' := State(s, st.threads[id := t']);
    OtherHolds(st, id, s, t');
    var h := ThreadHold(st.threads[id]).value;
    FreeMeaning(st.shared.inUse, h.cacheID, h.cbm);
    Relinquish(UsedView(st.shared), UsedView(s), GroupView(s), HoldView(st), HoldView(st'), ByThread(id));
    assert GroupView(s) == GroupView(st.shared);
  }

  lemma {:induction false} RecordSafe(cfg: Config, st: State, id: nat, ok: bool)
    requires ValidTotals(cfg.totals) && Safe(st) && id in st.threads && st.threads[id].Described?
    ensures Safe(Next(cfg, st, Advance(id, ok)))
  {
    var (s, t') := Step(cfg, st.shared, st.threads[id], ok);
    var st' := State(s, st.threads[id := t']);
    var job := st.threads[id].job;
    if |job.uid| < 8 {
      OtherHolds(st, id, s, t');
      Stutter(UsedView(s), GroupView(s), GroupView(s), HoldView(st), HoldView(st'));
    } else {
      HandOver(UsedView(s), GroupView(s), HoldView(st), HoldView(st'), ByThread(id), ByRecord(job.uid));
      assert GroupView(s) == GroupView(st.shared);
    }
  }

  lemma {:induction false} ForgetSafe(cfg: Config, st: State, id: nat, ok: bool)
    requires ValidTotals(cfg.totals) && Safe(st) && id in st.threads && st.threads[id].Forgetting?
    ensures Safe(Next(cfg, st, Advance(id, ok)))
  {
    var (s, t') := Step(cfg, st.shared, st.threads[id], ok);
    var st' := State(s, st.threads[id := t']);
    var uid := st.threads[id].uid;
    if uid in st.shared.records {
      HandOver(UsedView(s), GroupView(s), HoldView(st), HoldView(st'), ByRecord(uid), ByThread(id));
    } else {
      OtherHolds(st, id, s, t');
      Stutter(UsedView(s), GroupView(s), GroupView(s), HoldView(st), HoldView(st'));
    }
  }

  lemma {:induction false} QuietSafe(cfg: Config, st: State, id: nat, ok: bool)
    requires ValidTotals(cfg.totals) && Safe(st) && id in st.threads
    requires st.threads[id].Panicked? || st.threads[id].Unlinking? || st.threads[id].Finished?
    ensures Safe(Next(cfg, st, Advance(id, ok)))
  {
    var (s, t') := Step(cfg, st.shared, st.threads[id], ok);
    var st' := State(s, st.threads[id := t']);
    OtherHolds(st, id, s, t');
    Stutter(UsedView(s), GroupView(st.shared), GroupView(s), HoldView(st), HoldView(st'));
  }

  lemma {:induction false} AdvanceSafe(cfg: Config, st: State, id: nat, ok: bool)
    requires ValidTotals(cfg.totals) && Safe(st) && InRange(st) && id in st.threads
    requires Reliable(st, Advance(id, ok))
    ensures Safe(Next(cfg, st, Advance(id, ok)))
  {
    match st.threads[id]
    case Scanning(_, _, _) => ScanSafe(cfg, st, id);
    case Reserved(_) => MakeDirSafe(cfg, st, id, ok);
    case DirMade(_) => WriteSafe(cfg, st, id, ok);
    case WriteFailed(_) => CleanUpSafe(cfg, st, id, ok);
    case SpecFailed(_) => RemoveSafe(cfg, st, id, ok);
    case Deleting(_, _) => RemoveSafe(cfg, st, id, ok);
    case Written(_) => DescribeSafe(cfg, st, id, ok);
    case Undoing(_, _) => ReleaseSafe(cfg, st, id, ok);
    case Releasing(_, _) => ReleaseSafe(cfg, st, id, ok);
    case Described(_) => RecordSafe(cfg, st, id, ok);
    case Forgetting(_) => ForgetSafe(cfg, st, id, ok);
    case _ => QuietSafe(cfg, st, id, ok);
  }

  lemma {:induction false} AdvanceInRange(cfg: Config, st: State, id: nat, ok: bool)
    requires ValidTotals(cfg.totals) && InRange(st) && id in st.threads
    ensures InRange(Next(cfg, st, Advance(id, ok)))
  {
    assert ThreadInRange(st.threads[id]);
    assert ThreadInRange(Step(cfg, st.shared, st.threads[id], ok).1);
  }

  lemma {:induction false} ArriveSafe(cfg: Config, st: State, a: Action)
    requires ValidTotals(cfg.totals) && Safe(st) && InRange(st) && (a.Prepare? || a.Unprepare?)
    ensures Safe(Next(cfg, st, a)) && InRange(Next(cfg, st, a))
  {
    var st' := Next(cfg, st, a);
    forall h ensures HoldOf(st', h) == HoldOf(st, h) { }
    Stutter(UsedView(st.shared), GroupView(st.shared), GroupView(st.shared), HoldView(st), HoldView(st'));
  }

  // ---- Crash and recovery --------------------------------------------------------------------

  /** What a restart finds in use: the ways of the driver groups whose text it could read. */
  lemma {:induction false} RestartBits(cfg: Config, s: Shared, listing: Option<seq<DirEntry>>, c: int, i: nat)
    requires TruthfulListing(s.groups, Seen(listing))
    ensures i in UsedBits(Restart(cfg, s, listing).shared.inUse, c)
            <==> exists e | e in Seen(listing) :: Scanned(e, GROUP_PREFIX) && i in GroupBits(s.groups, e.name, c)
  {
    RebuildMeaning(Empty(cfg.totals), Seen(listing), GROUP_PREFIX, c, i);
    BitsZero();
    forall e | e in Seen(listing)
      ensures EntryBits(e, GROUP_PREFIX, c) == if Scanned(e, GROUP_PREFIX) then GroupBits(s.groups, e.name, c) else {}
    {
    }
  }

  /** After a restart every group is covered exactly when every driver group that claims a way was
      listed and could be read. */
  lemma {:induction false} UnreadableGroupExactly(cfg: Config, s: Shared, listing: Option<seq<DirEntry>>)
    requires GroupsApart(s.groups) && TruthfulListing(s.groups, Seen(listing))
    ensures GroupsCovered(Restart(cfg, s, listing).shared) <==> ReadableListing(s.groups, Seen(listing))
  {
    var s' := Restart(cfg, s, listing).shared;
    if GroupsCovered(s') {
      forall g, c | GroupBits(s.groups, g, c) != {}
        ensures exists e | e in Seen(listing) :: Scanned(e, GROUP_PREFIX) && e.name == g
      {
        CoveredMeansRead(cfg, s, listing, g, c);
      }
    }
    if ReadableListing(s.groups, Seen(listing)) {
      forall g, c ensures GroupBits(s'.groups, g, c) <= UsedBits(s'.inUse, c) {
        forall i | i in GroupBits(s'.groups, g, c) ensures i in UsedBits(s'.inUse, c) {
          assert GroupBits(s.groups, g, c) != {};
          RestartBits(cfg, s, listing, c, i);
        }
      }
    }
  }

  lemma {:induction false} CoveredMeansRead(cfg: Config, s: Shared, listing: Option<seq<DirEntry>>, g: string, c: int)
    requires GroupsApart(s.groups) && TruthfulListing(s.groups, Seen(listing))
    requires GroupsCovered(Restart(cfg, s, listing).shared) && GroupBits(s.groups, g, c) != {}
    ensures exists e | e in Seen(listing) :: Scanned(e, GROUP_PREFIX) && e.name == g
  {
    var s' := Restart(cfg, s, listing).shared;
    var i :| i in GroupBits(s.groups, g, c);
    assert GroupBits(s'.groups, g, c) <= UsedBits(s'.inUse, c);
    RestartBits(cfg, s, listing, c, i);
    var e :| e in Seen(listing) && Scanned(e, GROUP_PREFIX) && i in GroupBits(s.groups, e.name, c);
    assert e.name != g ==> GroupBits(s.groups, e.name, c) !! GroupBits(s.groups, g, c);
  }

  lemma {:induction false} RestartSafe(cfg: Config, s: Shared, listing: Option<seq<DirEntry>>)
    requires GroupsApart(s.groups) && FaithfulListing(s.groups, Seen(listing))
    ensures Safe(Restart(cfg, s, listing)) && InRange(Restart(cfg, s, listing))
  {
    var st := Restart(cfg, s, listing);
    UnreadableGroupExactly(cfg, s, listing);
    forall h ensures HoldView(st)(h).None? { }
    forall g, c ensures GroupView(st.shared)(g, c) <= UsedView(st.shared)(c) {
      assert GroupBits(st.shared.groups, g, c) <= UsedBits(st.shared.inUse, c);
    }
    forall g, k, c | g != k ensures GroupView(st.shared)(g, c) !! GroupView(st.shared)(k, c) {
      assert GroupBits(s.groups, g, c) !! GroupBits(s.groups, k, c);
    }
  }

  lemma {:induction false} SafeMeansIsolated(st: State)
    requires Safe(st)
    ensures GroupsApart(st.shared.groups) && GroupsCovered(st.shared)
  {
    var group, used := GroupView(st.shared), UsedView(st.shared);
    forall g, k, c | g != k ensures GroupBits(st.shared.groups, g, c) !! GroupBits(st.shared.groups, k, c) {
      assert group(g, c) !! group(k, c);
    }
    forall g, c ensures GroupBits(st.shared.groups, g, c) <= UsedBits(st.shared.inUse, c) {
      assert group(g, c) <= used(c);
    }
  }

  lemma {:induction false} NextSafe(cfg: Config, st: State, a: Action)
    requires ValidTotals(cfg.totals) && Safe(st) && InRange(st) && Reliable(st, a)
    ensures Safe(Next(cfg, st, a)) && InRange(Next(cfg, st, a))
  {
    match a
    case Prepare(_, _, _) => ArriveSafe(cfg, st, a);
    case Unprepare(_, _) => ArriveSafe(cfg, st, a);
    case Advance(id, ok) => if id in st.threads { AdvanceSafe(cfg, st, id, ok); AdvanceInRange(cfg, st, id, ok); }
    case Crash(listing) =>
      SafeMeansIsolated(st);
      RestartSafe(cfg, st.shared, listing);
  }

  lemma {:induction false} RunSafe(cfg: Config, st: State, actions: seq<Action>)
    requires ValidTotals(cfg.totals) && Safe(st) && InRange(st) && ReliableRun(cfg, st, actions)
    ensures Safe(Run(cfg, st, actions)) && InRange(Run(cfg, st, actions))
    decreases |actions|
  {
    if actions != [] {
      NextSafe(cfg, st, actions[0]);
      RunSafe(cfg, Next(cfg, st, actions[0]), actions[1..]);
    }
  }

  /** Isolation. Start the driver over any directory whose groups share no way; then over every
      interleaving of prepares, unprepares and crashes, with repeated and multi-device claims, no
      two groups ever share a way of a cache domain and every way of every group is in use --
      provided a group is removed before its ways are released and recovery can read every group. */
  lemma {:induction false} IsolationOverAllRuns(cfg: Config, boot: Shared, listing: Option<seq<DirEntry>>,
        actions: seq<Action>)
    requires ValidTotals(cfg.totals)
    requires GroupsApart(boot.groups) && FaithfulListing(boot.groups, Seen(listing))
    requires ReliableRun(cfg, Restart(cfg, boot, listing), actions)
    ensures var st := Run(cfg, Restart(cfg, boot, listing), actions);
            GroupsApart(st.shared.groups) && GroupsCovered(st.shared)
  {
    RestartSafe(cfg, boot, listing);
    RunSafe(cfg, Restart(cfg, boot, listing), actions);
    SafeMeansIsolated(Run(cfg, Restart(cfg, boot, listing), actions));
  }

  // ---- The provisos are exact ----------------------------------------------------------------

  /** A removal that precedes a release: in an unprepare, or in the roll-back of a prepare whose CDI
      file could not be written. In a safe state the pair of steps keeps every group covered exactly
      when the step is reliable: the removal succeeds, or the group claims none of the ways. */
  lemma {:induction false} FailedRemovalExactly(cfg: Config, st: State, id: nat, ok: bool)
    requires ValidTotals(cfg.totals) && Safe(st) && id in st.threads && MustRemove(st.threads[id]).Some?
    ensures GroupsCovered(Next(cfg, Next(cfg, st, Advance(id, ok)), Advance(id, true)).shared)
            <==> Reliable(st, Advance(id, ok))
  {
    var m := MustRemove(st.threads[id]).value;
    RemoveThenRelease(cfg, st, id, ok);
    SafeMeansIsolated(st);
    assert HoldView(st)(ByThread(id)) == Some(Hold(m.cacheID, m.cbm, m.group, true));
    forall g | g != m.group ensures GroupBits(st.shared.groups, g, m.cacheID) !! Bits(m.cbm) {
      assert GroupView(st.shared)(g, m.cacheID) !! Bits(HoldView(st)(ByThread(id)).value.cbm);
    }
    ReleaseExactly(st.shared, m, ok);
  }

  lemma {:induction false} RemoveThenRelease(cfg: Config, st: State, id: nat, ok: bool)
    requires ValidTotals(cfg.totals) && id in st.threads && MustRemove(st.threads[id]).Some?
    ensures var m := MustRemove(st.threads[id]).value;
            Next(cfg, Next(cfg, st, Advance(id, ok)), Advance(id, true)).shared
            == RemoveGroup(st.shared, m.group, ok).(inUse := Free(st.shared.inUse, m.cacheID, m.cbm))
  {
  }

  lemma {:induction false} ReleaseExactly(s: Shared, m: Mask, ok: bool)
    requires GroupsCovered(s)
    requires forall g | g != m.group :: GroupBits(s.groups, g, m.cacheID) !! Bits(m.cbm)
    ensures GroupsCovered(RemoveGroup(s, m.group, ok).(inUse := Free(s.inUse, m.cacheID, m.cbm)))
            <==> ok || GroupBits(s.groups, m.group, m.cacheID) !! Bits(m.cbm)
  {
    var s' := RemoveGroup(s, m.group, ok).(inUse := Free(s.inUse, m.cacheID, m.cbm));
    FreeMeaning(s.inUse, m.cacheID, m.cbm);
    if ok || GroupBits(s.groups, m.group, m.cacheID) !! Bits(m.cbm) {
      forall g, c ensures GroupBits(s'.groups, g, c) <= UsedBits(s'.inUse, c) {
        assert GroupBits(s.groups, g, c) <= UsedBits(s.inUse, c);
      }
    } else {
      var i :| i in GroupBits(s.groups, m.group, m.cacheID) && i in Bits(m.cbm);
      assert i in GroupBits(s'.groups, m.group, m.cacheID) && i !in UsedBits(s'.inUse, m.cacheID);
    }
  }
}
