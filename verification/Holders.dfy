/** Who holds which ways, and which ways nobody can give back.

  Nothing here needs a proviso: file operations may fail at will, claims may be prepared again and
  may name any number of devices. Every step either reserves free ways, releases the ways of one
  holder, moves a hold, or leaves all holds alone; both invariants below follow from that.
*/
module Holders {
  import opened Options
  import opened Masks
  import opened WayAllocation
  import opened Protocol
  import opened ProtocolSafety

  ghost predicate HoldsWay(hold: Holder -> Option<Hold>, a: Holder, c: int, i: nat) {
    hold(a).Some? && hold(a).value.cacheID == c && i in Bits(hold(a).value.cbm)
  }

  // ---- The four effects of a step ------------------------------------------------------------

  datatype Effect = Acquires(a: Holder) | Releases(a: Holder) | Moves(from: Holder, to: Holder) | Keeps

  ghost predicate Follows(e: Effect, used: int -> set<nat>, used': int -> set<nat>,
                          hold: Holder -> Option<Hold>, hold': Holder -> Option<Hold>)
  {
    match e
    case Acquires(a) =>
      && hold(a).None? && hold'(a).Some? && (forall b | b != a :: hold'(b) == hold(b))
      && Bits(hold'(a).value.cbm) !! used(hold'(a).value.cacheID)
      && used'(hold'(a).value.cacheID) == used(hold'(a).value.cacheID) + Bits(hold'(a).value.cbm)
      && forall c | c != hold'(a).value.cacheID :: used'(c) == used(c)
    case Releases(a) =>
      && hold(a).Some? && hold'(a).None? && (forall b | b != a :: hold'(b) == hold(b))
      && used'(hold(a).value.cacheID) == used(hold(a).value.cacheID) - Bits(hold(a).value.cbm)
      && forall c | c != hold(a).value.cacheID :: used'(c) == used(c)
    case Moves(from, to) =>
      && from != to && hold'(to) == hold(from) && hold'(from).None?
      && (forall b | b != from && b != to :: hold'(b) == hold(b)) && forall c :: used'(c) == used(c)
    case Keeps =>
      (forall b :: SameMask(hold'(b), hold(b))) && forall c :: used'(c) == used(c)
  }

  predicate SameMask(x: Option<Hold>, y: Option<Hold>) {
    if x.Some? then y.Some? && x.value.cacheID == y.value.cacheID && x.value.cbm == y.value.cbm else y.None?
  }

  /** The invariant: holders in one domain share no way, and all their ways are in use. */
  ghost predicate Sound(used: int -> set<nat>, hold: Holder -> Option<Hold>) {
    HoldersApart(hold) && HoldersCovered(used, hold)
  }

  /** The ways are in use, and nobody holds any of them. */
  ghost predicate Unheld(used: int -> set<nat>, hold: Holder -> Option<Hold>, c: int, ways: set<nat>) {
    ways <= used(c) && forall a, i | i in ways :: !HoldsWay(hold, a, c, i)
  }

  lemma {:induction false} EffectSound(e: Effect, used: int -> set<nat>, used': int -> set<nat>,
        hold: Holder -> Option<Hold>, hold': Holder -> Option<Hold>)
    requires Sound(used, hold) && Follows(e, used, used', hold, hold')
    ensures Sound(used', hold')
  {
    forall a | hold'(a).Some? ensures Bits(hold'(a).value.cbm) <= used'(hold'(a).value.cacheID) {
      var b := if e.Moves? && a == e.to then e.from else a;
      if hold(b).Some? { assert Bits(hold(b).value.cbm) <= used(hold(b).value.cacheID); }
    }
    forall a, b | a != b && hold'(a).Some? && hold'(b).Some? && hold'(a).value.cacheID == hold'(b).value.cacheID
      ensures Bits(hold'(a).value.cbm) !! Bits(hold'(b).value.cbm)
    {
      var x, y := if e.Moves? && a == e.to then e.from else a, if e.Moves? && b == e.to then e.from else b;
      assert x != y;
      if hold(x).Some? { assert Bits(hold(x).value.cbm) <= used(hold(x).value.cacheID); }
      if hold(y).Some? { assert Bits(hold(y).value.cbm) <= used(hold(y).value.cacheID); }
    }
  }

  lemma {:induction false} EffectUnheld(e: Effect, used: int -> set<nat>, used': int -> set<nat>,
        hold: Holder -> Option<Hold>, hold': Holder -> Option<Hold>, c: int, ways: set<nat>)
    requires Unheld(used, hold, c, ways) && Follows(e, used, used', hold, hold')
    ensures Unheld(used', hold', c, ways)
  {
    forall a, i | i in ways ensures !HoldsWay(hold', a, c, i) {
      assert !HoldsWay(hold, if e.Moves? && a == e.to then e.from else a, c, i);
    }
    forall i | i in ways ensures i in used'(c) {
      if e.Releases? { assert !HoldsWay(hold, e.a, c, i); }
    }
  }

  // ---- Every step has one of the effects -----------------------------------------------------

  lemma {:induction false} ScanEffect(cfg: Config, st: State, id: nat) returns (e: Effect)
    requires ValidTotals(cfg.totals) && id in st.threads && st.threads[id].Scanning?
    ensures var (s, t) := Scan(cfg, st.shared, st.threads[id]);
            Follows(e, UsedView(st.shared), UsedView(s), HoldView(st), HoldView(State(s, st.threads[id := t])))
  {
    var (s, t) := Scan(cfg, st.shared, st.threads[id]);
    OtherHolds(st, id, s, t);
    if t.Reserved? {
      assert Reserve(cfg.totals, st.shared.inUse, t.job.cacheID, t.job.ways) == (Ok(t.job.cbm), s.inUse);
      ReserveGrants(cfg.totals, st.shared.inUse, t.job.cacheID, t.job.ways);
      e := Acquires(ByThread(id));
    } else {
      ReserveRefusesHere(cfg, st.shared, st.threads[id]);
      e := Keeps;
    }
  }

  lemma {:induction false} ReleaseEffect(cfg: Config, st: State, id: nat, ok: bool)
    requires ValidTotals(cfg.totals) && id in st.threads && (st.threads[id].Undoing? || st.threads[id].Releasing?)
    ensures var (s, t) := Step(cfg, st.shared, st.threads[id], ok);
            Follows(Releases(ByThread(id)), UsedView(st.shared), UsedView(s),
                    HoldView(st), HoldView(State(s, st.threads[id := t])))
  {
    var (s, t) := Step(cfg, st.shared, st.threads[id], ok);
    OtherHolds(st, id, s, t);
    var h := ThreadHold(st.threads[id]).value;
    FreeMeaning(st.shared.inUse, h.cacheID, h.cbm);
  }

  lemma {:induction false} RecordEffect(cfg: Config, st: State, id: nat, ok: bool) returns (e: Effect)
    requires ValidTotals(cfg.totals) && id in st.threads && st.threads[id].Described?
    ensures var (s, t) := Step(cfg, st.shared, st.threads[id], ok);
            Follows(e, UsedView(st.shared), UsedView(s), HoldView(st), HoldView(State(s, st.threads[id := t])))
  {
    var job := st.threads[id].job;
    if |job.uid| >= 8 {
      e := Moves(ByThread(id), ByRecord(job.uid));
    } else {
      OtherHolds(st, id, st.shared, Panicked(job));
      e := Keeps;
    }
  }

  lemma {:induction false} ForgetEffect(cfg: Config, st: State, id: nat, ok: bool) returns (e: Effect)
    requires ValidTotals(cfg.totals) && id in st.threads && st.threads[id].Forgetting?
    ensures var (s, t) := Step(cfg, st.shared, st.threads[id], ok);
            Follows(e, UsedView(st.shared), UsedView(s), HoldView(st), HoldView(State(s, st.threads[id := t])))
  {
    var uid := st.threads[id].uid;
    if uid in st.shared.records {
      e := Moves(ByRecord(uid), ByThread(id));
    } else {
      OtherHolds(st, id, st.shared, Finished(Unprepared));
      e := Keeps;
    }
  }

  /** Threads whose step leaves masks and holds alone. */
  predicate Idles(t: Thread) {
    t.Reserved? || t.DirMade? || t.WriteFailed? || t.Written? || t.SpecFailed? || t.Deleting?
    || t.Panicked? || t.Unlinking? || t.Finished?
  }

  lemma {:induction false} IdleEffect(cfg: Config, st: State, id: nat, ok: bool)
    requires ValidTotals(cfg.totals) && id in st.threads && Idles(st.threads[id])
    ensures var (s, t) := Step(cfg, st.shared, st.threads[id], ok);
            Follows(Keeps, UsedView(st.shared), UsedView(s), HoldView(st), HoldView(State(s, st.threads[id := t])))
  {
    var (s, t) := Step(cfg, st.shared, st.threads[id], ok);
    OtherHolds(st, id, s, t);
    assert SameMask(ThreadHold(t), ThreadHold(st.threads[id]));
  }

  /** Every action but a crash has one of the four effects. */
  lemma {:induction false} ActionEffect(cfg: Config, st: State, a: Action) returns (e: Effect)
    requires ValidTotals(cfg.totals) && !a.Crash?
    ensures var st' := Next(cfg, st, a);
            Follows(e, UsedView(st.shared), UsedView(st'.shared), HoldView(st), HoldView(st'))
  {
    e := Keeps;
    if a.Advance? && a.id in st.threads {
      var t := st.threads[a.id];
      if t.Scanning? {
        e := ScanEffect(cfg, st, a.id);
      } else if t.Undoing? || t.Releasing? {
        ReleaseEffect(cfg, st, a.id, a.ok);
        e := Releases(ByThread(a.id));
      } else if t.Described? {
        e := RecordEffect(cfg, st, a.id, a.ok);
      } else if t.Forgetting? {
        e := ForgetEffect(cfg, st, a.id, a.ok);
      } else {
        IdleEffect(cfg, st, a.id, a.ok);
      }
    } else {
      forall h ensures HoldOf(Next(cfg, st, a), h) == HoldOf(st, h) { }
    }
  }

  // ---- Holders never share a way -------------------------------------------------------------

  ghost predicate HoldersSound(st: State) {
    Sound(UsedView(st.shared), HoldView(st))
  }

  lemma {:induction false} NextSound(cfg: Config, st: State, a: Action)
    requires ValidTotals(cfg.totals) && HoldersSound(st)
    ensures HoldersSound(Next(cfg, st, a))
  {
    if !a.Crash? {
      var e := ActionEffect(cfg, st, a);
      var st' := Next(cfg, st, a);
      EffectSound(e, UsedView(st.shared), UsedView(st'.shared), HoldView(st), HoldView(st'));
    }
  }

  /** Over every run whatsoever, from a restart over any directory, no two requests or records hold
      the same way, and what they hold is in use. */
  lemma {:induction false} HoldersNeverShare(cfg: Config, st: State, actions: seq<Action>)
    requires ValidTotals(cfg.totals) && HoldersSound(st)
    ensures HoldersSound(Run(cfg, st, actions))
    decreases |actions|
  {
    if actions != [] {
      NextSound(cfg, st, actions[0]);
      HoldersNeverShare(cfg, Next(cfg, st, actions[0]), actions[1..]);
    }
  }

  // ---- Ways that nobody can give back --------------------------------------------------------

  /** Stranded ways of a domain: in use, but held by no request and no record. */
  ghost predicate Stranded(st: State, c: int, ways: set<nat>) {
    Unheld(UsedView(st.shared), HoldView(st), c, ways)
  }

  predicate CrashFree(actions: seq<Action>) {
    forall k | 0 <= k < |actions| :: !actions[k].Crash?
  }

  lemma {:induction false} NextStranded(cfg: Config, st: State, a: Action, c: int, ways: set<nat>)
    requires ValidTotals(cfg.totals) && Stranded(st, c, ways) && !a.Crash?
    ensures Stranded(Next(cfg, st, a), c, ways)
  {
    var e := ActionEffect(cfg, st, a);
    var st' := Next(cfg, st, a);
    EffectUnheld(e, UsedView(st.shared), UsedView(st'.shared), HoldView(st), HoldView(st'), c, ways);
  }

  /** Stranded ways stay stranded: over every run without a crash, reliable or not, with any prepares
      and unprepares, also of the claim they once belonged to. */
  lemma {:induction false} StrandedForGood(cfg: Config, st: State, actions: seq<Action>, c: int, ways: set<nat>)
    requires ValidTotals(cfg.totals) && Stranded(st, c, ways) && CrashFree(actions)
    ensures Stranded(Run(cfg, st, actions), c, ways) && ways <= UsedBits(Run(cfg, st, actions).shared.inUse, c)
    decreases |actions|
  {
    if actions == [] {
      assert ways <= UsedView(st.shared)(c);
    } else {
      NextStranded(cfg, st, actions[0], c, ways);
      assert forall k | 0 <= k < |actions[1..]| :: actions[1..][k] == actions[k + 1];
      StrandedForGood(cfg, Next(cfg, st, actions[0]), actions[1..], c, ways);
    }
  }

  /** Everything a restart finds in use is stranded, and so stays in use until the next restart. */
  lemma {:induction false} RecoveredWaysStayInUse(cfg: Config, boot: Shared, listing: Option<seq<DirEntry>>,
        actions: seq<Action>, c: int)
    requires ValidTotals(cfg.totals) && CrashFree(actions)
    ensures var start := Restart(cfg, boot, listing);
            && Stranded(Run(cfg, start, actions), c, UsedBits(start.shared.inUse, c))
            && UsedBits(start.shared.inUse, c) <= UsedBits(Run(cfg, start, actions).shared.inUse, c)
  {
    var start := Restart(cfg, boot, listing);
    forall h ensures HoldView(start)(h).None? { }
    StrandedForGood(cfg, start, actions, c, UsedBits(start.shared.inUse, c));
  }

  // ---- Which ways stay in use ------------------------------------------------------------------

  /** A request that keeps its ways for good: it panicked, or is about to, as its UID is too short. */
  predicate Stuck(t: Thread) {
    t.Panicked? || (t.Described? && |t.job.uid| < 8)
  }

  /** The ways of a panicked request stay in use over every run without a crash. */
  lemma {:induction false} StuckWaysStayInUse(cfg: Config, st: State, actions: seq<Action>, id: nat)
    requires ValidTotals(cfg.totals) && HoldersSound(st) && CrashFree(actions)
    requires id in st.threads && Stuck(st.threads[id])
    ensures var job := st.threads[id].job;
            Bits(job.cbm) <= UsedBits(Run(cfg, st, actions).shared.inUse, job.cacheID)
    decreases |actions|
  {
    if actions == [] {
      var job := st.threads[id].job;
      assert HoldView(st)(ByThread(id)) == JobHold(job, true);
      assert Bits(job.cbm) <= UsedView(st.shared)(job.cacheID);
    } else {
      NextSound(cfg, st, actions[0]);
      assert forall k | 0 <= k < |actions[1..]| :: actions[1..][k] == actions[k + 1];
      StuckWaysStayInUse(cfg, Next(cfg, st, actions[0]), actions[1..], id);
    }
  }

  /** Steps to the release of a hold: file operations fail where that leads to the roll-back. */
  function StepsToRelease(t: Thread): nat {
    match t
    case Undoing(_, _) => 1
    case Releasing(_, _) => 1
    case WriteFailed(_) => 2
    case SpecFailed(_) => 2
    case Deleting(_, _) => 2
    case Reserved(_) => 2
    case DirMade(_) => 3
    case Written(_) => 3
    case _ => 0
  }

  lemma {:induction false} ThreadCanRelease(cfg: Config, st: State, id: nat) returns (actions: seq<Action>)
    requires ValidTotals(cfg.totals) && id in st.threads && StepsToRelease(st.threads[id]) > 0
    ensures CrashFree(actions)
    ensures var h := ThreadHold(st.threads[id]).value;
            Bits(h.cbm) !! UsedBits(Run(cfg, st, actions).shared.inUse, h.cacheID)
    decreases StepsToRelease(st.threads[id])
  {
    var t, a := st.threads[id], Advance(id, false);
    if StepsToRelease(t) == 1 {
      actions := [a];
      assert [a] + [] == [a];
      var h := ThreadHold(t).value;
      FreeMeaning(st.shared.inUse, h.cacheID, h.cbm);
    } else {
      var rest := ThreadCanRelease(cfg, Next(cfg, st, a), id);
      actions := [a] + rest;
    }
  }

  lemma {:induction false} FreshId(threads: map<nat, Thread>) returns (id: nat)
    ensures id !in threads
  {
    id := AboveAll(threads.Keys);
  }

  lemma {:induction false} AboveAll(ids: set<nat>) returns (bound: nat)
    ensures forall id | id in ids :: id < bound
  {
    if ids == {} {
      bound := 0;
    } else {
      var some :| some in ids;
      var rest := AboveAll(ids - {some});
      bound := if some < rest then rest else some + 1;
      forall id | id in ids ensures id < bound { assert id == some || id in ids - {some}; }
    }
  }

  lemma {:induction false} RecordCanRelease(cfg: Config, st: State, uid: string) returns (actions: seq<Action>)
    requires ValidTotals(cfg.totals) && uid in st.shared.records
    ensures CrashFree(actions)
    ensures var r := st.shared.records[uid]; Bits(r.cbm) !! UsedBits(Run(cfg, st, actions).shared.inUse, r.cacheID)
  {
    var id := FreshId(st.threads);
    var arrive, forget := Unprepare(id, uid), Advance(id, true);
    var st1 := Next(cfg, st, arrive);
    var st2 := Next(cfg, st1, forget);
    assert st1.threads[id] == Forgetting(uid) && st2.threads[id] == Deleting(uid, st.shared.records[uid]);
    var rest := ThreadCanRelease(cfg, st2, id);
    actions := [arrive] + ([forget] + rest);
  }

  /** Every holder but a stuck one can give its ways back. */
  lemma {:induction false} HolderCanRelease(cfg: Config, st: State, a: Holder) returns (actions: seq<Action>)
    requires ValidTotals(cfg.totals) && HoldOf(st, a).Some?
    requires a.ByThread? ==> !Stuck(st.threads[a.id])
    ensures CrashFree(actions)
    ensures var h := HoldOf(st, a).value; Bits(h.cbm) !! UsedBits(Run(cfg, st, actions).shared.inUse, h.cacheID)
  {
    if a.ByRecord? {
      actions := RecordCanRelease(cfg, st, a.uid);
    } else if st.threads[a.id].Described? {
      var job, record := st.threads[a.id].job, Advance(a.id, true);
      assert job.uid in Next(cfg, st, record).shared.records;
      var rest := RecordCanRelease(cfg, Next(cfg, st, record), job.uid);
      actions := [record] + rest;
    } else {
      actions := ThreadCanRelease(cfg, st, a.id);
    }
  }

  /** A way that is in use stays in use, whatever happens up to the next crash, if and only if nobody
      holds it but perhaps a stuck request. */
  lemma {:induction false} StaysInUseExactly(cfg: Config, st: State, c: int, i: nat)
    requires ValidTotals(cfg.totals) && HoldersSound(st) && i in UsedBits(st.shared.inUse, c)
    ensures (forall actions | CrashFree(actions) :: i in UsedBits(Run(cfg, st, actions).shared.inUse, c))
            <==> forall a | HoldsWay(HoldView(st), a, c, i) :: a.ByThread? && Stuck(st.threads[a.id])
  {
    var hold := HoldView(st);
    if a :| HoldsWay(hold, a, c, i) {
      assert hold(a) == HoldOf(st, a);
      if a.ByThread? && Stuck(st.threads[a.id]) {
        forall actions | CrashFree(actions) ensures i in UsedBits(Run(cfg, st, actions).shared.inUse, c) {
          StuckWaysStayInUse(cfg, st, actions, a.id);
        }
        forall b | HoldsWay(hold, b, c, i) ensures b == a { }
      } else {
        var actions := HolderCanRelease(cfg, st, a);
        assert i !in UsedBits(Run(cfg, st, actions).shared.inUse, c);
      }
    } else {
      assert i in UsedView(st.shared)(c) && Stranded(st, c, {i});
      forall actions | CrashFree(actions) ensures i in UsedBits(Run(cfg, st, actions).shared.inUse, c) {
        StrandedForGood(cfg, st, actions, c, {i});
      }
    }
  }
}
