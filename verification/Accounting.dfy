/** Exact accounting in structured mode.

  From any restart up to the next crash, in runs in which no claim is prepared again while it is in
  flight or recorded and each claim names at most one cache-way device, the allocator's map is
  exactly the disjoint union of the masks held by requests and records and of what the restart
  found, whatever file operations fail.
*/
module Accounting {
  import opened Options
  import opened Masks
  import opened Text
  import opened Names
  import opened Schemata
  import opened WayAllocation
  import opened Protocol
  import opened ProtocolSafety
  import opened Holders

  // ---- Discipline ----------------------------------------------------------------------------

  function Count<T>(p: T -> bool, xs: seq<T>): nat {
    if xs == [] then 0 else (if p(xs[0]) then 1 else 0) + Count(p, xs[1..])
  }

  function Matcher(cfg: Config): DeviceResult -> bool {
    r => Matches(cfg, r)
  }

  function CountMatches(cfg: Config, results: seq<DeviceResult>): nat {
    Count(Matcher(cfg), results)
  }

  function JobOf(t: Thread): Option<Job> {
    match t
    case Reserved(job) => Some(job)
    case DirMade(job) => Some(job)
    case WriteFailed(job) => Some(job)
    case Written(job) => Some(job)
    case SpecFailed(job) => Some(job)
    case Undoing(job, _) => Some(job)
    case Described(job) => Some(job)
    case Panicked(job) => Some(job)
    case _ => None
  }

  /** The claim a thread holds ways for, or may still reserve ways for. */
  function ThreadClaim(cfg: Config, t: Thread): Option<string> {
    if JobOf(t).Some? then Some(JobOf(t).value.uid)
    else match t
      case Scanning(uid, todo, _) => if CountMatches(cfg, todo) > 0 then Some(uid) else None
      case Deleting(uid, _) => Some(uid)
      case Releasing(uid, _) => Some(uid)
      case _ => None
  }

  function ClaimOf(cfg: Config, st: State, h: Holder): Option<string> {
    match h
    case ByThread(id) => if id in st.threads then ThreadClaim(cfg, st.threads[id]) else None
    case ByRecord(uid) => if uid in st.shared.records then Some(uid) else None
  }

  /** The claim is neither in flight nor recorded. */
  ghost predicate Idle(cfg: Config, st: State, uid: string) {
    forall h :: ClaimOf(cfg, st, h) != Some(uid)
  }

  ghost predicate Disciplined(cfg: Config, st: State, a: Action) {
    && !a.Crash?
    && (a.Prepare? && a.fetched.Allocation? ==>
          IsUUID(a.uid) && CountMatches(cfg, a.fetched.results) <= 1 && Idle(cfg, st, a.uid))
  }

  ghost predicate DisciplinedRun(cfg: Config, st: State, actions: seq<Action>)
    requires ValidTotals(cfg.totals)
    decreases |actions|
  {
    actions == [] || (Disciplined(cfg, st, actions[0]) && DisciplinedRun(cfg, Next(cfg, st, actions[0]), actions[1..]))
  }

  // ---- The invariant, over uninterpreted views -----------------------------------------------

  function HoldText(h: Hold): string {
    FileText(StructuredSchemata(h.cacheID, MaskHex(h.cbm), 0))
  }

  ghost predicate Accounted(used: int -> set<nat>, hold: Holder -> Option<Hold>) {
    forall c, i | i in used(c) :: exists a :: HoldsWay(hold, a, c, i)
  }

  ghost predicate OneHolderPerClaim(claim: Holder -> Option<string>) {
    forall a, b | a != b && claim(a).Some? :: claim(a) != claim(b)
  }

  ghost predicate NamedByClaim(hold: Holder -> Option<Hold>, claim: Holder -> Option<string>) {
    forall a | hold(a).Some? ::
      claim(a).Some? && IsUUID(claim(a).value) && hold(a).value.group == GroupName(hold(a).value.cacheID, claim(a).value)
  }

  ghost predicate LiveTexts(text: string -> Option<string>, hold: Holder -> Option<Hold>) {
    forall a | hold(a).Some? && hold(a).value.live :: text(hold(a).value.group) == Some(HoldText(hold(a).value))
  }

  ghost predicate WithinTotals(totals: map<int, nat>, hold: Holder -> Option<Hold>) {
    forall a | hold(a).Some? ::
      hold(a).value.cacheID in totals && Bits(hold(a).value.cbm) <= Interval(0, totals[hold(a).value.cacheID])
  }

  ghost predicate ExactView(totals: map<int, nat>, used: int -> set<nat>, text: string -> Option<string>,
                            hold: Holder -> Option<Hold>, claim: Holder -> Option<string>) {
    && Accounted(used, hold) && OneHolderPerClaim(claim) && NamedByClaim(hold, claim)
    && LiveTexts(text, hold) && WithinTotals(totals, hold)
  }

  lemma {:induction false} OtherGroup(hold: Holder -> Option<Hold>, claim: Holder -> Option<string>, a: Holder,
        b: Holder)
    requires OneHolderPerClaim(claim) && NamedByClaim(hold, claim)
    requires a != b && hold(a).Some? && hold(b).Some?
    ensures hold(a).value.group != hold(b).value.group
  {
    if hold(a).value.group == hold(b).value.group {
      GroupNameInjective(hold(a).value.cacheID, claim(a).value, hold(b).value.cacheID, claim(b).value);
    }
  }

  /** A step of holder `a` that leaves the allocator's map alone: it may change the text of its own
      group, provided that text is right whenever the hold is live. */
  lemma {:induction false} OwnStep(totals: map<int, nat>, used: int -> set<nat>,
                text: string -> Option<string>, text': string -> Option<string>,
                hold: Holder -> Option<Hold>, hold': Holder -> Option<Hold>,
                claim: Holder -> Option<string>, claim': Holder -> Option<string>, a: Holder)
    requires ExactView(totals, used, text, hold, claim) && hold(a).Some?
    requires forall b | b != a :: hold'(b) == hold(b)
    requires forall b :: claim'(b) == claim(b)
    requires hold'(a).Some? && hold'(a).value == hold(a).value.(live := hold'(a).value.live)
    requires forall g | g != hold(a).value.group :: text'(g) == text(g)
    requires hold'(a).value.live ==> text'(hold(a).value.group) == Some(HoldText(hold(a).value))
    ensures ExactView(totals, used, text', hold', claim')
  {
    forall c, i | i in used(c) ensures exists b :: HoldsWay(hold', b, c, i) {
      var b :| HoldsWay(hold, b, c, i);
      assert HoldsWay(hold', b, c, i);
    }
    forall b | hold'(b).Some? && hold'(b).value.live ensures text'(hold'(b).value.group) == Some(HoldText(hold'(b).value)) {
      if b != a { OtherGroup(hold, claim, a, b); }
    }
  }

  /** Reserving ways for a claim that is already in flight. */
  lemma {:induction false} ExactAcquire(totals: map<int, nat>, used: int -> set<nat>, used': int -> set<nat>,
        text: string -> Option<string>, hold: Holder -> Option<Hold>, hold': Holder -> Option<Hold>,
        claim: Holder -> Option<string>, claim': Holder -> Option<string>, a: Holder)
    requires ExactView(totals, used, text, hold, claim)
    requires hold(a).None? && hold'(a).Some? && !hold'(a).value.live
    requires forall b | b != a :: hold'(b) == hold(b)
    requires forall b :: claim'(b) == claim(b)
    requires claim(a).Some? && IsUUID(claim(a).value)
    requires hold'(a).value.group == GroupName(hold'(a).value.cacheID, claim(a).value)
    requires hold'(a).value.cacheID in totals && Bits(hold'(a).value.cbm) <= Interval(0, totals[hold'(a).value.cacheID])
    requires used'(hold'(a).value.cacheID) == used(hold'(a).value.cacheID) + Bits(hold'(a).value.cbm)
    requires forall c | c != hold'(a).value.cacheID :: used'(c) == used(c)
    ensures ExactView(totals, used', text, hold', claim')
  {
    forall c, i | i in used'(c) ensures exists b :: HoldsWay(hold', b, c, i) {
      if i in used(c) {
        var b :| HoldsWay(hold, b, c, i);
        assert HoldsWay(hold', b, c, i);
      } else {
        assert HoldsWay(hold', a, c, i);
      }
    }
  }

  lemma {:induction false} ExactRelinquish(totals: map<int, nat>, used: int -> set<nat>, used': int -> set<nat>,
        text: string -> Option<string>, hold: Holder -> Option<Hold>, hold': Holder -> Option<Hold>,
        claim: Holder -> Option<string>, claim': Holder -> Option<string>, a: Holder)
    requires ExactView(totals, used, text, hold, claim) && hold(a).Some? && hold'(a).None? && claim'(a).None?
    requires forall b | b != a :: hold'(b) == hold(b) && claim'(b) == claim(b)
    requires used'(hold(a).value.cacheID) == used(hold(a).value.cacheID) - Bits(hold(a).value.cbm)
    requires forall c | c != hold(a).value.cacheID :: used'(c) == used(c)
    ensures ExactView(totals, used', text, hold', claim')
  {
    forall c, i | i in used'(c) ensures exists b :: HoldsWay(hold', b, c, i) {
      assert i in used(c);
      var b :| HoldsWay(hold, b, c, i);
      assert HoldsWay(hold', b, c, i);
    }
  }

  /** The hold and the claim move to a holder that had neither. */
  lemma {:induction false} ExactHandOver(totals: map<int, nat>, used: int -> set<nat>, text: string -> Option<string>,
                      hold: Holder -> Option<Hold>, hold': Holder -> Option<Hold>,
                      claim: Holder -> Option<string>, claim': Holder -> Option<string>, from: Holder, to: Holder)
    requires ExactView(totals, used, text, hold, claim) && from != to
    requires hold(to).None? && claim(to).None?
    requires hold'(to) == hold(from) && claim'(to) == claim(from) && hold'(from).None? && claim'(from).None?
    requires forall b | b != from && b != to :: hold'(b) == hold(b) && claim'(b) == claim(b)
    ensures ExactView(totals, used, text, hold', claim')
  {
    forall c, i | i in used(c) ensures exists b :: HoldsWay(hold', b, c, i) {
      var b :| HoldsWay(hold, b, c, i);
      assert HoldsWay(hold', if b == from then to else b, c, i);
    }
    forall a, b | a != b && claim'(a).Some? ensures claim'(a) != claim'(b) {
      var x, y := if a == to then from else a, if b == to then from else b;
      assert claim(x) != claim(y) || claim'(b).None?;
    }
  }

  /** Holds stay; a holder without a hold may give up its claim, or take one that nobody has. */
  lemma {:induction false} ExactClaimChange(totals: map<int, nat>, used: int -> set<nat>,
        text: string -> Option<string>, hold: Holder -> Option<Hold>, hold': Holder -> Option<Hold>,
        claim: Holder -> Option<string>, claim': Holder -> Option<string>, a: Holder)
    requires ExactView(totals, used, text, hold, claim)
    requires forall b :: hold'(b) == hold(b)
    requires forall b | b != a :: claim'(b) == claim(b)
    requires claim'(a) == claim(a) || (hold(a).None? && (claim'(a).None? || forall b :: claim(b) != claim'(a)))
    ensures ExactView(totals, used, text, hold', claim')
  {
    forall c, i | i in used(c) ensures exists b :: HoldsWay(hold', b, c, i) {
      var b :| HoldsWay(hold, b, c, i);
      assert HoldsWay(hold', b, c, i);
    }
  }

  // ---- The invariant of the machine ----------------------------------------------------------

  ghost function TextView(s: Shared): string -> Option<string> {
    g => if g in s.groups then s.groups[g] else None
  }

  /** The ways in use that are not orphans: a fixed set of ways in each domain that nobody holds. */
  ghost function OwnedView(s: Shared, orphan: int -> set<nat>): int -> set<nat> {
    c => UsedBits(s.inUse, c) - orphan(c)
  }

  ghost predicate OrphansStand(st: State, orphan: int -> set<nat>) {
    forall c :: Stranded(st, c, orphan(c))
  }

  ghost function ClaimView(cfg: Config, st: State): Holder -> Option<string> {
    h => ClaimOf(cfg, st, h)
  }

  /** A prepare has at most one cache-way device to come, none once it works on one, and its claim
      has UUID text while it may still reserve. */
  predicate ThreadTidy(cfg: Config, t: Thread) {
    && (t.Scanning? ==> CountMatches(cfg, t.todo) <= 1 && (CountMatches(cfg, t.todo) > 0 ==> IsUUID(t.uid)))
    && (JobOf(t).Some? ==> CountMatches(cfg, JobOf(t).value.rest) == 0)
  }

  ghost predicate Tidy(cfg: Config, st: State) {
    forall id | id in st.threads :: ThreadTidy(cfg, st.threads[id])
  }

  ghost predicate Exact(cfg: Config, st: State, orphan: int -> set<nat>) {
    && Tidy(cfg, st)
    && ExactView(cfg.totals, OwnedView(st.shared, orphan), TextView(st.shared), HoldView(st), ClaimView(cfg, st))
  }

  lemma {:induction false} StepTidy(cfg: Config, st: State, id: nat, ok: bool)
    requires ValidTotals(cfg.totals) && Tidy(cfg, st) && id in st.threads
    ensures Tidy(cfg, Next(cfg, st, Advance(id, ok)))
  {
    assert ThreadTidy(cfg, st.threads[id]);
    assert ThreadTidy(cfg, Step(cfg, st.shared, st.threads[id], ok).1);
  }

  lemma {:induction false} ScanExact(cfg: Config, st: State, id: nat, ok: bool, orphan: int -> set<nat>)
    requires ValidTotals(cfg.totals) && Exact(cfg, st, orphan) && OrphansStand(st, orphan)
    requires id in st.threads && st.threads[id].Scanning?
    ensures Exact(cfg, Next(cfg, st, Advance(id, ok)), orphan)
  {
    StepTidy(cfg, st, id, ok);
    if Step(cfg, st.shared, st.threads[id], ok).1.Reserved? {
      ReservingExact(cfg, st, id, orphan);
    } else {
      PassingExact(cfg, st, id, orphan);
    }
  }

  lemma {:induction false} ReservingExact(cfg: Config, st: State, id: nat, orphan: int -> set<nat>)
    requires ValidTotals(cfg.totals) && Exact(cfg, st, orphan) && OrphansStand(st, orphan)
    requires id in st.threads && st.threads[id].Scanning? && Scan(cfg, st.shared, st.threads[id]).1.Reserved?
    ensures var (s, t) := Scan(cfg, st.shared, st.threads[id]);
            var st' := State(s, st.threads[id := t]);
            ExactView(cfg.totals, OwnedView(s, orphan), TextView(s), HoldView(st'), ClaimView(cfg, st'))
  {
    var (s, t) := Scan(cfg, st.shared, st.threads[id]);
    var st' := State(s, st.threads[id := t]);
    OtherHolds(st, id, s, t);
    assert ThreadTidy(cfg, st.threads[id]);
    ReserveWithin(cfg, st.shared.inUse, t.job.cacheID, t.job.ways);
    FreshWaysAreOwned(cfg, st, t.job, s, orphan);
    assert TextView(s) == TextView(st.shared);
    ExactAcquire(cfg.totals, OwnedView(st.shared, orphan), OwnedView(s, orphan), TextView(s), HoldView(st),
                 HoldView(st'), ClaimView(cfg, st), ClaimView(cfg, st'), ByThread(id));
  }

  lemma {:induction false} PassingExact(cfg: Config, st: State, id: nat, orphan: int -> set<nat>)
    requires ValidTotals(cfg.totals) && Exact(cfg, st, orphan)
    requires id in st.threads && st.threads[id].Scanning? && !Scan(cfg, st.shared, st.threads[id]).1.Reserved?
    ensures var (s, t) := Scan(cfg, st.shared, st.threads[id]);
            var st' := State(s, st.threads[id := t]);
            ExactView(cfg.totals, OwnedView(s, orphan), TextView(s), HoldView(st'), ClaimView(cfg, st'))
  {
    var (s, t) := Scan(cfg, st.shared, st.threads[id]);
    var st' := State(s, st.threads[id := t]);
    OtherHolds(st, id, s, t);
    assert ThreadTidy(cfg, st.threads[id]);
    ReserveRefusesHere(cfg, st.shared, st.threads[id]);
    ExactClaimChange(cfg.totals, OwnedView(s, orphan), TextView(s), HoldView(st), HoldView(st'),
                     ClaimView(cfg, st), ClaimView(cfg, st'), ByThread(id));
  }

  lemma {:induction false} FreshWaysAreOwned(cfg: Config, st: State, job: Job, s: Shared, orphan: int -> set<nat>)
    requires ValidTotals(cfg.totals) && OrphansStand(st, orphan)
    requires Reserve(cfg.totals, st.shared.inUse, job.cacheID, job.ways) == (Ok(job.cbm), s.inUse)
    ensures OwnedView(s, orphan)(job.cacheID) == OwnedView(st.shared, orphan)(job.cacheID) + Bits(job.cbm)
    ensures forall c | c != job.cacheID :: OwnedView(s, orphan)(c) == OwnedView(st.shared, orphan)(c)
  {
    ReserveGrants(cfg.totals, st.shared.inUse, job.cacheID, job.ways);
    assert Stranded(st, job.cacheID, orphan(job.cacheID));
    assert UsedView(st.shared)(job.cacheID) == UsedBits(st.shared.inUse, job.cacheID);
  }

  lemma {:induction false} ReserveWithin(cfg: Config, inUse: Occupancy, cacheID: int, ways: int)
    requires ValidTotals(cfg.totals) && Reserve(cfg.totals, inUse, cacheID, ways).0.Ok?
    ensures var (r, after) := Reserve(cfg.totals, inUse, cacheID, ways);
            && cacheID in cfg.totals && Bits(r.value) <= Interval(0, cfg.totals[cacheID])
            && UsedBits(after, cacheID) == UsedBits(inUse, cacheID) + Bits(r.value)
            && forall c | c != cacheID :: Used(after, c) == Used(inUse, c)
  {
    ReserveGrants(cfg.totals, inUse, cacheID, ways);
  }

  /** Threads with a hold whose next step works on their own group only. */
  predicate WorksOnGroup(t: Thread) {
    t.Reserved? || t.DirMade? || t.Written? || t.Panicked? || Removes(t).Some?
  }

  lemma {:induction false} OwnGroupEffect(cfg: Config, s: Shared, t: Thread, ok: bool)
    requires ValidTotals(cfg.totals) && WorksOnGroup(t)
    ensures var (s', t') := Step(cfg, s, t, ok);
            && ThreadHold(t).Some? && ThreadHold(t').Some?
            && var h, h' := ThreadHold(t).value, ThreadHold(t').value;
               && s'.records == s.records && s'.inUse == s.inUse
               && h' == h.(live := h'.live)
               && ThreadClaim(cfg, t') == ThreadClaim(cfg, t)
               && (forall g | g != h.group :: TextView(s')(g) == TextView(s)(g))
               && (h'.live && !h.live ==> TextView(s')(h.group) == Some(HoldText(h)))
               && (h'.live && h.live ==> TextView(s')(h.group) == TextView(s)(h.group))
  {
  }

  lemma {:induction false} OwnGroupExact(cfg: Config, st: State, id: nat, ok: bool, orphan: int -> set<nat>)
    requires ValidTotals(cfg.totals) && Exact(cfg, st, orphan) && id in st.threads
    requires WorksOnGroup(st.threads[id])
    ensures Exact(cfg, Next(cfg, st, Advance(id, ok)), orphan)
  {
    var t := st.threads[id];
    var (s, t') := Step(cfg, st.shared, t, ok);
    var st' := State(s, st.threads[id := t']);
    OwnGroupEffect(cfg, st.shared, t, ok);
    OtherHolds(st, id, s, t');
    OwnStepOfThread(cfg, st, st', id, ThreadHold(t).value, ThreadHold(t').value, orphan);
  }

  lemma {:induction false} OwnStepOfThread(cfg: Config, st: State, st': State, id: nat, h: Hold, h': Hold,
        orphan: int -> set<nat>)
    requires Exact(cfg, st, orphan) && Tidy(cfg, st') && OwnedView(st'.shared, orphan) == OwnedView(st.shared, orphan)
    requires HoldOf(st, ByThread(id)) == Some(h) && HoldOf(st', ByThread(id)) == Some(h') && h' == h.(live := h'.live)
    requires forall b | b != ByThread(id) :: HoldOf(st', b) == HoldOf(st, b)
    requires forall b :: ClaimOf(cfg, st', b) == ClaimOf(cfg, st, b)
    requires forall g | g != h.group :: TextView(st'.shared)(g) == TextView(st.shared)(g)
    requires h'.live && !h.live ==> TextView(st'.shared)(h.group) == Some(HoldText(h))
    requires h'.live && h.live ==> TextView(st'.shared)(h.group) == TextView(st.shared)(h.group)
    ensures Exact(cfg, st', orphan)
  {
    assert HoldView(st)(ByThread(id)) == Some(h);
    OwnStep(cfg.totals, OwnedView(st'.shared, orphan), TextView(st.shared), TextView(st'.shared), HoldView(st), HoldView(st'),
            ClaimView(cfg, st), ClaimView(cfg, st'), ByThread(id));
  }

  lemma {:induction false} ReleasedWaysAreOwned(s: Shared, s': Shared, cacheID: int, cbm: Word, orphan: int -> set<nat>)
    requires s'.inUse == Free(s.inUse, cacheID, cbm)
    ensures OwnedView(s', orphan)(cacheID) == OwnedView(s, orphan)(cacheID) - Bits(cbm)
    ensures forall c | c != cacheID :: OwnedView(s', orphan)(c) == OwnedView(s, orphan)(c)
  {
    FreeMeaning(s.inUse, cacheID, cbm);
    forall c | c != cacheID ensures OwnedView(s', orphan)(c) == OwnedView(s, orphan)(c) {
      assert Used(s'.inUse, c) == Used(s.inUse, c);
    }
  }

  lemma {:induction false} ReleaseExact(cfg: Config, st: State, id: nat, ok: bool, orphan: int -> set<nat>)
    requires ValidTotals(cfg.totals) && Exact(cfg, st, orphan) && id in st.threads
    requires st.threads[id].Undoing? || st.threads[id].Releasing?
    ensures Exact(cfg, Next(cfg, st, Advance(id, ok)), orphan)
  {
    var (s, t') := Step(cfg, st.shared, st.threads[id], ok);
    var st' := State(s, st.threads[id := t']);
    OtherHolds(st, id, s, t');
    var h := ThreadHold(st.threads[id]).value;
    assert TextView(s) == TextView(st.shared);
    ReleasedWaysAreOwned(st.shared, s, h.cacheID, h.cbm, orphan);
    ExactRelinquish(cfg.totals, OwnedView(st.shared, orphan), OwnedView(s, orphan), TextView(s), HoldView(st),
                    HoldView(st'), ClaimView(cfg, st), ClaimView(cfg, st'), ByThread(id));
  }

  lemma {:induction false} RecordExact(cfg: Config, st: State, id: nat, ok: bool, orphan: int -> set<nat>)
    requires ValidTotals(cfg.totals) && Exact(cfg, st, orphan) && id in st.threads && st.threads[id].Described?
    ensures Exact(cfg, Next(cfg, st, Advance(id, ok)), orphan)
  {
    var job := st.threads[id].job;
    var (s, t') := Step(cfg, st.shared, st.threads[id], ok);
    var st' := State(s, st.threads[id := t']);
    var claim := ClaimView(cfg, st);
    assert claim(ByThread(id)) == Some(job.uid);
    assert HoldView(st)(ByThread(id)).Some?;
    assert claim(ByRecord(job.uid)) != Some(job.uid);
    assert job.uid !in st.shared.records;
    assert ThreadTidy(cfg, st.threads[id]);
    assert ThreadClaim(cfg, t').None?;
    assert TextView(s) == TextView(st.shared) && OwnedView(s, orphan) == OwnedView(st.shared, orphan);
    ExactHandOver(cfg.totals, OwnedView(s, orphan), TextView(s), HoldView(st), HoldView(st'),
                  ClaimView(cfg, st), ClaimView(cfg, st'), ByThread(id), ByRecord(job.uid));
  }

  lemma {:induction false} ForgetExact(cfg: Config, st: State, id: nat, ok: bool, orphan: int -> set<nat>)
    requires ValidTotals(cfg.totals) && Exact(cfg, st, orphan) && id in st.threads && st.threads[id].Forgetting?
    ensures Exact(cfg, Next(cfg, st, Advance(id, ok)), orphan)
  {
    var uid := st.threads[id].uid;
    var (s, t') := Step(cfg, st.shared, st.threads[id], ok);
    var st' := State(s, st.threads[id := t']);
    assert TextView(s) == TextView(st.shared) && OwnedView(s, orphan) == OwnedView(st.shared, orphan);
    if uid in st.shared.records {
      ExactHandOver(cfg.totals, OwnedView(s, orphan), TextView(s), HoldView(st), HoldView(st'),
                    ClaimView(cfg, st), ClaimView(cfg, st'), ByRecord(uid), ByThread(id));
    } else {
      OtherHolds(st, id, s, t');
      ExactClaimChange(cfg.totals, OwnedView(s, orphan), TextView(s), HoldView(st), HoldView(st'),
                       ClaimView(cfg, st), ClaimView(cfg, st'), ByThread(id));
    }
  }

  lemma {:induction false} QuietExact(cfg: Config, st: State, id: nat, ok: bool, orphan: int -> set<nat>)
    requires ValidTotals(cfg.totals) && Exact(cfg, st, orphan) && id in st.threads
    requires st.threads[id].Unlinking? || st.threads[id].Finished?
    ensures Exact(cfg, Next(cfg, st, Advance(id, ok)), orphan)
  {
    var (s, t') := Step(cfg, st.shared, st.threads[id], ok);
    var st' := State(s, st.threads[id := t']);
    OtherHolds(st, id, s, t');
    assert TextView(s) == TextView(st.shared) && OwnedView(s, orphan) == OwnedView(st.shared, orphan);
    ExactClaimChange(cfg.totals, OwnedView(s, orphan), TextView(s), HoldView(st), HoldView(st'),
                     ClaimView(cfg, st), ClaimView(cfg, st'), ByThread(id));
  }

  lemma {:induction false} AdvanceExact(cfg: Config, st: State, id: nat, ok: bool, orphan: int -> set<nat>)
    requires ValidTotals(cfg.totals) && Exact(cfg, st, orphan) && OrphansStand(st, orphan) && id in st.threads
    ensures Exact(cfg, Next(cfg, st, Advance(id, ok)), orphan)
  {
    match st.threads[id]
    case Scanning(_, _, _) => ScanExact(cfg, st, id, ok, orphan);
    case Undoing(_, _) => ReleaseExact(cfg, st, id, ok, orphan);
    case Releasing(_, _) => ReleaseExact(cfg, st, id, ok, orphan);
    case Described(_) => RecordExact(cfg, st, id, ok, orphan);
    case Forgetting(_) => ForgetExact(cfg, st, id, ok, orphan);
    case Unlinking(_, _) => QuietExact(cfg, st, id, ok, orphan);
    case Finished(_) => QuietExact(cfg, st, id, ok, orphan);
    case _ => OwnGroupExact(cfg, st, id, ok, orphan);
  }

  lemma {:induction false} ArriveExact(cfg: Config, st: State, a: Action, orphan: int -> set<nat>)
    requires ValidTotals(cfg.totals) && Exact(cfg, st, orphan) && Disciplined(cfg, st, a) && (a.Prepare? || a.Unprepare?)
    ensures Exact(cfg, Next(cfg, st, a), orphan)
  {
    if a.id !in st.threads {
      var st' := Next(cfg, st, a);
      assert ThreadTidy(cfg, st'.threads[a.id]);
      forall id | id in st'.threads ensures ThreadTidy(cfg, st'.threads[id]) {
        if id != a.id { assert ThreadTidy(cfg, st.threads[id]); }
      }
      forall h ensures HoldOf(st', h) == HoldOf(st, h) { }
      forall h | h != ByThread(a.id) ensures ClaimOf(cfg, st', h) == ClaimOf(cfg, st, h) { }
      ExactClaimChange(cfg.totals, OwnedView(st.shared, orphan), TextView(st.shared), HoldView(st), HoldView(st'),
                       ClaimView(cfg, st), ClaimView(cfg, st'), ByThread(a.id));
    }
  }

  lemma {:induction false} NextExact(cfg: Config, st: State, a: Action, orphan: int -> set<nat>)
    requires ValidTotals(cfg.totals) && Exact(cfg, st, orphan) && OrphansStand(st, orphan) && Disciplined(cfg, st, a)
    ensures Exact(cfg, Next(cfg, st, a), orphan) && OrphansStand(Next(cfg, st, a), orphan)
  {
    forall c ensures Stranded(Next(cfg, st, a), c, orphan(c)) { NextStranded(cfg, st, a, c, orphan(c)); }
    if a.Advance? {
      if a.id in st.threads { AdvanceExact(cfg, st, a.id, a.ok, orphan); }
    } else {
      ArriveExact(cfg, st, a, orphan);
    }
  }

  lemma {:induction false} RunExact(cfg: Config, st: State, actions: seq<Action>, orphan: int -> set<nat>)
    requires ValidTotals(cfg.totals) && Exact(cfg, st, orphan) && OrphansStand(st, orphan)
    requires DisciplinedRun(cfg, st, actions)
    ensures Exact(cfg, Run(cfg, st, actions), orphan) && OrphansStand(Run(cfg, st, actions), orphan)
    decreases |actions|
  {
    if actions != [] {
      NextExact(cfg, st, actions[0], orphan);
      RunExact(cfg, Next(cfg, st, actions[0]), actions[1..], orphan);
    }
  }

  // ---- Counting ------------------------------------------------------------------------------

  /** The holders of masks in a domain. */
  ghost function HoldersIn(st: State, c: int): set<Holder> {
    (set id | id in st.threads && ThreadHold(st.threads[id]).Some? && ThreadHold(st.threads[id]).value.cacheID == c
       :: ByThread(id))
    + (set uid | uid in st.shared.records && st.shared.records[uid].cacheID == c :: ByRecord(uid))
  }

  ghost function Pick(holders: set<Holder>): Holder
    requires holders != {}
  {
    var a :| a in holders; a
  }

  /** The number of ways held by a set of holders, added up holder by holder. */
  ghost function WaysHeld(st: State, holders: set<Holder>): nat
    requires forall a | a in holders :: HoldOf(st, a).Some?
  {
    if holders == {} then 0
    else var a := Pick(holders); |Bits(HoldOf(st, a).value.cbm)| + WaysHeld(st, holders - {a})
  }

  ghost function HeldBits(st: State, holders: set<Holder>): set<nat>
    requires forall a | a in holders :: HoldOf(st, a).Some?
  {
    set a, i | a in holders && i in Bits(HoldOf(st, a).value.cbm) :: i
  }

  ghost predicate MasksApartIn(st: State, holders: set<Holder>) {
    && (forall a | a in holders :: HoldOf(st, a).Some?)
    && forall a, b | a in holders && b in holders && a != b ::
         Bits(HoldOf(st, a).value.cbm) !! Bits(HoldOf(st, b).value.cbm)
  }

  lemma {:induction false} OneHolderLess(st: State, holders: set<Holder>, a: Holder)
    requires MasksApartIn(st, holders) && a in holders
    ensures MasksApartIn(st, holders - {a})
    ensures HeldBits(st, holders) == Bits(HoldOf(st, a).value.cbm) + HeldBits(st, holders - {a})
    ensures Bits(HoldOf(st, a).value.cbm) !! HeldBits(st, holders - {a})
  {
  }

  lemma {:induction false} HeldBitsSize(st: State, holders: set<Holder>)
    requires MasksApartIn(st, holders)
    ensures |HeldBits(st, holders)| == WaysHeld(st, holders)
  {
    if holders == {} {
      assert HeldBits(st, holders) == {};
    } else {
      var a := Pick(holders);
      OneHolderLess(st, holders, a);
      HeldBitsSize(st, holders - {a});
    }
  }

  /** Held ways and orphans together are the ways in use, and have nothing in common. */
  lemma {:induction false} HeldIsUsed(cfg: Config, st: State, c: int, orphan: int -> set<nat>)
    requires HoldersSound(st) && Exact(cfg, st, orphan) && OrphansStand(st, orphan)
    ensures HeldBits(st, HoldersIn(st, c)) + orphan(c) == UsedBits(st.shared.inUse, c)
    ensures HeldBits(st, HoldersIn(st, c)) !! orphan(c)
  {
    var hold, used, held := HoldView(st), UsedBits(st.shared.inUse, c), HeldBits(st, HoldersIn(st, c));
    assert Stranded(st, c, orphan(c)) && UsedView(st.shared)(c) == used;
    forall i | i in used && i !in orphan(c) ensures i in held {
      assert i in OwnedView(st.shared, orphan)(c);
      var a :| HoldsWay(hold, a, c, i);
      assert a in HoldersIn(st, c);
    }
    forall i | i in held ensures i in used && i !in orphan(c) {
      var a :| a in HoldersIn(st, c) && i in Bits(HoldOf(st, a).value.cbm);
      assert HoldsWay(hold, a, c, i);
      assert Bits(hold(a).value.cbm) <= UsedView(st.shared)(hold(a).value.cacheID);
    }
  }

  lemma {:induction false} HeldWithinTotal(cfg: Config, st: State, c: int, orphan: int -> set<nat>)
    requires Exact(cfg, st, orphan)
    ensures HeldBits(st, HoldersIn(st, c)) <= Interval(0, if c in cfg.totals then cfg.totals[c] else 0)
  {
    forall i | i in HeldBits(st, HoldersIn(st, c))
      ensures i in Interval(0, if c in cfg.totals then cfg.totals[c] else 0)
    {
      var a :| a in HoldersIn(st, c) && i in Bits(HoldOf(st, a).value.cbm);
      assert HoldView(st)(a).Some?;
    }
  }

  lemma {:induction false} ExactCounts(cfg: Config, st: State, c: int, orphan: int -> set<nat>)
    requires HoldersSound(st) && Exact(cfg, st, orphan) && OrphansStand(st, orphan)
    ensures HeldBits(st, HoldersIn(st, c)) + orphan(c) == UsedBits(st.shared.inUse, c)
    ensures HeldBits(st, HoldersIn(st, c)) !! orphan(c)
    ensures var total := if c in cfg.totals then cfg.totals[c] else 0;
            |FreeSet(total, UsedBits(st.shared.inUse, c))| + WaysHeld(st, HoldersIn(st, c))
            + |orphan(c) * Interval(0, total)| == total
  {
    HeldIsUsed(cfg, st, c, orphan);
    HeldWithinTotal(cfg, st, c, orphan);
    forall a, b | a in HoldersIn(st, c) && b in HoldersIn(st, c) && a != b
      ensures Bits(HoldOf(st, a).value.cbm) !! Bits(HoldOf(st, b).value.cbm)
    {
      assert HoldView(st)(a).Some? && HoldView(st)(b).Some?;
    }
    HeldBitsSize(st, HoldersIn(st, c));
    ThreeParts(if c in cfg.totals then cfg.totals[c] else 0, HeldBits(st, HoldersIn(st, c)), orphan(c));
  }

  lemma {:induction false} ThreeParts(total: nat, held: set<nat>, orphans: set<nat>)
    requires held <= Interval(0, total) && held !! orphans
    ensures |FreeSet(total, held + orphans)| + |held| + |orphans * Interval(0, total)| == total
  {
    var within := orphans * Interval(0, total);
    IntervalSize(0, total);
    assert Interval(0, total) == FreeSet(total, held + orphans) + held + within;
  }

  // ---- The theorem ---------------------------------------------------------------------------

  /** What a restart finds in use; nobody holds these ways. */
  ghost function Recovered(cfg: Config, boot: Shared, listing: Option<seq<DirEntry>>): int -> set<nat> {
    UsedView(Restart(cfg, boot, listing).shared)
  }

  lemma {:induction false} RestartExact(cfg: Config, boot: Shared, listing: Option<seq<DirEntry>>)
    ensures Exact(cfg, Restart(cfg, boot, listing), Recovered(cfg, boot, listing))
    ensures OrphansStand(Restart(cfg, boot, listing), Recovered(cfg, boot, listing))
  {
    var st := Restart(cfg, boot, listing);
    forall h ensures HoldView(st)(h).None? && ClaimView(cfg, st)(h).None? { }
  }

  /** Exact accounting. From a restart over any directory, over every disciplined run up to the next
      crash, whatever file operations fail: the ways in use are the disjoint union of the ways held by
      requests and records and of the ways the restart found; together with the free ways they add up
      to the total of the domain; and the group of every recorded claim holds exactly its mask. */
  lemma {:induction false} ExactAccounting(cfg: Config, boot: Shared, listing: Option<seq<DirEntry>>,
        actions: seq<Action>, c: int)
    requires ValidTotals(cfg.totals) && DisciplinedRun(cfg, Restart(cfg, boot, listing), actions)
    ensures var st := Run(cfg, Restart(cfg, boot, listing), actions);
            var total := if c in cfg.totals then cfg.totals[c] else 0;
            var found, held := Recovered(cfg, boot, listing)(c), HeldBits(st, HoldersIn(st, c));
            && HoldersApart(HoldView(st))
            && held + found == UsedBits(st.shared.inUse, c) && held !! found
            && |FreeSet(total, UsedBits(st.shared.inUse, c))| + WaysHeld(st, HoldersIn(st, c))
               + |found * Interval(0, total)| == total
            && (forall uid | uid in st.shared.records ::
                  var r := st.shared.records[uid];
                  && r.group == GroupName(r.cacheID, uid) && r.group in st.shared.groups
                  && st.shared.groups[r.group] == Some(FileText(StructuredSchemata(r.cacheID, MaskHex(r.cbm), 0))))
  {
    var start, orphan := Restart(cfg, boot, listing), Recovered(cfg, boot, listing);
    var st := Run(cfg, start, actions);
    RestartExact(cfg, boot, listing);
    RunExact(cfg, start, actions, orphan);
    HoldersNeverShare(cfg, start, actions);
    ExactCounts(cfg, st, c, orphan);
    RecordsHaveTheirText(cfg, st, orphan);
  }

  lemma {:induction false} RecordsHaveTheirText(cfg: Config, st: State, orphan: int -> set<nat>)
    requires Exact(cfg, st, orphan)
    ensures forall uid | uid in st.shared.records ::
              var r := st.shared.records[uid];
              && r.group == GroupName(r.cacheID, uid) && r.group in st.shared.groups
              && st.shared.groups[r.group] == Some(FileText(StructuredSchemata(r.cacheID, MaskHex(r.cbm), 0)))
  {
    forall uid | uid in st.shared.records
      ensures var r := st.shared.records[uid];
              && r.group == GroupName(r.cacheID, uid) && r.group in st.shared.groups
              && st.shared.groups[r.group] == Some(FileText(StructuredSchemata(r.cacheID, MaskHex(r.cbm), 0)))
    {
      var h := HoldView(st)(ByRecord(uid)).value;
      assert ClaimView(cfg, st)(ByRecord(uid)) == Some(uid);
      assert TextView(st.shared)(h.group) == Some(HoldText(h));
    }
  }

  /** Once every request has finished and every claim is unprepared, exactly the ways that the restart
      found are in use. */
  lemma {:induction false} AllUnpreparedMeansRecovered(cfg: Config, boot: Shared, listing: Option<seq<DirEntry>>,
        actions: seq<Action>, c: int)
    requires ValidTotals(cfg.totals) && DisciplinedRun(cfg, Restart(cfg, boot, listing), actions)
    requires var st := Run(cfg, Restart(cfg, boot, listing), actions);
             st.shared.records == map[] && forall id | id in st.threads :: st.threads[id].Finished?
    ensures Used(Run(cfg, Restart(cfg, boot, listing), actions).shared.inUse, c)
            == Used(Restart(cfg, boot, listing).shared.inUse, c)
  {
    var st := Run(cfg, Restart(cfg, boot, listing), actions);
    ExactAccounting(cfg, boot, listing, actions, c);
    NobodyHolds(st, c);
    SameBits(Used(st.shared.inUse, c), Used(Restart(cfg, boot, listing).shared.inUse, c));
  }

  lemma {:induction false} NobodyHolds(st: State, c: int)
    requires st.shared.records == map[] && forall id | id in st.threads :: st.threads[id].Finished?
    ensures HeldBits(st, HoldersIn(st, c)) == {}
  {
    assert HoldersIn(st, c) == {};
  }

  ghost predicate NoDriverGroups(groups: map<string, Option<string>>) {
    forall g | g in groups :: !IsDriverGroup(g)
  }

  /** Started on a node without driver groups, every mask is then zero again. */
  lemma {:induction false} AllUnpreparedMeansEmpty(cfg: Config, boot: Shared, listing: Option<seq<DirEntry>>,
        actions: seq<Action>, c: int)
    requires ValidTotals(cfg.totals) && NoDriverGroups(boot.groups) && TruthfulListing(boot.groups, Seen(listing))
    requires DisciplinedRun(cfg, Restart(cfg, boot, listing), actions)
    requires var st := Run(cfg, Restart(cfg, boot, listing), actions);
             st.shared.records == map[] && forall id | id in st.threads :: st.threads[id].Finished?
    ensures Used(Run(cfg, Restart(cfg, boot, listing), actions).shared.inUse, c) == 0
  {
    AllUnpreparedMeansRecovered(cfg, boot, listing, actions, c);
    var found := UsedBits(Restart(cfg, boot, listing).shared.inUse, c);
    forall i: nat | i in found ensures false {
      RestartBits(cfg, boot, listing, c, i);
    }
    assert found == {} by { if i :| i in found { } }
    ZeroIffNoBits(Used(Restart(cfg, boot, listing).shared.inUse, c));
  }

  // ---- Why the discipline is needed ----------------------------------------------------------

  /** A repeated prepare, or the second cache-way device of a claim, overwrites the claim's record.
      Recording a device strands the ways of another record, in every continuation up to the next
      crash, exactly when that record is the claim's own. */
  lemma {:induction false} OverwriteStrandsExactly(cfg: Config, st: State, id: nat, uid: string)
    requires ValidTotals(cfg.totals) && HoldersSound(st) && id in st.threads && st.threads[id].Described?
    requires |st.threads[id].job.uid| >= 8
    requires uid in st.shared.records && st.shared.records[uid].cbm != 0
    ensures var r := st.shared.records[uid];
            (forall actions | CrashFree(actions) ::
               Stranded(Run(cfg, Next(cfg, st, Advance(id, true)), actions), r.cacheID, Bits(r.cbm)))
            <==> uid == st.threads[id].job.uid
  {
    var st', r := Next(cfg, st, Advance(id, true)), st.shared.records[uid];
    OverwriteStrandsNow(cfg, st, id, uid);
    if uid == st.threads[id].job.uid {
      forall actions | CrashFree(actions) ensures Stranded(Run(cfg, st', actions), r.cacheID, Bits(r.cbm)) {
        StrandedForGood(cfg, st', actions, r.cacheID, Bits(r.cbm));
      }
    } else {
      assert CrashFree([]) && Run(cfg, st', []) == st';
    }
  }

  lemma {:induction false} OverwriteStrandsNow(cfg: Config, st: State, id: nat, uid: string)
    requires ValidTotals(cfg.totals) && HoldersSound(st) && id in st.threads && st.threads[id].Described?
    requires |st.threads[id].job.uid| >= 8
    requires uid in st.shared.records && st.shared.records[uid].cbm != 0
    ensures var r := st.shared.records[uid];
            Stranded(Next(cfg, st, Advance(id, true)), r.cacheID, Bits(r.cbm)) <==> uid == st.threads[id].job.uid
  {
    var st' := Next(cfg, st, Advance(id, true));
    var r, job := st.shared.records[uid], st.threads[id].job;
    var hold, hold' := HoldView(st), HoldView(st');
    assert hold(ByRecord(uid)) == RecordHold(r, true);
    assert Bits(r.cbm) <= UsedView(st.shared)(r.cacheID) && UsedView(st'.shared) == UsedView(st.shared);
    if uid == job.uid {
      forall a, i | i in Bits(r.cbm) ensures !HoldsWay(hold', a, r.cacheID, i) {
        var b := if a == ByRecord(uid) then ByThread(id) else a;
        assert hold'(a).Some? ==> hold'(a) == hold(b) && b != ByRecord(uid);
      }
      assert Unheld(UsedView(st'.shared), hold', r.cacheID, Bits(r.cbm));
    } else {
      ZeroIffNoBits(r.cbm);
      var i :| i in Bits(r.cbm);
      assert HoldsWay(hold', ByRecord(uid), r.cacheID, i);
      assert !Unheld(UsedView(st'.shared), hold', r.cacheID, Bits(r.cbm));
    }
  }
}
