/** What crash recovery does not bring back: the claim records. A group from before a crash stays,
    with its text, over any number of later crashes, because no unprepare can find it. */
module Orphans {
  import opened Options
  import opened Names
  import opened WayAllocation
  import opened Protocol
  import opened ProtocolSafety

  /** No request of this claim ever touches the group. */
  ghost predicate Avoids(uid: string, g: string) {
    forall c :: GroupName(c, uid) != g
  }

  ghost predicate ThreadAvoids(t: Thread, g: string) {
    match t
    case Scanning(uid, _, _) => Avoids(uid, g)
    case Reserved(job) => Avoids(job.uid, g)
    case DirMade(job) => Avoids(job.uid, g)
    case WriteFailed(job) => Avoids(job.uid, g)
    case Written(job) => Avoids(job.uid, g)
    case SpecFailed(job) => Avoids(job.uid, g)
    case Undoing(job, _) => Avoids(job.uid, g)
    case Described(job) => Avoids(job.uid, g)
    case Panicked(job) => Avoids(job.uid, g)
    case Deleting(_, record) => record.group != g
    case Releasing(_, record) => record.group != g
    case Unlinking(_, record) => record.group != g
    case Forgetting(_) => true
    case Finished(_) => true
  }

  ghost predicate RecordsAvoid(records: map<string, Record>, g: string) {
    forall uid | uid in records :: records[uid].group != g
  }

  /** The group stands with its text, and neither a record nor a request refers to it. */
  ghost predicate Orphaned(st: State, g: string, text: Option<string>) {
    && g in st.shared.groups && st.shared.groups[g] == text
    && RecordsAvoid(st.shared.records, g)
    && forall id | id in st.threads :: ThreadAvoids(st.threads[id], g)
  }

  ghost predicate ActionAvoids(a: Action, g: string) {
    a.Prepare? ==> Avoids(a.uid, g)
  }

  lemma {:induction false} StepAvoids(cfg: Config, s: Shared, t: Thread, ok: bool, g: string)
    requires ValidTotals(cfg.totals) && ThreadAvoids(t, g) && RecordsAvoid(s.records, g) && g in s.groups
    ensures var (s', t') := Step(cfg, s, t, ok);
            && ThreadAvoids(t', g) && RecordsAvoid(s'.records, g)
            && g in s'.groups && s'.groups[g] == s.groups[g]
  {
  }

  lemma {:induction false} NextOrphaned(cfg: Config, st: State, a: Action, g: string, text: Option<string>)
    requires ValidTotals(cfg.totals) && Orphaned(st, g, text) && ActionAvoids(a, g)
    ensures Orphaned(Next(cfg, st, a), g, text)
  {
    if a.Advance? && a.id in st.threads {
      StepAvoids(cfg, st.shared, st.threads[a.id], a.ok, g);
    }
  }

  lemma {:induction false} RunOrphaned(cfg: Config, st: State, actions: seq<Action>, g: string, text: Option<string>)
    requires ValidTotals(cfg.totals) && Orphaned(st, g, text)
    requires forall k | 0 <= k < |actions| :: ActionAvoids(actions[k], g)
    ensures Orphaned(Run(cfg, st, actions), g, text)
    decreases |actions|
  {
    if actions != [] {
      NextOrphaned(cfg, st, actions[0], g, text);
      RunOrphaned(cfg, Next(cfg, st, actions[0]), actions[1..], g, text);
    }
  }

  lemma {:induction false} OthersAvoid(c: int, uid: string, other: string)
    requires IsUUID(uid) && IsUUID(other) && uid != other
    ensures Avoids(other, GroupName(c, uid))
  {
    forall d ensures GroupName(d, other) != GroupName(c, uid) {
      if GroupName(d, other) == GroupName(c, uid) { GroupNameInjective(d, other, c, uid); }
    }
  }

  /** Let a claim have a group when the driver restarts. Over every run after that, with any number of
      unprepares of this claim, and any requests and crashes besides, the group keeps its text and the
      claim stays without a record, until the same claim is prepared again. */
  lemma {:induction false} GroupOutlivesCrashes(cfg: Config, boot: Shared, listing: Option<seq<DirEntry>>,
        actions: seq<Action>, cacheID: int, uid: string)
    requires ValidTotals(cfg.totals) && IsUUID(uid) && GroupName(cacheID, uid) in boot.groups
    requires forall k | 0 <= k < |actions| && actions[k].Prepare? :: IsUUID(actions[k].uid) && actions[k].uid != uid
    ensures var g, st := GroupName(cacheID, uid), Run(cfg, Restart(cfg, boot, listing), actions);
            g in st.shared.groups && st.shared.groups[g] == boot.groups[g] && uid !in st.shared.records
  {
    var g, start := GroupName(cacheID, uid), Restart(cfg, boot, listing);
    forall k | 0 <= k < |actions| ensures ActionAvoids(actions[k], g) {
      if actions[k].Prepare? { OthersAvoid(cacheID, uid, actions[k].uid); }
    }
    RunOrphaned(cfg, start, actions, g, boot.groups[g]);
    NeverRecorded(cfg, start, actions, uid);
  }

  /** So, in reliable runs, its ways stay in use across later crashes as well. */
  lemma {:induction false} OrphanedWaysOutliveCrashes(cfg: Config, boot: Shared, listing: Option<seq<DirEntry>>,
        actions: seq<Action>, cacheID: int, uid: string, c: int)
    requires ValidTotals(cfg.totals) && IsUUID(uid) && GroupName(cacheID, uid) in boot.groups
    requires forall k | 0 <= k < |actions| && actions[k].Prepare? :: IsUUID(actions[k].uid) && actions[k].uid != uid
    requires GroupsApart(boot.groups) && FaithfulListing(boot.groups, Seen(listing))
    requires ReliableRun(cfg, Restart(cfg, boot, listing), actions)
    ensures GroupBits(boot.groups, GroupName(cacheID, uid), c)
            <= UsedBits(Run(cfg, Restart(cfg, boot, listing), actions).shared.inUse, c)
  {
    var g, st := GroupName(cacheID, uid), Run(cfg, Restart(cfg, boot, listing), actions);
    GroupOutlivesCrashes(cfg, boot, listing, actions, cacheID, uid);
    IsolationOverAllRuns(cfg, boot, listing, actions);
    assert GroupBits(st.shared.groups, g, c) <= UsedBits(st.shared.inUse, c);
  }

  // ---- No record without a prepare -----------------------------------------------------------

  /** The claim a thread may still record. */
  function Records(t: Thread): Option<string> {
    match t
    case Scanning(uid, _, _) => Some(uid)
    case Reserved(job) => Some(job.uid)
    case DirMade(job) => Some(job.uid)
    case Written(job) => Some(job.uid)
    case Described(job) => Some(job.uid)
    case _ => None
  }

  ghost predicate Unrecorded(st: State, uid: string) {
    uid !in st.shared.records && forall id | id in st.threads :: Records(st.threads[id]) != Some(uid)
  }

  lemma {:induction false} StepUnrecorded(cfg: Config, s: Shared, t: Thread, ok: bool, uid: string)
    requires ValidTotals(cfg.totals) && uid !in s.records && Records(t) != Some(uid)
    ensures var (s', t') := Step(cfg, s, t, ok); uid !in s'.records && Records(t') != Some(uid)
  {
  }

  lemma {:induction false} NeverRecorded(cfg: Config, st: State, actions: seq<Action>, uid: string)
    requires ValidTotals(cfg.totals) && Unrecorded(st, uid)
    requires forall k | 0 <= k < |actions| && actions[k].Prepare? :: actions[k].uid != uid
    ensures Unrecorded(Run(cfg, st, actions), uid)
    decreases |actions|
  {
    if actions != [] {
      var a := actions[0];
      if a.Advance? && a.id in st.threads { StepUnrecorded(cfg, st.shared, st.threads[a.id], a.ok, uid); }
      NeverRecorded(cfg, Next(cfg, st, a), actions[1..], uid);
    }
  }
}
