/** The structured-mode protocol (`prepareClaimStructured`, `unprepareClaimStructured` and crash
    recovery) as a state machine.

  A request is a thread whose constructor is its program counter. One step is one lock-protected
  section or one file operation, so any interleaving of steps of different threads is a possible
  execution of the driver. File operations take their outcome from the environment. A crash drops
  every thread and the claim records, keeps the files, and restarts by scanning the directory.
*/
module Protocol {
  import opened Options
  import opened Masks
  import opened Text
  import opened Names
  import opened Schemata
  import opened WayAllocation

  const GROUP_PREFIX := "dra-c"
  const CDI_KIND := "resctrl.fabiendupont.io/partition"
  const CDI_VENDOR := "resctrl.fabiendupont.io"

  datatype Config = Config(driverName: string, nodeName: string, cdiDir: string, totals: map<int, nat>)

  /** One entry of a claim's allocation results. */
  datatype DeviceResult = DeviceResult(driver: string, pool: string, device: string, request: string)

  /** What fetching the claim from the API server returned. */
  datatype Fetched = FetchFailed | Unallocated | Allocation(results: seq<DeviceResult>)

  datatype PreparedDevice = PreparedDevice(request: string, pool: string, device: string, cdiDevice: string)

  /** The device of the answer is the one of the result: its request, its pool and its name. */
  predicate AnswersResult(d: PreparedDevice, r: DeviceResult) {
    d.request == r.request && d.pool == r.pool && d.device == r.device
  }

  datatype PrepareError =
    | FetchError
    | NoAllocation
    | WaysUnavailable(device: string, reason: AllocError)
    | GroupNotCreated(group: string)
    | SpecNotWritten(uid: string)
    | NoDevices

  datatype Response = Prepared(devices: seq<PreparedDevice>) | Failed(error: PrepareError) | Unprepared

  /** The entry of `structuredAllocs` for a claim. */
  datatype Record = Record(cacheID: int, ways: int, cbm: Word, group: string, specPath: string)

  /** The per-claim CDI file. */
  datatype ClaimSpec = ClaimSpec(device: string, ways: int, cbmHex: string, cacheID: int, group: string)

  /** What all requests share: the allocator's map, the resctrl groups (None: no schemata text),
      the CDI files and the claim records. */
  datatype Shared = Shared(inUse: Occupancy, groups: map<string, Option<string>>,
                           specs: map<string, ClaimSpec>, records: map<string, Record>)

  /** One cache-way device of a claim on its way through prepare. */
  datatype Job = Job(uid: string, rest: seq<DeviceResult>, done: seq<PreparedDevice>,
                     result: DeviceResult, cacheID: int, ways: int, cbm: Word)
  {
    function Group(): string { GroupName(cacheID, uid) }
  }

  datatype Thread =
    | Scanning(uid: string, todo: seq<DeviceResult>, done: seq<PreparedDevice>)
    | Reserved(job: Job)                       // ways reserved
    | DirMade(job: Job)                        // group directory exists
    | WriteFailed(job: Job)                    // schemata rejected
    | Written(job: Job)                        // schemata written
    | SpecFailed(job: Job)                     // CDI file not written
    | Undoing(job: Job, error: PrepareError)   // about to release the ways
    | Described(job: Job)                      // CDI file written
    | Panicked(job: Job)                       // uid shorter than the slice taken of it
    | Forgetting(uid: string)
    | Deleting(uid: string, record: Record)
    | Releasing(uid: string, record: Record)
    | Unlinking(uid: string, record: Record)
    | Finished(response: Response)

  function BeginPrepare(uid: string, fetched: Fetched): Thread {
    match fetched
    case FetchFailed => Finished(Failed(FetchError))
    case Unallocated => Finished(Failed(NoAllocation))
    case Allocation(results) => Scanning(uid, results, [])
  }

  function BeginUnprepare(uid: string): Thread {
    Forgetting(uid)
  }

  // ---- File operations -----------------------------------------------------------------------

  function MakeDir(groups: map<string, Option<string>>, name: string): map<string, Option<string>> {
    if name in groups then groups else groups[name := None]
  }

  function SpecPath(cdiDir: string, uid: string): string
    requires |uid| >= 8
  {
    cdiDir + "/" + CDI_VENDOR + "-claim-" + uid[..8] + ".json"
  }

  function SpecDevice(job: Job): string
    requires |job.uid| >= 8
  {
    CacheWayName(job.cacheID, job.ways) + "-" + job.uid[..8]
  }

  function SpecOf(job: Job): ClaimSpec
    requires |job.uid| >= 8
  {
    ClaimSpec(SpecDevice(job), job.ways, MaskHex(job.cbm), job.cacheID, job.Group())
  }

  function JobText(job: Job): string {
    FileText(StructuredSchemata(job.cacheID, MaskHex(job.cbm), 0))
  }

  function RecordOf(cfg: Config, job: Job): Record
    requires |job.uid| >= 8
  {
    Record(job.cacheID, job.ways, job.cbm, job.Group(), SpecPath(cfg.cdiDir, job.uid))
  }

  function DeviceOf(job: Job): PreparedDevice
    requires |job.uid| >= 8
  {
    PreparedDevice(job.result.request, job.result.pool, job.result.device, CDI_KIND + "=" + SpecDevice(job))
  }

  // ---- One step ------------------------------------------------------------------------------

  /** Is this a cache-way device of this driver on this node? */
  predicate Matches(cfg: Config, r: DeviceResult) {
    r.driver == cfg.driverName && r.pool == cfg.nodeName && ParseCacheWayName(r.device).Ok?
  }

  function Scan(cfg: Config, s: Shared, t: Thread): (Shared, Thread)
    requires ValidTotals(cfg.totals) && t.Scanning?
  {
    if t.todo == [] then
      (s, Finished(if t.done == [] then Failed(NoDevices) else Prepared(t.done)))
    else
      var r, rest := t.todo[0], t.todo[1..];
      if !Matches(cfg, r) then (s, Scanning(t.uid, rest, t.done))
      else
        var (cacheID, ways) := ParseCacheWayName(r.device).value;
        var (granted, inUse) := Reserve(cfg.totals, s.inUse, cacheID, ways);
        match granted
        case Err(e) => (s, Finished(Failed(WaysUnavailable(r.device, e))))
        case Ok(cbm) => (s.(inUse := inUse), Reserved(Job(t.uid, rest, t.done, r, cacheID, ways, cbm)))
  }

  /** One step of a thread; `ok` is the outcome of the file operation, where there is one. */
  function Step(cfg: Config, s: Shared, t: Thread, ok: bool): (Shared, Thread)
    requires ValidTotals(cfg.totals)
  {
    match t
    case Scanning(_, _, _) => Scan(cfg, s, t)
    case Reserved(job) =>
      if ok then (s.(groups := MakeDir(s.groups, job.Group())), DirMade(job))
      else (s, Undoing(job, GroupNotCreated(job.Group())))
    case DirMade(job) =>
      if ok then (s.(groups := s.groups[job.Group() := Some(JobText(job))]), Written(job))
      else (s, WriteFailed(job))
    case WriteFailed(job) =>
      (RemoveGroup(s, job.Group(), ok), Undoing(job, GroupNotCreated(job.Group())))
    case Written(job) =>
      if !ok then (s, SpecFailed(job))
      else if |job.uid| < 8 then (s, Panicked(job))
      else (s.(specs := s.specs[SpecPath(cfg.cdiDir, job.uid) := SpecOf(job)]), Described(job))
    case SpecFailed(job) =>
      (RemoveGroup(s, job.Group(), ok), Undoing(job, SpecNotWritten(job.uid)))
    case Undoing(job, error) =>
      (s.(inUse := Free(s.inUse, job.cacheID, job.cbm)), Finished(Failed(error)))
    case Described(job) =>
      if |job.uid| < 8 then (s, Panicked(job))
      else (s.(records := s.records[job.uid := RecordOf(cfg, job)]),
            Scanning(job.uid, job.rest, job.done + [DeviceOf(job)]))
    case Panicked(_) => (s, t)
    case Forgetting(uid) =>
      if uid !in s.records then (s, Finished(Unprepared))
      else (s.(records := s.records - {uid}), Deleting(uid, s.records[uid]))
    case Deleting(uid, record) => (RemoveGroup(s, record.group, ok), Releasing(uid, record))
    case Releasing(uid, record) =>
      (s.(inUse := Free(s.inUse, record.cacheID, record.cbm)), Unlinking(uid, record))
    case Unlinking(uid, record) =>
      (if ok then s.(specs := s.specs - {record.specPath}) else s, Finished(Unprepared))
    case Finished(_) => (s, t)
  }

  function RemoveGroup(s: Shared, name: string, ok: bool): Shared {
    if ok then s.(groups := s.groups - {name}) else s
  }

  // ---- Runs ----------------------------------------------------------------------------------

  datatype State = State(shared: Shared, threads: map<nat, Thread>)

  /** `Crash` carries what the restarted driver sees of the resctrl root; None is a read error. */
  datatype Action =
    | Prepare(id: nat, uid: string, fetched: Fetched)
    | Unprepare(id: nat, uid: string)
    | Advance(id: nat, ok: bool)
    | Crash(listing: Option<seq<DirEntry>>)

  function Empty(totals: map<int, nat>): Occupancy {
    map c | c in totals :: 0
  }

  function Restart(cfg: Config, s: Shared, listing: Option<seq<DirEntry>>): State {
    var inUse := if listing.None? then Empty(cfg.totals) else Rebuild(Empty(cfg.totals), listing.value, GROUP_PREFIX);
    State(Shared(inUse, s.groups, s.specs, map[]), map[])
  }

  function Next(cfg: Config, st: State, a: Action): State
    requires ValidTotals(cfg.totals)
  {
    match a
    case Prepare(id, uid, fetched) =>
      if id in st.threads then st else st.(threads := st.threads[id := BeginPrepare(uid, fetched)])
    case Unprepare(id, uid) =>
      if id in st.threads then st else st.(threads := st.threads[id := BeginUnprepare(uid)])
    case Advance(id, ok) =>
      if id !in st.threads then st
      else
        var (s, t) := Step(cfg, st.shared, st.threads[id], ok);
        State(s, st.threads[id := t])
    case Crash(listing) => Restart(cfg, st.shared, listing)
  }

  function Run(cfg: Config, st: State, actions: seq<Action>): State
    requires ValidTotals(cfg.totals)
    decreases |actions|
  {
    if actions == [] then st else Run(cfg, Next(cfg, st, actions[0]), actions[1..])
  }

  // ---- What the environment is assumed to do -------------------------------------------------

  predicate IsDriverGroup(name: string) {
    HasPrefix(name, GROUP_PREFIX)
  }

  /** What a restart sees of the resctrl root; a root that cannot be read shows nothing. */
  function Seen(listing: Option<seq<DirEntry>>): seq<DirEntry> {
    if listing.Some? then listing.value else []
  }

  /** The listing shows no group text that is not there. */
  ghost predicate TruthfulListing(groups: map<string, Option<string>>, entries: seq<DirEntry>) {
    forall e | e in entries && Scanned(e, GROUP_PREFIX) :: e.name in groups && e.schemata == groups[e.name]
  }

  /** Every group that claims a way is listed and can be read. */
  ghost predicate ReadableListing(groups: map<string, Option<string>>, entries: seq<DirEntry>) {
    forall g, c | GroupBits(groups, g, c) != {} :: exists e | e in entries :: Scanned(e, GROUP_PREFIX) && e.name == g
  }

  ghost predicate FaithfulListing(groups: map<string, Option<string>>, entries: seq<DirEntry>) {
    TruthfulListing(groups, entries) && ReadableListing(groups, entries)
  }

  /** The group a step is about to remove, if any. */
  function Removes(t: Thread): Option<string> {
    match t
    case WriteFailed(job) => Some(job.Group())
    case SpecFailed(job) => Some(job.Group())
    case Deleting(_, record) => Some(record.group)
    case _ => None
  }

  datatype Mask = Mask(group: string, cacheID: int, cbm: Word)

  /** The group a step is about to remove so that its ways can be released, with those ways. The
      clean-up after a failed write is not among them: that group carries nothing of the claim. */
  function MustRemove(t: Thread): Option<Mask> {
    match t
    case SpecFailed(job) => Some(Mask(job.Group(), job.cacheID, job.cbm))
    case Deleting(_, r) => Some(Mask(r.group, r.cacheID, r.cbm))
    case _ => None
  }

  /** A group whose ways are about to be released is removed, unless it claims none of them; and
      recovery can read every group that claims a way. */
  ghost predicate Reliable(st: State, a: Action) {
    match a
    case Advance(id, ok) =>
      id in st.threads && MustRemove(st.threads[id]).Some? ==>
        var m := MustRemove(st.threads[id]).value;
        ok || GroupBits(st.shared.groups, m.group, m.cacheID) !! Bits(m.cbm)
    case Crash(listing) => FaithfulListing(st.shared.groups, Seen(listing))
    case _ => true
  }

  ghost predicate ReliableRun(cfg: Config, st: State, actions: seq<Action>)
    requires ValidTotals(cfg.totals)
    decreases |actions|
  {
    actions == [] || (Reliable(st, actions[0]) && ReliableRun(cfg, Next(cfg, st, actions[0]), actions[1..]))
  }

  // ---- Groups as sets of ways ----------------------------------------------------------------

  /** The ways of a domain that a driver group claims. */
  ghost function GroupBits(groups: map<string, Option<string>>, name: string, cacheID: int): set<nat> {
    if name in groups && IsDriverGroup(name) && groups[name].Some?
    then TextBits(groups[name].value, cacheID) else {}
  }

  /** No two driver groups share a way. */
  ghost predicate GroupsApart(groups: map<string, Option<string>>) {
    forall g, k, c | g != k :: GroupBits(groups, g, c) !! GroupBits(groups, k, c)
  }

  /** Every way of every driver group is in use. */
  ghost predicate GroupsCovered(s: Shared) {
    forall g, c :: GroupBits(s.groups, g, c) <= UsedBits(s.inUse, c)
  }
}
