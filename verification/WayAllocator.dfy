/** The way allocator of structured mode (`pkg/driver/wayallocator.go`).

  The class keeps the source's two maps and its loops; the functions say what each method does to
  the occupancy map, and the lemmas say what those functions mean in terms of sets of ways.
*/
module WayAllocation {
  import opened Options
  import opened Masks
  import opened Text
  import opened Schemata

  /** Ways in use, by cache domain. A domain without an entry reads as zero, as a Go map does. */
  type Occupancy = map<int, Word>

  function Used(alloc: Occupancy, cacheID: int): Word {
    if cacheID in alloc then alloc[cacheID] else 0
  }

  ghost function UsedBits(alloc: Occupancy, cacheID: int): set<nat> {
    Bits(Used(alloc, cacheID))
  }

  ghost predicate ValidTotals(totals: map<int, nat>) {
    forall c | c in totals :: totals[c] <= 64
  }

  datatype AllocError = UnknownDomain | BadWayCount | NoFreeRun

  // ---- First fit -----------------------------------------------------------------------------

  /** The `ways` ways from `start` lie below `total` and are all free. */
  ghost predicate FreeRun(used: set<nat>, total: int, start: nat, ways: int) {
    start + ways <= total && Interval(start, ways) !! used
  }

  /** The search of `Allocate`, from position `start` on. It finds the lowest free run, and fails
      exactly when there is none. */
  function FirstFit(used: Word, total: int, ways: int, start: nat): (found: Option<nat>)
    requires 0 < ways && total <= 64
    ensures found.None? ==> forall s: nat | start <= s :: !FreeRun(Bits(used), total, s, ways)
    ensures found.Some? ==> start <= found.value && FreeRun(Bits(used), total, found.value, ways)
    ensures found.Some? ==> forall s: nat | start <= s < found.value :: !FreeRun(Bits(used), total, s, ways)
    decreases total - start
  {
    if start + ways > total then None
    else
      MaskIsInterval(start, ways);
      OverlapTest(used, WayMask(start, ways));
      if And(used, WayMask(start, ways)) == 0 then Some(start)
      else
        assert !FreeRun(Bits(used), total, start, ways);
        FirstFit(used, total, ways, start + 1)
  }

  lemma {:induction false} MaskIsInterval(start: nat, ways: int)
    requires start + ways <= 64
    ensures Bits(WayMask(start, ways)) == Interval(start, ways)
  {
    BitsWayMask(start, ways);
  }

  // ---- The operations on the occupancy map ---------------------------------------------------

  function Reserve(totals: map<int, nat>, alloc: Occupancy, cacheID: int, ways: int)
    : (Result<Word, AllocError>, Occupancy)
    requires ValidTotals(totals)
  {
    if cacheID !in totals then (Err(UnknownDomain), alloc)
    else if ways <= 0 || ways > totals[cacheID] then (Err(BadWayCount), alloc)
    else match FirstFit(Used(alloc, cacheID), totals[cacheID], ways, 0)
      case None => (Err(NoFreeRun), alloc)
      case Some(start) =>
        (Ok(WayMask(start, ways)), alloc[cacheID := Or(Used(alloc, cacheID), WayMask(start, ways))])
  }

  function Free(alloc: Occupancy, cacheID: int, cbm: Word): Occupancy {
    alloc[cacheID := AndNot(Used(alloc, cacheID), cbm)]
  }

  /** `start` is the place first fit must choose for `ways` ways. */
  ghost predicate LowestRun(used: set<nat>, total: int, ways: int, start: nat) {
    FreeRun(used, total, start, ways) && forall s: nat | s < start :: !FreeRun(used, total, s, ways)
  }

  /** First fit is sound and minimal: a granted mask is the lowest free run of the requested
      length, it is added to the domain's ways, and no other domain changes. */
  lemma {:induction false} ReserveGrants(totals: map<int, nat>, alloc: Occupancy, cacheID: int, ways: int)
    requires ValidTotals(totals)
    requires Reserve(totals, alloc, cacheID, ways).0.Ok?
    ensures cacheID in totals && 1 <= ways <= totals[cacheID]
    ensures var (r, after) := Reserve(totals, alloc, cacheID, ways);
            var used := UsedBits(alloc, cacheID);
            && (exists start: nat :: LowestRun(used, totals[cacheID], ways, start)
                                     && Bits(r.value) == Interval(start, ways))
            && Bits(r.value) !! used
            && UsedBits(after, cacheID) == used + Bits(r.value)
            && after.Keys == alloc.Keys + {cacheID}
            && forall c | c != cacheID :: Used(after, c) == Used(alloc, c)
  {
    var used := Used(alloc, cacheID);
    var start := FirstFit(used, totals[cacheID], ways, 0).value;
    assert LowestRun(Bits(used), totals[cacheID], ways, start);
    MaskIsInterval(start, ways);
    BitsOr(used, WayMask(start, ways));
  }

  /** First fit is complete: a request is refused for exactly three reasons, the last being that
      no run of free ways is long enough. A refusal changes nothing. */
  lemma {:induction false} ReserveRefuses(totals: map<int, nat>, alloc: Occupancy, cacheID: int, ways: int)
    requires ValidTotals(totals)
    ensures var (r, after) := Reserve(totals, alloc, cacheID, ways);
            && (r == Err(UnknownDomain) <==> cacheID !in totals)
            && (r == Err(BadWayCount) <==> cacheID in totals && !(1 <= ways <= totals[cacheID]))
            && (r == Err(NoFreeRun) <==>
                  && cacheID in totals && 1 <= ways <= totals[cacheID]
                  && forall s: nat :: !FreeRun(UsedBits(alloc, cacheID), totals[cacheID], s, ways))
            && (r.Err? ==> after == alloc)
  {
    if cacheID in totals && 1 <= ways <= totals[cacheID] {
      var found := FirstFit(Used(alloc, cacheID), totals[cacheID], ways, 0);
      assert found.Some? ==> FreeRun(UsedBits(alloc, cacheID), totals[cacheID], found.value, ways);
    }
  }

  lemma {:induction false} FreeMeaning(alloc: Occupancy, cacheID: int, cbm: Word)
    ensures UsedBits(Free(alloc, cacheID, cbm), cacheID) == UsedBits(alloc, cacheID) - Bits(cbm)
    ensures forall c | c != cacheID :: Used(Free(alloc, cacheID, cbm), c) == Used(alloc, c)
  {
    BitsAndNot(Used(alloc, cacheID), cbm);
  }

  /** Releasing what was just reserved restores the occupancy map exactly. */
  lemma {:induction false} FreeUndoesReserve(totals: map<int, nat>, alloc: Occupancy, cacheID: int, ways: int)
    requires ValidTotals(totals) && totals.Keys <= alloc.Keys
    requires Reserve(totals, alloc, cacheID, ways).0.Ok?
    ensures var (r, after) := Reserve(totals, alloc, cacheID, ways); Free(after, cacheID, r.value) == alloc
  {
    var (r, after) := Reserve(totals, alloc, cacheID, ways);
    ReserveGrants(totals, alloc, cacheID, ways);
    FreeMeaning(after, cacheID, r.value);
    var restored := Free(after, cacheID, r.value);
    assert UsedBits(restored, cacheID) == UsedBits(alloc, cacheID);
    SameBits(Used(restored, cacheID), Used(alloc, cacheID));
    assert restored.Keys == alloc.Keys;
    forall c | c in restored ensures restored[c] == alloc[c] {
      assert Used(restored, c) == Used(alloc, c);
    }
  }

  /** The ways of a domain that are not in use. */
  ghost function FreeSet(total: int, used: set<nat>): set<nat> {
    Interval(0, total) - used
  }

  // ---- Recovery ------------------------------------------------------------------------------

  /** One entry of the resctrl root directory: `schemata` is None when its file cannot be read. */
  datatype DirEntry = DirEntry(name: string, isDir: bool, schemata: Option<string>)

  predicate Scanned(entry: DirEntry, prefix: string) {
    entry.isDir && HasPrefix(entry.name, prefix) && entry.schemata.Some?
  }

  function EntryMasks(entry: DirEntry, prefix: string): seq<(int, Word)> {
    if Scanned(entry, prefix) then TextMasks(entry.schemata.value) else []
  }

  function EntriesMasks(entries: seq<DirEntry>, prefix: string): seq<(int, Word)> {
    if entries == [] then [] else EntryMasks(entries[0], prefix) + EntriesMasks(entries[1..], prefix)
  }

  /** `allocated[id] |= mask` for each pair in turn. */
  function Absorb(alloc: Occupancy, masks: seq<(int, Word)>): Occupancy
    decreases |masks|
  {
    if masks == [] then alloc
    else Absorb(alloc[masks[0].0 := Or(Used(alloc, masks[0].0), masks[0].1)], masks[1..])
  }

  function Rebuild(alloc: Occupancy, entries: seq<DirEntry>, prefix: string): Occupancy {
    Absorb(alloc, EntriesMasks(entries, prefix))
  }

  /** The ways of domain `cacheID` that occur in a list of pairs. */
  ghost function MasksBits(masks: seq<(int, Word)>, cacheID: int): set<nat> {
    if masks == [] then {}
    else (if masks[0].0 == cacheID then Bits(masks[0].1) else {}) + MasksBits(masks[1..], cacheID)
  }

  /** The ways of domain `cacheID` that a schemata text claims. */
  ghost function TextBits(text: string, cacheID: int): set<nat> {
    MasksBits(TextMasks(text), cacheID)
  }

  ghost function EntryBits(entry: DirEntry, prefix: string, cacheID: int): set<nat> {
    MasksBits(EntryMasks(entry, prefix), cacheID)
  }

  lemma {:induction false} MasksBitsConcat(a: seq<(int, Word)>, b: seq<(int, Word)>, cacheID: int)
    ensures MasksBits(a + b, cacheID) == MasksBits(a, cacheID) + MasksBits(b, cacheID)
  {
    if a == [] {
      assert a + b == b;
    } else {
      assert (a + b)[1..] == a[1..] + b;
      MasksBitsConcat(a[1..], b, cacheID);
    }
  }

  lemma {:induction false} AbsorbConcat(alloc: Occupancy, a: seq<(int, Word)>, b: seq<(int, Word)>)
    ensures Absorb(alloc, a + b) == Absorb(Absorb(alloc, a), b)
    decreases |a|
  {
    if a == [] {
      assert a + b == b;
    } else {
      assert (a + b)[1..] == a[1..] + b;
      AbsorbConcat(alloc[a[0].0 := Or(Used(alloc, a[0].0), a[0].1)], a[1..], b);
    }
  }

  lemma {:induction false} AbsorbBits(alloc: Occupancy, masks: seq<(int, Word)>, cacheID: int)
    ensures UsedBits(Absorb(alloc, masks), cacheID) == UsedBits(alloc, cacheID) + MasksBits(masks, cacheID)
    decreases |masks|
  {
    if masks != [] {
      var (c, m) := masks[0];
      BitsOr(Used(alloc, c), m);
      AbsorbBits(alloc[c := Or(Used(alloc, c), m)], masks[1..], cacheID);
    }
  }

  lemma {:induction false} AbsorbKeys(alloc: Occupancy, masks: seq<(int, Word)>)
    ensures Absorb(alloc, masks).Keys == alloc.Keys + set p | p in masks :: p.0
    decreases |masks|
  {
    if masks != [] {
      var (c, m) := masks[0];
      AbsorbKeys(alloc[c := Or(Used(alloc, c), m)], masks[1..]);
      assert masks == [masks[0]] + masks[1..];
    }
  }

  lemma {:induction false} MasksBitsMember(masks: seq<(int, Word)>, cacheID: int, i: nat)
    ensures i in MasksBits(masks, cacheID) <==> exists p | p in masks :: p.0 == cacheID && i in Bits(p.1)
  {
    if masks != [] {
      MasksBitsMember(masks[1..], cacheID, i);
      assert masks == [masks[0]] + masks[1..];
    }
  }

  lemma {:induction false} EntriesBitsMember(entries: seq<DirEntry>, prefix: string, cacheID: int, i: nat)
    ensures i in MasksBits(EntriesMasks(entries, prefix), cacheID)
            <==> exists e | e in entries :: i in EntryBits(e, prefix, cacheID)
  {
    MasksBitsMember(EntriesMasks(entries, prefix), cacheID, i);
    forall e { MasksBitsMember(EntryMasks(e, prefix), cacheID, i); }
    forall p { EntriesMasksMember(entries, prefix, p); }
  }

  lemma {:induction false} EntriesMasksMember(entries: seq<DirEntry>, prefix: string, p: (int, Word))
    ensures p in EntriesMasks(entries, prefix) <==> exists e | e in entries :: p in EntryMasks(e, prefix)
  {
    if entries != [] {
      EntriesMasksMember(entries[1..], prefix, p);
      assert entries == [entries[0]] + entries[1..];
    }
  }

  /** A rebuilt domain holds what it held before plus the union of the scanned masks. */
  lemma {:induction false} RebuildMeaning(alloc: Occupancy, entries: seq<DirEntry>, prefix: string,
        cacheID: int, i: nat)
    ensures i in UsedBits(Rebuild(alloc, entries, prefix), cacheID)
            <==> i in UsedBits(alloc, cacheID) || exists e | e in entries :: i in EntryBits(e, prefix, cacheID)
  {
    AbsorbBits(alloc, EntriesMasks(entries, prefix), cacheID);
    EntriesBitsMember(entries, prefix, cacheID, i);
  }

  lemma {:induction false} SameOccupancy(a: Occupancy, b: Occupancy)
    requires a.Keys == b.Keys
    requires forall c :: UsedBits(a, c) == UsedBits(b, c)
    ensures a == b
  {
    forall c | c in a ensures a[c] == b[c] {
      assert UsedBits(a, c) == UsedBits(b, c);
      SameBits(a[c], b[c]);
    }
  }

  /** The directory order, and repeated entries, do not matter. */
  lemma {:induction false} RebuildOrder(alloc: Occupancy, es: seq<DirEntry>, fs: seq<DirEntry>, prefix: string)
    requires forall e :: e in es <==> e in fs
    ensures Rebuild(alloc, es, prefix) == Rebuild(alloc, fs, prefix)
  {
    var a, b := Rebuild(alloc, es, prefix), Rebuild(alloc, fs, prefix);
    AbsorbKeys(alloc, EntriesMasks(es, prefix));
    AbsorbKeys(alloc, EntriesMasks(fs, prefix));
    forall p ensures p in EntriesMasks(es, prefix) <==> p in EntriesMasks(fs, prefix) {
      EntriesMasksMember(es, prefix, p);
      EntriesMasksMember(fs, prefix, p);
    }
    assert a.Keys == b.Keys;
    forall c ensures UsedBits(a, c) == UsedBits(b, c) {
      forall i: nat ensures i in UsedBits(a, c) <==> i in UsedBits(b, c) {
        RebuildMeaning(alloc, es, prefix, c, i);
        RebuildMeaning(alloc, fs, prefix, c, i);
      }
    }
    SameOccupancy(a, b);
  }

  /** Running the recovery scan twice changes nothing. */
  lemma {:induction false} RebuildTwice(alloc: Occupancy, entries: seq<DirEntry>, prefix: string)
    ensures var once := Rebuild(alloc, entries, prefix); Rebuild(once, entries, prefix) == once
  {
    var masks := EntriesMasks(entries, prefix);
    var once := Rebuild(alloc, entries, prefix);
    var twice := Rebuild(once, entries, prefix);
    AbsorbKeys(alloc, masks);
    AbsorbKeys(once, masks);
    assert once.Keys == twice.Keys;
    forall c ensures UsedBits(once, c) == UsedBits(twice, c) {
      AbsorbBits(alloc, masks, c);
      AbsorbBits(once, masks, c);
    }
    SameOccupancy(once, twice);
  }

  /** A group as the driver knows it when it writes the files. */
  datatype GroupSpec = GroupSpec(name: string, cacheID: int, cbm: Word, mbaThrottle: int)

  /** The entry that `CreateGroup` leaves for a structured-mode group. */
  function WrittenEntry(g: GroupSpec): DirEntry {
    DirEntry(g.name, true, Some(FileText(StructuredSchemata(g.cacheID, MaskHex(g.cbm), g.mbaThrottle))))
  }

  lemma {:induction false} WrittenBits(text: string, cacheID: int, cbm: Word, domain: int)
    requires TextMasks(text) == [(cacheID, cbm)]
    ensures TextBits(text, domain) == if domain == cacheID then Bits(cbm) else {}
  {
    OnePairBits(cacheID, cbm, domain);
  }

  lemma {:induction false} OnePairBits(cacheID: int, cbm: Word, domain: int)
    ensures MasksBits([(cacheID, cbm)], domain) == if domain == cacheID then Bits(cbm) else {}
  {
    assert [(cacheID, cbm)][1..] == [];
  }

  lemma {:induction false} WrittenEntryBits(g: GroupSpec, prefix: string, domain: int)
    requires IsInt64(g.cacheID) && HasPrefix(g.name, prefix)
    ensures EntryBits(WrittenEntry(g), prefix, domain) == if domain == g.cacheID then Bits(g.cbm) else {}
  {
    StructuredRoundTrip(g.cacheID, g.cbm, g.mbaThrottle);
    WrittenBits(WrittenEntry(g).schemata.value, g.cacheID, g.cbm, domain);
  }

  /** Recovery round trip. Over a directory whose driver groups are exactly those written for
      `groups`, in any order and mixed with other entries, the scan adds in each domain exactly
      the union of the groups' masks. */
  lemma {:induction false} RecoveryRoundTrip(alloc: Occupancy, groups: set<GroupSpec>, entries: seq<DirEntry>,
        prefix: string, cacheID: int, i: nat)
    requires forall g | g in groups :: IsInt64(g.cacheID) && HasPrefix(g.name, prefix) && WrittenEntry(g) in entries
    requires forall e | e in entries && Scanned(e, prefix) :: exists g :: g in groups && e == WrittenEntry(g)
    ensures i in UsedBits(Rebuild(alloc, entries, prefix), cacheID)
            <==> i in UsedBits(alloc, cacheID)
                 || exists g | g in groups :: g.cacheID == cacheID && i in Bits(g.cbm)
  {
    RebuildMeaning(alloc, entries, prefix, cacheID, i);
    forall g | g in groups
      ensures EntryBits(WrittenEntry(g), prefix, cacheID) == if cacheID == g.cacheID then Bits(g.cbm) else {}
    {
      WrittenEntryBits(g, prefix, cacheID);
    }
    forall e | e in entries && !Scanned(e, prefix) ensures EntryBits(e, prefix, cacheID) == {} { }
  }

  // ---- The allocator object ------------------------------------------------------------------

  class WayAllocator {
    const totalWays: map<int, nat>
    var inUse: Occupancy

    ghost predicate Valid()
      reads this
    {
      ValidTotals(totalWays) && totalWays.Keys <= inUse.Keys
    }

    constructor (totalWays: map<int, nat>)
      requires ValidTotals(totalWays)
      ensures Valid() && this.totalWays == totalWays
      ensures inUse == map c | c in totalWays :: 0
      ensures forall c :: UsedBits(inUse, c) == {}
    {
      this.totalWays := totalWays;
      this.inUse := map c | c in totalWays :: 0;
      new;
      BitsZero();
    }

    method Allocate(cacheID: int, ways: int) returns (r: Result<Word, AllocError>)
      requires Valid()
      modifies this
      ensures Valid()
      ensures (r, inUse) == Reserve(totalWays, old(inUse), cacheID, ways)
    {
      if cacheID !in totalWays { return Err(UnknownDomain); }
      var total := totalWays[cacheID];
      if ways <= 0 || ways > total { return Err(BadWayCount); }
      var used := Used(inUse, cacheID);
      var start := 0;
      while start + ways <= total
        invariant 0 <= start && inUse == old(inUse)
        invariant FirstFit(used, total, ways, 0) == FirstFit(used, total, ways, start)
      {
        var candidate := BuildMask(start, ways);
        if And(used, candidate) == 0 {
          inUse := inUse[cacheID := Or(Used(inUse, cacheID), candidate)];
          return Ok(candidate);
        }
        start := start + 1;
      }
      return Err(NoFreeRun);
    }

    method Release(cacheID: int, cbm: Word)
      requires Valid()
      modifies this
      ensures Valid()
      ensures inUse == Free(old(inUse), cacheID, cbm)
    {
      inUse := inUse[cacheID := AndNot(Used(inUse, cacheID), cbm)];
    }

    method FreeWays(cacheID: int) returns (free: nat)
      requires Valid()
      ensures var total := if cacheID in totalWays then totalWays[cacheID] else 0;
              free == |FreeSet(total, UsedBits(inUse, cacheID))|
    {
      var used := Used(inUse, cacheID);
      var total := if cacheID in totalWays then totalWays[cacheID] else 0;
      free := 0;
      assert FreeSet(0, Bits(used)) == {};
      for i := 0 to total
        invariant free == |FreeSet(i, Bits(used))|
      {
        ghost var next := FreeSet(i, Bits(used)) + if Has(used, i) then {} else {i};
        assert FreeSet(i + 1, Bits(used)) == next by {
          forall j ensures j in FreeSet(i + 1, Bits(used)) <==> j in next {
            assert j in Bits(used) <==> 0 <= j < 64 && Has(used, j);
          }
        }
        if !Has(used, i) {
          free := free + 1;
        }
      }
    }

    /** `listing` is what reading the root directory returned; None is a read error. */
    method RebuildFromResctrl(listing: Option<seq<DirEntry>>, groupPrefix: string) returns (ok: bool)
      requires Valid()
      modifies this
      ensures Valid()
      ensures ok <==> listing.Some?
      ensures inUse == if ok then Rebuild(old(inUse), listing.value, groupPrefix) else old(inUse)
    {
      if listing.None? { return false; }
      var entries := listing.value;
      ghost var goal := Rebuild(inUse, entries, groupPrefix);
      var k := 0;
      while k < |entries|
        invariant 0 <= k <= |entries|
        invariant Rebuild(inUse, entries[k..], groupPrefix) == goal
      {
        ghost var rest := entries[k..];
        assert rest[0] == entries[k] && rest[1..] == entries[k + 1..];
        AbsorbConcat(inUse, EntryMasks(entries[k], groupPrefix), EntriesMasks(rest[1..], groupPrefix));
        ScanEntry(entries[k], groupPrefix);
        k := k + 1;
      }
      AbsorbKeys(old(inUse), EntriesMasks(entries, groupPrefix));
      return true;
    }

    /** One turn of the loop over the directory. */
    method ScanEntry(entry: DirEntry, groupPrefix: string)
      modifies this
      ensures inUse == Absorb(old(inUse), EntryMasks(entry, groupPrefix))
    {
      if !entry.isDir || !HasPrefix(entry.name, groupPrefix) { return; }
      if entry.schemata.None? { return; }
      ScanText(entry.schemata.value);
    }

    /** The loop over the lines of one schemata file. */
    method ScanText(text: string)
      modifies this
      ensures inUse == Absorb(old(inUse), TextMasks(text))
    {
      var lines := SplitOn(TrimSpace(text), '\n');
      ghost var goal := Absorb(inUse, LinesMasks(lines));
      var k := 0;
      while k < |lines|
        invariant 0 <= k <= |lines|
        invariant Absorb(inUse, LinesMasks(lines[k..])) == goal
      {
        AbsorbConcat(inUse, LineMasks(lines[k]), LinesMasks(lines[k..][1..]));
        assert lines[k..][1..] == lines[k + 1..];
        var line := TrimSpace(lines[k]);
        k := k + 1;
        if !HasPrefix(line, "L3:") { continue; }
        ScanSegments(SplitOn(line[3..], ';'));
      }
    }

    /** The loop over the segments of one L3 line. */
    method ScanSegments(segments: seq<string>)
      modifies this
      ensures inUse == Absorb(old(inUse), SegmentMasks(segments))
    {
      ghost var goal := Absorb(inUse, SegmentMasks(segments));
      var k := 0;
      while k < |segments|
        invariant 0 <= k <= |segments|
        invariant Absorb(inUse, SegmentMasks(segments[k..])) == goal
      {
        AbsorbConcat(inUse, SegmentPairs(segments[k]), SegmentMasks(segments[k..][1..]));
        assert segments[k..][1..] == segments[k + 1..];
        if SegmentMask(segments[k]).Some? {
          var (cacheID, cbm) := SegmentMask(segments[k]).value;
          AbsorbConcat(inUse, [(cacheID, cbm)], []);
          inUse := inUse[cacheID := Or(Used(inUse, cacheID), cbm)];
        }
        k := k + 1;
      }
    }
  }
}
