/** When does first fit succeed?

  The scheduler sees only a counter of free ways per domain, while the allocator needs a
  contiguous run. These results say when the counter is enough: always when nothing is released,
  always when all requests of a domain have one size, and in general only above a pigeonhole
  bound.
*/
module Fragmentation {
  import opened Options
  import opened Masks
  import opened WayAllocation

  // ---- Runs of the allocator -----------------------------------------------------------------

  /** A mask handed out and not yet given back: `ways` consecutive ways from `start`. */
  datatype Grant = Grant(cacheID: int, start: nat, ways: nat)

  datatype Ledger = Ledger(alloc: Occupancy, live: set<Grant>)

  datatype Event = Request(cacheID: int, ways: int) | Return(grant: Grant)

  function Ways(g: Grant): Word {
    WayMask(g.start, g.ways)
  }

  function Serve(totals: map<int, nat>, l: Ledger, e: Event): Ledger
    requires ValidTotals(totals)
  {
    match e
    case Request(c, ways) =>
      var (r, after) := Reserve(totals, l.alloc, c, ways);
      if r.Err? then l
      else Ledger(after, l.live + {Grant(c, FirstFit(Used(l.alloc, c), totals[c], ways, 0).value, ways)})
    case Return(g) => Ledger(Free(l.alloc, g.cacheID, Ways(g)), l.live - {g})
  }

  function RunAll(totals: map<int, nat>, l: Ledger, events: seq<Event>): Ledger
    requires ValidTotals(totals)
  {
    if events == [] then l else Serve(totals, RunAll(totals, l, events[..|events| - 1]), events[|events| - 1])
  }

  /** Only masks that are live are given back. */
  predicate Legal(totals: map<int, nat>, l: Ledger, events: seq<Event>)
    requires ValidTotals(totals)
  {
    events == []
    || (Legal(totals, l, events[..|events| - 1])
        && (events[|events| - 1].Return? ==>
              events[|events| - 1].grant in RunAll(totals, l, events[..|events| - 1]).live))
  }

  function Fresh(totals: map<int, nat>): Ledger {
    Ledger(map c | c in totals :: 0, {})
  }

  ghost function Span(g: Grant): set<nat> {
    Interval(g.start, g.ways)
  }

  /** The used ways of every domain are exactly the live masks, which are pairwise disjoint. */
  ghost predicate Balanced(totals: map<int, nat>, l: Ledger) {
    && (forall g | g in l.live :: g.cacheID in totals && g.ways >= 1 && g.start + g.ways <= totals[g.cacheID])
    && (forall g, h | g in l.live && h in l.live && g != h && g.cacheID == h.cacheID :: Span(g) !! Span(h))
    && (forall g | g in l.live :: Span(g) <= UsedBits(l.alloc, g.cacheID))
    && (forall c, i | i in UsedBits(l.alloc, c) :: exists g :: g in l.live && g.cacheID == c && i in Span(g))
  }

  lemma {:induction false} ServeKeepsBalance(totals: map<int, nat>, l: Ledger, e: Event)
    requires ValidTotals(totals) && Balanced(totals, l)
    requires e.Return? ==> e.grant in l.live
    ensures Balanced(totals, Serve(totals, l, e))
  {
    match e
    case Request(c, ways) => RequestKeepsBalance(totals, l, c, ways);
    case Return(g) => ReturnKeepsBalance(totals, l, g);
  }

  lemma {:induction false} RequestKeepsBalance(totals: map<int, nat>, l: Ledger, c: int, ways: int)
    requires ValidTotals(totals) && Balanced(totals, l)
    ensures Balanced(totals, Serve(totals, l, Request(c, ways)))
  {
    var (r, after) := Reserve(totals, l.alloc, c, ways);
    if r.Ok? {
      ReserveGrants(totals, l.alloc, c, ways);
      var start := FirstFit(Used(l.alloc, c), totals[c], ways, 0).value;
      var granted := Grant(c, start, ways);
      MaskIsInterval(start, ways);
      assert Span(granted) == Bits(r.value);
      var next := Serve(totals, l, Request(c, ways));
      forall g, h | g in next.live && h in next.live && g != h && g.cacheID == h.cacheID
        ensures Span(g) !! Span(h)
      {
      }
      forall g | g in next.live ensures Span(g) <= UsedBits(next.alloc, g.cacheID) {
        if g != granted { assert Span(g) <= UsedBits(l.alloc, g.cacheID); }
      }
      forall d, i | i in UsedBits(next.alloc, d)
        ensures exists g :: g in next.live && g.cacheID == d && i in Span(g)
      {
        if d == c && i in Span(granted) {
          assert granted in next.live;
        } else {
          assert i in UsedBits(l.alloc, d);
          var g :| g in l.live && g.cacheID == d && i in Span(g);
          assert g in next.live;
        }
      }
    }
  }

  lemma {:induction false} ReturnKeepsBalance(totals: map<int, nat>, l: Ledger, back: Grant)
    requires ValidTotals(totals) && Balanced(totals, l) && back in l.live
    ensures Balanced(totals, Serve(totals, l, Return(back)))
  {
    var next := Serve(totals, l, Return(back));
    MaskIsInterval(back.start, back.ways);
    FreeMeaning(l.alloc, back.cacheID, Ways(back));
    forall g | g in next.live ensures Span(g) <= UsedBits(next.alloc, g.cacheID) {
      assert Span(g) <= UsedBits(l.alloc, g.cacheID);
      if g.cacheID == back.cacheID { assert Span(g) !! Span(back); }
    }
    forall d, i | i in UsedBits(next.alloc, d)
      ensures exists g :: g in next.live && g.cacheID == d && i in Span(g)
    {
      assert i in UsedBits(l.alloc, d);
      var g :| g in l.live && g.cacheID == d && i in Span(g);
      assert g != back;
      assert g in next.live;
    }
  }

  /** Over every legal run from an empty allocator, the books balance. */
  lemma {:induction false} RunKeepsBalance(totals: map<int, nat>, events: seq<Event>)
    requires ValidTotals(totals) && Legal(totals, Fresh(totals), events)
    ensures Balanced(totals, RunAll(totals, Fresh(totals), events))
  {
    if events == [] {
      BitsZero();
    } else {
      RunKeepsBalance(totals, events[..|events| - 1]);
      ServeKeepsBalance(totals, RunAll(totals, Fresh(totals), events[..|events| - 1]), events[|events| - 1]);
    }
  }

  ghost function LiveIn(l: Ledger, cacheID: int): set<Grant> {
    set g | g in l.live && g.cacheID == cacheID
  }

  // ---- One size never fragments --------------------------------------------------------------

  /** The start of the aligned block of `w` ways that contains way `i`. */
  ghost function BlockStart(i: nat, w: nat): nat
    requires w > 0
  {
    if i < w then 0 else w + BlockStart(i - w, w)
  }

  lemma {:induction false} BlockContains(i: nat, w: nat)
    requires w > 0
    ensures BlockStart(i, w) <= i < BlockStart(i, w) + w
  {
    if i >= w { BlockContains(i - w, w); }
  }

  lemma {:induction false} BlockIsShared(i: nat, w: nat, j: nat)
    requires w > 0 && BlockStart(i, w) <= j < BlockStart(i, w) + w
    ensures BlockStart(j, w) == BlockStart(i, w)
  {
    if i >= w { BlockIsShared(i - w, w, j - w); }
  }

  lemma {:induction false} BlockStartIsMultiple(i: nat, w: nat)
    requires w > 0
    ensures i % w == 0 <==> BlockStart(i, w) == i
  {
    if i >= w {
      BlockStartIsMultiple(i - w, w);
      ModShift(i, w);
    }
  }

  lemma {:induction false} ModShift(i: nat, w: nat)
    requires 0 < w <= i
    ensures i % w == (i - w) % w && i / w == (i - w) / w + 1
  {
    var q, r := (i - w) / w, (i - w) % w;
    assert i == (q + 1) * w + r by { assert i - w == q * w + r; assert (q + 1) * w == q * w + w; }
    QuotientUnique(i, w, q + 1, r);
  }

  lemma {:induction false} QuotientUnique(i: nat, w: nat, q: nat, r: nat)
    requires w > 0 && i == q * w + r && r < w
    ensures i / w == q && i % w == r
  {
    var d := i / w - q;
    assert i == (q + d) * w + i % w;
    assert (q + d) * w == q * w + d * w;
    assert d * w == r - i % w;
    assert d > 0 ==> d * w >= w;
    assert d < 0 ==> d * w <= -(w as int);
  }

  /** The starts of the aligned blocks that fit below `total`. */
  ghost function Slots(total: nat, w: nat): set<nat>
    requires w > 0
  {
    set s: nat | s < total && s + w <= total && BlockStart(s, w) == s
  }

  lemma {:induction false} SlotCount(total: nat, w: nat)
    requires w > 0
    ensures |Slots(total, w)| == total / w
  {
    if total < w {
      assert Slots(total, w) == {};
      QuotientUnique(total, w, 0, total);
    } else {
      SlotCount(total - w, w);
      ModShift(total, w);
      var last := BlockStart(total - w, w);
      BlockContains(total - w, w);
      BlockIsShared(total - w, w, last);
      forall s | s in Slots(total, w) ensures s in Slots(total - w, w) + {last} {
        if s + w > total - w {
          BlockIsShared(s, w, total - w);
        }
      }
      assert Slots(total, w) == Slots(total - w, w) + {last};
      assert last !in Slots(total - w, w);
    }
  }

  /** Every live mask of the domain is one aligned block of `w` ways. */
  ghost predicate Aligned(l: Ledger, cacheID: int, w: nat)
    requires w > 0
  {
    forall g | g in LiveIn(l, cacheID) :: g.ways == w && BlockStart(g.start, w) == g.start
  }

  /** In an aligned domain a block is either wholly used or wholly free. */
  lemma {:induction false} BlockIsWhole(totals: map<int, nat>, l: Ledger, cacheID: int, w: nat, i: nat)
    requires w > 0 && Balanced(totals, l) && Aligned(l, cacheID, w)
    requires i !in UsedBits(l.alloc, cacheID)
    ensures Interval(BlockStart(i, w), w) !! UsedBits(l.alloc, cacheID)
  {
    BlockContains(i, w);
    forall j | j in Interval(BlockStart(i, w), w) ensures j !in UsedBits(l.alloc, cacheID) {
      if j in UsedBits(l.alloc, cacheID) {
        var g :| g in l.live && g.cacheID == cacheID && j in Span(g);
        assert g in LiveIn(l, cacheID);
        BlockIsShared(i, w, j);
        BlockIsShared(g.start, w, j);
      }
    }
  }

  lemma {:induction false} ServeKeepsAligned(totals: map<int, nat>, l: Ledger, e: Event, cacheID: int, w: nat)
    requires w > 0 && ValidTotals(totals) && Balanced(totals, l) && Aligned(l, cacheID, w)
    requires e.Request? && e.cacheID == cacheID ==> e.ways == w
    ensures Aligned(Serve(totals, l, e), cacheID, w)
  {
    if e.Request? && e.cacheID == cacheID && Reserve(totals, l.alloc, cacheID, w).0.Ok? {
      var used := UsedBits(l.alloc, cacheID);
      var start := FirstFit(Used(l.alloc, cacheID), totals[cacheID], w, 0).value;
      assert start in Interval(start, w);
      BlockIsWhole(totals, l, cacheID, w, start);
      BlockContains(start, w);
      assert FreeRun(used, totals[cacheID], BlockStart(start, w), w);
    }
  }

  lemma {:induction false} RunKeepsAligned(totals: map<int, nat>, events: seq<Event>, cacheID: int, w: nat)
    requires w > 0 && ValidTotals(totals) && Legal(totals, Fresh(totals), events)
    requires forall e | e in events && e.Request? && e.cacheID == cacheID :: e.ways == w
    ensures Aligned(RunAll(totals, Fresh(totals), events), cacheID, w)
  {
    if events != [] {
      var before := events[..|events| - 1];
      RunKeepsBalance(totals, before);
      RunKeepsAligned(totals, before, cacheID, w);
      ServeKeepsAligned(totals, RunAll(totals, Fresh(totals), before), events[|events| - 1], cacheID, w);
    }
  }

  ghost function Starts(grants: set<Grant>): set<nat> {
    set g | g in grants :: g.start
  }

  lemma {:induction false} StartsSize(grants: set<Grant>)
    ensures |Starts(grants)| <= |grants|
    ensures (forall g, h | g in grants && h in grants && g != h :: g.start != h.start) ==> |Starts(grants)| == |grants|
  {
    if grants == {} {
      assert Starts(grants) == {};
    } else {
      var g :| g in grants;
      StartsSize(grants - {g});
      assert Starts(grants) == Starts(grants - {g}) + {g.start};
    }
  }

  /** The live blocks of an aligned domain are distinct slots. */
  lemma {:induction false} LiveSlots(totals: map<int, nat>, l: Ledger, cacheID: int, w: nat)
    requires Balanced(totals, l) && cacheID in totals && w > 0 && Aligned(l, cacheID, w)
    ensures Starts(LiveIn(l, cacheID)) <= Slots(totals[cacheID], w)
    ensures |Starts(LiveIn(l, cacheID))| == |LiveIn(l, cacheID)|
  {
    var live := LiveIn(l, cacheID);
    forall g, h | g in live && h in live && g != h ensures g.start != h.start {
      assert Span(g) !! Span(h);
      assert g.start in Span(g) && h.start in Span(h);
    }
    StartsSize(live);
  }

  /** A slot that no live mask starts at is free. */
  lemma {:induction false} OpenSlotIsFree(totals: map<int, nat>, l: Ledger, cacheID: int, w: nat, s: nat)
    requires Balanced(totals, l) && cacheID in totals && w > 0 && Aligned(l, cacheID, w)
    requires s in Slots(totals[cacheID], w) && s !in Starts(LiveIn(l, cacheID))
    ensures FreeRun(UsedBits(l.alloc, cacheID), totals[cacheID], s, w)
  {
    forall j | j in Interval(s, w) ensures j !in UsedBits(l.alloc, cacheID) {
      if j in UsedBits(l.alloc, cacheID) {
        var g :| g in l.live && g.cacheID == cacheID && j in Span(g);
        assert g in LiveIn(l, cacheID);
        BlockIsShared(s, w, j);
        BlockIsShared(g.start, w, j);
      }
    }
  }

  lemma {:induction false} InBoth(i: nat, part: set<nat>, whole: set<nat>, other: set<nat>)
    requires i in part && part <= whole && i in other
    ensures !(other !! whole)
  {
  }

  /** When every slot is live, no run of `w` ways is free. */
  lemma {:induction false} FullMeansNoRun(totals: map<int, nat>, l: Ledger, cacheID: int, w: nat, s: nat)
    requires Balanced(totals, l) && cacheID in totals && w > 0 && Aligned(l, cacheID, w)
    requires Slots(totals[cacheID], w) <= Starts(LiveIn(l, cacheID))
    ensures !FreeRun(UsedBits(l.alloc, cacheID), totals[cacheID], s, w)
  {
    if FreeRun(UsedBits(l.alloc, cacheID), totals[cacheID], s, w) {
      BlockContains(s, w);
      BlockIsShared(s, w, BlockStart(s, w));
      assert BlockStart(s, w) in Slots(totals[cacheID], w);
      var g :| g in LiveIn(l, cacheID) && g.start == BlockStart(s, w);
      InBoth(s, Span(g), UsedBits(l.alloc, cacheID), Interval(s, w));
    }
  }

  /** In an aligned domain a request of the common size fails exactly when all the
      `total / w` blocks are live. */
  lemma {:induction false} AlignedFailsWhenFull(totals: map<int, nat>, l: Ledger, cacheID: int, w: nat)
    requires ValidTotals(totals) && Balanced(totals, l)
    requires cacheID in totals && 0 < w <= totals[cacheID] && Aligned(l, cacheID, w)
    ensures Reserve(totals, l.alloc, cacheID, w).0.Err? <==> |LiveIn(l, cacheID)| == totals[cacheID] / w
  {
    var total := totals[cacheID];
    var starts, slots := Starts(LiveIn(l, cacheID)), Slots(total, w);
    LiveSlots(totals, l, cacheID, w);
    SlotCount(total, w);
    ReserveRefuses(totals, l.alloc, cacheID, w);
    if starts == slots {
      forall s: nat ensures !FreeRun(UsedBits(l.alloc, cacheID), total, s, w) {
        FullMeansNoRun(totals, l, cacheID, w, s);
      }
    } else {
      var s :| s in slots && s !in starts;
      OpenSlotIsFree(totals, l, cacheID, w, s);
      SubsetSize(starts, slots - {s});
    }
  }

  /** Uniform requests never fragment a domain: over any legal run in which every request of the
      domain asks for `w` ways, live masks start at multiples of `w`, and a request fails exactly
      when all `total / w` blocks are live. */
  lemma {:induction false} UniformNeverFragments(totals: map<int, nat>, events: seq<Event>, cacheID: int, w: nat)
    requires ValidTotals(totals) && Legal(totals, Fresh(totals), events)
    requires cacheID in totals && 0 < w <= totals[cacheID]
    requires forall e | e in events && e.Request? && e.cacheID == cacheID :: e.ways == w
    ensures var l := RunAll(totals, Fresh(totals), events);
            && (forall g | g in LiveIn(l, cacheID) :: g.ways == w && g.start % w == 0)
            && (Reserve(totals, l.alloc, cacheID, w).0.Err? <==> |LiveIn(l, cacheID)| == totals[cacheID] / w)
  {
    var l := RunAll(totals, Fresh(totals), events);
    RunKeepsBalance(totals, events);
    RunKeepsAligned(totals, events, cacheID, w);
    AlignedFailsWhenFull(totals, l, cacheID, w);
    forall g | g in LiveIn(l, cacheID) ensures g.start % w == 0 { BlockStartIsMultiple(g.start, w); }
  }

  // ---- The pigeonhole bound ------------------------------------------------------------------

  ghost function FreeBelow(used: set<nat>, n: nat): nat {
    if n == 0 then 0 else FreeBelow(used, n - 1) + if n - 1 in used then 0 else 1
  }

  /** The length of the run of free ways that ends just below `n`. */
  ghost function TrailingFree(used: set<nat>, n: nat): nat {
    if n == 0 || n - 1 in used then 0 else TrailingFree(used, n - 1) + 1
  }

  /** The used ways below `n` whose lower neighbour is free: one per maximal used stretch. */
  ghost function Edges(used: set<nat>, n: nat): set<nat> {
    if n == 0 then {}
    else Edges(used, n - 1) + if n - 1 in used && (n == 1 || n - 2 !in used) then {n - 1} else {}
  }

  lemma {:induction false} OneMoreFree(used: set<nat>, m: nat)
    ensures |FreeSet(m + 1, used)| == |FreeSet(m, used)| + if m in used then 0 else 1
  {
    if m in used {
      assert FreeSet(m + 1, used) == FreeSet(m, used);
    } else {
      assert FreeSet(m + 1, used) == FreeSet(m, used) + {m} && m !in FreeSet(m, used);
    }
  }

  lemma {:induction false} FreeBelowSize(used: set<nat>, n: nat)
    ensures FreeBelow(used, n) == |FreeSet(n, used)|
  {
    if n == 0 {
      assert FreeSet(0, used) == {};
    } else {
      FreeBelowSize(used, n - 1);
      OneMoreFree(used, n - 1);
    }
  }

  lemma {:induction false} TrailingRun(used: set<nat>, n: nat)
    ensures TrailingFree(used, n) <= n
    ensures Interval(n - TrailingFree(used, n), TrailingFree(used, n)) !! used
  {
    if n > 0 { TrailingRun(used, n - 1); }
  }

  lemma {:induction false} EdgesBelow(used: set<nat>, n: nat)
    ensures forall i | i in Edges(used, n) :: i < n && i in used && (i == 0 || i - 1 !in used)
  {
    if n > 0 { EdgesBelow(used, n - 1); }
  }

  /** `k` copies of `x`, added up. */
  function Times(k: nat, x: nat): nat {
    if k == 0 then 0 else Times(k - 1, x) + x
  }

  lemma {:induction false} TimesIsProduct(k: nat, x: nat)
    ensures Times(k, x) == k * x
  {
    if k > 0 {
      TimesIsProduct(k - 1, x);
      assert k * x == (k - 1) * x + x;
    }
  }

  lemma {:induction false} TimesMonotone(j: nat, k: nat, x: nat)
    requires j <= k
    ensures Times(j, x) <= Times(k, x)
  {
    if j < k { TimesMonotone(j, k - 1, x); }
  }

  ghost predicate NoRun(used: set<nat>, n: nat, w: nat) {
    forall s: nat :: !FreeRun(used, n, s, w)
  }

  lemma {:induction false} NoRunBelow(used: set<nat>, n: nat, w: nat)
    requires n > 0 && NoRun(used, n, w)
    ensures NoRun(used, n - 1, w)
  {
    var m := n - 1;
    forall s: nat ensures !FreeRun(used, m, s, w) {
      assert FreeRun(used, m, s, w) ==> FreeRun(used, n, s, w);
    }
  }

  lemma {:induction false} ShortTrail(used: set<nat>, n: nat, w: nat)
    requires w > 0 && NoRun(used, n, w)
    ensures TrailingFree(used, n) <= w - 1
  {
    TrailingRun(used, n);
    var t := TrailingFree(used, n);
    if t >= w {
      assert Interval(n - t, w) <= Interval(n - t, t);
      assert FreeRun(used, n, n - t, w);
    }
  }

  /** Without a free run of length `w`, each used stretch pays for at most `w - 1` free ways. */
  lemma {:induction false} FreePaidByEdges(used: set<nat>, n: nat, w: nat)
    requires w > 0 && NoRun(used, n, w)
    ensures FreeBelow(used, n) <= Times(|Edges(used, n)|, w - 1) + TrailingFree(used, n)
  {
    if n > 0 {
      NoRunBelow(used, n, w);
      FreePaidByEdges(used, n - 1, w);
      ShortTrail(used, n - 1, w);
      EdgesBelow(used, n - 1);
      var e := |Edges(used, n - 1)|;
      assert Times(e + 1, w - 1) == Times(e, w - 1) + (w - 1);
      if n - 1 in used && (n == 1 || n - 2 !in used) { assert |Edges(used, n)| == e + 1; }
    }
  }

  /** `used` is exactly the union of the grants. */
  ghost predicate Covers(grants: set<Grant>, used: set<nat>) {
    && (forall g | g in grants :: Span(g) <= used)
    && (forall i | i in used :: exists g :: g in grants && i in Span(g))
  }

  /** Each used stretch begins where some interval of the cover begins. */
  lemma {:induction false} EdgesAreStarts(used: set<nat>, n: nat, grants: set<Grant>)
    requires Covers(grants, used)
    ensures |Edges(used, n)| <= |grants|
  {
    EdgesBelow(used, n);
    forall i | i in Edges(used, n) ensures i in Starts(grants) {
      var g :| g in grants && i in Span(g);
      assert i > 0 && i - 1 in Span(g) ==> i - 1 in used;
    }
    SubsetSize(Edges(used, n), Starts(grants));
    StartsSize(grants);
  }

  lemma {:induction false} NoRunFreeCount(used: set<nat>, total: nat, w: nat)
    requires w > 0 && NoRun(used, total, w)
    ensures |FreeSet(total, used)| <= Times(|Edges(used, total)|, w - 1) + (w - 1)
  {
    FreePaidByEdges(used, total, w);
    ShortTrail(used, total, w);
    FreeBelowSize(used, total);
  }

  lemma {:induction false} ProductBound(free: nat, k: nat, x: nat)
    requires free > (k + 1) * x
    ensures free > Times(k + 1, x)
  {
    TimesIsProduct(k + 1, x);
  }

  lemma {:induction false} ManyFreeWaysSuffice(totals: map<int, nat>, alloc: Occupancy, cacheID: int, w: nat,
        grants: set<Grant>)
    requires ValidTotals(totals) && Covers(grants, UsedBits(alloc, cacheID))
    requires cacheID in totals && 0 < w <= totals[cacheID]
    requires |FreeSet(totals[cacheID], UsedBits(alloc, cacheID))| > (|grants| + 1) * (w - 1)
    ensures Reserve(totals, alloc, cacheID, w).0.Ok?
  {
    var used, total := UsedBits(alloc, cacheID), totals[cacheID];
    ProductBound(|FreeSet(total, used)|, |grants|, w - 1);
    ReserveRefuses(totals, alloc, cacheID, w);
    EdgesAreStarts(used, total, grants);
    TimesMonotone(|Edges(used, total)|, |grants|, w - 1);
    if NoRun(used, total, w) { NoRunFreeCount(used, total, w); }
  }

  /** Pigeonhole bound: over any legal run, a request succeeds whenever the domain has more than
      `(k + 1) * (w - 1)` free ways, where `k` masks are live in it. */
  lemma {:induction false} PigeonholeBound(totals: map<int, nat>, events: seq<Event>, cacheID: int, w: nat)
    requires ValidTotals(totals) && Legal(totals, Fresh(totals), events)
    requires cacheID in totals && 0 < w <= totals[cacheID]
    requires var l := RunAll(totals, Fresh(totals), events);
             |FreeSet(totals[cacheID], UsedBits(l.alloc, cacheID))| > (|LiveIn(l, cacheID)| + 1) * (w - 1)
    ensures Reserve(totals, RunAll(totals, Fresh(totals), events).alloc, cacheID, w).0.Ok?
  {
    var l := RunAll(totals, Fresh(totals), events);
    RunKeepsBalance(totals, events);
    ManyFreeWaysSuffice(totals, l.alloc, cacheID, w, LiveIn(l, cacheID));
  }

  // ---- The bound is tight --------------------------------------------------------------------

  /** `k` used ways, at every `w`-th position: ways w - 1, 2w - 1, ... */
  function Fence(k: nat, w: nat): Word {
    if k == 0 then 0 else Or(Fence(k - 1, w), OneBit(Post(k, w)))
  }

  function Post(k: nat, w: nat): int {
    Times(k, w) - 1
  }

  ghost predicate IsPost(k: nat, w: nat, i: nat) {
    exists j: nat :: 1 <= j <= k && i == Post(j, w)
  }

  lemma {:induction false} PostsRise(j: nat, k: nat, w: nat)
    requires j <= k && w >= 1
    ensures Times(j, w) <= Times(k, w) && (j < k ==> Times(j, w) + w <= Times(k, w))
    decreases k
  {
    if j < k { PostsRise(j, k - 1, w); }
  }

  lemma {:induction false} FenceBits(k: nat, w: nat)
    requires w >= 1 && Times(k, w) <= 64
    ensures forall i: nat :: i in Bits(Fence(k, w)) <==> IsPost(k, w, i)
    ensures |Bits(Fence(k, w))| == k
  {
    if k == 0 {
      BitsZero();
    } else {
      PostsRise(k - 1, k, w);
      FenceBits(k - 1, w);
      BitsOr(Fence(k - 1, w), OneBit(Post(k, w)));
      BitsOneBit(Post(k, w));
      LastPost(k, w);
    }
  }

  lemma {:induction false} LastPost(k: nat, w: nat)
    requires k >= 1 && w >= 1
    ensures !IsPost(k - 1, w, Post(k, w))
    ensures forall i: nat :: IsPost(k, w, i) <==> IsPost(k - 1, w, i) || i == Post(k, w)
  {
    if IsPost(k - 1, w, Post(k, w)) {
      var j: nat :| 1 <= j <= k - 1 && Post(k, w) == Post(j, w);
      PostsRise(j, k, w);
    }
    assert 1 <= k <= k;
    forall i: nat | IsPost(k - 1, w, i) ensures IsPost(k, w, i) {
      var j: nat :| 1 <= j <= k - 1 && i == Post(j, w);
      assert 1 <= j <= k;
    }
  }

  /** Every run of `w` ways below way `(k + 1) * w - 1` meets one of the used ways. */
  lemma {:induction false} PostInReach(k: nat, w: nat, s: nat) returns (j: nat)
    requires w >= 1 && s + w <= Times(k, w) + w - 1
    ensures 1 <= j <= k && s <= Post(j, w) < s + w
  {
    if s < Times(k - 1, w) {
      j := PostInReach(k - 1, w, s);
    } else {
      j := k;
    }
  }

  /** The bound cannot be lowered. For every number `k` of used stretches and every size, a domain of
      `(k + 1) * w - 1` ways with `k` single ways in use has exactly `(k + 1) * (w - 1)` free ways and
      refuses a request for `w`. */
  lemma {:induction false} BoundIsTight(k: nat, w: nat, totals: map<int, nat>, alloc: Occupancy)
    requires w >= 1 && totals == map[0 := Times(k, w) + w - 1] && ValidTotals(totals) && w <= totals[0]
    requires alloc == map[0 := Fence(k, w)]
    ensures |UsedBits(alloc, 0)| == k && Covers(set i | i in UsedBits(alloc, 0) :: Grant(0, i, 1), UsedBits(alloc, 0))
    ensures |FreeSet(totals[0], UsedBits(alloc, 0))| == (k + 1) * (w - 1)
    ensures Reserve(totals, alloc, 0, w).0 == Err(NoFreeRun)
  {
    FenceBits(k, w);
    FenceCount(k, w, totals[0], UsedBits(alloc, 0));
    FenceRefuses(k, w, totals[0], UsedBits(alloc, 0));
    SinglesCover(UsedBits(alloc, 0));
    RefusedWithoutRun(totals, alloc, 0, w);
  }

  lemma {:induction false} RefusedWithoutRun(totals: map<int, nat>, alloc: Occupancy, cacheID: int, w: nat)
    requires ValidTotals(totals) && cacheID in totals && 1 <= w <= totals[cacheID]
    requires NoRun(UsedBits(alloc, cacheID), totals[cacheID], w)
    ensures Reserve(totals, alloc, cacheID, w).0 == Err(NoFreeRun)
  {
    ReserveRefuses(totals, alloc, cacheID, w);
  }

  lemma {:induction false} FenceRefuses(k: nat, w: nat, total: nat, used: set<nat>)
    requires w >= 1 && total == Times(k, w) + w - 1 && forall i: nat :: i in used <==> IsPost(k, w, i)
    ensures NoRun(used, total, w)
  {
    forall s: nat ensures !FreeRun(used, total, s, w) {
      if s + w <= total {
        var j := PostInReach(k, w, s);
        assert IsPost(k, w, Post(j, w)) && Post(j, w) in Interval(s, w);
      }
    }
  }

  lemma {:induction false} FenceCount(k: nat, w: nat, total: nat, used: set<nat>)
    requires w >= 1 && total == Times(k, w) + w - 1
    requires |used| == k && forall i: nat :: i in used <==> IsPost(k, w, i)
    ensures |FreeSet(total, used)| == (k + 1) * (w - 1)
  {
    forall i | i in used ensures i in Interval(0, total) {
      var j: nat :| 1 <= j <= k && i == Post(j, w);
      PostsRise(j, k, w);
    }
    FreeAndUsed(total, used);
    LessOnePerPost(k, w);
    TimesIsProduct(k + 1, w - 1);
  }

  lemma {:induction false} FreeAndUsed(total: nat, used: set<nat>)
    requires used <= Interval(0, total)
    ensures |FreeSet(total, used)| == total - |used|
  {
    IntervalSize(0, total);
    assert Interval(0, total) == FreeSet(total, used) + used;
  }

  lemma {:induction false} LessOnePerPost(k: nat, w: nat)
    requires w >= 1
    ensures Times(k, w) + w - 1 - k == Times(k + 1, w - 1)
  {
    if k > 0 { LessOnePerPost(k - 1, w); }
  }

  lemma {:induction false} SinglesCover(used: set<nat>)
    ensures Covers(set i | i in used :: Grant(0, i, 1), used)
  {
    var grants := set i | i in used :: Grant(0, i, 1);
    forall i | i in used ensures exists g :: g in grants && i in Span(g) {
      assert Grant(0, i, 1) in grants && i in Span(Grant(0, i, 1));
    }
  }

  // ---- Without releases ----------------------------------------------------------------------

  /** Every request in turn is granted. */
  predicate AllGranted(totals: map<int, nat>, alloc: Occupancy, requests: seq<(int, int)>)
    requires ValidTotals(totals)
    decreases |requests|
  {
    requests == []
    || (var (r, after) := Reserve(totals, alloc, requests[0].0, requests[0].1);
        r.Ok? && AllGranted(totals, after, requests[1..]))
  }

  function Demand(requests: seq<(int, int)>, cacheID: int): int {
    if requests == [] then 0
    else (if requests[0].0 == cacheID then requests[0].1 else 0) + Demand(requests[1..], cacheID)
  }

  lemma {:induction false} DemandPositive(requests: seq<(int, int)>, cacheID: int)
    requires forall r | r in requests :: r.1 >= 1
    ensures Demand(requests, cacheID) >= 0
  {
    if requests != [] { DemandPositive(requests[1..], cacheID); }
  }

  /** From a prefix of used ways, a request succeeds exactly when it is no larger than the number
      of free ways. */
  lemma {:induction false} PrefixAccepts(totals: map<int, nat>, alloc: Occupancy, cacheID: int, ways: int, p: nat)
    requires ValidTotals(totals) && cacheID in totals && p <= totals[cacheID]
    requires UsedBits(alloc, cacheID) == Interval(0, p)
    ensures |FreeSet(totals[cacheID], UsedBits(alloc, cacheID))| == totals[cacheID] - p
    ensures Reserve(totals, alloc, cacheID, ways).0.Ok? <==> 1 <= ways <= totals[cacheID] - p
  {
    var total, used := totals[cacheID], UsedBits(alloc, cacheID);
    assert FreeSet(total, used) == Interval(p, total - p);
    IntervalSize(p, total - p);
    ReserveRefuses(totals, alloc, cacheID, ways);
    if 1 <= ways <= total {
      forall s: nat | FreeRun(used, total, s, ways) ensures s >= p {
        assert s in Interval(s, ways);
      }
      if ways <= total - p { assert FreeRun(used, total, p, ways); }
    }
  }

  lemma {:induction false} LowestAbovePrefix(p: nat, total: int, ways: int, start: nat)
    requires ways >= 1 && p + ways <= total && LowestRun(Interval(0, p), total, ways, start)
    ensures start == p
  {
    assert start in Interval(start, ways);
    assert FreeRun(Interval(0, p), total, p, ways);
  }

  /** First fit extends the prefix. */
  lemma {:induction false} PrefixExtends(totals: map<int, nat>, alloc: Occupancy, cacheID: int, ways: int, p: nat)
    requires ValidTotals(totals) && cacheID in totals && p <= totals[cacheID]
    requires UsedBits(alloc, cacheID) == Interval(0, p) && 1 <= ways <= totals[cacheID] - p
    requires Reserve(totals, alloc, cacheID, ways).0.Ok?
    ensures UsedBits(Reserve(totals, alloc, cacheID, ways).1, cacheID) == Interval(0, p + ways)
    ensures forall c | c != cacheID :: UsedBits(Reserve(totals, alloc, cacheID, ways).1, c) == UsedBits(alloc, c)
  {
    ReserveGrants(totals, alloc, cacheID, ways);
    var r := Reserve(totals, alloc, cacheID, ways).0;
    var start: nat :| LowestRun(UsedBits(alloc, cacheID), totals[cacheID], ways, start)
                      && Bits(r.value) == Interval(start, ways);
    LowestAbovePrefix(p, totals[cacheID], ways, start);
  }

  /** `p(c)` is how many low ways of domain `c` are used. */
  lemma {:induction false} PrefixRun(totals: map<int, nat>, alloc: Occupancy, requests: seq<(int, int)>, p: int -> nat)
    requires ValidTotals(totals)
    requires forall c | c in totals :: p(c) <= totals[c] && UsedBits(alloc, c) == Interval(0, p(c))
    requires forall r | r in requests :: r.0 in totals && r.1 >= 1
    ensures AllGranted(totals, alloc, requests)
            <==> forall c | c in totals :: p(c) + Demand(requests, c) <= totals[c]
    decreases |requests|
  {
    if requests != [] {
      assert requests[0] in requests;
      var (c, ways) := requests[0];
      forall d { DemandPositive(requests[1..], d); }
      PrefixAccepts(totals, alloc, c, ways, p(c));
      var (r, after) := Reserve(totals, alloc, c, ways);
      if r.Ok? {
        PrefixExtends(totals, alloc, c, ways, p(c));
        var q := d => if d == c then p(c) + ways else p(d);
        forall d | d in totals ensures q(d) + Demand(requests[1..], d) == p(d) + Demand(requests, d) { }
        PrefixRun(totals, after, requests[1..], q);
      } else {
        assert p(c) + Demand(requests, c) > totals[c];
      }
    }
  }

  /** Without releases, a sequence of requests is granted in full exactly when the demand on each
      domain is within its total, so whatever the published per-domain counter admits succeeds. */
  lemma {:induction false} CounterSufficesWithoutReleases(totals: map<int, nat>, requests: seq<(int, int)>)
    requires ValidTotals(totals)
    requires forall r | r in requests :: r.0 in totals && r.1 >= 1
    ensures AllGranted(totals, Fresh(totals).alloc, requests)
            <==> forall c | c in totals :: Demand(requests, c) <= totals[c]
  {
    BitsZero();
    forall c | c in totals ensures UsedBits(Fresh(totals).alloc, c) == Interval(0, 0) { }
    PrefixRun(totals, Fresh(totals).alloc, requests, _ => 0);
  }

  // ---- When exactly the counter is enough ------------------------------------------------------

  /** The free ways of a domain are one stretch. */
  ghost predicate OneStretch(total: nat, used: set<nat>) {
    exists s: nat :: FreeSet(total, used) == Interval(s, |FreeSet(total, used)|)
  }

  lemma {:induction false} SubsetOfSameSize(a: set<nat>, b: set<nat>)
    requires a <= b && |a| == |b|
    ensures a == b
  {
    assert b == a + (b - a);
    assert |b - a| == 0;
  }

  lemma {:induction false} AllFreeGranted(totals: map<int, nat>, alloc: Occupancy, cacheID: int)
    requires ValidTotals(totals) && cacheID in totals
    requires var n := |FreeSet(totals[cacheID], UsedBits(alloc, cacheID))|;
             n > 0 ==> Reserve(totals, alloc, cacheID, n).0.Ok?
    ensures OneStretch(totals[cacheID], UsedBits(alloc, cacheID))
  {
    var total, used := totals[cacheID], UsedBits(alloc, cacheID);
    var free := FreeSet(total, used);
    if |free| == 0 {
      assert free == Interval(0, 0);
    } else {
      ReserveGrants(totals, alloc, cacheID, |free|);
      var start: nat :| LowestRun(used, total, |free|, start);
      IntervalSize(start, |free|);
      SubsetOfSameSize(Interval(start, |free|), free);
    }
  }

  lemma {:induction false} StretchGrants(totals: map<int, nat>, alloc: Occupancy, cacheID: int, w: nat)
    requires ValidTotals(totals) && cacheID in totals
    requires OneStretch(totals[cacheID], UsedBits(alloc, cacheID))
    requires 1 <= w <= |FreeSet(totals[cacheID], UsedBits(alloc, cacheID))|
    ensures Reserve(totals, alloc, cacheID, w).0.Ok?
  {
    var total, used := totals[cacheID], UsedBits(alloc, cacheID);
    var free := FreeSet(total, used);
    var s: nat :| free == Interval(s, |free|);
    assert s + |free| - 1 in Interval(s, |free|);
    assert Interval(s, w) <= free;
    assert FreeRun(used, total, s, w);
    ReserveRefuses(totals, alloc, cacheID, w);
  }

  /** The number of free ways, which is all the scheduler sees, decides whether a request is granted
      exactly when the free ways are one stretch. */
  lemma {:induction false} CounterDecidesExactly(totals: map<int, nat>, alloc: Occupancy, cacheID: int)
    requires ValidTotals(totals) && cacheID in totals
    ensures var n := |FreeSet(totals[cacheID], UsedBits(alloc, cacheID))|;
            (forall w | 1 <= w <= n :: Reserve(totals, alloc, cacheID, w).0.Ok?)
            <==> OneStretch(totals[cacheID], UsedBits(alloc, cacheID))
  {
    var n := |FreeSet(totals[cacheID], UsedBits(alloc, cacheID))|;
    if OneStretch(totals[cacheID], UsedBits(alloc, cacheID)) {
      forall w | 1 <= w <= n ensures Reserve(totals, alloc, cacheID, w).0.Ok? {
        StretchGrants(totals, alloc, cacheID, w);
      }
    }
    if forall w | 1 <= w <= n :: Reserve(totals, alloc, cacheID, w).0.Ok? {
      AllFreeGranted(totals, alloc, cacheID);
    }
  }

  /** An instance: three one-way grants and the return of the middle one leave two of the four ways
      free, but not as one stretch; and a request for two is refused. */
  lemma {:induction false} CounterFailsAfterReleases() returns (totals: map<int, nat>, events: seq<Event>)
    ensures totals == map[0 := 4]
    ensures events == [Request(0, 1), Request(0, 1), Request(0, 1), Return(Grant(0, 1, 1))]
    ensures Legal(totals, Fresh(totals), events)
    ensures var alloc := RunAll(totals, Fresh(totals), events).alloc;
            && |FreeSet(4, UsedBits(alloc, 0))| == 2 && Reserve(totals, alloc, 0, 2).0 == Err(NoFreeRun)
            && !OneStretch(4, UsedBits(alloc, 0))
  {
    totals, events := map[0 := 4], [Request(0, 1), Request(0, 1), Request(0, 1), Return(Grant(0, 1, 1))];
    ThreeGrantsOneReturn(totals, events);
    CounterDecidesExactly(totals, RunAll(totals, Fresh(totals), events).alloc, 0);
  }

  lemma {:induction false} ThreeGrantsOneReturn(totals: map<int, nat>, events: seq<Event>)
    requires totals == map[0 := 4] && |events| == 4
    requires events[0] == events[1] == events[2] == Request(0, 1) && events[3] == Return(Grant(0, 1, 1))
    ensures Legal(totals, Fresh(totals), events)
    ensures var alloc := RunAll(totals, Fresh(totals), events).alloc;
            |FreeSet(4, UsedBits(alloc, 0))| == 2 && Reserve(totals, alloc, 0, 2).0 == Err(NoFreeRun)
  {
    EmptyDomain(totals);
    var l3 := ThreeGrants(totals, Fresh(totals), events[0]);
    FourSteps(totals, Fresh(totals), events);
    TwoHoles(totals, l3.alloc);
  }

  lemma {:induction false} ThreeGrants(totals: map<int, nat>, l: Ledger, e: Event) returns (l3: Ledger)
    requires totals == map[0 := 4] && e == Request(0, 1) && UsedBits(l.alloc, 0) == Interval(0, 0)
    ensures l3 == Serve(totals, Serve(totals, Serve(totals, l, e), e), e)
    ensures UsedBits(l3.alloc, 0) == Interval(0, 3) && Grant(0, 1, 1) in l3.live
  {
    var l1 := GrantOne(totals, l, 0);
    var l2 := GrantOne(totals, l1, 1);
    l3 := GrantOne(totals, l2, 2);
  }

  lemma {:induction false} EmptyDomain(totals: map<int, nat>)
    ensures forall c :: UsedBits(Fresh(totals).alloc, c) == Interval(0, 0)
  {
    BitsZero();
  }

  lemma {:induction false} TwoHoles(totals: map<int, nat>, alloc: Occupancy)
    requires totals == map[0 := 4] && UsedBits(alloc, 0) == Interval(0, 3)
    ensures var after := Free(alloc, 0, Ways(Grant(0, 1, 1)));
            |FreeSet(4, UsedBits(after, 0))| == 2 && Reserve(totals, after, 0, 2).0 == Err(NoFreeRun)
  {
    var after := Free(alloc, 0, Ways(Grant(0, 1, 1)));
    MaskIsInterval(1, 1);
    FreeMeaning(alloc, 0, Ways(Grant(0, 1, 1)));
    HolesAtOneAndThree(UsedBits(after, 0));
    RefusedWithoutRun(totals, after, 0, 2);
  }

  lemma {:induction false} HolesAtOneAndThree(used: set<nat>)
    requires used == Interval(0, 3) - Interval(1, 1)
    ensures |FreeSet(4, used)| == 2 && NoRun(used, 4, 2)
  {
    assert forall i: nat :: i in FreeSet(4, used) <==> i == 1 || i == 3;
    assert FreeSet(4, used) == {1, 3};
    forall s: nat ensures !FreeRun(used, 4, s, 2) {
      assert s in Interval(s, 2) && s + 1 in Interval(s, 2);
      assert s <= 2 ==> s in used || s + 1 in used;
    }
  }

  lemma {:induction false} GrantOne(totals: map<int, nat>, l: Ledger, p: nat) returns (next: Ledger)
    requires totals == map[0 := 4] && p < 4 && UsedBits(l.alloc, 0) == Interval(0, p)
    ensures next == Serve(totals, l, Request(0, 1))
    ensures next.live == l.live + {Grant(0, p, 1)} && UsedBits(next.alloc, 0) == Interval(0, p + 1)
  {
    next := Serve(totals, l, Request(0, 1));
    PrefixAccepts(totals, l.alloc, 0, 1, p);
    PrefixExtends(totals, l.alloc, 0, 1, p);
    LowestAbovePrefix(p, 4, 1, FirstFit(Used(l.alloc, 0), 4, 1, 0).value);
  }

  lemma {:induction false} FourSteps(totals: map<int, nat>, l: Ledger, e: seq<Event>)
    requires ValidTotals(totals) && |e| == 4 && e[0].Request? && e[1].Request? && e[2].Request? && e[3].Return?
    ensures var l3 := Serve(totals, Serve(totals, Serve(totals, l, e[0]), e[1]), e[2]);
            && RunAll(totals, l, e) == Serve(totals, l3, e[3])
            && (Legal(totals, l, e) <==> e[3].grant in l3.live)
  {
    assert e[..3][..2] == e[..2] && e[..2][..1] == e[..1] && e[..1][..0] == [];
    assert RunAll(totals, l, e[..1]) == Serve(totals, l, e[0]);
    assert RunAll(totals, l, e[..2]) == Serve(totals, Serve(totals, l, e[0]), e[1]);
    assert Legal(totals, l, e[..1]) && Legal(totals, l, e[..2]) && Legal(totals, l, e[..3]);
  }
}
