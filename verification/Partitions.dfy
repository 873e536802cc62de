/** Static partitioning of basic mode (`pkg/cache/partition.go`). */
module Partitions {
  import opened Options
  import opened Masks
  import opened Text
  import opened Schemata
  import opened Names

  datatype CATInfo = CATInfo(numCLOSIDs: int, cbmMask: Word, minCBMBits: int, cacheIDs: seq<int>)

  /** `count` partitions of `ways` ways each. */
  datatype PartitionSpec = PartitionSpec(ways: int, count: int)

  datatype CachePartition = CachePartition(
    id: string, cacheID: int, index: nat, ways: int, totalWays: nat, cbm: string,
    sizeBytes: int, waySizeBytes: int, minCBMBits: int, level: string,
    numaNode: int, cpuList: string, resctrlGroup: string, settings: Settings)

  /** What `ApplyMBA`, `ApplySMBA` and `ApplyL2` set on every partition. */
  datatype Settings = Settings(mbaThrottle: int, mbaMode: string, smbaThrottle: int, smbaMode: string,
                               l2Ways: int, l2TotalWays: int, l2CBM: string)

  datatype PartitionError = NoSpecs | BelowMinimum | AboveTotal | TooManyWays | TooManyPartitions

  // ---- Specs ---------------------------------------------------------------------------------

  function SpecsFromCount(count: int, totalWays: nat): seq<PartitionSpec> {
    if count <= 0 then []
    else
      var base, remainder := totalWays / count, totalWays % count;
      (if remainder > 0 then [PartitionSpec(base + 1, remainder)] else []) + [PartitionSpec(base, count - remainder)]
  }

  /** The checks of `PartitionCache`, in its order. */
  function Check(specs: seq<PartitionSpec>, info: CATInfo, total: nat): Option<PartitionError> {
    if specs == [] then Some(NoSpecs)
    else match CheckEach(specs, info, total)
      case Some(e) => Some(e)
      case None =>
        if Requested(specs) > total then Some(TooManyWays)
        else if Counted(specs) > info.numCLOSIDs - 1 then Some(TooManyPartitions)
        else None
  }

  function CheckEach(specs: seq<PartitionSpec>, info: CATInfo, total: nat): Option<PartitionError> {
    if specs == [] then None
    else if specs[0].ways < info.minCBMBits then Some(BelowMinimum)
    else if specs[0].ways > total then Some(AboveTotal)
    else CheckEach(specs[1..], info, total)
  }

  function Requested(specs: seq<PartitionSpec>): int {
    if specs == [] then 0 else Requested(specs[..|specs| - 1]) + specs[|specs| - 1].ways * specs[|specs| - 1].count
  }

  function Counted(specs: seq<PartitionSpec>): int {
    if specs == [] then 0 else Counted(specs[..|specs| - 1]) + specs[|specs| - 1].count
  }

  // ---- Layout --------------------------------------------------------------------------------

  /** `ways`, `count` times. */
  function Repeat(ways: int, count: int): seq<int>
    decreases if count < 0 then 0 else count
  {
    if count <= 0 then [] else Repeat(ways, count - 1) + [ways]
  }

  /** The widths of a domain's partitions, in order. */
  function Widths(specs: seq<PartitionSpec>): seq<int> {
    if specs == [] then []
    else Widths(specs[..|specs| - 1]) + Repeat(specs[|specs| - 1].ways, specs[|specs| - 1].count)
  }

  function Sum(widths: seq<int>): int {
    if widths == [] then 0 else Sum(widths[..|widths| - 1]) + widths[|widths| - 1]
  }

  /** What is known of a cache domain besides the masks. */
  datatype Domain = Domain(cacheID: int, totalWays: nat, waySizeBytes: int, minCBMBits: int, numaNode: int, cpuList: string)

  function NewPartition(d: Domain, index: nat, ways: int, cbm: Word): CachePartition {
    CachePartition(
      DeviceName(CacheDevice, d.cacheID, index), d.cacheID, index, ways, d.totalWays, MaskHex(cbm),
      if d.waySizeBytes > 0 then ways * d.waySizeBytes else 0, d.waySizeBytes, d.minCBMBits, "L3",
      d.numaNode, d.cpuList, "dra-" + DeviceName(CacheDevice, d.cacheID, index),
      Settings(0, "", 0, "", 0, 0, ""))
  }

  function PartitionOf(d: Domain, index: nat, start: int, ways: int): CachePartition {
    NewPartition(d, index, ways, WayMask(start, ways))
  }

  /** One domain: each partition starts where the previous one ended. */
  function Layout(d: Domain, widths: seq<int>): (parts: seq<CachePartition>)
    ensures |parts| == |widths|
  {
    if widths == [] then []
    else
      var before := widths[..|widths| - 1];
      Layout(d, before) + [PartitionOf(d, |before|, Sum(before), widths[|before|])]
  }

  /** The optional lookup tables; None is Go's nil map. */
  datatype Tables = Tables(numa: Option<map<int, int>>, size: Option<map<int, int>>, cpu: Option<map<int, string>>)

  function CacheSize(tables: Tables, cacheID: int): int {
    if tables.size.Some? && cacheID in tables.size.value then tables.size.value[cacheID] else 0
  }

  function DomainOf(info: CATInfo, total: nat, tables: Tables, cacheID: int): Domain {
    var size := CacheSize(tables, cacheID);
    Domain(cacheID, total, if size > 0 && total > 0 then size / total else 0, info.minCBMBits,
           if tables.numa.Some? && cacheID in tables.numa.value then tables.numa.value[cacheID] else -1,
           if tables.cpu.Some? && cacheID in tables.cpu.value then tables.cpu.value[cacheID] else "")
  }

  function Layouts(info: CATInfo, total: nat, specs: seq<PartitionSpec>, tables: Tables, ids: seq<int>)
    : (perCache: seq<seq<CachePartition>>)
    ensures |perCache| == |ids|
    ensures forall k | 0 <= k < |ids| :: perCache[k] == Layout(DomainOf(info, total, tables, ids[k]), Widths(specs))
  {
    if ids == [] then []
    else Layouts(info, total, specs, tables, ids[..|ids| - 1])
         + [Layout(DomainOf(info, total, tables, ids[|ids| - 1]), Widths(specs))]
  }

  ghost function TotalWays(info: CATInfo): nat {
    |Bits(info.cbmMask)|
  }

  ghost function Partitioned(info: CATInfo, specs: seq<PartitionSpec>, tables: Tables)
    : Result<seq<seq<CachePartition>>, PartitionError>
  {
    match Check(specs, info, TotalWays(info))
    case Some(e) => Err(e)
    case None => Ok(Layouts(info, TotalWays(info), specs, tables, info.cacheIDs))
  }

  lemma {:induction false} CheckEachSplit(a: seq<PartitionSpec>, b: seq<PartitionSpec>, info: CATInfo, total: nat)
    requires CheckEach(a, info, total) == None
    ensures CheckEach(a + b, info, total) == CheckEach(b, info, total)
  {
    if a == [] {
      assert a + b == b;
    } else {
      assert (a + b)[1..] == a[1..] + b;
      CheckEachSplit(a[1..], b, info, total);
    }
  }

  method PartitionCache(info: CATInfo, specs: seq<PartitionSpec>, tables: Tables)
    returns (r: Result<seq<seq<CachePartition>>, PartitionError>)
    ensures r == Partitioned(info, specs, tables)
  {
    var totalWays := NumWays(info.cbmMask);
    var problem := ValidateSpecs(info, totalWays, specs);
    if problem.Some? { return Err(problem.value); }
    var all := PartitionDomains(info, totalWays, specs, tables);
    return Ok(all);
  }

  /** The loop over the cache domains. */
  method PartitionDomains(info: CATInfo, totalWays: nat, specs: seq<PartitionSpec>, tables: Tables)
    returns (all: seq<seq<CachePartition>>)
    ensures all == Layouts(info, totalWays, specs, tables, info.cacheIDs)
  {
    all := [];
    var c := 0;
    while c < |info.cacheIDs|
      invariant 0 <= c <= |info.cacheIDs|
      invariant all == Layouts(info, totalWays, specs, tables, info.cacheIDs[..c])
    {
      var partitions := PartitionDomain(DomainOf(info, totalWays, tables, info.cacheIDs[c]), specs);
      LayoutsStep(info, totalWays, specs, tables, c);
      all := all + [partitions];
      c := c + 1;
    }
    assert info.cacheIDs[..c] == info.cacheIDs;
  }

  lemma {:induction false} LayoutsStep(info: CATInfo, total: nat, specs: seq<PartitionSpec>, tables: Tables, c: nat)
    requires c < |info.cacheIDs|
    ensures Layouts(info, total, specs, tables, info.cacheIDs[..c + 1])
            == Layouts(info, total, specs, tables, info.cacheIDs[..c])
               + [Layout(DomainOf(info, total, tables, info.cacheIDs[c]), Widths(specs))]
  {
    assert info.cacheIDs[..c + 1][..c] == info.cacheIDs[..c];
  }

  /** The validation part of `PartitionCache`. */
  method ValidateSpecs(info: CATInfo, totalWays: nat, specs: seq<PartitionSpec>) returns (problem: Option<PartitionError>)
    ensures problem == Check(specs, info, totalWays)
  {
    if |specs| == 0 { return Some(NoSpecs); }
    var totalRequested, totalCount, n := 0, 0, 0;
    while n < |specs|
      invariant 0 <= n <= |specs|
      invariant CheckEach(specs[..n], info, totalWays) == None
      invariant totalRequested == Requested(specs[..n]) && totalCount == Counted(specs[..n])
    {
      var s := specs[n];
      assert specs == specs[..n] + specs[n..];
      CheckEachSplit(specs[..n], specs[n..], info, totalWays);
      if s.ways < info.minCBMBits { return Some(BelowMinimum); }
      if s.ways > totalWays { return Some(AboveTotal); }
      assert specs[..n + 1][..n] == specs[..n] && specs[..n + 1] == specs[..n] + [s];
      CheckEachSplit(specs[..n], [s], info, totalWays);
      totalRequested := totalRequested + s.ways * s.count;
      totalCount := totalCount + s.count;
      n := n + 1;
    }
    assert specs[..n] == specs;
    if totalRequested > totalWays { return Some(TooManyWays); }
    if totalCount > info.numCLOSIDs - 1 { return Some(TooManyPartitions); }
    return None;
  }

  /** The loop over the specs, for one cache domain. */
  method PartitionDomain(d: Domain, specs: seq<PartitionSpec>) returns (partitions: seq<CachePartition>)
    ensures partitions == Layout(d, Widths(specs))
  {
    partitions := [];
    var startWay, n := 0, 0;
    while n < |specs|
      invariant 0 <= n <= |specs|
      invariant partitions == Layout(d, Widths(specs[..n])) && startWay == Sum(Widths(specs[..n]))
    {
      partitions, startWay := AddPartitions(d, specs[n], partitions, startWay, Widths(specs[..n]));
      assert specs[..n + 1][..n] == specs[..n];
      n := n + 1;
    }
    assert specs[..n] == specs;
  }

  lemma {:induction false} LayoutSnoc(d: Domain, widths: seq<int>, w: int)
    ensures Layout(d, widths + [w]) == Layout(d, widths) + [PartitionOf(d, |widths|, Sum(widths), w)]
    ensures Sum(widths + [w]) == Sum(widths) + w
  {
    assert (widths + [w])[..|widths|] == widths;
  }

  method BuildPartition(d: Domain, index: nat, startWay: int, ways: int) returns (p: CachePartition)
    ensures p == PartitionOf(d, index, startWay, ways)
  {
    var cbm := BuildMask(startWay, ways);
    p := NewPartition(d, index, ways, cbm);
  }

  /** The loop over the partitions of one spec. The partition index runs on across specs. */
  method AddPartitions(d: Domain, spec: PartitionSpec, before: seq<CachePartition>, start: int, ghost widths: seq<int>)
    returns (partitions: seq<CachePartition>, startWay: int)
    requires before == Layout(d, widths) && start == Sum(widths)
    ensures partitions == Layout(d, widths + Repeat(spec.ways, spec.count))
    ensures startWay == Sum(widths + Repeat(spec.ways, spec.count))
  {
    partitions, startWay := before, start;
    var globalIdx, j := |before|, 0;
    ghost var built: seq<int> := [];
    assert widths + [] == widths;
    while j < spec.count
      invariant 0 <= j && built == Repeat(spec.ways, j) && (j > 0 ==> j <= spec.count)
      invariant partitions == Layout(d, widths + built) && startWay == Sum(widths + built)
      invariant globalIdx == |widths + built|
    {
      LayoutSnoc(d, widths + built, spec.ways);
      AppendLast(widths, built, spec.ways);
      var p := BuildPartition(d, globalIdx, startWay, spec.ways);
      partitions := partitions + [p];
      startWay := startWay + spec.ways;
      globalIdx := globalIdx + 1;
      built := built + [spec.ways];
      j := j + 1;
    }
    assert built == Repeat(spec.ways, spec.count);
  }

  lemma {:induction false} AppendLast(a: seq<int>, b: seq<int>, w: int)
    ensures a + b + [w] == a + (b + [w])
  {
  }

  // ---- Tiling --------------------------------------------------------------------------------

  /** What the flag parser and `SpecsFromCount` guarantee. */
  predicate PlainSpecs(specs: seq<PartitionSpec>) {
    forall s | s in specs :: s.ways >= 0 && s.count >= 0
  }

  predicate NonNegative(widths: seq<int>) {
    forall k | 0 <= k < |widths| :: widths[k] >= 0
  }

  lemma {:induction false} RepeatLength(ways: int, count: int)
    requires count >= 0
    ensures |Repeat(ways, count)| == count
    ensures forall k | 0 <= k < count :: Repeat(ways, count)[k] == ways
  {
    if count > 0 { RepeatLength(ways, count - 1); }
  }

  lemma {:induction false} RepeatSum(ways: int, count: int)
    requires count >= 0
    ensures Sum(Repeat(ways, count)) == ways * count
  {
    if count > 0 {
      RepeatSum(ways, count - 1);
      var r := Repeat(ways, count);
      assert r[..|r| - 1] == Repeat(ways, count - 1);
    }
  }

  lemma {:induction false} SumConcat(a: seq<int>, b: seq<int>)
    ensures Sum(a + b) == Sum(a) + Sum(b)
  {
    if b == [] {
      assert a + b == a;
    } else {
      assert (a + b)[..|a + b| - 1] == a + b[..|b| - 1];
      SumConcat(a, b[..|b| - 1]);
    }
  }

  lemma {:induction false} WidthsFacts(specs: seq<PartitionSpec>)
    requires PlainSpecs(specs)
    ensures |Widths(specs)| == Counted(specs) && Sum(Widths(specs)) == Requested(specs)
    ensures NonNegative(Widths(specs))
  {
    if specs != [] {
      var before, last := specs[..|specs| - 1], specs[|specs| - 1];
      assert last in specs;
      WidthsFacts(before);
      RepeatLength(last.ways, last.count);
      RepeatSum(last.ways, last.count);
      SumConcat(Widths(before), Repeat(last.ways, last.count));
    }
  }

  lemma {:induction false} SumMonotone(widths: seq<int>, j: nat)
    requires j <= |widths| && NonNegative(widths)
    ensures 0 <= Sum(widths[..j]) <= Sum(widths)
    decreases |widths|
  {
    if j < |widths| {
      var before := widths[..|widths| - 1];
      SumMonotone(before, j);
      assert before[..j] == widths[..j];
    } else {
      assert widths[..j] == widths;
      if widths != [] {
        SumMonotone(widths[..|widths| - 1], |widths| - 1);
        assert widths[..|widths| - 1][..|widths| - 1] == widths[..|widths| - 1];
      }
    }
  }

  lemma {:induction false} LayoutAt(d: Domain, widths: seq<int>, k: nat)
    requires k < |widths|
    ensures Layout(d, widths)[k] == PartitionOf(d, k, Sum(widths[..k]), widths[k])
  {
    var before := widths[..|widths| - 1];
    if k < |before| {
      LayoutAt(d, before, k);
      assert before[..k] == widths[..k];
    }
  }

  /** The mask that a partition's text denotes. */
  function MaskOf(p: CachePartition): Word {
    match ParseUint(p.cbm, 16)
    case Some(m) => if m < WORD_LIMIT then m else 0
    case None => 0
  }

  lemma {:induction false} MaskOfPartition(d: Domain, index: nat, start: int, ways: int)
    ensures MaskOf(PartitionOf(d, index, start, ways)) == WayMask(start, ways)
  {
    ParsePrintNat(WayMask(start, ways), 16);
  }

  /** Partition `k` is the run of `widths[k]` ways after the first `k` partitions. */
  lemma {:induction false} LayoutBits(d: Domain, widths: seq<int>, k: nat)
    requires k < |widths| && NonNegative(widths) && Sum(widths) <= 64
    ensures Bits(MaskOf(Layout(d, widths)[k])) == Interval(Sum(widths[..k]), widths[k])
    ensures Sum(widths[..k + 1]) == Sum(widths[..k]) + widths[k] <= Sum(widths)
    ensures Sum(widths[..k]) >= 0
  {
    LayoutAt(d, widths, k);
    MaskOfPartition(d, k, Sum(widths[..k]), widths[k]);
    assert widths[..k + 1][..k] == widths[..k];
    SumMonotone(widths, k + 1);
    SumMonotone(widths, k);
    BitsWayMask(Sum(widths[..k]), widths[k]);
  }

  lemma {:induction false} SumOrder(widths: seq<int>, j: nat, k: nat)
    requires j <= k <= |widths| && NonNegative(widths)
    ensures Sum(widths[..j]) <= Sum(widths[..k])
  {
    SumMonotone(widths[..k], j);
    assert widths[..k][..j] == widths[..j];
  }

  /** Every way below the total width lies in one of the partitions. */
  lemma {:induction false} SumCovers(widths: seq<int>, i: nat) returns (k: nat)
    requires i < Sum(widths) && NonNegative(widths)
    ensures k < |widths| && Sum(widths[..k]) <= i < Sum(widths[..k]) + widths[k]
  {
    var before := widths[..|widths| - 1];
    if i < Sum(before) {
      k := SumCovers(before, i);
      assert before[..k] == widths[..k];
    } else {
      k := |before|;
    }
  }

  /** The ways of a list of partitions. */
  ghost function UnionBits(parts: seq<CachePartition>): set<nat> {
    set k, i | 0 <= k < |parts| && i in Bits(MaskOf(parts[k])) :: i
  }

  /** Consecutive partitions of the given widths, from way 0 on. */
  ghost predicate Consecutive(parts: seq<CachePartition>, widths: seq<int>) {
    && |parts| == |widths|
    && forall k | 0 <= k < |parts| ::
         parts[k].index == k && parts[k].ways == widths[k]
         && Bits(MaskOf(parts[k])) == Interval(Sum(widths[..k]), widths[k])
  }

  ghost predicate MasksApart(parts: seq<CachePartition>) {
    forall j, k | 0 <= j < k < |parts| :: Bits(MaskOf(parts[j])) !! Bits(MaskOf(parts[k]))
  }

  lemma {:induction false} LayoutConsecutive(d: Domain, widths: seq<int>)
    requires NonNegative(widths) && Sum(widths) <= 64
    ensures Consecutive(Layout(d, widths), widths)
  {
    forall k | 0 <= k < |widths|
      ensures Layout(d, widths)[k] == PartitionOf(d, k, Sum(widths[..k]), widths[k])
      ensures Bits(MaskOf(Layout(d, widths)[k])) == Interval(Sum(widths[..k]), widths[k])
    {
      LayoutAt(d, widths, k);
      LayoutBits(d, widths, k);
    }
  }

  lemma {:induction false} ConsecutiveApart(parts: seq<CachePartition>, widths: seq<int>)
    requires Consecutive(parts, widths) && NonNegative(widths)
    ensures MasksApart(parts)
  {
    forall j, k | 0 <= j < k < |parts| ensures Bits(MaskOf(parts[j])) !! Bits(MaskOf(parts[k])) {
      SumOrder(widths, j + 1, k);
      assert widths[..j + 1][..j] == widths[..j];
    }
  }

  lemma {:induction false} ConsecutiveUnion(parts: seq<CachePartition>, widths: seq<int>)
    requires Consecutive(parts, widths) && NonNegative(widths)
    ensures UnionBits(parts) == Interval(0, Sum(widths))
  {
    forall i: nat | i in Interval(0, Sum(widths)) ensures i in UnionBits(parts) {
      var k := SumCovers(widths, i);
      assert i in Bits(MaskOf(parts[k]));
    }
    forall k | 0 <= k < |parts| ensures Bits(MaskOf(parts[k])) <= Interval(0, Sum(widths)) {
      WithinSum(widths, k);
    }
  }

  lemma {:induction false} WithinSum(widths: seq<int>, k: nat)
    requires NonNegative(widths) && k < |widths|
    ensures Interval(Sum(widths[..k]), widths[k]) <= Interval(0, Sum(widths))
  {
    assert widths[..k + 1][..k] == widths[..k];
    SumMonotone(widths, k + 1);
    SumMonotone(widths, k);
  }

  /** Tiling. The partitions of a successful call are, in each domain, contiguous masks of the
      requested widths, pairwise disjoint, whose union is the lowest ways in number as requested. */
  lemma {:induction false} PartitionsTile(info: CATInfo, specs: seq<PartitionSpec>, tables: Tables, c: nat)
    requires PlainSpecs(specs) && c < |info.cacheIDs| && Partitioned(info, specs, tables).Ok?
    ensures var parts := Partitioned(info, specs, tables).value[c];
            && |parts| == Counted(specs) && Requested(specs) <= TotalWays(info)
            && Consecutive(parts, Widths(specs)) && MasksApart(parts)
            && UnionBits(parts) == Interval(0, Requested(specs))
  {
    var widths := Widths(specs);
    var d := DomainOf(info, TotalWays(info), tables, info.cacheIDs[c]);
    WidthsFacts(specs);
    TotalAtMost64(info);
    LayoutConsecutive(d, widths);
    ConsecutiveApart(Layout(d, widths), widths);
    ConsecutiveUnion(Layout(d, widths), widths);
  }

  lemma {:induction false} TotalAtMost64(info: CATInfo)
    ensures TotalWays(info) <= 64
  {
    CountLowSize(info.cbmMask, 64);
    CountLowBound(info.cbmMask, 64);
    assert Bits(info.cbmMask) == LowBits(info.cbmMask, 64);
  }
}
