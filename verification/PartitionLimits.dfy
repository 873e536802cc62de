/** When static partitioning succeeds, how evenly it divides a cache, and what its sizes add up to. */
module PartitionLimits {
  import opened Options
  import opened Masks
  import opened Text
  import opened Partitions

  // ---- Acceptance ----------------------------------------------------------------------------

  /** The size of one spec is within the limits of the hardware. */
  predicate Fits(s: PartitionSpec, info: CATInfo, total: nat) {
    info.minCBMBits <= s.ways <= total
  }

  lemma {:induction false} ChecksPassExactly(specs: seq<PartitionSpec>, info: CATInfo, total: nat)
    ensures CheckEach(specs, info, total).None? <==> forall s | s in specs :: Fits(s, info, total)
  {
    if specs != [] {
      ChecksPassExactly(specs[1..], info, total);
      assert specs[0] in specs && forall s :: s in specs <==> s == specs[0] || s in specs[1..];
    }
  }

  lemma {:induction false} FirstMisfitDecides(specs: seq<PartitionSpec>, info: CATInfo, total: nat, k: nat)
    requires k < |specs| && !Fits(specs[k], info, total) && forall j | 0 <= j < k :: Fits(specs[j], info, total)
    ensures CheckEach(specs, info, total) == Some(if specs[k].ways < info.minCBMBits then BelowMinimum else AboveTotal)
  {
    if k > 0 {
      assert Fits(specs[0], info, total);
      FirstMisfitDecides(specs[1..], info, total, k - 1);
    }
  }

  /** Exact acceptance of any list of specs: there is one, each size fits, the sizes together fit, and one
      class of service is left over. */
  lemma {:induction false} SpecsAcceptedExactly(info: CATInfo, specs: seq<PartitionSpec>, tables: Tables)
    ensures var total := TotalWays(info);
            Partitioned(info, specs, tables).Ok?
            <==> specs != [] && (forall s | s in specs :: Fits(s, info, total))
                 && Requested(specs) <= total && Counted(specs) <= info.numCLOSIDs - 1
  {
    ChecksPassExactly(specs, info, TotalWays(info));
  }

  /** The reason of a rejection: the first size that does not fit, or else the sum of the ways, or else the
      number of partitions. */
  lemma {:induction false} RejectionNamesTheReason(info: CATInfo, specs: seq<PartitionSpec>, tables: Tables, k: nat)
    requires k <= |specs| && forall j | 0 <= j < k :: Fits(specs[j], info, TotalWays(info))
    requires k < |specs| ==> !Fits(specs[k], info, TotalWays(info))
    requires Partitioned(info, specs, tables).Err?
    ensures Partitioned(info, specs, tables).error
            == if specs == [] then NoSpecs
               else if k < |specs| then (if specs[k].ways < info.minCBMBits then BelowMinimum else AboveTotal)
               else if Requested(specs) > TotalWays(info) then TooManyWays
               else TooManyPartitions
  {
    if k < |specs| {
      FirstMisfitDecides(specs, info, TotalWays(info), k);
    } else {
      ChecksPassExactly(specs, info, TotalWays(info));
    }
  }

  lemma {:induction false} Division(total: nat, count: nat)
    requires count > 0
    ensures total == total / count * count + total % count && 0 <= total % count < count
  {
  }

  /** The specs of a count ask for exactly the available ways, in `count` partitions. */
  lemma {:induction false} SpecsFromCountTotals(count: int, total: nat)
    requires count >= 1
    ensures var specs := SpecsFromCount(count, total);
            PlainSpecs(specs) && Requested(specs) == total && Counted(specs) == count
  {
    var base, remainder := total / count, total % count;
    Division(total, count);
    var last := PartitionSpec(base, count - remainder);
    if remainder > 0 {
      var head := PartitionSpec(base + 1, remainder);
      TwoSpecs(head, last);
      assert (base + 1) * remainder + base * (count - remainder) == base * count + remainder;
      assert SpecsFromCount(count, total) == [head, last];
    } else {
      OneSpec(last);
      assert SpecsFromCount(count, total) == [last];
    }
  }

  lemma {:induction false} OneSpec(s: PartitionSpec)
    ensures Requested([s]) == s.ways * s.count && Counted([s]) == s.count
  {
    assert [s][..0] == [];
  }

  lemma {:induction false} TwoSpecs(s: PartitionSpec, t: PartitionSpec)
    ensures Requested([s, t]) == s.ways * s.count + t.ways * t.count && Counted([s, t]) == s.count + t.count
  {
    assert [s, t][..1] == [s];
    OneSpec(s);
  }

  lemma {:induction false} BaseFits(total: nat, count: nat)
    requires count >= 1
    ensures total / count <= total
    ensures total % count > 0 ==> total / count + 1 <= total
  {
    Division(total, count);
    Scale(1, count, total / count);
    assert count * (total / count) == total / count * count;
  }

  lemma {:induction false} Scale(a: int, b: int, c: int)
    requires a <= b && c >= 0
    ensures a * c <= b * c
  {
    assert (b - a) * c >= 0;
    assert (-a) * c == -(a * c);
  }

  /** The specs of an even split pass the per-spec checks exactly when the smaller size does. */
  lemma {:induction false} SplitChecked(info: CATInfo, count: int, total: nat)
    requires count >= 1
    ensures CheckEach(SpecsFromCount(count, total), info, total).None? <==> total / count >= info.minCBMBits
  {
    var base, remainder := total / count, total % count;
    BaseFits(total, count);
    ChecksPassExactly(SpecsFromCount(count, total), info, total);
    assert PartitionSpec(base, count - remainder) in SpecsFromCount(count, total);
    assert forall s | s in SpecsFromCount(count, total) :: s.ways == base || (remainder > 0 && s.ways == base + 1);
  }

  /** Exact acceptance: partitioning by count succeeds if and only if the count is positive, each
      partition gets at least the hardware minimum, and one class of service is left over. */
  lemma {:induction false} CountAcceptedExactly(info: CATInfo, count: int, tables: Tables)
    ensures var total := TotalWays(info);
            Partitioned(info, SpecsFromCount(count, total), tables).Ok?
            <==> count >= 1 && total / count >= info.minCBMBits && count <= info.numCLOSIDs - 1
  {
    var total := TotalWays(info);
    if count >= 1 {
      SpecsFromCountTotals(count, total);
      SplitChecked(info, count, total);
    }
  }

  // ---- An even split of the whole cache ------------------------------------------------------

  lemma {:induction false} WidthsAreNearBase(specs: seq<PartitionSpec>, base: int)
    requires PlainSpecs(specs) && forall s | s in specs :: s.ways == base || s.ways == base + 1
    ensures forall k | 0 <= k < |Widths(specs)| :: Widths(specs)[k] == base || Widths(specs)[k] == base + 1
  {
    if specs != [] {
      var last := specs[|specs| - 1];
      assert last in specs;
      WidthsAreNearBase(specs[..|specs| - 1], base);
      RepeatLength(last.ways, last.count);
    }
  }

  lemma {:induction false} OnesBelow(n: nat, i: nat)
    ensures Has(Pow2(n) - 1, i) <==> i < n
    decreases i
  {
    if n == 0 {
      HasZero(i);
    } else {
      assert (Pow2(n) - 1) % 2 == 1 && (Pow2(n) - 1) / 2 == Pow2(n - 1) - 1;
      if i > 0 { OnesBelow(n - 1, i - 1); }
    }
  }

  /** The capacity mask is the run of all its ways exactly when it has the form 2^n - 1. */
  lemma {:induction false} FullMaskForm(info: CATInfo)
    ensures Bits(info.cbmMask) == Interval(0, TotalWays(info)) <==> info.cbmMask == Pow2(TotalWays(info)) - 1
  {
    var n := TotalWays(info);
    TotalAtMost64(info);
    WordWidth();
    Pow2Monotone(n, 64);
    var ones: Word := Pow2(n) - 1;
    forall i: nat | i < 64 ensures Has(ones, i) <==> i < n { OnesBelow(n, i); }
    assert Bits(ones) == Interval(0, n);
    if Bits(info.cbmMask) == Interval(0, n) { SameBits(info.cbmMask, ones); }
  }

  lemma {:induction false} SplitCovers(info: CATInfo, count: int, tables: Tables, c: nat)
    requires var r := Partitioned(info, SpecsFromCount(count, TotalWays(info)), tables); r.Ok? && c < |info.cacheIDs|
    ensures var parts := Partitioned(info, SpecsFromCount(count, TotalWays(info)), tables).value[c];
            |parts| == count && UnionBits(parts) == Interval(0, TotalWays(info))
  {
    CountAcceptedExactly(info, count, tables);
    SpecsFromCountTotals(count, TotalWays(info));
    PartitionsTile(info, SpecsFromCount(count, TotalWays(info)), tables, c);
  }

  lemma {:induction false} SplitSizes(info: CATInfo, count: int, tables: Tables, c: nat)
    requires var r := Partitioned(info, SpecsFromCount(count, TotalWays(info)), tables); r.Ok? && c < |info.cacheIDs|
    ensures var parts := Partitioned(info, SpecsFromCount(count, TotalWays(info)), tables).value[c];
            forall j, k | 0 <= j < |parts| && 0 <= k < |parts| :: parts[j].ways - parts[k].ways <= 1
  {
    CountAcceptedExactly(info, count, tables);
    SpecsFromCountTotals(count, TotalWays(info));
    SizesOfSpecs(info, SpecsFromCount(count, TotalWays(info)), tables, c, TotalWays(info) / count);
  }

  lemma {:induction false} SizesOfSpecs(info: CATInfo, specs: seq<PartitionSpec>, tables: Tables, c: nat, base: int)
    requires Partitioned(info, specs, tables).Ok? && c < |info.cacheIDs|
    requires PlainSpecs(specs) && forall s | s in specs :: s.ways == base || s.ways == base + 1
    ensures var parts := Partitioned(info, specs, tables).value[c];
            forall j, k | 0 <= j < |parts| && 0 <= k < |parts| :: parts[j].ways - parts[k].ways <= 1
  {
    PartitionsTile(info, specs, tables, c);
    WidthsAreNearBase(specs, base);
  }

  /** Partitioning by count wastes no way: in every domain the partitions cover the capacity mask if
      and only if that mask has the form 2^n - 1, and partition sizes differ by at most one way. */
  lemma {:induction false} CountSplitsEvenly(info: CATInfo, count: int, tables: Tables, c: nat)
    requires var r := Partitioned(info, SpecsFromCount(count, TotalWays(info)), tables); r.Ok? && c < |info.cacheIDs|
    ensures var parts := Partitioned(info, SpecsFromCount(count, TotalWays(info)), tables).value[c];
            && |parts| == count
            && (UnionBits(parts) == Bits(info.cbmMask) <==> info.cbmMask == Pow2(TotalWays(info)) - 1)
            && forall j, k | 0 <= j < |parts| && 0 <= k < |parts| :: parts[j].ways - parts[k].ways <= 1
  {
    SplitCovers(info, count, tables, c);
    SplitSizes(info, count, tables, c);
    FullMaskForm(info);
  }

  // ---- Sizes ---------------------------------------------------------------------------------

  ghost function TotalSize(parts: seq<CachePartition>): int {
    if parts == [] then 0 else TotalSize(parts[..|parts| - 1]) + parts[|parts| - 1].sizeBytes
  }

  lemma {:induction false} LayoutSize(d: Domain, widths: seq<int>)
    requires d.waySizeBytes >= 0
    ensures TotalSize(Layout(d, widths)) == Sum(widths) * d.waySizeBytes
  {
    if widths != [] {
      var before, last := widths[..|widths| - 1], widths[|widths| - 1];
      assert widths == before + [last];
      LayoutSize(d, before);
      OneMoreSize(d, before, last);
    }
  }

  lemma {:induction false} OneMoreSize(d: Domain, before: seq<int>, last: int)
    requires d.waySizeBytes >= 0 && TotalSize(Layout(d, before)) == Sum(before) * d.waySizeBytes
    ensures TotalSize(Layout(d, before + [last])) == Sum(before + [last]) * d.waySizeBytes
  {
    var p := PartitionOf(d, |before|, Sum(before), last);
    LayoutSnoc(d, before, last);
    PartitionSize(d, |before|, Sum(before), last);
    SizeSnoc(Layout(d, before), p, Sum(before), last, d.waySizeBytes);
  }

  lemma {:induction false} SizeSnoc(parts: seq<CachePartition>, p: CachePartition, used: int, ways: int, unit: int)
    requires TotalSize(parts) == used * unit && p.sizeBytes == ways * unit
    ensures TotalSize(parts + [p]) == (used + ways) * unit
  {
  }

  lemma {:induction false} PartitionSize(d: Domain, index: nat, start: int, ways: int)
    requires d.waySizeBytes >= 0
    ensures PartitionOf(d, index, start, ways).sizeBytes == ways * d.waySizeBytes
  {
    if d.waySizeBytes == 0 { assert ways * 0 == 0; }
  }

  /** Size arithmetic: in a domain of known size the partitions' sizes add up to at most the cache
      size, and to within `totalWays` bytes of it when all ways are used. */
  lemma {:induction false} SizesAddUp(info: CATInfo, specs: seq<PartitionSpec>, tables: Tables, c: nat)
    requires PlainSpecs(specs) && c < |info.cacheIDs| && Partitioned(info, specs, tables).Ok?
    requires CacheSize(tables, info.cacheIDs[c]) > 0 && TotalWays(info) > 0
    ensures var parts := Partitioned(info, specs, tables).value[c];
            var size := CacheSize(tables, info.cacheIDs[c]);
            && 0 <= TotalSize(parts) <= size
            && (Requested(specs) == TotalWays(info) ==> size - TotalSize(parts) < TotalWays(info))
  {
    var total, size := TotalWays(info), CacheSize(tables, info.cacheIDs[c]);
    WidthsFacts(specs);
    LayoutSizeBounds(DomainOf(info, total, tables, info.cacheIDs[c]), Widths(specs), total, size);
  }

  lemma {:induction false} LayoutSizeBounds(d: Domain, widths: seq<int>, total: nat, size: nat)
    requires total > 0 && d.waySizeBytes == size / total
    requires NonNegative(widths) && Sum(widths) <= total
    ensures 0 <= TotalSize(Layout(d, widths)) <= size
    ensures Sum(widths) == total ==> size - TotalSize(Layout(d, widths)) < total
  {
    SumMonotone(widths, 0);
    LayoutSize(d, widths);
    SizeBounds(Sum(widths), total, size);
  }

  lemma {:induction false} SizeBounds(used: nat, total: nat, size: nat)
    requires used <= total && total > 0
    ensures 0 <= used * (size / total) <= size
    ensures used == total ==> size - used * (size / total) < total
  {
    var unit := size / total;
    Division(size, total);
    assert unit * total == total * unit;
    Scale(used, total, unit);
    Scale(0, used, unit);
  }

  /** `CachePartitionSizeBytes`; its only caller-visible inputs are counts and a size. */
  function CachePartitionSizeBytes(ways: nat, totalWays: nat, totalSizeBytes: nat): nat {
    if totalWays == 0 then 0 else totalSizeBytes * ways / totalWays
  }

  lemma {:induction false} QuotientBetween(n: nat, d: nat, low: nat, high: nat)
    requires d > 0 && low * d <= n < high * d
    ensures low <= n / d < high
  {
    Division(n, d);
    if n / d < low { Scale(n / d + 1, low, d);  }
    if n / d >= high { Scale(high, n / d, d); }
  }

  /** The estimate never falls below the partition's recorded size, and exceeds it by less than one
      byte per way. */
  lemma {:induction false} EstimateCloseToSize(d: Domain, index: nat, start: int, ways: nat, totalSize: nat)
    requires d.totalWays > 0 && ways > 0 && d.waySizeBytes == totalSize / d.totalWays
    ensures var p := PartitionOf(d, index, start, ways);
            p.sizeBytes <= CachePartitionSizeBytes(ways, d.totalWays, totalSize) < p.sizeBytes + ways
  {
    var t, q, r := d.totalWays, totalSize / d.totalWays, totalSize % d.totalWays;
    Division(totalSize, t);
    QuotientBetween(totalSize * ways, t, ways * q, ways * q + ways);
  }
}
