# Verified model of the resctrl DRA driver

The driver hands out ways of L3 caches to Kubernetes claims as bitmasks. This project models its two modes and
their crash recovery in Dafny 4.11, and proves what they promise. `dafny verify dfyconfig.toml` checks all of it.

* **Structured mode** reserves ways on demand. `WayAllocation.WayAllocator` is the first-fit allocator over one mask
  per cache domain. `Protocol` is the request protocol around it as a state machine: one step is one lock-protected
  section or one file operation, every request is a thread, steps interleave freely, file operations may fail, and a
  crash drops everything but the files. `StructuredDriver.Driver` is the sequential handler code, proved to do what a
  thread of the machine does, step for step. Over whole runs: `ProtocolSafety` and `Provisos` (groups), `Holders`,
  `Orphans` and `Accounting` (who holds what), `ClaimFiles` (CDI files). Over single calls: `Rollback` (failures),
  `Delivery` (successes) and `Admission` (which of the two).
* **Basic mode** cuts every cache into fixed partitions at startup (`Partitions`), gives each to at most one claim
  (`PartitionOwnership`, `Registration`), and replays existing claims after a restart (`BasicMode`, `ReplayOrder`,
  `Isolation`).
* **Around both** are the texts that one file prints and another reads (`Text`, `Names`, `Schemata`, `DomainLines`,
  `PartitionFlags`, `DomainDiscovery`), the devices published to the scheduler and to the container runtime
  (`Publishing`, `Attributes`, `Serving`), the theory of when first fit succeeds (`Fragmentation`), and exact size
  arithmetic (`PartitionLimits`, `SizeLabel`).

## The main results

1. Over every interleaving of prepares, unprepares and crashes, the groups of the driver never share a way and all
   their ways are in use (`ProtocolSafety.IsolationOverAllRuns`). It takes two provisos: a group is removed before its
   ways are released, and a restart can read every group. Each is needed exactly (`FailedRemovalExactly`,
   `UnreadableGroupExactly`), and for each there is a run from an empty node, with any two claims, in which only that
   proviso fails and two groups claim the same ways (`Provisos`). The masks in memory need neither: requests and
   records never share a way, over all runs whatsoever (`Holders.HoldersNeverShare`).
2. From any restart to the next crash, whatever file operations fail, the books of a disciplined run balance to the
   way: the ways in use are the disjoint union of what is held and what the restart found
   (`Accounting.ExactAccounting`). The discipline is needed exactly where a claim record is overwritten, and what is
   overwritten then is lost for good (`OverwriteStrandsExactly`).
3. A way stays in use for good, until the next crash, if and only if nobody holds it but a request that panicked
   (`Holders.StaysInUseExactly`). Recovery reads back exactly what was written (`WayAllocation.RecoveryRoundTrip`), and
   of any group file exactly what it lists for each domain (`DomainLines.RecoveryReadsEveryDomain`); but what it reads
   belongs to that kind (`Holders.RecoveredWaysStayInUse`).
4. When a prepare succeeds (`Admission.PrepareSucceedsExactly`), when a failed one rolls back
   (`Rollback.RollsBackExactly`) and when it panics (`Rollback.PanicsExactly`), exactly, for any number of devices and
   any failures. A successful one serves all devices of the claim from free ways of
   their own, but exactly the last can be used and given back (`Delivery`). For one device, the CDI id leads to a
   group with exactly the announced ways, and unprepare undoes prepare (`Rollback`). A claim's CDI file keeps showing
   its device over all runs in which no claim with the same first 8 characters is prepared or unprepared, and exactly
   such claims get in its way (`ClaimFiles`).
5. First fit is sound, complete and minimal. The published free-way counter decides every request if and only if the
   free ways are one stretch (`Fragmentation.CounterDecidesExactly`). Otherwise uniform sizes, or a pigeonhole bound
   that cannot be improved, still guarantee a grant; and without releases the counter is exact
   (`Publishing.AdmittedExactlyGranted`), up to the answer of the driver (`Admission.AdmittedExactlyPrepared`).
6. Basic mode isolates claims over whole runs, down to the text of the groups (`Isolation.IsolationOverAllRuns`). The
   order of the replayed claims matters exactly when two of them compete (`ReplayOrder.OrderIrrelevantExactly`), and
   recovery restores the owners from before a crash exactly when each held partition's first claimant is its holder
   (`Isolation.RecoveryIsExact`). Every partition is registered and can be prepared (`Registration`); the CDI id
   answered is in the spec file, whose hook joins a group that claims the announced ways (`Serving`).
7. What is published of a partition, of a domain's way counts and of a bandwidth device is true, down to the text of
   the size label (`Attributes`).

## Where the code and its documentation differ

* `docs/runbook.md:305-322` shows claims for an MBA device in basic mode. The allocation state knows cache partitions
  only, so such a claim is always refused (`Isolation.BandwidthClaimRefused`).
* The comment at `pkg/driver/driver.go:297` says that startup rebuilds `structuredAllocs`. It rebuilds the way masks
  only. All ways found in use at startup stay in use until the next restart, also those of claims that are prepared
  again or unprepared (`Holders.RecoveredWaysStayInUse`), and their groups keep their text
  (`Orphans.GroupOutlivesCrashes`).
* `pkg/driver/discovery.go:246-250` lets the shared counter bound concurrent claims. The counter bounds the number of
  ways, not their contiguity: it can admit a claim that the allocator refuses (`Fragmentation.CounterFailsAfterReleases`)
  exactly when the free ways are not one stretch (`Fragmentation.CounterDecidesExactly`).
* `docs/runbook.md:383` names one partition per claim as a limitation. The structured handler accepts several devices
  all the same. They share one CDI file and one record, so only the last can be used or given back
  (`Delivery.AllUsableExactly`, `Delivery.UnprepareReturnsLast`); and once the first is recorded, the failure of
  another is not rolled back (`Rollback.RollsBackExactly`, `Rollback.TwoDevicesDoNotRollBack`).
* `docs/runbook.md:78-80` states the limits on the partition count; they are the code's, exactly
  (`PartitionLimits.CountAcceptedExactly`).
* The groups of basic mode are named `dra-cache...`, and structured mode recovers every group whose name starts with
  `dra-c`. Left in the directory at a change of modes, they count as in use (`Serving.LeftoverPartitionsAreScanned`).
* A UID shorter than 8 characters makes the CDI writer panic (`pkg/driver/cdi.go:199`), exactly when its first device
  gets that far (`Rollback.PanicsExactly`). The machine keeps such a request as a `Panicked` thread; its ways stay in
  use until the next crash (`Holders.StuckWaysStayInUse`).

## Conventions

* Masks are naturals below 2^64 and the bitwise operators are written out digit by digit; `Bits` reads a mask as a set
  of ways, and `BitsOr`, `BitsAnd`, `BitsAndNot` and `OverlapTest` say what the operators do to that set. Machine
  bit-vectors under quantifiers are out of the solver's reach.
* Go's `int` is a mathematical integer, except where text is parsed into 64 bits and in the size label, whose product
  wraps around. Totals are at most 64 because `NumWays` counts the bits of a 64-bit word (`Partitions.TotalAtMost64`).
* A Go map read of a missing key is zero. Iteration over a Go map is a loop in arbitrary order.
* The outcome of every file operation is an input. A failed write leaves the file as it was; a written file reads back
  as written.
* Lemmas carry `{:induction false}` throughout: proofs spell out their inductions.

## Model

| member | source | states |
|---|---|---|
| Masks.BuildMask | pkg/driver/wayallocator.go:132-138 | the mask built by the loop contains exactly the ways from `start` on, cut off at 64 |
| Masks.NumWays | pkg/resctrl/resctrl.go:25-33 | the loop counts exactly the ways of the mask, at most 64 |
| Masks.BitsOr | pkg/driver/wayallocator.go:55 | `\|` on masks is union of ways |
| Masks.BitsAndNot | pkg/driver/wayallocator.go:66 | `&^` on masks is difference of ways |
| Masks.OverlapTest | pkg/driver/wayallocator.go:54 | `used & candidate == 0` holds exactly when the two share no way |
| Masks.SameBits | pkg/driver/wayallocator.go:20 | a mask is determined by its ways |
| WayAllocation.FirstFit | pkg/driver/wayallocator.go:50-59 | the search finds the lowest free run, and fails exactly when no free run exists |
| WayAllocation.ReserveGrants | pkg/driver/wayallocator.go:38-60 | a granted mask is the lowest free run of the requested length, it alone is added, other domains are untouched |
| WayAllocation.ReserveRefuses | pkg/driver/wayallocator.go:38-60 | a request errs exactly for an unknown domain, a bad way count or no free run; an error changes nothing |
| WayAllocation.FreeMeaning | pkg/driver/wayallocator.go:63-67 | release removes exactly the given ways of one domain |
| WayAllocation.FreeUndoesReserve | pkg/driver/wayallocator.go:38-67 | releasing what was just reserved restores the whole occupancy map |
| WayAllocation.WayAllocator.constructor | pkg/driver/wayallocator.go:24-34 | every domain starts without ways in use |
| WayAllocation.WayAllocator.Allocate | pkg/driver/wayallocator.go:38-60 | the loop with its early return answers and updates as the reservation specified by the two lemmas above |
| WayAllocation.WayAllocator.Release | pkg/driver/wayallocator.go:63-67 | the update is the release specified above |
| WayAllocation.WayAllocator.FreeWays | pkg/driver/wayallocator.go:70-81 | the result is the number of ways below the total that are not in use; zero for an unknown domain |
| WayAllocation.WayAllocator.RebuildFromResctrl | pkg/driver/wayallocator.go:86-130 | the nested loops absorb exactly the masks found in the readable groups with the prefix; a read error changes nothing |
| WayAllocation.WayAllocator.ScanEntry | pkg/driver/wayallocator.go:95-104 | files, other names and unreadable groups are skipped |
| WayAllocation.WayAllocator.ScanText | pkg/driver/wayallocator.go:105-109 | only L3 lines count, however they are indented |
| WayAllocation.WayAllocator.ScanSegments | pkg/driver/wayallocator.go:111-125 | malformed segments are skipped, the others are added with `\|=` |
| WayAllocation.RebuildMeaning | pkg/driver/wayallocator.go:86-130 | a rebuilt domain holds what it held plus the union of the scanned masks |
| WayAllocation.RebuildOrder | pkg/driver/wayallocator.go:95-126 | directory order and repeated entries do not matter |
| WayAllocation.RebuildTwice | pkg/driver/wayallocator.go:86-130 | a second scan changes nothing |
| WayAllocation.RecoveryRoundTrip | pkg/driver/wayallocator.go:86-130 | over groups written by the driver, in any order and among other entries, the scan adds per domain exactly the union of their masks |
| DomainLines.SegmentReadExactly | pkg/driver/wayallocator.go:111-124 | a segment is read exactly when it is a 64-bit integer, an equals sign and a 64-bit mask |
| DomainLines.MalformedSegmentSkipped | pkg/driver/wayallocator.go:111-124 | a malformed segment drops neither the segments before it nor those after it |
| DomainLines.PairsReadBackAnywhere | pkg/driver/wayallocator.go:105-126 | a line that lists any domains with their masks reads back as exactly those pairs, in order, wherever it stands and however it is indented; the other lines of the file are read as well |
| DomainLines.TrimmingIsHarmless | pkg/driver/wayallocator.go:105-106 | trimming the file first never changes what is read |
| DomainLines.RecoveryReadsEveryDomain | pkg/driver/wayallocator.go:86-130 | over any groups, with any domains listed in each, the scan adds per domain exactly the ways some group lists for it |
| DomainLines.OtherEntriesLeaveNoTrace | pkg/driver/wayallocator.go:95-104 | a file, an entry without the prefix or an unreadable group has no effect |
| Schemata.LineRoundTrip | pkg/cache/partition.go:156-158 | the L3 line of any mask and 64-bit domain id reads back as that pair |
| Schemata.StructuredRoundTrip | pkg/driver/driver.go:338-344 | the file of a structured group reads back as exactly its mask, with or without an MB line |
| Schemata.CombinedRoundTrip | pkg/cache/partition.go:172-184 | the file of a partition group reads back as exactly its mask; L2, MB and SMBA lines are skipped |
| Schemata.CombinedSettings | pkg/cache/partition.go:172-184 | the text of a partition group names, for each of L3, L2, MB and SMBA, exactly its domain and the value given, and nothing of a resource that is not set |
| Schemata.StructuredIsOneLine | pkg/driver/driver.go:182 | the text of a structured group is the one L3 line, so it sets no bandwidth |
| Text.ParsePrintNat | pkg/driver/wayallocator.go:120 | decimal and hexadecimal parsing undoes printing for every natural number |
| Text.AtoiPrintInt | pkg/driver/wayallocator.go:116 | `Atoi` undoes `%d` for every 64-bit integer |
| Text.SplitJoined | pkg/driver/driver.go:343 | splitting undoes joining when no part contains the separator |
| Text.CutMeaning | pkg/driver/driver.go:317 | the cut is at the first separator, and fails exactly without one |
| Text.JoinSplit | pkg/driver/wayallocator.go:105 | joining undoes splitting, and no part contains the separator |
| Text.TrimMeaning | pkg/driver/wayallocator.go:106 | trimming removes the white space at both ends and nothing else |
| Names.CacheWayRoundTrip | pkg/driver/driver.go:310-330 | a structured device name reads back as its domain and way count exactly when the domain id is not negative |
| Names.CacheWayReadExactly | pkg/driver/driver.go:310-330 | a name is read exactly when it is `cache`, an integer, a hyphen, an integer and `way` |
| Names.BasicNamesRejected | pkg/driver/driver.go:310-314 | no inventory, MBA or SMBA name is taken for a structured one |
| Names.DeviceNameInjective | pkg/cache/partition.go:133-213 | inventory names determine kind, cache id and index |
| Names.SanitizeUUID | pkg/driver/driver.go:333-335 | for UUID text the hyphens go and every other character stays in place |
| Names.GroupNameInjective | pkg/driver/driver.go:175 | two claims with UUID text as UIDs never share a group name, in any two domains |
| Fragmentation.RunKeepsBalance | pkg/driver/wayallocator.go:38-67 | over every legal run the used ways are exactly the live masks, which are pairwise disjoint |
| Fragmentation.UniformNeverFragments | pkg/driver/wayallocator.go:50-67 | with one request size per domain, live masks start at multiples of it and a request fails exactly when floor(total/size) are live |
| Fragmentation.AlignedFailsWhenFull | pkg/driver/wayallocator.go:50-59 | in any balanced aligned state a request of the common size fails exactly when all blocks are live |
| Fragmentation.PigeonholeBound | pkg/driver/wayallocator.go:38-81 | after any legal run with k live masks, w ways are granted when more than (k+1)(w-1) ways are free |
| Fragmentation.ManyFreeWaysSuffice | pkg/driver/wayallocator.go:50-81 | the same bound for any occupancy covered by k contiguous masks |
| Fragmentation.BoundIsTight | pkg/driver/wayallocator.go:50-81 | for all k and w, an occupancy by k masks leaves exactly (k+1)(w-1) ways free and refuses w ways |
| Fragmentation.PrefixAccepts | pkg/driver/wayallocator.go:50-81 | over a used prefix a request succeeds exactly when it is no larger than the number of free ways |
| Fragmentation.PrefixExtends | pkg/driver/wayallocator.go:50-58 | first fit keeps the used ways a prefix |
| Fragmentation.CounterSufficesWithoutReleases | pkg/driver/discovery.go:256-268 | without releases, all requests are granted exactly when the demand on each domain is within its total |
| Fragmentation.CounterDecidesExactly | pkg/driver/discovery.go:246-250 | for every occupancy, all requests up to the number of free ways are granted if and only if the free ways are one stretch |
| Fragmentation.CounterFailsAfterReleases | pkg/driver/discovery.go:246-250 | an instance of the other case: a run with a release after which the free ways are not one stretch and a request within the counter is refused |
| ProtocolSafety.NextSafe | pkg/driver/driver.go:155-207 | every step of every thread, and every restart, keeps the isolation invariant; the clean-up after a failed schemata write may fail |
| ProtocolSafety.IsolationOverAllRuns | pkg/driver/driver.go:140-307 | over all interleavings with crashes, groups stay disjoint and covered by the masks in use, if a group is removed before its ways are released, unless it claims none of them, and restarts can read every group that claims a way |
| ProtocolSafety.RestartBits | pkg/driver/driver.go:299-307 | after a restart exactly the ways of the groups it could read are in use; none if the directory could not be read |
| ProtocolSafety.FailedRemovalExactly | pkg/driver/driver.go:193-273 | an unprepare, and the roll-back after a failed CDI write, keep the groups covered if and only if the removal succeeds or the group claims none of the released ways |
| ProtocolSafety.UnreadableGroupExactly | pkg/driver/wayallocator.go:86-130 | a restart covers the groups if and only if every group that claims a way is read; also when the directory cannot be read |
| Provisos.FailedRemovalBreaksIsolation | pkg/driver/driver.go:267-273 | for any two claims: prepare one, unprepare it with a failed removal, prepare the other; the two groups then claim the same ways |
| Provisos.UnreadableGroupBreaksIsolation | pkg/driver/wayallocator.go:99-104 | for any two claims: prepare one, restart without being able to read its group, prepare the other; the two groups then claim the same ways |
| Holders.HoldersNeverShare | pkg/driver/driver.go:140-307 | over all runs without any proviso, no two requests or records hold the same way, and what they hold is in use |
| Holders.StrandedForGood | pkg/driver/driver.go:140-279 | ways in use that nobody holds stay so over every run without a crash, whatever is prepared or unprepared and whatever fails |
| Holders.RecoveredWaysStayInUse | pkg/driver/driver.go:297-307 | everything a restart finds in use is held by nobody and stays in use until the next restart |
| Holders.StuckWaysStayInUse | pkg/driver/cdi.go:199 | the ways of a request that panicked stay in use until the next crash |
| Holders.StaysInUseExactly | pkg/driver/driver.go:140-279 | a way stays in use over every run without a crash if and only if nobody holds it but a request stuck in a panic |
| Accounting.RunExact | pkg/driver/driver.go:140-279 | every disciplined run up to the next crash keeps the exact books, around any ways that nobody holds |
| Accounting.ExactAccounting | pkg/driver/driver.go:166-307 | from any restart: held masks are disjoint, with what the restart found they make up the used ways, and with the free ways the total; each record's group holds exactly its text |
| Accounting.AllUnpreparedMeansRecovered | pkg/driver/driver.go:253-307 | when all claims are unprepared and all requests done, every mask is again what the restart found |
| Accounting.AllUnpreparedMeansEmpty | pkg/driver/driver.go:253-278 | started without driver groups, every mask is then zero again |
| Accounting.OverwriteStrandsExactly | pkg/driver/driver.go:203-206 | recording a device strands the mask of an existing record, in every continuation without a crash, exactly when that record is the same claim's |
| StructuredDriver.Resctrl.CreateGroup | pkg/resctrl/resctrl.go:80-92 | the groups after success and after each kind of failure, with the clean-up |
| StructuredDriver.Resctrl.DeleteGroup | pkg/resctrl/resctrl.go:94-103 | the group is removed or no group changes; removing a missing group is an error |
| StructuredDriver.Driver.PrepareClaimStructured | pkg/driver/driver.go:140-226 | the handler with its loop and early returns ends in the state and answer of the machine's thread |
| StructuredDriver.Driver.PrepareDevice | pkg/driver/driver.go:160-215 | the body of the loop for a cache-way device, with its early returns, is the machine's run up to the next device |
| StructuredDriver.Driver.PrepareGroup | pkg/driver/driver.go:174-215 | the body from the granted ways on, with the release after a failed group, is the machine's run up to the next device |
| StructuredDriver.Driver.DescribeDevice | pkg/driver/driver.go:192-214 | writing the CDI file and recording the claim, with its roll-back, is the machine's run up to the next device |
| StructuredDriver.Driver.UnprepareClaimStructured | pkg/driver/driver.go:253-279 | the handler ends in the state and answer of the machine's thread |
| StructuredDriver.Driver.RecoverStructuredAllocs | pkg/driver/driver.go:299-307 | startup reaches the machine's restart state, with no claim records |
| StructuredDriver.CreateSteps | pkg/resctrl/resctrl.go:80-92 | the machine's steps for group creation, with every failure outcome, as one transition |
| StructuredDriver.DescribeSteps | pkg/driver/driver.go:192-207 | the machine's steps from the written group to the recorded claim, or back |
| StructuredDriver.UnprepareSteps | pkg/driver/driver.go:253-279 | the machine's steps of an unprepare as one transition |
| Rollback.RequestIsARun | pkg/driver/driver.go:140-279 | a request run alone is one of the machine's runs |
| Rollback.DeviceRun | pkg/driver/driver.go:156-215 | the answer and the whole state after one device, for every combination of outcomes |
| Rollback.FailureNamesTheStep | pkg/driver/driver.go:166-200 | the error of a failed device says whether ways, group or CDI file failed, and the allocator's reason |
| Rollback.EarlyFailureNamesTheReason | pkg/driver/driver.go:141-222 | a request without a fetched claim, an allocation or a cache-way device fails with that reason and changes nothing |
| Rollback.PanicsExactly | pkg/driver/cdi.go:194-236 | a prepare panics if and only if its UID is shorter than 8 characters and its first device is granted ways, has its group written and finds the CDI directory; ways and group are left behind |
| Rollback.RollsBackExactly | pkg/driver/driver.go:155-222 | an error answer to an unrecorded claim, with any devices, leaves the state as it was if and only if there is no cache-way device, or the first one fails and its roll-back restores the groups |
| Rollback.FailureRollsBackExactly | pkg/driver/driver.go:155-222 | with a new group and working clean-ups, that is if and only if the first cache-way device alone, with the same outcomes, fails already |
| Rollback.TwoDevicesDoNotRollBack | pkg/driver/driver.go:155-215 | an instance: a claim that names a free domain twice fails with ways, group, CDI file and record left behind |
| Rollback.PrepareDelivers | pkg/driver/driver.go:166-214 | with one device, the answer carries the result's request, pool and device, and its CDI id leads to a file with its domain, way count and mask and to a group whose text claims exactly the announced number of formerly free ways |
| Rollback.UnprepareUndoesPrepare | pkg/driver/driver.go:253-279 | with one device and a new group, an unprepare after a successful prepare restores the whole state |
| Rollback.RecordOutlivesCall | pkg/driver/driver.go:155-222 | a prepare, however it ends, leaves the records of other claims unchanged and its own claim with a record if it had one |
| Delivery.PrepareServesAll | pkg/driver/driver.go:155-225 | a successful prepare with any devices answers the claim's cache-way devices, all and in order, with their requests, pools and names; each gets formerly free ways of its own, as many as it names; exactly these come into use; record and CDI file show the last, and exactly the last can be used |
| Delivery.ChosenExactly | pkg/driver/driver.go:156-164 | the devices served are the results for this driver and this node with a cache-way name |
| Delivery.AllUsableExactly | pkg/driver/cdi.go:194-236 | all devices answered can be used if and only if the claim names one cache-way device |
| Delivery.UnprepareReturnsLast | pkg/driver/driver.go:253-279 | prepare and unprepare leave all ways but those of the last device in use; the ways in use are those from before if and only if the claim names one cache-way device |
| Admission.PrepareSucceedsExactly | pkg/driver/driver.go:140-226 | a prepare succeeds if and only if the claim was fetched, has an allocation, names a cache-way device, and every device it names is granted, written, described and recorded |
| Admission.AdmittedExactlyPrepared | pkg/driver/discovery.go:251-318 | on a fresh node, with working file operations, a claim for published devices is prepared if and only if it names one and the counters admit them together |
| ClaimFiles.SpecPathExactly | pkg/driver/cdi.go:229 | a claim's file is a JSON file in the CDI directory; two claims share it exactly when the first 8 characters of their UIDs agree |
| ClaimFiles.SpecDeviceExactly | pkg/driver/cdi.go:199-200 | the name in a CDI id tells domain, way count and those 8 characters |
| ClaimFiles.FileStays | pkg/driver/cdi.go:194-246 | a claim's file stays as it is over every run, with crashes and failures, in which no claim with those characters is prepared or unprepared |
| ClaimFiles.RecordedClaimKeepsItsFile | pkg/driver/driver.go:192-207 | in every interleaving, the file written for a claim's last device keeps showing it, and up to the next crash the claim's record is the one of that device, until a claim with those characters is prepared or unprepared |
| ClaimFiles.OtherPrepareKeepsFileExactly | pkg/driver/driver.go:192-207 | a successful prepare of another claim leaves the file alone if and only if those characters differ |
| ClaimFiles.OtherUnprepareKeepsFileExactly | pkg/driver/driver.go:253-279 | so does an unprepare |
| Orphans.GroupOutlivesCrashes | pkg/driver/driver.go:297-307 | a group from before a restart keeps its text, and its claim has no record, over every run with crashes and failures, until the claim is prepared again |
| Orphans.OrphanedWaysOutliveCrashes | pkg/driver/driver.go:297-307 | in reliable runs its ways stay in use across all those crashes |
| Partitions.PartitionCache | pkg/cache/partition.go:65-154 | validation and nested loops give the specified error or layouts |
| Partitions.ValidateSpecs | pkg/cache/partition.go:66-90 | the first failing check, in the order of the code |
| Partitions.AddPartitions | pkg/cache/partition.go:122-149 | the inner loop lays out consecutive partitions; the index runs on across specs |
| Partitions.BuildPartition | pkg/cache/partition.go:124-146 | the partition carries the mask of its run of ways |
| Partitions.PartitionsTile | pkg/cache/partition.go:94-151 | per domain: contiguous, pairwise disjoint masks of the requested widths whose union is the lowest requested ways |
| Partitions.TotalAtMost64 | pkg/resctrl/resctrl.go:25-33 | a capacity mask has at most 64 ways |
| PartitionLimits.CountAcceptedExactly | pkg/cache/partition.go:48-90 | an even split is accepted if and only if count >= 1, floor(total/count) >= the minimum and count <= CLOSIDs - 1 |
| PartitionLimits.SpecsAcceptedExactly | pkg/cache/partition.go:65-90 | any list of specs is accepted if and only if it is not empty, each size is between the minimum and the total, the ways requested fit, and one CLOSID is left over |
| PartitionLimits.RejectionNamesTheReason | pkg/cache/partition.go:66-90 | the error is that of the first spec out of bounds, or else the sum of the ways, or else the number of partitions |
| PartitionLimits.CountSplitsEvenly | pkg/cache/partition.go:48-60 | sizes differ by at most one, and the partitions cover the capacity mask if and only if it has the form 2^n - 1 |
| PartitionLimits.FullMaskForm | pkg/resctrl/resctrl.go:18-23 | a mask is the run of its ways exactly when it has the form 2^n - 1 |
| PartitionLimits.SizesAddUp | pkg/cache/partition.go:101-130 | partition sizes sum to at most the cache size, and to within `totalWays` bytes of it when all ways are used |
| PartitionLimits.EstimateCloseToSize | pkg/driver/cdi.go:185-190 | the estimate is at least the recorded size and less than one byte per way above it |
| PartitionFlags.ParsePartitionSizes | pkg/cache/partition.go:18-43 | the loop reads the specs or reports the first bad token; accepted specs are positive and not empty |
| PartitionFlags.SizesRoundTrip | pkg/cache/partition.go:18-43 | every list of positive specs is read back from its comma-separated form |
| PartitionFlags.TokenReadExactly | pkg/cache/partition.go:26-37 | a token is read exactly when it is a positive number, a colon and a positive number |
| PartitionFlags.TokenRejectedAs | pkg/cache/partition.go:30-37 | the first of the two numbers that is not positive decides the error |
| PartitionFlags.NoColonRejected | pkg/cache/partition.go:26-29 | a token is rejected as no `ways:count` exactly when it has no colon |
| PartitionFlags.GoodFlagReads | pkg/cache/partition.go:18-43 | if no part is bad the specs are those of the trimmed parts in order; blank parts are skipped, and blank parts only are an error |
| PartitionFlags.FirstBadPartDecides | pkg/cache/partition.go:18-43 | otherwise the first bad part decides the error |
| PartitionOwnership.AssignExactly | pkg/driver/state.go:49-67 | assignment succeeds exactly for a known partition that is free or the claim's own, and changes nothing else |
| PartitionOwnership.UnassignExactly | pkg/driver/state.go:70-82 | a release frees exactly the given partition, so that every claim can have it |
| Registration.RegisteredExactly | pkg/driver/state.go:24-32 | an id is registered if and only if some listed partition has it |
| Registration.LastRegistrationWins | pkg/driver/state.go:26-30 | it stands for the last such partition |
| Registration.PlanKnowsItsPartitions | pkg/driver/state.go:24-32 | every partition of a working layout is known under its own id, even if a domain is listed twice |
| Registration.FreshPrepareExactly | pkg/driver/driver.go:94-136 | on a fresh node a claim is prepared if and only if one of its results names a partition; it then owns and is answered each partition it names |
| PartitionOwnership.AllocationState.constructor | pkg/driver/state.go:24-32 | every listed partition is registered and free; the last one with an id wins |
| PartitionOwnership.AllocationState.Allocate | pkg/driver/state.go:49-67 | answer and owners as specified by the assignment |
| PartitionOwnership.AllocationState.Release | pkg/driver/state.go:70-82 | the partition becomes free; an unknown id is reported |
| PartitionOwnership.AllocationState.ReleaseByClaimUID | pkg/driver/state.go:85-98 | exactly the claim's partitions become free and are reported, each once |
| PartitionOwnership.AllocationState.AllocatedCount | pkg/driver/state.go:101-112 | the number of held partitions |
| PartitionOwnership.AllocationState.PartitionsByClaimUID | pkg/driver/state.go:115-126 | exactly the partitions held by the claim, each once |
| PartitionOwnership.AllocationState.AvailablePartitions | pkg/driver/state.go:35-46 | exactly the free partitions, each once |
| BasicMode.BasicDriver.PrepareClaim | pkg/driver/driver.go:94-136 | owners and answer as specified; a device that cannot be assigned is skipped |
| BasicMode.BasicDriver.UnprepareClaim | pkg/driver/driver.go:245-251 | exactly the claim's partitions become free |
| BasicMode.RecoverClaim | pkg/driver/recovery.go:51-85 | owners and count as specified for one claim |
| BasicMode.AllocatedOnNode | pkg/driver/recovery.go:87-97 | true exactly when some result names the node |
| BasicMode.RecoverAllocations | pkg/driver/recovery.go:17-49 | the paging loop is the first-claim-wins replay of the concatenated pages; a failure keeps the earlier pages |
| BasicMode.GateChangesNothing | pkg/driver/recovery.go:56-58 | the look at the node never changes the result |
| BasicMode.ReplayIsPrepareEach | pkg/driver/recovery.go:51-85 | replay ends in the owners of preparing the same claims in list order, and counts the devices these prepares answer |
| BasicMode.FailureNamesTheReason | pkg/driver/driver.go:94-136 | a prepare fails exactly when the claim cannot be fetched, has no allocation or no result can be assigned, and says which |
| ReplayOrder.TakeMeaning | pkg/driver/driver.go:110-124 | a claim takes exactly the free partitions it names, and is granted in order the results it could have before the call |
| ReplayOrder.FirstClaimWins | pkg/driver/recovery.go:31-35 | a free partition goes to the first claim of the list that names it; held partitions stay |
| ReplayOrder.OrderIrrelevantExactly | pkg/driver/recovery.go:31-35 | all orders of the claims end in the same owners if and only if no two claims of different UIDs name the same free partition |
| ReplayOrder.PagesDoNotMatter | pkg/driver/recovery.go:21-41 | a list served without error is replayed whole and in order, however it is paged |
| ReplayOrder.FailureKeepsEarlierPages | pkg/driver/recovery.go:26-28 | a failing page leaves exactly the pages before it |
| Isolation.ApplyKeepsOwner | pkg/driver/state.go:49-98 | a held partition is freed by no call but its holder's unprepare |
| Isolation.OwnershipPersists | pkg/driver/driver.go:94-251 | ownership lasts over every run without the holder's unprepare |
| Isolation.PrepareIsItsGrabs | pkg/driver/driver.go:110-124 | an undisturbed prepare is the run of its single locked assignments |
| Isolation.HeldIsOwned | pkg/driver/driver.go:94-251 | a device handed to a claim is owned by it until that claim's unprepare |
| Isolation.AnswerIsOwned | pkg/driver/driver.go:114-123 | every device in an answer is owned by the claim and carries request, pool and device of one of its results for this driver and node |
| Isolation.KnownApart | pkg/cache/partition.go:94-151 | registered partitions of one domain have disjoint masks, even if the domain is listed twice |
| Isolation.GroupWaysAreMask | cmd/driver/main.go:243-251 | the group created for a partition claims exactly the partition's mask |
| Isolation.IsolationOverAllRuns | pkg/driver/driver.go:94-251 | over all runs, with prepares interleaved device by device, devices held by different claims have different groups whose texts share no way in any domain |
| Isolation.RestartRestores | pkg/driver/recovery.go:17-49 | after a restart a listed claim owns a partition it names exactly when the first claim naming it has its UID |
| Isolation.RecoveryIsExact | pkg/driver/recovery.go:17-49 | recovery ends in given owners if and only if every free partition is named by nobody in the list and every held one is named first by its holder |
| Isolation.BandwidthClaimRefused | pkg/driver/state.go:49-56 | a claim for MBA or SMBA devices only is refused in every state and changes nothing |
| Publishing.BuildDevices | pkg/driver/discovery.go:122-212 | the loop publishes the specified devices of all partitions with all their attributes, in order |
| Publishing.WriteCDISpecs | pkg/driver/cdi.go:53-141 | the nested loops produce the specified CDI devices, in order, or nothing when the directory or the file cannot be written |
| Publishing.PublisherAndCDIAgree | pkg/driver/discovery.go:122-212 | for every layout the two lists agree device by device in name, amount, NUMA node, group, and mask and level or domain and mode |
| Attributes.PublishedAttributesAreTrue | pkg/driver/discovery.go:122-171 | for every working layout and any settings, a partition is published with its name, domain and group, a mask of as many ways as published, the size of that many ways, a label that denotes exactly that size, the hardware minimum, the NUMA node and CPUs of its domain, and the L2 settings |
| Attributes.StructuredAttributesAreTrue | pkg/driver/discovery.go:273-303 | so is every device of structured mode, for its way count in its domain |
| Attributes.BandwidthDevicesExactly | pkg/driver/discovery.go:172-207 | a bandwidth device is published for a partition exactly when its kind is set; it carries the value and the mode set, and the group of the partition |
| Serving.AnswerListsGrants | pkg/driver/driver.go:110-124 | the answer lists exactly the granted results, in order, with request, pool, device and the CDI id made of the device |
| Serving.AnswerIsInFile | pkg/driver/cdi.go:53-141 | for a working layout with any settings, each CDI id answered is the kind and the name of a device in the spec file, whose hook joins the group of the partition |
| Serving.AnswerDeliversWays | pkg/driver/cdi.go:53-141 | the text of that group claims exactly the partition's ways, as many as the file announces |
| Serving.FileNamesDistinctExactly | pkg/driver/cdi.go:66-121 | names in the spec file are distinct exactly when no cache id is listed twice, or there are none |
| Serving.LeftoverPartitionsAreScanned | pkg/driver/driver.go:303 | a group left by basic mode is scanned by the recovery of structured mode, which counts exactly its mask as used |
| Serving.OtherGroupsAreIgnored | pkg/driver/driver.go:303 | a group whose name does not start with `dra-c` has no effect on a restart |
| Publishing.NamesDistinctExactly | pkg/driver/discovery.go:126-208 | published names are pairwise distinct exactly when no two partitions share cache id and index |
| Publishing.PlanNamesDistinctExactly | pkg/cache/partition.go:94-151 | for a partitioned cache with any settings that is exactly when no cache id is listed twice, or nothing is published |
| Publishing.BuildStructuredDevices | pkg/driver/discovery.go:251-318 | the two loops give the specified devices, with their attributes, and counters, and nothing for an empty list |
| Publishing.OfferExactly | pkg/driver/discovery.go:270-316 | exactly the devices of 1 to total ways of each non-empty domain are on offer |
| Publishing.PublishedIsSound | pkg/driver/discovery.go:304-314 | a published name reads back as the domain and the way count it takes from that domain's counter |
| Publishing.AdmittedExactlyGranted | pkg/driver/discovery.go:251-318 | without releases, any sequence of published devices is granted in full exactly when the counters admit it |
| SizeLabel.TenthsAreHalves | pkg/driver/discovery.go:34-36 | divisibility of ten times the size by a MiB forces a multiple of half a MiB |
| SizeLabel.OddHalves | pkg/driver/discovery.go:34-36 | in the one-decimal branch the size is an odd number of half MiBs that a double holds exactly |
| SizeLabel.LabelIsLosslessExactly | pkg/driver/discovery.go:18-41 | number and unit of the label denote exactly the size, if and only if the size is not negative |
| SizeLabel.SameLabelExactly | pkg/driver/discovery.go:18-41 | two sizes share a label exactly when they are equal or neither is positive |
| SizeLabel.LargestUnitExactly | pkg/driver/discovery.go:18-41 | the label is in a unit if and only if that is the largest one the size can be shown in, whole or as a MiB with one decimal |
| DomainDiscovery.DiscoverDomainIDs | pkg/resctrl/resctrl.go:191-219 | the loops return the ids of the first line of the resource, `[0]` without one, and an error for an unreadable file |
| DomainDiscovery.DomainsReadBack | pkg/resctrl/resctrl.go:191-219 | the ids are exactly those the line lists, in order, wherever it stands, however indented, with any values |
| DomainDiscovery.MalformedSegmentSkipped | pkg/resctrl/resctrl.go:204-216 | a malformed segment drops no id before it or after it |
| DomainDiscovery.NoLineMeansZero | pkg/resctrl/resctrl.go:218 | without a line of the resource there is one domain, 0 |

## Left out

- PartitionLimits.EstimateCloseToSize: `CachePartitionSizeBytes` is modelled for counts and sizes that are not negative, where Go's and Dafny's division agree, and without the wrap-around of the product.
- ProtocolSafety.IsolationOverAllRuns: the kernel filling in other domains of a new group's schemata is not modelled; text reads back as written.
- Accounting.ExactAccounting: its runs prepare claims with UUID text as UIDs, so that their group names differ, with at most one cache-way device each and not again while in flight or recorded; without these two `OverwriteStrandsExactly` and `Delivery.UnprepareReturnsLast` say what is lost.
- StructuredDriver.Resctrl.DeleteGroup: the processes drained from the group's `tasks` file to the root group (`pkg/resctrl/resctrl.go:98-101`) are not modelled.
- Rollback.PrepareDelivers: speaks of claims with one cache-way device; `Delivery.PrepareServesAll` says what happens with several.
- Rollback.UnprepareUndoesPrepare: speaks of claims with one cache-way device and a CDI file of their own (`ClaimFiles` says which share one); `Delivery.UnprepareReturnsLast` says what happens with several.
- `ApplyMBA`, `ApplySMBA`, `ApplyL2`: partitions are values here, so the update in place through shared pointers is not captured; the values are inputs of the statements.
- Mutexes as such: a lock-protected section is one step. Release of a claim's partitions, in basic mode, is one step under one lock.
- The loops of `NodePrepareResources` and `NodeUnprepareResources` over the claims of a request, gRPC, registration, health, metrics and logging.
- Kubernetes client calls: fetching a claim and listing pages are inputs. Feature probing and slice creation, update and deletion are not part of this model.
- JSON text of CDI files and the names of their environment variables, the hook binary, and moving PIDs between `tasks` files.
- `pkg/cache/numa.go` and the monitor: directory walking and rates.
- Reading `num_closids`, `cbm_mask` and `min_cbm_bits`: the capabilities are inputs.
