/** Basic mode: prepare and unprepare over pre-created partitions (`pkg/driver/driver.go`) and the
    replay of existing claims at startup (`pkg/driver/recovery.go`). */
module BasicMode {
  import opened Options
  import opened Masks
  import opened Names
  import opened Partitions
  import opened PartitionOwnership
  import opened Protocol

  // ---- One claim -----------------------------------------------------------------------------

  /** Driver and node name, as the results name them. */
  datatype Identity = Identity(driverName: string, nodeName: string)

  predicate Ours(me: Identity, r: DeviceResult) {
    r.driver == me.driverName && r.pool == me.nodeName
  }

  /** Assigns a claim's devices in order; a device that cannot be assigned is skipped. */
  function Take(me: Identity, o: Owners, uid: string, results: seq<DeviceResult>): (Owners, seq<DeviceResult>) {
    if results == [] then (o, [])
    else
      var (o1, got) := Take(me, o, uid, results[..|results| - 1]);
      var r := results[|results| - 1];
      if !Ours(me, r) then (o1, got)
      else var (e, o2) := Assign(o1, r.device, uid); if e.Some? then (o1, got) else (o2, got + [r])
  }

  function BasicDevice(r: DeviceResult): PreparedDevice {
    PreparedDevice(r.request, r.pool, r.device, CDI_KIND + "=" + r.device)
  }

  function BasicDevices(got: seq<DeviceResult>): seq<PreparedDevice> {
    if got == [] then [] else BasicDevices(got[..|got| - 1]) + [BasicDevice(got[|got| - 1])]
  }

  function PrepareBasic(me: Identity, o: Owners, uid: string, fetched: Fetched): (Owners, Response) {
    match fetched
    case FetchFailed => (o, Failed(FetchError))
    case Unallocated => (o, Failed(NoAllocation))
    case Allocation(results) =>
      var (o', got) := Take(me, o, uid, results);
      (o', if got == [] then Failed(NoDevices) else Prepared(BasicDevices(got)))
  }

  lemma {:induction false} BasicDevicesEmpty(got: seq<DeviceResult>)
    ensures |BasicDevices(got)| == |got|
  {
    if got != [] { BasicDevicesEmpty(got[..|got| - 1]); }
  }

  // ---- Listing pages -------------------------------------------------------------------------

  datatype Claim = Claim(uid: string, allocation: Option<seq<DeviceResult>>)

  /** One answer of the API server to a list call. */
  datatype PageReply = Page(items: seq<Claim>, token: string) | ListFailed

  predicate Last(reply: PageReply) {
    reply.ListFailed? || reply.token == ""
  }

  /** `claimAllocatedOnNode` */
  function OnNode(claim: Claim, nodeName: string): bool {
    claim.allocation.Some? && exists r | r in claim.allocation.value :: r.pool == nodeName
  }

  /** `recoverClaim` */
  function RecoverOne(me: Identity, o: Owners, claim: Claim): (Owners, nat) {
    if claim.allocation.None? || !OnNode(claim, me.nodeName) then (o, 0)
    else var (o', got) := Take(me, o, claim.uid, claim.allocation.value); (o', |got|)
  }

  /** First claim wins: the claims are replayed in order, with no look at the node first. */
  function Replay(me: Identity, o: Owners, claims: seq<Claim>): (Owners, nat) {
    if claims == [] then (o, 0)
    else
      var (o1, n) := Replay(me, o, claims[..|claims| - 1]);
      var claim := claims[|claims| - 1];
      if claim.allocation.None? then (o1, n)
      else var (o2, got) := Take(me, o1, claim.uid, claim.allocation.value); (o2, n + |got|)
  }

  /** The claims of all pages up to the last one, or up to the first failure. */
  function Listed(replies: seq<PageReply>): seq<Claim> {
    if replies == [] || replies[0].ListFailed? then []
    else replies[0].items + if replies[0].token == "" then [] else Listed(replies[1..])
  }

  predicate ListingFails(replies: seq<PageReply>) {
    replies != [] && (replies[0].ListFailed? || (replies[0].token != "" && ListingFails(replies[1..])))
  }

  /** The server eventually ends the listing; otherwise the loop would not either. */
  predicate Ends(replies: seq<PageReply>) {
    replies != [] && (Last(replies[0]) || Ends(replies[1..]))
  }

  // ---- The handlers --------------------------------------------------------------------------

  class BasicDriver {
    const me: Identity
    const state: AllocationState

    constructor (me: Identity, state: AllocationState)
      ensures this.me == me && this.state == state
    {
      this.me := me;
      this.state := state;
    }

    method PrepareClaim(uid: string, fetched: Fetched) returns (response: Response)
      requires state.Valid()
      modifies state.partitions.Values
      ensures (state.Owners(), response) == PrepareBasic(me, old(state.Owners()), uid, fetched)
    {
      if fetched.FetchFailed? { return Failed(FetchError); }
      if fetched.Unallocated? { return Failed(NoAllocation); }
      var results := fetched.results;
      var devices: seq<PreparedDevice>, n := [], 0;
      ghost var got: seq<DeviceResult> := [];
      while n < |results|
        invariant 0 <= n <= |results|
        invariant (state.Owners(), got) == Take(me, old(state.Owners()), uid, results[..n])
        invariant devices == BasicDevices(got)
      {
        var result := results[n];
        assert results[..n + 1][..n] == results[..n];
        n := n + 1;
        if result.driver != me.driverName || result.pool != me.nodeName { continue; }
        var e := state.Allocate(result.device, uid);
        if e.Some? { continue; }
        devices := devices + [PreparedDevice(result.request, result.pool, result.device, CDI_KIND + "=" + result.device)];
        assert (got + [result])[..|got|] == got;
        got := got + [result];
      }
      assert results[..n] == results;
      BasicDevicesEmpty(got);
      if |devices| == 0 { return Failed(NoDevices); }
      return Prepared(devices);
    }

    method UnprepareClaim(uid: string) returns (response: Response)
      requires state.Valid()
      modifies state.partitions.Values
      ensures state.Owners() == UnassignClaim(old(state.Owners()), uid) && response == Unprepared
    {
      var _ := state.ReleaseByClaimUID(uid);
      return Unprepared;
    }
  }

  method RecoverClaim(me: Identity, state: AllocationState, claim: Claim) returns (count: nat)
    requires state.Valid()
    modifies state.partitions.Values
    ensures (state.Owners(), count) == RecoverOne(me, old(state.Owners()), claim)
  {
    if claim.allocation.None? { return 0; }
    var onNode := AllocatedOnNode(claim, me.nodeName);
    if !onNode { return 0; }
    var results := claim.allocation.value;
    count := 0;
    var n := 0;
    while n < |results|
      invariant 0 <= n <= |results|
      invariant var (o, got) := Take(me, old(state.Owners()), claim.uid, results[..n]); state.Owners() == o && count == |got|
    {
      var result := results[n];
      assert results[..n + 1][..n] == results[..n];
      n := n + 1;
      if result.driver != me.driverName { continue; }
      if result.pool != me.nodeName { continue; }
      var e := state.Allocate(result.device, claim.uid);
      if e.Some? { continue; }
      count := count + 1;
    }
    assert results[..n] == results;
  }

  method AllocatedOnNode(claim: Claim, nodeName: string) returns (found: bool)
    ensures found <==> OnNode(claim, nodeName)
  {
    if claim.allocation.None? { return false; }
    var results := claim.allocation.value;
    for n := 0 to |results|
      invariant forall k | 0 <= k < n :: results[k].pool != nodeName
    {
      if results[n].pool == nodeName { return true; }
    }
    return false;
  }

  /** Over the server's replies, recovery is the first-claim-wins replay of the concatenated pages;
      a listing failure keeps what was recovered before it. */
  method RecoverAllocations(me: Identity, state: AllocationState, replies: seq<PageReply>) returns (recovered: nat, ok: bool)
    requires state.Valid() && Ends(replies)
    modifies state.partitions.Values
    ensures (state.Owners(), recovered) == Replay(me, old(state.Owners()), Listed(replies))
    ensures ok <==> !ListingFails(replies)
  {
    recovered := 0;
    ghost var seen: seq<Claim> := [];
    var n := 0;
    while true
      invariant 0 <= n <= |replies| && Ends(replies[n..])
      invariant seen + Listed(replies[n..]) == Listed(replies)
      invariant ListingFails(replies[n..]) <==> ListingFails(replies)
      invariant (state.Owners(), recovered) == Replay(me, old(state.Owners()), seen)
      decreases |replies| - n
    {
      var reply := replies[n];
      assert replies[n..][0] == reply && replies[n..][1..] == replies[n + 1..];
      if reply.ListFailed? {
        assert seen + [] == seen;
        return recovered, false;
      }
      recovered := RecoverPage(me, state, reply.items, recovered, seen, old(state.Owners()));
      ghost var rest := if reply.token == "" then [] else Listed(replies[n + 1..]);
      assert seen + (reply.items + rest) == (seen + reply.items) + rest;
      seen := seen + reply.items;
      n := n + 1;
      if reply.token == "" {
        assert seen + [] == seen;
        break;
      }
    }
    return recovered, true;
  }

  /** One more claim of a page, in the specification. */
  lemma {:induction false} ReplayStep(me: Identity, start: Owners, seen: seq<Claim>, items: seq<Claim>, i: nat)
    requires i < |items|
    ensures var (o, n) := Replay(me, start, seen + items[..i]);
            var (o', m) := RecoverOne(me, o, items[i]);
            Replay(me, start, seen + items[..i + 1]) == (o', n + m)
  {
    var before, all := seen + items[..i], seen + items[..i + 1];
    assert all[..|all| - 1] == before && all[|all| - 1] == items[i];
    GateChangesNothing(me, Replay(me, start, before).0, items[i]);
  }

  /** The loop over the claims of one page. */
  method RecoverPage(me: Identity, state: AllocationState, items: seq<Claim>, before: nat,
                     ghost seen: seq<Claim>, ghost start: Owners) returns (recovered: nat)
    requires state.Valid()
    requires (state.Owners(), before) == Replay(me, start, seen)
    modifies state.partitions.Values
    ensures (state.Owners(), recovered) == Replay(me, start, seen + items)
  {
    recovered := before;
    var i := 0;
    assert seen + items[..0] == seen;
    while i < |items|
      invariant 0 <= i <= |items|
      invariant (state.Owners(), recovered) == Replay(me, start, seen + items[..i])
    {
      ReplayStep(me, start, seen, items, i);
      var n := RecoverClaim(me, state, items[i]);
      recovered := recovered + n;
      i := i + 1;
    }
    assert items[..i] == items;
  }

  // ---- What the gate and the pages do not change ---------------------------------------------

  lemma {:induction false} NothingOurs(me: Identity, o: Owners, uid: string, results: seq<DeviceResult>)
    requires forall r | r in results :: r.pool != me.nodeName
    ensures Take(me, o, uid, results) == (o, [])
  {
    if results != [] {
      NothingOurs(me, o, uid, results[..|results| - 1]);
      assert results[|results| - 1] in results;
    }
  }

  /** The look at the node never changes the result: a claim it turns away has nothing to assign. */
  lemma {:induction false} GateChangesNothing(me: Identity, o: Owners, claim: Claim)
    ensures RecoverOne(me, o, claim)
            == if claim.allocation.None? then (o, 0)
               else var (o', got) := Take(me, o, claim.uid, claim.allocation.value); (o', |got|)
  {
    if claim.allocation.Some? && !OnNode(claim, me.nodeName) {
      NothingOurs(me, o, claim.uid, claim.allocation.value);
    }
  }

  /** Preparing the same claims one after the other. */
  function PrepareEach(me: Identity, o: Owners, claims: seq<Claim>): Owners {
    if claims == [] then o
    else
      var claim := claims[|claims| - 1];
      PrepareBasic(me, PrepareEach(me, o, claims[..|claims| - 1]), claim.uid,
                   if claim.allocation.None? then Unallocated else Allocation(claim.allocation.value)).0
  }

  /** How many devices those prepares answer in all. */
  function AnsweredEach(me: Identity, o: Owners, claims: seq<Claim>): nat {
    if claims == [] then 0
    else
      var before, claim := claims[..|claims| - 1], claims[|claims| - 1];
      AnsweredEach(me, o, before)
      + if claim.allocation.None? then 0
        else
          var answer := PrepareBasic(me, PrepareEach(me, o, before), claim.uid, Allocation(claim.allocation.value)).1;
          if answer.Prepared? then |answer.devices| else 0
  }

  /** The replay ends in the owners of preparing the same claims one after the other, and counts the
      devices that these prepares answer. */
  lemma {:induction false} ReplayIsPrepareEach(me: Identity, o: Owners, claims: seq<Claim>)
    ensures Replay(me, o, claims) == (PrepareEach(me, o, claims), AnsweredEach(me, o, claims))
  {
    if claims != [] {
      var before, claim := claims[..|claims| - 1], claims[|claims| - 1];
      ReplayIsPrepareEach(me, o, before);
      if claim.allocation.Some? {
        BasicDevicesEmpty(Take(me, PrepareEach(me, o, before), claim.uid, claim.allocation.value).1);
      }
    }
  }

  /** When a prepare fails, and what the error says: the claim could not be fetched, has no allocation, or
      none of its results could be assigned. The first two change nothing. */
  lemma {:induction false} FailureNamesTheReason(me: Identity, o: Owners, uid: string, fetched: Fetched)
    ensures var (o', answer) := PrepareBasic(me, o, uid, fetched);
            && (answer == Failed(FetchError) <==> fetched.FetchFailed?)
            && (answer == Failed(NoAllocation) <==> fetched.Unallocated?)
            && (answer == Failed(NoDevices) <==> fetched.Allocation? && Take(me, o, uid, fetched.results).1 == [])
            && (answer.Prepared? <==> fetched.Allocation? && Take(me, o, uid, fetched.results).1 != [])
            && (!fetched.Allocation? ==> o' == o)
  {
  }
}
