/** What the replay of listed claims ends in, partition by partition, and when the order of the list
    and its division into pages matter (`pkg/driver/recovery.go`). */
module ReplayOrder {
  import opened Options
  import opened PartitionOwnership
  import opened Protocol
  import opened BasicMode

  // ---- One claim -----------------------------------------------------------------------------

  predicate NamedIn(me: Identity, results: seq<DeviceResult>, p: string) {
    exists r | r in results :: Ours(me, r) && r.device == p
  }

  /** A result that can be granted to a claim in the given state. */
  predicate Grantable(me: Identity, o: Owners, uid: string, r: DeviceResult) {
    Ours(me, r) && r.device in o && (o[r.device].None? || o[r.device] == Some(uid))
  }

  function Granted(me: Identity, o: Owners, uid: string, results: seq<DeviceResult>): seq<DeviceResult> {
    if results == [] then []
    else
      var r := results[|results| - 1];
      Granted(me, o, uid, results[..|results| - 1]) + if Grantable(me, o, uid, r) then [r] else []
  }

  /** A claim takes exactly the free partitions it names, and is granted, in order, the results that
      name a partition it could have before the call: its own earlier results never get in its way. */
  lemma {:induction false} TakeMeaning(me: Identity, o: Owners, uid: string, results: seq<DeviceResult>)
    ensures var (o', got) := Take(me, o, uid, results);
            && o'.Keys == o.Keys
            && (forall p | p in o :: o'[p] == if o[p].None? && NamedIn(me, results, p) then Some(uid) else o[p])
            && got == Granted(me, o, uid, results)
  {
    if results != [] {
      var before, r := results[..|results| - 1], results[|results| - 1];
      TakeMeaning(me, o, uid, before);
      assert forall x :: x in results <==> x in before || x == r;
      AssignExactly(Take(me, o, uid, before).0, r.device, uid);
      forall p | p in o ensures NamedIn(me, results, p) <==> NamedIn(me, before, p) || (Ours(me, r) && r.device == p) {
      }
    }
  }

  lemma {:induction false} GrantedMembers(me: Identity, o: Owners, uid: string, results: seq<DeviceResult>)
    ensures forall r :: r in Granted(me, o, uid, results) <==> r in results && Grantable(me, o, uid, r)
  {
    if results != [] {
      GrantedMembers(me, o, uid, results[..|results| - 1]);
      assert results == results[..|results| - 1] + [results[|results| - 1]];
    }
  }

  // ---- A list of claims ----------------------------------------------------------------------

  predicate Wants(me: Identity, claim: Claim, p: string) {
    claim.allocation.Some? && NamedIn(me, claim.allocation.value, p)
  }

  /** The first claim that wants the partition is claim `k`. */
  predicate FirstAt(me: Identity, claims: seq<Claim>, p: string, k: nat) {
    k < |claims| && Wants(me, claims[k], p) && forall j | 0 <= j < k :: !Wants(me, claims[j], p)
  }

  predicate Unwanted(me: Identity, claims: seq<Claim>, p: string) {
    forall j | 0 <= j < |claims| :: !Wants(me, claims[j], p)
  }

  /** First claim wins: a free partition goes to the first claim of the list that wants it and stays
      free when none does; a partition held before stays with its holder. */
  lemma {:induction false} FirstClaimWins(me: Identity, o: Owners, claims: seq<Claim>, p: string)
    requires p in o
    ensures var o' := Replay(me, o, claims).0;
            && o'.Keys == o.Keys
            && (o[p].Some? ==> o'[p] == o[p])
            && (o[p].None? && Unwanted(me, claims, p) ==> o'[p] == None)
            && (forall k: nat | FirstAt(me, claims, p, k) :: o[p].None? ==> o'[p] == Some(claims[k].uid))
  {
    if claims != [] {
      var before, claim := claims[..|claims| - 1], claims[|claims| - 1];
      FirstClaimWins(me, o, before, p);
      if claim.allocation.Some? {
        TakeMeaning(me, Replay(me, o, before).0, claim.uid, claim.allocation.value);
      }
      if o[p].None? {
        if Unwanted(me, before, p) {
          assert forall j | 0 <= j < |before| :: claims[j] == before[j];
        } else {
          var k := FirstWanting(me, before, p);
          assert Wants(me, claims[k], p);
          forall i: nat | FirstAt(me, claims, p, i) ensures i == k {
            assert i >= k by { assert forall j | 0 <= j < k :: claims[j] == before[j]; }
          }
        }
      }
    }
  }

  lemma {:induction false} FirstWanting(me: Identity, claims: seq<Claim>, p: string) returns (k: nat)
    requires !Unwanted(me, claims, p)
    ensures FirstAt(me, claims, p, k)
  {
    var before := claims[..|claims| - 1];
    if Unwanted(me, before, p) {
      k := |before|;
      assert forall j | 0 <= j < k :: claims[j] == before[j];
    } else {
      k := FirstWanting(me, before, p);
      assert forall j | 0 <= j <= k :: claims[j] == before[j];
    }
  }

  // ---- The order of the list -----------------------------------------------------------------

  /** Claims with different UIDs that want the same free partition. */
  predicate Rivals(me: Identity, o: Owners, a: Claim, b: Claim) {
    a.uid != b.uid && exists p | p in o :: o[p].None? && Wants(me, a, p) && Wants(me, b, p)
  }

  predicate Contested(me: Identity, o: Owners, claims: seq<Claim>) {
    exists j, k | 0 <= j < |claims| && 0 <= k < |claims| :: Rivals(me, o, claims[j], claims[k])
  }

  ghost predicate Reordered(claims: seq<Claim>, cs: seq<Claim>) {
    multiset(cs) == multiset(claims)
  }

  lemma {:induction false} SameMembers(claims: seq<Claim>, cs: seq<Claim>)
    requires Reordered(claims, cs)
    ensures forall c :: c in claims <==> c in cs
  {
    forall c ensures c in claims <==> c in cs {
      assert c in claims <==> c in multiset(claims);
      assert c in cs <==> c in multiset(cs);
    }
  }

  lemma {:induction false} UncontestedOwner(me: Identity, o: Owners, claims: seq<Claim>, cs: seq<Claim>, p: string)
    requires Reordered(claims, cs) && !Contested(me, o, claims) && p in o
    ensures p in Replay(me, o, cs).0 && p in Replay(me, o, claims).0
    ensures Replay(me, o, cs).0[p] == Replay(me, o, claims).0[p]
  {
    FirstClaimWins(me, o, claims, p);
    FirstClaimWins(me, o, cs, p);
    SameMembers(claims, cs);
    if !Unwanted(me, claims, p) {
      var k := FirstWanting(me, claims, p);
      assert claims[k] in cs;
      assert !Unwanted(me, cs, p);
      var j := FirstWanting(me, cs, p);
      assert cs[j] in claims;
      var i :| 0 <= i < |claims| && claims[i] == cs[j];
      assert o[p].None? ==> !Rivals(me, o, claims[i], claims[k]);
    } else {
      assert forall j | 0 <= j < |cs| :: cs[j] in claims;
    }
  }

  function ToFront(claims: seq<Claim>, i: nat): seq<Claim>
    requires i < |claims|
  {
    [claims[i]] + (claims[..i] + claims[i + 1..])
  }

  lemma {:induction false} ToFrontReorders(claims: seq<Claim>, i: nat)
    requires i < |claims|
    ensures Reordered(claims, ToFront(claims, i))
  {
    assert claims == claims[..i] + ([claims[i]] + claims[i + 1..]);
  }

  /** Of two rivals, one can be moved to the front to change the outcome. */
  lemma {:induction false} RivalsSwing(me: Identity, o: Owners, claims: seq<Claim>, j: nat, k: nat)
    returns (cs: seq<Claim>)
    requires j < |claims| && k < |claims| && Rivals(me, o, claims[j], claims[k])
    ensures Reordered(claims, cs) && Replay(me, o, cs).0 != Replay(me, o, claims).0
  {
    var p :| p in o && o[p].None? && Wants(me, claims[j], p) && Wants(me, claims[k], p);
    ReplayKeys(me, o, claims);
    var i := if Replay(me, o, claims).0[p] == Some(claims[j].uid) then k else j;
    cs := ToFront(claims, i);
    ToFrontReorders(claims, i);
    FirstClaimWins(me, o, cs, p);
    FirstClaimWins(me, o, claims, p);
    assert FirstAt(me, cs, p, 0);
  }

  /** Every order of the same claims ends in the same owners exactly when no two claims of different
      UIDs want the same free partition. */
  lemma {:induction false} OrderIrrelevantExactly(me: Identity, o: Owners, claims: seq<Claim>)
    ensures (forall cs | Reordered(claims, cs) :: Replay(me, o, cs).0 == Replay(me, o, claims).0)
            <==> !Contested(me, o, claims)
  {
    if Contested(me, o, claims) {
      var j, k :| 0 <= j < |claims| && 0 <= k < |claims| && Rivals(me, o, claims[j], claims[k]);
      var cs := RivalsSwing(me, o, claims, j, k);
    } else {
      forall cs | Reordered(claims, cs) ensures Replay(me, o, cs).0 == Replay(me, o, claims).0 {
        ReplayKeys(me, o, claims);
        ReplayKeys(me, o, cs);
        forall p | p in o ensures Replay(me, o, cs).0[p] == Replay(me, o, claims).0[p] {
          UncontestedOwner(me, o, claims, cs, p);
        }
      }
    }
  }

  lemma {:induction false} ReplayKeys(me: Identity, o: Owners, claims: seq<Claim>)
    ensures Replay(me, o, claims).0.Keys == o.Keys
  {
    if claims != [] {
      ReplayKeys(me, o, claims[..|claims| - 1]);
      var claim := claims[|claims| - 1];
      if claim.allocation.Some? {
        TakeMeaning(me, Replay(me, o, claims[..|claims| - 1]).0, claim.uid, claim.allocation.value);
      }
    }
  }

  // ---- The pages -----------------------------------------------------------------------------

  /** A list served in pages: all but the last carry a token to go on with. */
  predicate Paged(replies: seq<PageReply>) {
    && replies != []
    && (forall k | 0 <= k < |replies| :: replies[k].Page?)
    && (forall k | 0 <= k < |replies| - 1 :: replies[k].token != "")
    && replies[|replies| - 1].token == ""
  }

  function Items(replies: seq<PageReply>): seq<Claim>
    requires forall k | 0 <= k < |replies| :: replies[k].Page?
  {
    if replies == [] then [] else replies[0].items + Items(replies[1..])
  }

  /** A list served without error is replayed whole, in list order, however it is cut into pages. */
  lemma {:induction false} PagesDoNotMatter(replies: seq<PageReply>)
    requires Paged(replies)
    ensures Ends(replies) && !ListingFails(replies) && Listed(replies) == Items(replies)
  {
    if |replies| > 1 {
      PagesDoNotMatter(replies[1..]);
    } else {
      assert Items(replies[1..]) == [];
    }
  }

  /** A failing list call keeps the pages before it and nothing else. */
  lemma {:induction false} FailureKeepsEarlierPages(replies: seq<PageReply>, rest: seq<PageReply>)
    requires forall k | 0 <= k < |replies| :: replies[k].Page? && replies[k].token != ""
    ensures var all := replies + [ListFailed] + rest;
            Ends(all) && ListingFails(all) && Listed(all) == Items(replies)
  {
    var all := replies + [ListFailed] + rest;
    if replies != [] {
      FailureKeepsEarlierPages(replies[1..], rest);
      assert all[1..] == replies[1..] + [ListFailed] + rest;
    }
  }
}
