/** Ownership of the pre-created partitions in basic mode (`pkg/driver/state.go`). */
module PartitionOwnership {
  import opened Options
  import opened Partitions

  /** For each known partition id, the claim that holds it. */
  type Owners = map<string, Option<string>>

  datatype AssignError = NotFound | HeldBy(uid: string)

  function Assign(o: Owners, id: string, uid: string): (Option<AssignError>, Owners) {
    if id !in o then (Some(NotFound), o)
    else match o[id]
      case None => (None, o[id := Some(uid)])
      case Some(owner) => if owner == uid then (None, o) else (Some(HeldBy(owner)), o)
  }

  function Unassign(o: Owners, id: string): Owners {
    if id in o then o[id := None] else o
  }

  function UnassignClaim(o: Owners, uid: string): Owners {
    map id | id in o :: if o[id] == Some(uid) then None else o[id]
  }

  /** The owners once the given partitions have been released. */
  ghost function Without(o: Owners, ids: set<string>): Owners {
    map id | id in o :: if id in ids then None else o[id]
  }

  lemma {:induction false} WithoutNone(o: Owners)
    ensures Without(o, {}) == o
  {
  }

  lemma {:induction false} WithoutStep(o: Owners, ids: set<string>, id: string)
    requires id in o
    ensures Without(o, ids)[id := None] == Without(o, ids + {id})
  {
  }

  lemma {:induction false} WithoutHeld(o: Owners, uid: string)
    ensures Without(o, IdsHeldBy(o, uid)) == UnassignClaim(o, uid)
  {
  }

  ghost function IdsHeld(o: Owners): set<string> {
    set id | id in o && o[id].Some?
  }

  ghost function IdsHeldBy(o: Owners, uid: string): set<string> {
    set id | id in o && o[id] == Some(uid)
  }

  /** An assignment succeeds exactly when the partition is known and free or already the claim's
      own; it then belongs to the claim, and nothing else changes. */
  lemma {:induction false} AssignExactly(o: Owners, id: string, uid: string)
    ensures var (e, o') := Assign(o, id, uid);
            && (e.None? <==> id in o && (o[id].None? || o[id] == Some(uid)))
            && (e.None? ==> o'.Keys == o.Keys && o'[id] == Some(uid) && forall p | p in o && p != id :: o'[p] == o[p])
            && (e.Some? ==> o' == o)
  {
  }

  /** A release frees the partition, whoever held it, and nothing else changes: after it, and only then
      if the partition is known, every claim can be assigned it. */
  lemma {:induction false} UnassignExactly(o: Owners, id: string, uid: string)
    ensures var o' := Unassign(o, id);
            && o'.Keys == o.Keys && (id in o ==> o'[id] == None)
            && (forall p | p in o && p != id :: o'[p] == o[p])
            && (Assign(o', id, uid).0.None? <==> id in o)
  {
  }

  // ---- The partitions behind the ids ---------------------------------------------------------

  /** `partitions[p.ID] = ...` over a list: the last partition with an id wins. */
  function Register(known: map<string, CachePartition>, parts: seq<CachePartition>): map<string, CachePartition> {
    if parts == [] then known
    else var p := parts[|parts| - 1]; Register(known, parts[..|parts| - 1])[p.id := p]
  }

  function RegisterAll(perCache: seq<seq<CachePartition>>): map<string, CachePartition> {
    if perCache == [] then map[]
    else Register(RegisterAll(perCache[..|perCache| - 1]), perCache[|perCache| - 1])
  }

  function AllFree(known: map<string, CachePartition>): Owners {
    map id | id in known :: None
  }

  // ---- The state object ----------------------------------------------------------------------

  class PartitionState {
    const partition: CachePartition
    var isAllocated: bool
    var claimUID: string

    constructor (partition: CachePartition)
      ensures this.partition == partition && !isAllocated && claimUID == ""
    {
      this.partition := partition;
      isAllocated, claimUID := false, "";
    }

    function Owner(): Option<string>
      reads this
    {
      if isAllocated then Some(claimUID) else None
    }
  }

  class AllocationState {
    const partitions: map<string, PartitionState>

    /** Each id has its own entry. */
    ghost predicate Valid()
    {
      forall a, b | a in partitions && b in partitions && a != b :: partitions[a] != partitions[b]
    }

    ghost function Owners(): Owners
      reads partitions.Values
    {
      map id | id in partitions :: partitions[id].Owner()
    }

    ghost function Known(): map<string, CachePartition> {
      map id | id in partitions :: partitions[id].partition
    }

    constructor (perCache: seq<seq<CachePartition>>)
      ensures Valid() && fresh(partitions.Values)
      ensures Known() == RegisterAll(perCache)
      ensures Owners() == AllFree(RegisterAll(perCache))
    {
      var entries: map<string, PartitionState> := map[];
      var c := 0;
      while c < |perCache|
        invariant 0 <= c <= |perCache|
        invariant Separate(entries) && fresh(entries.Values)
        invariant forall id | id in entries :: entries[id].Owner() == None
        invariant Recorded(entries) == RegisterAll(perCache[..c])
      {
        entries := AddEntries(entries, perCache[c], RegisterAll(perCache[..c]));
        assert perCache[..c + 1][..c] == perCache[..c];
        c := c + 1;
      }
      assert perCache[..c] == perCache;
      partitions := entries;
    }

    method Allocate(partitionID: string, claimUID: string) returns (e: Option<AssignError>)
      requires Valid()
      modifies partitions.Values
      ensures (e, Owners()) == Assign(old(Owners()), partitionID, claimUID)
    {
      if partitionID !in partitions { return Some(NotFound); }
      var p := partitions[partitionID];
      if p.isAllocated {
        if p.claimUID == claimUID { return None; }
        return Some(HeldBy(p.claimUID));
      }
      p.isAllocated := true;
      p.claimUID := claimUID;
      assert Owners() == old(Owners())[partitionID := Some(claimUID)];
      return None;
    }

    method Release(partitionID: string) returns (found: bool)
      requires Valid()
      modifies partitions.Values
      ensures found <==> partitionID in partitions
      ensures Owners() == Unassign(old(Owners()), partitionID)
    {
      if partitionID !in partitions { return false; }
      var p := partitions[partitionID];
      p.isAllocated := false;
      p.claimUID := "";
      return true;
    }

    /** The order of the released ids is that of the map iteration. */
    method ReleaseByClaimUID(claimUID: string) returns (released: seq<string>)
      requires Valid()
      modifies partitions.Values
      ensures Owners() == UnassignClaim(old(Owners()), claimUID)
      ensures multiset(released) == multiset(IdsHeldBy(old(Owners()), claimUID))
    {
      released := [];
      var todo := partitions.Keys;
      ghost var before, held, seen := Owners(), IdsHeldBy(Owners(), claimUID), {};
      WithoutNone(before);
      while todo != {}
        invariant todo <= partitions.Keys && Seen(seen, held, todo)
        invariant Owners() == Without(before, seen) && multiset(released) == multiset(seen)
        decreases |todo|
      {
        var id :| id in todo;
        todo := todo - {id};
        var mine := ReleaseIfHeld(id, claimUID);
        if mine {
          released := released + [id];
          WithoutStep(before, seen, id);
          seen := seen + {id};
        }
      }
      assert seen == held;
      WithoutHeld(before, claimUID);
    }

    /** The body of the release loop. */
    method ReleaseIfHeld(id: string, claimUID: string) returns (mine: bool)
      requires Valid() && id in partitions
      modifies partitions.Values
      ensures mine <==> old(Owners())[id] == Some(claimUID)
      ensures Owners() == if mine then old(Owners())[id := None] else old(Owners())
    {
      var p := partitions[id];
      mine := p.isAllocated && p.claimUID == claimUID;
      if mine {
        p.isAllocated := false;
        p.claimUID := "";
        assert Owners() == old(Owners())[id := None];
      }
    }

    method AllocatedCount() returns (count: nat)
      ensures count == |IdsHeld(Owners())|
    {
      count := 0;
      var todo := partitions.Keys;
      ghost var held, seen := IdsHeld(Owners()), {};
      while todo != {}
        invariant todo <= partitions.Keys && Seen(seen, held, todo) && count == |seen|
        decreases |todo|
      {
        var id :| id in todo;
        assert id in held <==> partitions[id].isAllocated;
        todo := todo - {id};
        if partitions[id].isAllocated {
          count, seen := count + 1, seen + {id};
        }
      }
      assert seen == held;
    }

    /** The partitions held by a claim, one per id, in the order of the map iteration. */
    method PartitionsByClaimUID(claimUID: string) returns (result: seq<CachePartition>)
      ensures OnePerId(result, Known(), IdsHeldBy(Owners(), claimUID))
    {
      result := [];
      var todo := partitions.Keys;
      ghost var held, seen := IdsHeldBy(Owners(), claimUID), {};
      while todo != {}
        invariant todo <= partitions.Keys && Seen(seen, held, todo) && OnePerId(result, Known(), seen)
        decreases |todo|
      {
        var id :| id in todo;
        var p := partitions[id];
        assert id in held <==> p.Owner() == Some(claimUID);
        todo := todo - {id};
        if p.isAllocated && p.claimUID == claimUID {
          OneMoreId(result, Known(), seen, id);
          result, seen := result + [p.partition], seen + {id};
        }
      }
      assert seen == held;
    }

    /** The unallocated partitions, one per id, in the order of the map iteration. */
    method AvailablePartitions() returns (available: seq<CachePartition>)
      ensures OnePerId(available, Known(), Owners().Keys - IdsHeld(Owners()))
    {
      available := [];
      var todo := partitions.Keys;
      ghost var open, seen := Owners().Keys - IdsHeld(Owners()), {};
      while todo != {}
        invariant todo <= partitions.Keys && Seen(seen, open, todo) && OnePerId(available, Known(), seen)
        decreases |todo|
      {
        var id :| id in todo;
        var p := partitions[id];
        assert id in open <==> !p.isAllocated;
        todo := todo - {id};
        if !p.isAllocated {
          OneMoreId(available, Known(), seen, id);
          available, seen := available + [p.partition], seen + {id};
        }
      }
      assert seen == open;
    }
  }

  /** The ids, among the given ones, under which the partition is registered. */
  ghost function IdsOf(known: map<string, CachePartition>, ids: set<string>, p: CachePartition): set<string> {
    set id | id in ids && id in known && known[id] == p
  }

  /** The list holds the partitions registered under the given ids, one for each id. */
  ghost predicate OnePerId(list: seq<CachePartition>, known: map<string, CachePartition>, ids: set<string>) {
    forall p :: multiset(list)[p] == |IdsOf(known, ids, p)|
  }

  lemma {:induction false} OneMoreId(list: seq<CachePartition>, known: map<string, CachePartition>, ids: set<string>,
        id: string)
    requires OnePerId(list, known, ids) && id in known && id !in ids
    ensures OnePerId(list + [known[id]], known, ids + {id})
  {
    forall p ensures multiset(list + [known[id]])[p] == |IdsOf(known, ids + {id}, p)| {
      assert multiset(list)[p] == |IdsOf(known, ids, p)|;
      assert IdsOf(known, ids + {id}, p) == IdsOf(known, ids, p) + if p == known[id] then {id} else {};
    }
  }

  /** `seen` is the part of `wanted` that is no longer to do. */
  ghost predicate Seen(seen: set<string>, wanted: set<string>, todo: set<string>) {
    forall id :: id in seen <==> id in wanted && id !in todo
  }

  ghost predicate Separate(entries: map<string, PartitionState>) {
    forall a, b | a in entries && b in entries && a != b :: entries[a] != entries[b]
  }

  ghost function Recorded(entries: map<string, PartitionState>): map<string, CachePartition> {
    map id | id in entries :: entries[id].partition
  }

  /** The inner loop of the constructor: new entries for the partitions of one cache. */
  method AddEntries(entries: map<string, PartitionState>, parts: seq<CachePartition>, ghost known: map<string, CachePartition>)
    returns (r: map<string, PartitionState>)
    requires Separate(entries) && Recorded(entries) == known
    requires forall id | id in entries :: entries[id].Owner() == None
    ensures Separate(r) && fresh(r.Values - entries.Values)
    ensures Recorded(r) == Register(known, parts)
    ensures forall id | id in r :: r[id].Owner() == None
  {
    r := entries;
    var k := 0;
    while k < |parts|
      invariant 0 <= k <= |parts|
      invariant Separate(r) && fresh(r.Values - entries.Values)
      invariant Recorded(r) == Register(known, parts[..k])
      invariant forall id | id in r :: allocated(r[id]) && r[id].Owner() == None
    {
      var entry := new PartitionState(parts[k]);
      assert parts[..k + 1][..k] == parts[..k];
      r := r[parts[k].id := entry];
      k := k + 1;
    }
    assert parts[..k] == parts;
  }
}
