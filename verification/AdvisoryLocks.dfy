/**
 Advisory locks: one process-wide table from keys to the session that holds
 them and how often.  The accounting is against the history of calls: what a
 session has taken and not given back.
 */
module AdvisoryLocks {
  type Key = string
  type Owner = nat

  datatype Held = Held(owner: Owner, count: nat)

  datatype Call =
    | TryLock(owner: Owner, key: Key)
    | Unlock(owner: Owner, key: Key)
    | ReleaseAll(owner: Owner)

  type Locks = map<Key, Held>

  // ---- what each call does to the table, and its boolean answer ----

  function Answer(locks: Locks, c: Call): bool {
    match c
    case TryLock(o, key) => key !in locks || locks[key].owner == o
    case Unlock(o, key) => key in locks && locks[key].owner == o
    case ReleaseAll(_) => true
  }

  function Effect(locks: Locks, c: Call): Locks {
    match c
    case TryLock(o, key) =>
      if key !in locks then locks[key := Held(o, 1)]
      else if locks[key].owner == o then locks[key := Held(o, locks[key].count + 1)]
      else locks
    case Unlock(o, key) =>
      if key !in locks || locks[key].owner != o then locks
      else if locks[key].count > 1 then locks[key := Held(o, locks[key].count - 1)]
      else locks - {key}
    case ReleaseAll(o) => map key | key in locks && locks[key].owner != o :: locks[key]
  }

  class AdvisoryLockTable {
    var heldLocks: Locks

    constructor ()
      ensures heldLocks == map[]
    {
      heldLocks := map[];
    }

    method TryAdvisoryLock(key: Key, owner: Owner) returns (acquired: bool)
      modifies this
      ensures acquired == Answer(old(heldLocks), TryLock(owner, key))
      ensures heldLocks == Effect(old(heldLocks), TryLock(owner, key))
    {
      if key !in heldLocks {
        heldLocks := heldLocks[key := Held(owner, 1)];
        return true;
      }
      var held := heldLocks[key];
      if held.owner == owner {
        heldLocks := heldLocks[key := held.(count := held.count + 1)];
        return true;
      }
      return false;
    }

    method AdvisoryUnlock(key: Key, owner: Owner) returns (unlocked: bool)
      modifies this
      ensures unlocked == Answer(old(heldLocks), Unlock(owner, key))
      ensures heldLocks == Effect(old(heldLocks), Unlock(owner, key))
    {
      if key !in heldLocks || heldLocks[key].owner != owner {
        return false;
      }
      var held := heldLocks[key];
      if held.count > 1 {
        heldLocks := heldLocks[key := held.(count := held.count - 1)];
      } else {
        heldLocks := heldLocks - {key};
      }
      return true;
    }

    /** releaseAllPgAdvisoryLocks: walk the entries, delete the owner's, count them. */
    method ReleaseAllLocks(owner: Owner) returns (released: nat)
      modifies this
      ensures heldLocks == Effect(old(heldLocks), ReleaseAll(owner))
      ensures released == |old(heldLocks)| - |heldLocks|
    {
      released := 0;
      var before := heldLocks;
      var unseen := heldLocks.Keys;
      while unseen != {}
        invariant unseen <= heldLocks.Keys <= before.Keys
        invariant forall key :: key in heldLocks ==> heldLocks[key] == before[key]
        invariant forall key :: key in before && key !in unseen ==> (key in heldLocks <==> before[key].owner != owner)
        invariant released == |before.Keys| - |heldLocks.Keys|
        decreases |unseen|
      {
        var key :| key in unseen;
        unseen := unseen - {key};
        if heldLocks[key].owner == owner {
          assert (heldLocks - {key}).Keys == heldLocks.Keys - {key};
          heldLocks := heldLocks - {key};
          released := released + 1;
        }
      }
    }
  }

  // ---- accounting over any interleaving of calls ----

  /** The table after a sequence of calls of any sessions. */
  function After(calls: seq<Call>): Locks {
    if calls == [] then map[] else Effect(After(calls[..|calls| - 1]), calls[|calls| - 1])
  }

  predicate Succeeds(calls: seq<Call>, c: Call) { Answer(After(calls), c) }

  /** Successful try-locks minus successful unlocks of `owner` on `key` since its last release of everything. */
  function Balance(calls: seq<Call>, owner: Owner, key: Key): int {
    if calls == [] then 0
    else
      var front := calls[..|calls| - 1];
      var c := calls[|calls| - 1];
      if c == TryLock(owner, key) && Succeeds(front, c) then Balance(front, owner, key) + 1
      else if c == Unlock(owner, key) && Succeeds(front, c) then Balance(front, owner, key) - 1
      else if c == ReleaseAll(owner) then 0
      else Balance(front, owner, key)
  }

  /** What the table says `owner` holds of `key`. */
  function Recorded(locks: Locks, owner: Owner, key: Key): nat {
    if key in locks && locks[key].owner == owner then locks[key].count else 0
  }

  /**
   Whatever the interleaving: the table records every session's balance on every
   key, so no key has two owners, an entry's count is at least one, and a key is
   absent exactly when nobody has a balance on it.
   */
  lemma {:induction false} Accounting(calls: seq<Call>, owner: Owner, key: Key)
    ensures Balance(calls, owner, key) == Recorded(After(calls), owner, key)
    ensures key in After(calls) ==> After(calls)[key].count >= 1
  {
    if calls != [] {
      Accounting(calls[..|calls| - 1], owner, key);
    }
  }

  lemma OneOwner(calls: seq<Call>, key: Key)
    ensures key in After(calls) <==> exists o: Owner :: Balance(calls, o, key) > 0
    ensures forall o: Owner, p: Owner :: Balance(calls, o, key) > 0 && Balance(calls, p, key) > 0 ==> o == p
    ensures forall o: Owner :: Balance(calls, o, key) >= 0
  {
    forall o: Owner ensures Balance(calls, o, key) == Recorded(After(calls), o, key) {
      Accounting(calls, o, key);
    }
    Accounting(calls, 0, key);
    if key in After(calls) {
      assert Balance(calls, After(calls)[key].owner, key) > 0;
    }
  }

  /** A try-lock succeeds exactly when no other session has a balance on the key. */
  lemma TryLockExact(calls: seq<Call>, owner: Owner, key: Key)
    ensures Succeeds(calls, TryLock(owner, key)) <==> forall o: Owner :: o != owner ==> Balance(calls, o, key) == 0
  {
    forall o: Owner ensures Balance(calls, o, key) == Recorded(After(calls), o, key) {
      Accounting(calls, o, key);
    }
    Accounting(calls, owner, key);
    if key in After(calls) {
      assert Balance(calls, After(calls)[key].owner, key) > 0;
    }
  }

  /** An unlock succeeds exactly when the session has a balance to give back. */
  lemma UnlockExact(calls: seq<Call>, owner: Owner, key: Key)
    ensures Succeeds(calls, Unlock(owner, key)) <==> Balance(calls, owner, key) > 0
  {
    Accounting(calls, owner, key);
  }

  /** Releasing everything takes nothing from anybody else. */
  lemma ReleaseAllIsOwn(calls: seq<Call>, owner: Owner, other: Owner, key: Key)
    ensures Balance(calls + [ReleaseAll(owner)], other, key) == if other == owner then 0 else Balance(calls, other, key)
  {
    assert (calls + [ReleaseAll(owner)])[..|calls|] == calls;
  }

  /** A session that releases everything on close and then calls no more owns nothing ever after. */
  lemma {:induction false} ClosedOwnsNothing(calls: seq<Call>, tail: seq<Call>, owner: Owner, key: Key)
    requires forall k :: 0 <= k < |tail| ==> tail[k].owner != owner
    ensures var all := calls + [ReleaseAll(owner)] + tail;
      Balance(all, owner, key) == 0 && (key in After(all) ==> After(all)[key].owner != owner)
    decreases |tail|
  {
    var closed := calls + [ReleaseAll(owner)];
    if tail == [] {
      assert closed + tail == closed;
      ReleaseAllIsOwn(calls, owner, owner, key);
      Accounting(closed, owner, key);
    } else {
      var front := tail[..|tail| - 1];
      ClosedOwnsNothing(calls, front, owner, key);
      assert (closed + tail)[..|closed + tail| - 1] == closed + front;
      Accounting(closed + tail, owner, key);
    }
  }
}
