/** The pool of upload ids and the pool of uploaders: two structures with a lock each. */
module Pools {
  import opened Protocol

  /** Hands out ids that are not in use. */
  class LockedUUIDPool {
    var uids: map<string, bool>

    constructor ()
      ensures uids == map[]
    {
      uids := map[];
    }

    /** Draws ids until one is unused; `draws` is what the random generator yields. */
    method New(draws: seq<string>) returns (id: string, drawn: nat)
      requires exists i :: 0 <= i < |draws| && draws[i] !in uids
      modifies this
      ensures drawn < |draws| && id == draws[drawn] && id !in old(uids)
      ensures forall i :: 0 <= i < drawn ==> draws[i] in old(uids)
      ensures uids == old(uids)[id := true]
    {
      drawn := 0;
      while draws[drawn] in uids
        invariant drawn < |draws|
        invariant forall i :: 0 <= i < drawn ==> draws[i] in uids
        invariant uids == old(uids)
        decreases |draws| - drawn
      {
        drawn := drawn + 1;
      }
      id := draws[drawn];
      uids := uids[id := true];
    }

    method Remove(id: string) returns (ok: bool)
      modifies this
      ensures ok == (id in old(uids))
      ensures uids == old(uids) - {id}
    {
      if id !in uids {
        return false;
      }
      uids := uids - {id};
      return true;
    }
  }

  class LockedUploaderPool<T> {
    const uidPool: LockedUUIDPool
    var uploaders: map<string, T>

    constructor ()
      ensures uploaders == map[] && fresh(uidPool) && uidPool.uids == map[]
      ensures Valid()
    {
      uidPool := new LockedUUIDPool();
      uploaders := map[];
    }

    /** Every pooled id is reserved. */
    ghost predicate Valid()
      reads this, uidPool
    {
      uploaders.Keys <= uidPool.uids.Keys
    }

    method Get(id: string) returns (ul: Option<T>)
      ensures ul == if id in uploaders then Some(uploaders[id]) else None
    {
      ul := if id in uploaders then Some(uploaders[id]) else None;
    }

    /** Reserves an id first and inserts under it second, so nothing is overwritten. */
    method Put(ul: T, draws: seq<string>) returns (id: string)
      requires Valid()
      requires exists i :: 0 <= i < |draws| && draws[i] !in uidPool.uids
      modifies this, uidPool
      ensures Valid()
      ensures id in draws && id !in old(uidPool.uids) && id !in old(uploaders)
      ensures uploaders == old(uploaders)[id := ul]
      ensures uidPool.uids == old(uidPool.uids)[id := true]
    {
      var drawn: nat;
      id, drawn := uidPool.New(draws);
      uploaders := uploaders[id := ul];
    }

    /** Deletes the entry first and releases the id second. */
    method Remove(id: string)
      modifies this, uidPool
      ensures uploaders == old(uploaders) - {id}
      ensures uidPool.uids == old(uidPool.uids) - {id}
      ensures old(Valid()) ==> Valid()
    {
      uploaders := uploaders - {id};
      var _ := uidPool.Remove(id);
    }
  }
}
