/** The Redis side of a semaphore: its keys, and the scripts that update them in place. */
module SemaphoreStores {
  import opened Options
  import opened SemaphoreScripts

  class SemaphoreStore {
    var owners: map<string, int>
    var ownersExpiry: Option<int>
    var fencing: nat

    constructor ()
      ensures Contents() == FREE
    {
      owners, ownersExpiry, fencing := map[], None, 0;
    }

    function Contents(): Slots
      reads this
    {
      Slots(owners, ownersExpiry, fencing)
    }

    method Expire(now: int)
      modifies this`owners, this`ownersExpiry
      ensures Contents() == Visible(old(Contents()), now)
    {
      if ownersExpiry.Some? && now > ownersExpiry.value {
        owners, ownersExpiry := map[], None;
      }
    }

    method RemoveExpired(now: int)
      modifies this`owners, this`ownersExpiry
      ensures Contents() == Purge(old(Contents()), now)
    {
      owners := map id | id in owners && owners[id] > now :: owners[id];
      if owners == map[] {
        ownersExpiry := None;
      }
    }

    method BumpTtl(now: int, timeout: nat)
      modifies this`ownersExpiry
      ensures ownersExpiry == if owners == map[] then old(ownersExpiry) else Some(Top(owners) + timeout)
    {
      if owners != map[] {
        ownersExpiry := Some(now + (Top(owners) - now + timeout));
      }
    }

    method Acquire(id: string, limit: nat, timeout: nat, now: int) returns (reply: AcquireReply)
      modifies this
      ensures Contents() == AcquireSlots(old(Contents()), id, limit, timeout, now)
      ensures reply == SemaphoreScripts.Acquire(old(Contents()), id, limit, timeout, now)
    {
      Expire(now);
      RemoveExpired(now);
      var count := |owners|;
      if id in owners {
        owners := owners[id := now + timeout];
        fencing := fencing + 1;
        BumpTtl(now, timeout);
        return Granted(fencing, now + timeout, count);
      }
      if count < limit {
        owners := owners[id := now + timeout];
        fencing := fencing + 1;
        BumpTtl(now, timeout);
        return Granted(fencing, now + timeout, count + 1);
      }
      reply := Busy(count);
    }

    method Remove(id: string)
      modifies this`owners, this`ownersExpiry
      ensures Contents() == WithOwners(old(Contents()), old(owners) - {id})
    {
      owners := owners - {id};
      if owners == map[] {
        ownersExpiry := None;
      }
    }

    method Release(id: string, now: int) returns (released: bool)
      modifies this`owners, this`ownersExpiry
      ensures Contents() == ReleaseSlots(old(Contents()), id, now)
      ensures released <==> id in Visible(old(Contents()), now).owners
    {
      Expire(now);
      released := id in owners;
      Remove(id);
    }

    /** The new expiry, or `None` (0 in the script) if the lock is lost. */
    method Refresh(id: string, timeout: nat, now: int) returns (expires: Option<int>)
      modifies this`owners, this`ownersExpiry
      ensures Contents() == RefreshSlots(old(Contents()), id, timeout, now)
      ensures expires == if Held(old(Contents()), id, now) then Some(now + timeout) else None
    {
      Expire(now);
      if id !in owners {
        assert owners - {id} == owners;
        Remove(id);
        return None;
      }
      if owners[id] < now {
        Remove(id);
        return None;
      }
      owners := owners[id := now + timeout];
      BumpTtl(now, timeout);
      expires := Some(now + timeout);
    }

    method Cleanup(now: int) returns (removed: nat)
      modifies this`owners, this`ownersExpiry
      ensures Contents() == SemaphoreScripts.Swept(old(Contents()), now)
      ensures removed == |Visible(old(Contents()), now).owners| - |owners|
    {
      Expire(now);
      var before := owners;
      RemoveExpired(now);
      SubmapSize(owners, before);
      removed := |before| - |owners|;
    }

    method Status(now: int, id: string) returns (count: nat, expires: Option<int>)
      modifies this`owners, this`ownersExpiry
      ensures Contents() == SemaphoreScripts.Swept(old(Contents()), now)
      ensures count == |owners| && expires == if id != "" && id in owners then Some(owners[id]) else None
    {
      Expire(now);
      RemoveExpired(now);
      count := |owners|;
      expires := if id != "" && id in owners then Some(owners[id]) else None;
    }
  }
}
