/** The client half of a semaphore: one instance's state, updated by acquire, release and refresh. */
module SemaphoreClients {
  import opened Options
  import opened SemaphoreScripts
  import opened SemaphoreStores

  datatype LockState = RELEASED | ACQUIRED | LOST

  datatype Outcome<T> = Done(value: T) | LockLostError | AlreadyAcquiredError | NotAcquiredError

  class Semaphore {
    const store: SemaphoreStore
    const limit: nat
    const timeout: nat
    const strictMode: bool
    const forbidReacquire: bool
    var state: LockState
    var identifier: Option<string>
    var fencingToken: Option<nat>
    var expiresAt: Option<int>

    constructor (store: SemaphoreStore, limit: nat, timeout: nat, strictMode: bool, forbidReacquire: bool)
      ensures Valid() && this.store == store && state == RELEASED && identifier == None
    {
      this.store, this.limit, this.timeout := store, limit, timeout;
      this.strictMode, this.forbidReacquire := strictMode, forbidReacquire;
      state, identifier, fencingToken, expiresAt := RELEASED, None, None, None;
    }

    /** An instance that holds, or lost, a slot knows under which identifier, with which token and until when. */
    predicate Valid()
      reads this
    {
      (state != RELEASED ==> identifier.Some? && fencingToken.Some? && expiresAt.Some?)
    }

    /** The instance believes to hold a slot, and the server's entry lasts exactly as long as the instance knows. */
    ghost predicate InStep()
      reads this, store
      requires Valid()
    {
      state == ACQUIRED ==>
        identifier.value in store.owners && store.owners[identifier.value] == expiresAt.value
        && fencingToken.value <= store.fencing
    }

    /**
    One attempt. `drawn` is the identifier to use if the instance has none. A denied
    attempt keeps whatever the instance knew, except that it now has an identifier.
    */
    method TryAcquire(drawn: string, now: int) returns (r: Outcome<bool>)
      requires Valid()
      modifies this, store
      ensures Valid() && (r == Done(true) ==> InStep())
      ensures r.LockLostError? <==> old(state) == LOST && strictMode
      ensures r.AlreadyAcquiredError? <==> old(state) == ACQUIRED && forbidReacquire
      ensures !r.Done? ==> unchanged(this) && unchanged(store)
      ensures r.Done? ==>
                var id := old(identifier).GetOr(drawn);
                && identifier == Some(id)
                && store.Contents() == AcquireSlots(old(store.Contents()), id, limit, timeout, now)
                && match Acquire(old(store.Contents()), id, limit, timeout, now)
                   case Granted(token, expires, _) =>
                     r.value && state == ACQUIRED && fencingToken == Some(token) && expiresAt == Some(expires)
                   case Busy(_) =>
                     !r.value && state == old(state) && fencingToken == old(fencingToken) && expiresAt == old(expiresAt)
    {
      if state == LOST && strictMode {
        return LockLostError;
      }
      if state == ACQUIRED && forbidReacquire {
        return AlreadyAcquiredError;
      }
      if identifier.None? {
        identifier := Some(drawn);
      }
      AcquireEntry(store.Contents(), identifier.value, limit, timeout, now);
      var reply := store.Acquire(identifier.value, limit, timeout, now);
      match reply
      case Granted(token, expires, _) =>
        fencingToken, expiresAt, state := Some(token), Some(expires), ACQUIRED;
        r := Done(true);
      case Busy(_) =>
        r := Done(false);
    }

    /** The slot is given back, and the local state reset whatever the server answers. */
    method Release(now: int) returns (r: Outcome<bool>)
      requires Valid()
      modifies this, store
      ensures Valid()
      ensures r.NotAcquiredError? <==> old(identifier).None?
      ensures !r.Done? ==> r.NotAcquiredError? && unchanged(this) && unchanged(store)
      ensures r.Done? ==>
                && store.Contents() == ReleaseSlots(old(store.Contents()), old(identifier).value, now)
                && old(identifier).value !in store.owners
                && state == RELEASED && identifier == None && fencingToken == None && expiresAt == None
                && (r.value <==> old(identifier).value in Visible(old(store.Contents()), now).owners)
    {
      if identifier.None? {
        return NotAcquiredError;
      }
      var released := store.Release(identifier.value, now);
      state, identifier, fencingToken, expiresAt := RELEASED, None, None, None;
      r := Done(released);
    }

    /** A refresh extends the entry, or learns that the lock is lost; an instance that holds nothing asks nobody. */
    method Refresh(now: int) returns (r: Outcome<bool>)
      requires Valid()
      modifies this, store
      ensures Valid() && identifier == old(identifier) && fencingToken == old(fencingToken)
      ensures old(state) != ACQUIRED ==> r == Done(false) && unchanged(this) && unchanged(store)
      ensures old(state) == ACQUIRED ==>
                var id := old(identifier).value;
                && store.Contents() == RefreshSlots(old(store.Contents()), id, timeout, now)
                && if Held(old(store.Contents()), id, now) then
                     r == Done(true) && state == ACQUIRED && expiresAt == Some(now + timeout)
                     && id in store.owners && store.owners[id] == now + timeout
                   else
                     r == (if strictMode then LockLostError else Done(false)) && state == LOST
                     && expiresAt == old(expiresAt) && id !in store.owners
    {
      if identifier.None? || state != ACQUIRED {
        return Done(false);
      }
      RefreshEntry(store.Contents(), identifier.value, limit, timeout, now);
      var expires := store.Refresh(identifier.value, timeout, now);
      if expires.Some? {
        expiresAt := expires;
        return Done(true);
      }
      state := LOST;
      r := if strictMode then LockLostError else Done(false);
    }
  }
}
