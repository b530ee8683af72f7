/**
The semaphore's Redis keys - the sorted set of owners scored by expiry, and the
fencing counter - and what the scripts do to them.
*/
module SemaphoreScripts {
  import opened Options
  import opened Sets

  /** The owners key carries a TTL while it exists; the fencing counter never expires. */
  datatype Slots = Slots(owners: map<string, int>, expiry: Option<int>, fencing: nat)

  const FREE := Slots(map[], None, 0)

  datatype AcquireReply = Granted(token: nat, expires: int, used: nat) | Busy(used: nat)

  lemma {:induction false} LongestLived(owners: map<string, int>, ids: set<string>) returns (top: string)
    requires {} != ids <= owners.Keys
    ensures top in ids && forall x :: x in ids ==> owners[x] <= owners[top]
    decreases ids
  {
    var id :| id in ids;
    if ids == {id} {
      top := id;
    } else {
      var other := LongestLived(owners, ids - {id});
      top := if owners[id] > owners[other] then id else other;
    }
  }

  lemma TopExists(owners: map<string, int>)
    requires owners != map[]
    ensures exists top :: top in owners.Values && forall v :: v in owners.Values ==> v <= top
  {
    assert owners.Keys != {};
    var id := LongestLived(owners, owners.Keys);
    assert owners[id] in owners.Values;
  }

  /** ZRANGE -1 -1 WITHSCORES: the score of the longest-lived owner. */
  function Top(owners: map<string, int>): (top: int)
    requires owners != map[]
    ensures top in owners.Values && forall id :: id in owners ==> owners[id] <= top
  {
    TopExists(owners);
    var top :| top in owners.Values && forall v :: v in owners.Values ==> v <= top;
    assert forall id :: id in owners ==> owners[id] in owners.Values;
    top
  }

  function Visible(s: Slots, now: int): Slots {
    if s.expiry.Some? && now > s.expiry.value then s.(owners := map[], expiry := None) else s
  }

  function WithOwners(s: Slots, owners: map<string, int>): Slots {
    s.(owners := owners, expiry := if owners == map[] then None else s.expiry)
  }

  /** ZREMRANGEBYSCORE -inf now. */
  function Purge(s: Slots, now: int): Slots {
    WithOwners(s, map id | id in s.owners && s.owners[id] > now :: s.owners[id])
  }

  /** What a script that cleans up first works on. */
  function Swept(s: Slots, now: int): Slots {
    Purge(Visible(s, now), now)
  }

  /** ZADD and PEXPIRE: the key outlives its longest-lived member by one timeout. */
  function Put(s: Slots, id: string, expires: int, timeout: nat): Slots {
    var owners := s.owners[id := expires];
    assert id in owners;
    s.(owners := owners, expiry := Some(Top(owners) + timeout))
  }

  function AcquireSlots(s: Slots, id: string, limit: nat, timeout: nat, now: int): Slots {
    var s := Swept(s, now);
    if id in s.owners || |s.owners| < limit then
      Put(s.(fencing := s.fencing + 1), id, now + timeout, timeout)
    else s
  }

  function Acquire(s: Slots, id: string, limit: nat, timeout: nat, now: int): AcquireReply {
    var s := Swept(s, now);
    if id in s.owners then Granted(s.fencing + 1, now + timeout, |s.owners|)
    else if |s.owners| < limit then Granted(s.fencing + 1, now + timeout, |s.owners| + 1)
    else Busy(|s.owners|)
  }

  function ReleaseSlots(s: Slots, id: string, now: int): Slots {
    var s := Visible(s, now);
    WithOwners(s, s.owners - {id})
  }

  /** The entry is still there; one at `now` exactly counts, unlike in the sweep of an acquire. */
  predicate Held(s: Slots, id: string, now: int) {
    var s := Visible(s, now);
    id in s.owners && s.owners[id] >= now
  }

  function RefreshSlots(s: Slots, id: string, timeout: nat, now: int): Slots {
    if Held(s, id, now) then Put(Visible(s, now), id, now + timeout, timeout)
    else ReleaseSlots(s, id, now)
  }

  // -- what holds of reachable keys ------------------------------------------------------

  /** Never more owners than slots, and the key outlives every owner. */
  ghost predicate Bounded(s: Slots, limit: nat) {
    && |s.owners| <= limit
    && (s.owners == map[] <==> s.expiry.None?)
    && (s.owners != map[] ==> forall id :: id in s.owners ==> s.owners[id] <= s.expiry.value)
  }

  /** An owner whose entry has not run out is still there, with the same expiry. */
  ghost predicate KeepsLive(s: Slots, s': Slots, now: int) {
    forall id :: id in s.owners && s.owners[id] > now ==> id in s'.owners && s'.owners[id] == s.owners[id]
  }

  lemma SubmapSize(a: map<string, int>, b: map<string, int>)
    requires a.Keys <= b.Keys
    ensures |a| <= |b|
  {
    SubsetSize(a.Keys, b.Keys);
    assert |a| == |a.Keys| && |b| == |b.Keys|;
  }

  /** Neither key expiry nor the sweep removes an entry that has not run out. */
  lemma SweptKeeps(s: Slots, limit: nat, now: int)
    requires Bounded(s, limit)
    ensures Bounded(Visible(s, now), limit) && KeepsLive(s, Visible(s, now), now)
    ensures Bounded(Swept(s, now), limit) && KeepsLive(s, Swept(s, now), now)
    ensures forall id :: id in Swept(s, now).owners ==> Swept(s, now).owners[id] > now
  {
    SubmapSize(Swept(s, now).owners, Visible(s, now).owners);
  }

  lemma PutBounded(s: Slots, limit: nat, id: string, expires: int, timeout: nat)
    requires Bounded(s, limit) && (id in s.owners || |s.owners| < limit)
    ensures Bounded(Put(s, id, expires, timeout), limit)
  {
    var owners := s.owners[id := expires];
    assert owners.Keys == s.owners.Keys + {id};
    assert id in owners;
  }

  /** An acquire keeps the bound, and every entry of another owner that has not run out. */
  lemma AcquireKeeps(s: Slots, id: string, limit: nat, timeout: nat, now: int)
    requires Bounded(s, limit)
    ensures Bounded(AcquireSlots(s, id, limit, timeout, now), limit)
    ensures forall other :: other != id && other in s.owners && s.owners[other] > now ==>
              other in AcquireSlots(s, id, limit, timeout, now).owners
              && AcquireSlots(s, id, limit, timeout, now).owners[other] == s.owners[other]
  {
    SweptKeeps(s, limit, now);
    var w := Swept(s, now);
    if id in w.owners || |w.owners| < limit {
      PutBounded(w.(fencing := w.fencing + 1), limit, id, now + timeout, timeout);
    }
  }

  lemma ReleaseKeeps(s: Slots, id: string, limit: nat, now: int)
    requires Bounded(s, limit)
    ensures Bounded(ReleaseSlots(s, id, now), limit) && id !in ReleaseSlots(s, id, now).owners
    ensures forall other :: other != id && other in s.owners && s.owners[other] > now ==>
              other in ReleaseSlots(s, id, now).owners && ReleaseSlots(s, id, now).owners[other] == s.owners[other]
  {
    SweptKeeps(s, limit, now);
    SubmapSize(ReleaseSlots(s, id, now).owners, Visible(s, now).owners);
  }

  lemma RefreshKeeps(s: Slots, id: string, limit: nat, timeout: nat, now: int)
    requires Bounded(s, limit)
    ensures Bounded(RefreshSlots(s, id, timeout, now), limit)
    ensures forall other :: other != id && other in s.owners && s.owners[other] > now ==>
              other in RefreshSlots(s, id, timeout, now).owners
              && RefreshSlots(s, id, timeout, now).owners[other] == s.owners[other]
  {
    SweptKeeps(s, limit, now);
    ReleaseKeeps(s, id, limit, now);
    if Held(s, id, now) {
      PutBounded(Visible(s, now), limit, id, now + timeout, timeout);
    }
  }

  /**
  An acquire that is granted issues the next token and puts the caller's entry; any other
  entry it leaves was there.
  */
  lemma AcquireEntry(s: Slots, id: string, limit: nat, timeout: nat, now: int)
    ensures var s', r := AcquireSlots(s, id, limit, timeout, now), Acquire(s, id, limit, timeout, now);
            && (r.Granted? ==> id in s'.owners && s'.owners[id] == r.expires == now + timeout
                               && r.token == s'.fencing == s.fencing + 1)
            && (r.Busy? ==> s'.fencing == s.fencing && id !in s'.owners)
            && (forall x :: x in s'.owners ==> x == id || (x in s.owners && s'.owners[x] == s.owners[x]))
  {
  }

  /** A refresh that finds the entry extends it; otherwise the caller has none left. */
  lemma RefreshEntry(s: Slots, id: string, limit: nat, timeout: nat, now: int)
    ensures var s' := RefreshSlots(s, id, timeout, now);
            && s'.fencing == s.fencing
            && (if Held(s, id, now) then id in s'.owners && s'.owners[id] == now + timeout else id !in s'.owners)
            && (forall x :: x in s'.owners ==> x == id || (x in s.owners && s'.owners[x] == s.owners[x]))
  {
  }
}
