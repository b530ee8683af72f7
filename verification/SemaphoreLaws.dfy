/**
What the semaphore scripts answer and leave, said of the stored owners alone: who still
counts, when a slot is granted, and when a refresh or a release finds its entry.
*/
module SemaphoreLaws {
  import opened SemaphoreScripts

  /** The owners whose entries have not run out. */
  function Holders(s: Slots, now: int): set<string> {
    set x | x in s.owners && s.owners[x] > now
  }

  /** Their entries. */
  function Entries(s: Slots, now: int): map<string, int> {
    map x | x in s.owners && s.owners[x] > now :: s.owners[x]
  }

  /** The sweep leaves exactly the entries that have not run out, as they were. */
  lemma SweptExactly(s: Slots, limit: nat, now: int)
    requires Bounded(s, limit)
    ensures Swept(s, now).owners == Entries(s, now)
    ensures Swept(s, now).owners.Keys == Holders(s, now) && |Swept(s, now).owners| == |Holders(s, now)|
    ensures Swept(s, now).fencing == s.fencing
  {
    var owners := Swept(s, now).owners;
    assert owners.Keys == Holders(s, now);
    assert |owners| == |owners.Keys|;
  }

  /** What an acquire finds, and what it decides by it. */
  ghost predicate Found(s: Slots, w: Slots, id: string, now: int) {
    && w.owners == Entries(s, now) && |w.owners| == |Holders(s, now)|
    && w.fencing == s.fencing
    && (id in w.owners <==> id in s.owners && s.owners[id] > now)
  }

  lemma SweptFound(s: Slots, id: string, limit: nat, now: int)
    requires Bounded(s, limit)
    ensures Found(s, Swept(s, now), id, now)
  {
    SweptExactly(s, limit, now);
  }

  lemma PutAdds(w: Slots, id: string, expires: int, timeout: nat)
    ensures Put(w, id, expires, timeout).owners == w.owners[id := expires]
    ensures |Put(w, id, expires, timeout).owners| == |w.owners| + (if id in w.owners then 0 else 1)
  {
    var more := w.owners[id := expires];
    assert more.Keys == w.owners.Keys + {id};
    assert |more| == |more.Keys| && |w.owners| == |w.owners.Keys|;
  }

  /**
  A slot is granted exactly if the caller holds one already, or fewer than `limit` owners
  hold one.
  */
  lemma GrantedExactly(s: Slots, id: string, limit: nat, timeout: nat, now: int)
    requires Bounded(s, limit)
    ensures Acquire(s, id, limit, timeout, now).Granted? <==>
              id in Holders(s, now) || |Holders(s, now)| < limit
  {
    SweptFound(s, id, limit, now);
  }

  /**
  A grant puts the caller's entry, for one timeout from now, and takes the next token;
  beyond that an acquire keeps the entries that have not run out as they were, and only
  those. The reported occupancy is what the call leaves.
  */
  lemma AcquiredExactly(s: Slots, id: string, limit: nat, timeout: nat, now: int, s': Slots, reply: AcquireReply)
    requires Bounded(s, limit)
    requires s' == AcquireSlots(s, id, limit, timeout, now) && reply == Acquire(s, id, limit, timeout, now)
    ensures s'.owners == if reply.Granted? then Entries(s, now)[id := now + timeout] else Entries(s, now)
    ensures s'.fencing == s.fencing + (if reply.Granted? then 1 else 0)
    ensures reply.Granted? ==> reply.expires == now + timeout && reply.token == s'.fencing
    ensures reply.used == |s'.owners|
  {
    SweptFound(s, id, limit, now);
    var w := Swept(s, now);
    PutAdds(w.(fencing := w.fencing + 1), id, now + timeout, timeout);
  }

  /** The key lives one timeout longer than its longest-lived owner. */
  ghost predicate OutlivesBy(s: Slots, timeout: nat) {
    && s.expiry.Some?
    && (exists x :: x in s.owners && s.owners[x] + timeout == s.expiry.value)
    && forall x :: x in s.owners ==> s.owners[x] + timeout <= s.expiry.value
  }

  lemma PutOutlives(s: Slots, id: string, expires: int, timeout: nat)
    ensures OutlivesBy(Put(s, id, expires, timeout), timeout)
  {
    var s' := Put(s, id, expires, timeout);
    assert id in s'.owners;
    assert Top(s'.owners) in s'.owners.Values;
  }

  /** So it is after every call that writes an entry. */
  lemma KeyOutlivesOwners(s: Slots, id: string, limit: nat, timeout: nat, now: int)
    ensures Acquire(s, id, limit, timeout, now).Granted? ==>
              OutlivesBy(AcquireSlots(s, id, limit, timeout, now), timeout)
    ensures id in RefreshSlots(s, id, timeout, now).owners ==> OutlivesBy(RefreshSlots(s, id, timeout, now), timeout)
  {
    var w := Swept(s, now);
    PutOutlives(w.(fencing := w.fencing + 1), id, now + timeout, timeout);
    PutOutlives(Visible(s, now), id, now + timeout, timeout);
  }

  /**
  A refresh finds the caller's entry exactly if it has not run out before now, and then
  makes it last one timeout from now.
  */
  lemma RefreshedExactly(s: Slots, id: string, limit: nat, timeout: nat, now: int)
    requires Bounded(s, limit)
    ensures Held(s, id, now) <==> id in s.owners && s.owners[id] >= now
    ensures var s' := RefreshSlots(s, id, timeout, now);
            if id in s.owners && s.owners[id] >= now
            then s'.owners == s.owners[id := now + timeout]
            else s'.owners == if s.expiry.Some? && now > s.expiry.value then map[] else s.owners - {id}
  {
  }

  /** A release takes out the caller's entry and no other, unless Redis dropped the whole key. */
  lemma ReleasedExactly(s: Slots, id: string, now: int)
    ensures var s' := ReleaseSlots(s, id, now);
            && s'.owners == (if s.expiry.Some? && now > s.expiry.value then map[] else s.owners - {id})
            && s'.fencing == s.fencing
  {
  }
}
