/**
One limit's pair of Redis keys - the log and its cached running total - and
what the three rate scripts do to them. `RateStore` shows that the scripts'
loops compute these functions.
*/
module RateKeys {
  import opened Options
  import opened RateLog

  /**
  A sorted set exists while it has a member, a counter while it was set and
  not deleted. Expiry times are absolute milliseconds; `None` is "no TTL".
  */
  datatype LimitKeys = LimitKeys(log: Log, logExpiry: Option<int>, total: Option<int>, totalExpiry: Option<int>)

  const ABSENT := LimitKeys([], None, None, None)

  /** One limit as RATE_ACQUIRE sees it: capacity, window and the cost charged to it. */
  datatype Charge = Charge(limit: nat, window: nat, cost: nat)

  predicate Due(expiry: Option<int>, now: int) {
    expiry.Some? && now > expiry.value
  }

  /** What a script running at `now` finds: Redis has dropped the keys whose TTL ran out. */
  function Visible(k: LimitKeys, now: int): LimitKeys {
    var k := if Due(k.logExpiry, now) then k.(log := [], logExpiry := None) else k;
    if Due(k.totalExpiry, now) then k.(total := None, totalExpiry := None) else k
  }

  function Touch(k: LimitKeys, now: int, ttl: int): LimitKeys {
    k.(logExpiry := if k.log == [] then None else Some(now + ttl),
       totalExpiry := if k.total.None? then None else Some(now + ttl))
  }

  /** Rebuild the total from the log; the rebuilt key must not outlive the log. */
  function Recount(k: LimitKeys, now: int, ttl: int): LimitKeys {
    k.(total := Some(Sum(k.log)),
       totalExpiry := if k.logExpiry.Some? && k.logExpiry.value > now then k.logExpiry else Some(now + ttl))
  }

  function Evict(k: LimitKeys, now: int, window: int): LimitKeys {
    var freed := Sum(k.log[..Expired(k.log, now - window)]);
    var kept := k.(log := Live(k.log, now - window));
    if kept.log == [] then ABSENT
    else if kept.total.None? then Recount(kept, now, 2 * window)
    else if kept.total.value - freed < 0 then Recount(kept, now, 2 * window)
    else kept.(total := Some(kept.total.value - freed))
  }

  /** The keys a script works on: what is visible at `now`, with the window's leavers evicted. */
  function Swept(k: LimitKeys, now: int, window: int): LimitKeys {
    Evict(Visible(k, now), now, window)
  }

  /** The number a script reports as consumed. */
  function Used(k: LimitKeys): int {
    k.total.GetOr(0)
  }

  /** Phase 2 of RATE_ACQUIRE for one limit with a positive cost: ZADD NX, INCRBY if new, PEXPIRE. */
  function Record(k: LimitKeys, now: int, window: int, m: Member): LimitKeys {
    var k := if Has(k.log, m) then k
             else k.(log := Insert(k.log, Entry(now, m)), total := Some(Used(k) + m.cost));
    Touch(k, now, 2 * window)
  }

  /** ZREM of the old member and DECRBY if it was recorded. */
  function Unrecord(k: LimitKeys, m: Member): LimitKeys {
    if m.cost > 0 && Has(k.log, m) then
      var log := Drop(k.log, m);
      k.(log := log, logExpiry := if log == [] then None else k.logExpiry, total := Some(Used(k) - m.cost))
    else k
  }

  /** ZADD of the new member at the original time, INCRBY if it is really new, PEXPIRE. */
  function Reenter(k: LimitKeys, now: int, window: int, e: Entry): LimitKeys {
    var k := if Has(k.log, e.member) then k.(log := Insert(Drop(k.log, e.member), e))
             else k.(log := Insert(k.log, e), total := Some(Used(k) + e.member.cost));
    Touch(k, now, 2 * window)
  }

  /** RATE_ADJUST for one limit, after eviction. */
  function Settle(k: LimitKeys, now: int, window: int, at: int, before: Member, after: Member): LimitKeys {
    var u := Unrecord(k, before);
    if after.cost > 0 && at > now - window then Reenter(u, now, window, Entry(at, after))
    else if u.log == [] then ABSENT
    else u
  }

  /**
  The oldest-first walk: when enough units will have left. Starts from the
  default of one window, which is kept when the log does not hold `need` units.
  */
  function Walk(log: Log, need: int, now: int, window: int): int {
    if log == [] then window
    else if log[0].member.cost >= need then log[0].at + window - now
    else Walk(log[1..], need - log[0].member.cost, now, window)
  }

  /** The wait RATE_ACQUIRE computes for a violated limit. */
  function Wait(k: LimitKeys, now: int, c: Charge): int {
    var w := Walk(k.log, Used(k) + c.cost - c.limit, now, c.window);
    if w < 1 then 1 else w
  }

  /** The adjustment puts its new cost into the log. */
  predicate Puts(now: int, window: nat, at: int, after: Member) {
    after.cost > 0 && at > now - window
  }

  /** What an adjustment leaves: everything but the old and the new member, and the new one at the time it names. */
  lemma SettledEntries(k: LimitKeys, now: int, window: nat, at: int, before: Member, after: Member)
    ensures forall x :: x in Settle(k, now, window, at, before, after).log <==>
              || (&& x in k.log && !(before.cost > 0 && x.member == before)
                  && !(Puts(now, window, at, after) && x.member == after))
              || (Puts(now, window, at, after) && x == Entry(at, after))
  {
    DropMembers(k.log, before);
    var u := Unrecord(k, before);
    forall x ensures x in u.log <==> x in k.log && !(before.cost > 0 && x.member == before) {
      if x in k.log {
        HasEntry(k.log, x);
      }
    }
    DropMembers(u.log, after);
    InsertMembers(u.log, Entry(at, after));
    InsertMembers(Drop(u.log, after), Entry(at, after));
    forall x | x in u.log && x.member == after ensures Has(u.log, after) {
      HasEntry(u.log, x);
    }
  }

  // -- the cached total ---------------------------------------------------------

  /** How far the cached total is off; an absent total counts as 0. */
  function Drift(k: LimitKeys): int {
    Used(k) - Sum(k.log)
  }

  /**
  Drift never grows in `evict`, whatever the stored total was: it is kept, or
  wiped out exactly when the log drains, the total is missing or goes negative.
  */
  lemma EvictDrift(k: LimitKeys, now: int, window: int)
    requires IsLog(k.log)
    ensures Drift(Evict(k, now, window)) ==
            if Live(k.log, now - window) == [] || k.total.None? || Drift(k) + Sum(Live(k.log, now - window)) < 0
            then 0 else Drift(k)
  {
    LiveIsSuffix(k.log, now - window);
  }

  /** A total that was missing or would go negative is rebuilt, and expires with the log that is still there. */
  lemma RebuiltDiesWithLog(k: LimitKeys, now: int, window: int)
    requires IsLog(k.log) && Live(k.log, now - window) != [] && k.logExpiry.Some? && k.logExpiry.value > now
    requires k.total.None? || Drift(k) + Sum(Live(k.log, now - window)) < 0
    ensures var e := Evict(k, now, window);
            && e.log == Live(k.log, now - window) && e.total == Some(Sum(e.log))
            && e.totalExpiry == e.logExpiry == k.logExpiry
  {
    LiveIsSuffix(k.log, now - window);
  }

  /** Recording a request in swept keys keeps the drift. */
  lemma RecordDrift(k: LimitKeys, now: int, window: int, m: Member)
    ensures Drift(Record(k, now, window, m)) == Drift(k)
  {
    InsertContents(k.log, Entry(now, m));
  }

  lemma UnrecordDrift(k: LimitKeys, m: Member)
    requires IsLog(k.log)
    ensures Drift(Unrecord(k, m)) == Drift(k) && IsLog(Unrecord(k, m).log)
  {
    DropSum(k.log, m);
    DropIsLog(k.log, m);
  }

  lemma ReenterDrift(k: LimitKeys, now: int, window: int, e: Entry)
    requires IsLog(k.log)
    ensures Drift(Reenter(k, now, window, e)) == Drift(k) && Reenter(k, now, window, e).log != []
    ensures IsLog(Reenter(k, now, window, e).log)
  {
    var base := Drop(k.log, e.member);
    DropIsLog(k.log, e.member);
    DropMembers(k.log, e.member);
    DropSum(k.log, e.member);
    DropAbsentUnlessHas(k.log, e.member);
    InsertContents(base, e);
    InsertIsLog(base, e);
  }

  /** An adjustment keeps the drift, and wipes it out when it drains the log for good. */
  lemma SettleDrift(k: LimitKeys, now: int, window: int, at: int, before: Member, after: Member)
    requires IsLog(k.log)
    ensures var k' := Settle(k, now, window, at, before, after);
            Drift(k') == if k'.log == [] then 0 else Drift(k)
  {
    UnrecordDrift(k, before);
    ReenterDrift(Unrecord(k, before), now, window, Entry(at, after));
  }

  // -- the invariant of reachable keys --------------------------------------------

  /**
  Reachable keys after a script that ran at `now`: the total exists exactly
  while the log does and equals its sum, both keys expire together, and not
  before every entry has been outside the window for another window.
  */
  ghost predicate Sound(k: LimitKeys, now: int, window: int) {
    && IsLog(k.log) && NoneAfter(k.log, now)
    && (k.log == [] ==> k == ABSENT)
    && (k.log != [] ==>
          && k.total == Some(Sum(k.log))
          && k.logExpiry.Some? && k.totalExpiry == k.logExpiry
          && forall i :: 0 <= i < |k.log| ==> k.log[i].at + 2 * window <= k.logExpiry.value)
  }

  /** In reachable keys the eviction takes out what it counts, and nothing needs rebuilding. */
  lemma EvictIs(k: LimitKeys, now: int, window: int)
    requires Sound(k, now, window)
    ensures var live := Live(k.log, now - window);
            Evict(k, now, window) == if live == [] then ABSENT else k.(log := live, total := Some(Sum(live)))
  {
    LiveSum(k.log, now - window);
  }

  lemma LiveSound(k: LimitKeys, now: int, window: int, live: Log)
    requires Sound(k, now, window) && live == Live(k.log, now - window) != []
    ensures Sound(k.(log := live, total := Some(Sum(live))), now, window)
  {
    LiveIsLog(k.log, now - window);
    var n := Expired(k.log, now - window);
    forall i | 0 <= i < |live| ensures live[i].at <= now && live[i].at + 2 * window <= k.logExpiry.value {
      assert live[i] == k.log[i + n];
    }
  }

  lemma EvictSound(k: LimitKeys, now: int, window: int)
    requires Sound(k, now, window)
    ensures Sound(Evict(k, now, window), now, window)
    ensures Evict(k, now, window).log == Live(k.log, now - window)
  {
    EvictIs(k, now, window);
    if Live(k.log, now - window) != [] {
      LiveSound(k, now, window, Live(k.log, now - window));
    }
  }

  /** Key expiry drops only entries that are outside the window already. */
  lemma VisibleSound(k: LimitKeys, before: int, now: int, window: int)
    requires Sound(k, before, window) && before <= now
    ensures Sound(Visible(k, now), now, window)
    ensures Live(Visible(k, now).log, now - window) == Live(k.log, now - window)
  {
    if k.log != [] && Due(k.logExpiry, now) {
      LiveIsSuffix(k.log, now - window);
      var n := Expired(k.log, now - window);
      assert forall i :: 0 <= i < |k.log| ==> k.log[i].at <= now - window;
      assert n == |k.log|;
    }
  }

  lemma SweptSound(k: LimitKeys, before: int, now: int, window: int)
    requires Sound(k, before, window) && before <= now
    ensures Sound(Swept(k, now, window), now, window)
    ensures Swept(k, now, window).log == Live(k.log, now - window)
    ensures AllAfter(Swept(k, now, window).log, now - window)
  {
    VisibleSound(k, before, now, window);
    EvictSound(Visible(k, now), now, window);
    LiveIsSuffix(k.log, now - window);
  }

  lemma RecordSound(k: LimitKeys, now: int, window: int, m: Member)
    requires Sound(k, now, window)
    ensures Sound(Record(k, now, window, m), now, window)
  {
    if !Has(k.log, m) {
      InsertContents(k.log, Entry(now, m));
      InsertIsLog(k.log, Entry(now, m));
      InsertLast(k.log, Entry(now, m));
    }
  }

  lemma UnrecordSound(k: LimitKeys, now: int, window: int, m: Member)
    requires Sound(k, now, window)
    ensures var u := Unrecord(k, m);
            IsLog(u.log) && NoneAfter(u.log, now) && Used(u) == Sum(u.log) && (u.log != [] ==> Sound(u, now, window))
  {
    var u := Unrecord(k, m);
    UnrecordDrift(k, m);
    DropEntries(k.log, m);
    forall i | 0 <= i < |u.log| ensures u.log[i] in k.log { assert u.log[i] in u.log; }
  }

  lemma ReenterSound(k: LimitKeys, now: int, window: int, e: Entry)
    requires IsLog(k.log) && NoneAfter(k.log, now) && Used(k) == Sum(k.log) && (k.log != [] ==> Sound(k, now, window))
    requires e.at <= now
    ensures Sound(Reenter(k, now, window, e), now, window)
  {
    var r := Reenter(k, now, window, e);
    ReenterDrift(k, now, window, e);
    DropEntries(k.log, e.member);
    InsertMembers(Drop(k.log, e.member), e);
    InsertMembers(k.log, e);
    forall i | 0 <= i < |r.log| ensures r.log[i].at <= now {
      assert r.log[i] in r.log;
      assert r.log[i] == e || r.log[i] in k.log;
    }
  }

  lemma SettleSound(k: LimitKeys, now: int, window: int, at: int, before: Member, after: Member)
    requires Sound(k, now, window) && at <= now
    ensures Sound(Settle(k, now, window, at, before, after), now, window)
  {
    UnrecordSound(k, now, window, before);
    if after.cost > 0 && at > now - window {
      ReenterSound(Unrecord(k, before), now, window, Entry(at, after));
    }
  }
}
