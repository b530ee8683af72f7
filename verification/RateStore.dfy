/**
The Redis side of the rate limiter: the keys of all limits of one limiter and
the three Lua scripts, with the scripts' own loops. Each method runs atomically
at server time `now`.
*/
module RateStores {
  import opened Options
  import opened RateLog
  import opened RateKeys
  import opened RateScripts
  import opened RateRuns

  /** Entries fetched per ZRANGE while looking for the retry time. */
  const CHUNK := 128

  class RateStore {
    var keys: seq<LimitKeys>

    constructor (limits: nat)
      ensures keys == seq(limits, i => ABSENT)
    {
      keys := seq(limits, i => ABSENT);
    }

    /** Adds up the costs of some members. */
    static method Weigh(entries: seq<Entry>) returns (sum: nat)
      ensures sum == Sum(entries)
    {
      sum := 0;
      for j := 0 to |entries|
        invariant sum == Sum(entries[..j])
      {
        assert entries[..j + 1] == entries[..j] + [entries[j]];
        SumConcat(entries[..j], [entries[j]]);
        sum := sum + entries[j].member.cost;
      }
      assert entries[..|entries|] == entries;
    }

    method Rebuild(i: nat, now: int, ttl: int) returns (total: int)
      requires i < |keys|
      modifies this
      ensures keys == old(keys)[i := Recount(old(keys)[i], now, ttl)] && total == Sum(old(keys)[i].log)
    {
      total := Weigh(keys[i].log);
      var k := keys[i].(total := Some(total), totalExpiry := Some(now + ttl));
      if k.logExpiry.Some? && k.logExpiry.value - now > 0 {
        k := k.(totalExpiry := k.logExpiry);
      }
      keys := keys[i := k];
    }

    method EvictKeys(i: nat, now: int, window: nat) returns (total: int)
      requires i < |keys|
      modifies this
      ensures keys == old(keys)[i := Swept(old(keys)[i], now, window)] && total == Used(keys[i])
    {
      keys := keys[i := Visible(keys[i], now)];
      var k := keys[i];
      var n := Expired(k.log, now - window);
      var freed := Weigh(k.log[..n]);
      k := k.(log := k.log[n..]);
      if k.log == [] {
        keys := keys[i := ABSENT];
        return 0;
      }
      keys := keys[i := k];
      if k.total.None? {
        total := Rebuild(i, now, 2 * window);
        return;
      }
      total := k.total.value;
      if freed > 0 {
        total := total - freed;
        keys := keys[i := k.(total := Some(total))];
      }
      if total < 0 {
        total := Rebuild(i, now, 2 * window);
      }
    }

    /** The retry time of one violated limit: the log walked oldest-first in chunks, stopping early. */
    static method ChunkedWait(log: Log, need: int, now: int, window: int) returns (wait: int)
      ensures wait == var w := Walk(log, need, now, window); if w < 1 then 1 else w
    {
      wait := window;
      var freed, start, found := 0, 0, false;
      while !found && start < |log|
        invariant 0 <= start
        invariant !found ==> wait == window
        invariant !found && start <= |log| ==>
            Walk(log, need, now, window) == Walk(log[start..], need - freed, now, window)
        invariant !found && start > |log| ==> Walk(log, need, now, window) == window
        invariant found ==> wait == Walk(log, need, now, window)
        decreases !found, |log| - start
      {
        var stop := if start + CHUNK <= |log| then start + CHUNK else |log|;
        var j := start;
        while j < stop && !found
          invariant start <= j <= stop <= |log|
          invariant !found ==> wait == window
          invariant !found ==> Walk(log, need, now, window) == Walk(log[j..], need - freed, now, window)
          invariant found ==> wait == Walk(log, need, now, window)
          decreases !found, stop - j
        {
          freed := freed + log[j].member.cost;
          assert log[j..][1..] == log[j + 1..];
          if freed >= need {
            wait := log[j].at + window - now;
            found := true;
          } else {
            j := j + 1;
          }
        }
        start := start + CHUNK;
      }
      if wait < 1 {
        wait := 1;
      }
    }

    /** One round of phase 1: limit `i` is evicted and checked, on top of what the earlier limits found. */
    method CheckLimit(i: nat, id: string, now: int, c: Charge, found: bool, longest: int)
      returns (total: int, already: bool, retryAfter: int)
      requires i < |keys|
      modifies this
      ensures keys == old(keys)[i := Swept(old(keys)[i], now, c.window)] && total == Used(keys[i])
      ensures already == (found || (c.cost > 0 && Has(keys[i].log, Member(c.cost, id))))
      ensures retryAfter == if Overfull(keys[i], c) && !already && Wait(keys[i], now, c) > longest
                            then Wait(keys[i], now, c) else longest
    {
      already, retryAfter := found, longest;
      total := EvictKeys(i, now, c.window);
      if c.cost > 0 && Has(keys[i].log, Member(c.cost, id)) {
        already := true;
      }
      if c.cost > 0 && !already && total + c.cost > c.limit {
        var wait := ChunkedWait(keys[i].log, total + c.cost - c.limit, now, c.window);
        if wait > retryAfter {
          retryAfter := wait;
        }
      }
    }

    /** Phase 1: evict what has left every window and check every limit. */
    method CheckLimits(id: string, now: int, cs: seq<Charge>) returns (retryAfter: int, used: seq<int>)
      requires ValidCharges(keys, cs)
      modifies this
      ensures keys == SweepAll(old(keys), cs, now) && used == Totals(keys)
      ensures retryAfter == Retry(old(keys), cs, id, now)
    {
      ghost var before := keys;
      ghost var sw := SweepAll(keys, cs, now);
      var already := false;
      used, retryAfter := [], 0;
      for i := 0 to |cs|
        invariant |keys| == |cs| && |used| == i
        invariant forall j :: 0 <= j < i ==> keys[j] == sw[j] && used[j] == Used(sw[j])
        invariant forall j :: i <= j < |cs| ==> keys[j] == before[j]
        invariant already == Already(sw, cs, id, i)
        invariant retryAfter == RetryAfter(sw, cs, id, now, i)
      {
        var total: int;
        total, already, retryAfter := CheckLimit(i, id, now, cs[i], already, retryAfter);
        used := used + [total];
        AlreadyStep(sw, cs, id, i);
      }
      assert keys == sw;
    }

    /** Phase 2: record the request in every window it is charged to. */
    method ChargeLimits(id: string, now: int, cs: seq<Charge>, checked: seq<int>) returns (used: seq<int>)
      requires |keys| == |cs| && checked == Totals(keys)
      modifies this
      ensures keys == AdmitAll(old(keys), cs, id, now) && used == Totals(keys)
    {
      ghost var sw := keys;
      ghost var post := AdmitAll(sw, cs, id, now);
      used := checked;
      for i := 0 to |cs|
        invariant |keys| == |cs| && |used| == |cs|
        invariant forall j :: 0 <= j < i ==> keys[j] == post[j] && used[j] == Used(post[j])
        invariant forall j :: i <= j < |cs| ==> keys[j] == sw[j] && used[j] == Used(sw[j])
      {
        var c := cs[i];
        if c.cost > 0 {
          var k, m := keys[i], Member(c.cost, id);
          if !Has(k.log, m) {
            k := k.(log := Insert(k.log, Entry(now, m)), total := Some(k.total.GetOr(0) + c.cost));
          }
          used := used[i := k.total.GetOr(used[i])];
          keys := keys[i := Touch(k, now, 2 * c.window)];
        }
      }
      assert keys == post;
    }

    method RateAcquire(id: string, now: int, cs: seq<Charge>) returns (reply: AcquireReply)
      requires ValidCharges(keys, cs)
      modifies this
      ensures keys == AcquireKeys(old(keys), cs, id, now)
      ensures reply == Acquire(old(keys), cs, id, now)
    {
      var retryAfter, used := CheckLimits(id, now, cs);
      if retryAfter == 0 {
        used := ChargeLimits(id, now, cs, used);
      }
      reply := AcquireReply(retryAfter == 0, retryAfter, now, used);
    }

    method RateAdjust(id: string, now: int, at: int, changes: seq<Option<Change>>) returns (used: seq<Option<int>>)
      requires ValidChanges(keys, changes)
      modifies this
      ensures keys == AdjustKeys(old(keys), changes, id, now, at)
      ensures used == Reported(keys, changes)
    {
      ghost var before := keys;
      ghost var post := AdjustKeys(keys, changes, id, now, at);
      used := [];
      for i := 0 to |changes|
        invariant |keys| == |changes| && |used| == i
        invariant forall j :: 0 <= j < i ==> keys[j] == post[j]
        invariant forall j :: 0 <= j < i ==> used[j] == if changes[j].None? then None else Some(Used(post[j]))
        invariant forall j :: i <= j < |changes| ==> keys[j] == before[j]
      {
        if changes[i].None? {
          used := used + [None];
        } else {
          var total := AdjustOneKey(i, changes[i].value, id, now, at);
          used := used + [Some(total)];
        }
      }
      assert keys == post;
    }

    method AdjustOneKey(i: nat, c: Change, id: string, now: int, at: int) returns (total: int)
      requires i < |keys|
      modifies this
      ensures keys == old(keys)[i := AdjustOne(old(keys)[i], Some(c), id, now, at)] && total == Used(keys[i])
    {
      total := EvictKeys(i, now, c.window);
      var k, recorded, wanted := keys[i], Member(c.before, id), Member(c.after, id);
      if c.before > 0 && Has(k.log, recorded) {
        var log := Drop(k.log, recorded);
        total := total - c.before;
        k := k.(log := log, logExpiry := if log == [] then None else k.logExpiry, total := Some(total));
      }
      if c.after > 0 && at > now - c.window {
        if Has(k.log, wanted) {
          k := k.(log := Insert(Drop(k.log, wanted), Entry(at, wanted)));
        } else {
          total := k.total.GetOr(0) + c.after;
          k := k.(log := Insert(k.log, Entry(at, wanted)), total := Some(total));
        }
        k := Touch(k, now, 2 * c.window);
      } else if k.log == [] {
        k, total := ABSENT, 0;
      }
      keys := keys[i := k];
    }

    method RateStatus(now: int, windows: seq<nat>) returns (used: seq<int>)
      requires ValidWindows(keys, windows)
      modifies this
      ensures keys == StatusKeys(old(keys), windows, now)
      ensures used == Totals(keys)
    {
      ghost var before := keys;
      ghost var post := StatusKeys(keys, windows, now);
      used := [];
      for i := 0 to |windows|
        invariant |keys| == |windows| && |used| == i
        invariant forall j :: 0 <= j < i ==> keys[j] == post[j] && used[j] == Used(post[j])
        invariant forall j :: i <= j < |windows| ==> keys[j] == before[j]
      {
        var total := EvictKeys(i, now, windows[i]);
        used := used + [total];
      }
      assert keys == post;
    }

    /** A whole run of calls by any number of clients, in the order the server executes them. */
    method Replay(limits: seq<Limit>, ghost start: int, run: seq<Timed>) returns (replies: seq<Reply>)
      requires |keys| == |limits| && ValidLimits(limits) && Clocked(limits, start, run)
      modifies this
      ensures keys == RunStore(limits, old(keys), start, run).0
      ensures replies == RunStore(limits, old(keys), start, run).1
    {
      replies := [];
      ghost var now := start;
      assert run[0..] == run;
      assert [] + RunStore(limits, keys, start, run).1 == RunStore(limits, keys, start, run).1;
      for i := 0 to |run|
        invariant |keys| == |limits| && Clocked(limits, now, run[i..])
        invariant RunStore(limits, old(keys), start, run).0 == RunStore(limits, keys, now, run[i..]).0
        invariant RunStore(limits, old(keys), start, run).1 == replies + RunStore(limits, keys, now, run[i..]).1
      {
        assert run[i..][0] == run[i] && run[i..][1..] == run[i + 1..];
        var reply := Serve(limits, run[i]);
        ghost var rest := RunStore(limits, keys, run[i].now, run[i + 1..]).1;
        assert replies + ([reply] + rest) == (replies + [reply]) + rest;
        replies := replies + [reply];
        now := run[i].now;
      }
      assert run[|run|..] == [];
    }

    method Serve(limits: seq<Limit>, t: Timed) returns (reply: Reply)
      requires |keys| == |limits| && ValidLimits(limits) && WellFormed(limits, t.call)
      modifies this
      ensures (keys, reply) == StoreStep(limits, old(keys), t)
    {
      match t.call
      case AcquireCall(id, costs) =>
        var r := RateAcquire(id, t.now, Charges(limits, costs));
        reply := Admission(r);
      case AdjustCall(id, at, costs) =>
        var used := RateAdjust(id, t.now, at, Changes(limits, costs));
        reply := Adjusted(used);
      case StatusCall =>
        var used := RateStatus(t.now, Windows(limits));
        reply := Consumption(used);
    }
  }
}
