/**
What a request adds and what a resend repeats; and the two cases in which the
scripts let a limit be exceeded, each with its exact condition and a witness.
*/
module RateResends {
  import opened Options
  import opened RateLog
  import opened RateKeys
  import opened RateScripts
  import opened RateLaws

  /** The keys as a script finds them after eviction. */
  ghost predicate SweptKeys(ks: seq<LimitKeys>, cs: seq<Charge>, now: int) {
    && SoundKeys(ks, cs, now)
    && forall i :: 0 <= i < |ks| ==> AllAfter(ks[i].log, now - cs[i].window)
  }

  lemma SweepMakesSwept(ks: seq<LimitKeys>, cs: seq<Charge>, before: int, now: int)
    requires SoundKeys(ks, cs, before) && before <= now
    ensures SweptKeys(SweepAll(ks, cs, now), cs, now)
    ensures forall i :: 0 <= i < |ks| ==> SweepAll(ks, cs, now)[i].log == Live(ks[i].log, now - cs[i].window)
  {
    forall i | 0 <= i < |ks|
      ensures var s := Swept(ks[i], now, cs[i].window);
              Sound(s, now, cs[i].window) && AllAfter(s.log, now - cs[i].window)
                && s.log == Live(ks[i].log, now - cs[i].window)
    {
      SweptSound(ks[i], before, now, cs[i].window);
    }
  }

  // -- all or nothing -----------------------------------------------------------------

  function Added(c: Charge, id: string, now: int, admitted: bool): multiset<Entry> {
    if admitted && c.cost > 0 then multiset{Entry(now, Member(c.cost, id))} else multiset{}
  }

  lemma AdmitAdds(s: LimitKeys, c: Charge, id: string, now: int)
    requires c.cost > 0 ==> !Has(s.log, Member(c.cost, id))
    ensures multiset(Admit(s, c, id, now).log) == multiset(s.log) + Added(c, id, now, true)
  {
    InsertContents(s.log, Entry(now, Member(c.cost, id)));
  }

  /**
  All or nothing over any number of limits: a denied request changes no charge
  that is still in its window, and an admitted fresh one adds exactly its cost,
  at one common time, to each limit it is charged to and touches no other.
  */
  lemma AllOrNothing(ks: seq<LimitKeys>, cs: seq<Charge>, id: string, before: int, now: int)
    requires SoundKeys(ks, cs, before) && before <= now && Fresh(Logs(ks), cs, id)
    ensures var ks' := AcquireKeys(ks, cs, id, now);
            forall i :: 0 <= i < |cs| ==>
              multiset(ks'[i].log) == multiset(Live(ks[i].log, now - cs[i].window))
                                      + Added(cs[i], id, now, Admits(ks, cs, id, now))
  {
    var sw := SweepAll(ks, cs, now);
    forall i | 0 <= i < |cs|
      ensures sw[i].log == Live(ks[i].log, now - cs[i].window)
      ensures multiset(Admit(sw[i], cs[i], id, now).log) == multiset(sw[i].log) + Added(cs[i], id, now, true)
    {
      SweptSound(ks[i], before, now, cs[i].window);
      assert cs[i].cost > 0 ==> !Has(Logs(ks)[i], Member(cs[i].cost, id));
      SweptAbsent(ks[i], before, now, cs[i].window, Member(cs[i].cost, id));
      AdmitAdds(sw[i], cs[i], id, now);
    }
  }

  lemma SweptAbsent(k: LimitKeys, before: int, now: int, window: nat, m: Member)
    requires Sound(k, before, window) && before <= now
    ensures !Has(k.log, m) ==> !Has(Swept(k, now, window).log, m)
  {
    SweptSound(k, before, now, window);
    if !Has(k.log, m) {
      LiveAbsent(k.log, now - window, m);
    }
  }

  // -- resent acquires ----------------------------------------------------------------

  /** The request's member is recorded in every log it is charged to. */
  ghost predicate RecordedInAll(sw: seq<LimitKeys>, cs: seq<Charge>, id: string)
    requires |sw| == |cs|
  {
    forall i :: 0 <= i < |cs| && cs[i].cost > 0 ==> Recorded(sw, cs, id, i)
  }

  /**
  A resend that still finds itself everywhere is admitted - even if used + cost is over the
  limit - and charges nothing.
  */
  lemma ResentAcquire(ks: seq<LimitKeys>, cs: seq<Charge>, id: string, now: int)
    requires |ks| == |cs| && RecordedInAll(SweepAll(ks, cs, now), cs, id)
    ensures Acquire(ks, cs, id, now).success
    ensures forall i :: 0 <= i < |cs| ==>
              && AcquireKeys(ks, cs, id, now)[i].log == SweepAll(ks, cs, now)[i].log
              && AcquireKeys(ks, cs, id, now)[i].total == SweepAll(ks, cs, now)[i].total
  {
    var sw := SweepAll(ks, cs, now);
    RetryIsLongestWait(sw, cs, id, now, |cs|);
    forall i | 0 <= i < |cs| ensures !Violated(sw, cs, id, i) {
      if cs[i].cost > 0 {
        assert Recorded(sw, cs, id, i);
      }
    }
  }

  /** An admitted request is found again by a resend for as long as it is in all its windows. */
  lemma AdmittedIsRecorded(ks: seq<LimitKeys>, cs: seq<Charge>, id: string, before: int, now: int, later: int)
    requires SoundKeys(ks, cs, before) && before <= now <= later && Fresh(Logs(ks), cs, id) && Admits(ks, cs, id, now)
    requires forall i :: 0 <= i < |cs| && cs[i].cost > 0 ==> later - now < cs[i].window
    ensures RecordedInAll(SweepAll(AcquireKeys(ks, cs, id, now), cs, later), cs, id)
  {
    SweepMakesSwept(ks, cs, before, now);
    var sw, ks' := SweepAll(ks, cs, now), AcquireKeys(ks, cs, id, now);
    forall i | 0 <= i < |cs| && cs[i].cost > 0
      ensures Has(Swept(ks'[i], later, cs[i].window).log, Member(cs[i].cost, id))
    {
      assert !Has(Logs(ks)[i], Member(cs[i].cost, id));
      assert !Has(sw[i].log, Member(cs[i].cost, id));
      RecordedStays(sw[i], Member(cs[i].cost, id), now, later, cs[i].window);
    }
  }

  lemma RecordedStays(k: LimitKeys, m: Member, now: int, later: int, window: nat)
    requires Sound(k, now, window) && !Has(k.log, m) && now <= later < now + window
    ensures Has(Swept(Record(k, now, window, m), later, window).log, m)
  {
    var e := Entry(now, m);
    InsertMembers(k.log, e);
    RecordSound(k, now, window, m);
    SweptSound(Record(k, now, window, m), now, later, window);
    LiveMembers(Insert(k.log, e), later - window, e);
    HasEntry(Live(Insert(k.log, e), later - window), e);
  }

  // -- the flag that carries over ---------------------------------------------------------

  /** What an admitted request does to a limit that was kept: it is exceeded exactly if it has no room and no record. */
  lemma AdmittedWithinLimit(k: LimitKeys, c: Charge, id: string, now: int)
    requires Used(k) <= c.limit
    ensures Used(Admit(k, c, id, now)) > c.limit <==> Overfull(k, c) && !Has(k.log, Member(c.cost, id))
  {
  }

  /** A limit without room that does not hold the request's record. */
  predicate Unguarded(sw: seq<LimitKeys>, cs: seq<Charge>, id: string, i: nat)
    requires |sw| == |cs| && i < |cs|
  {
    Overfull(sw[i], cs[i]) && !Recorded(sw, cs, id, i)
  }

  /** No limit denies: every one without room is checked after the flag `already` was set. */
  ghost predicate Waved(sw: seq<LimitKeys>, cs: seq<Charge>, id: string)
    requires |sw| == |cs|
  {
    forall i :: 0 <= i < |cs| && Overfull(sw[i], cs[i]) ==> Already(sw, cs, id, i + 1)
  }

  lemma AdmitsIsWaved(ks: seq<LimitKeys>, cs: seq<Charge>, id: string, now: int, sw: seq<LimitKeys>)
    requires |ks| == |cs| && sw == SweepAll(ks, cs, now)
    ensures Admits(ks, cs, id, now) <==> Waved(sw, cs, id)
  {
    RetryIsLongestWait(sw, cs, id, now, |cs|);
    if Admits(ks, cs, id, now) {
      forall i | 0 <= i < |cs| && Overfull(sw[i], cs[i]) ensures Already(sw, cs, id, i + 1) {
        assert !Violated(sw, cs, id, i);
      }
    }
  }

  lemma Exceeded(ks: seq<LimitKeys>, cs: seq<Charge>, id: string, now: int, sw: seq<LimitKeys>, i: nat)
    requires |ks| == |cs| && i < |cs| && sw == SweepAll(ks, cs, now) && Used(sw[i]) <= cs[i].limit
    ensures Used(AcquireKeys(ks, cs, id, now)[i]) > cs[i].limit <==> Admits(ks, cs, id, now) && Unguarded(sw, cs, id, i)
  {
    AdmittedWithinLimit(sw[i], cs[i], id, now);
  }

  /**
  The flag `already` set by one limit switches off the checks of all later ones. An
  acquire exceeds a limit that was kept exactly if some limit has neither room for the
  request nor its record, and every limit without room comes at or after a limit that
  holds the record.
  */
  lemma CarriedFlagExceeds(ks: seq<LimitKeys>, cs: seq<Charge>, id: string, now: int, sw: seq<LimitKeys>)
    requires |ks| == |cs| && sw == SweepAll(ks, cs, now)
    requires forall i :: 0 <= i < |cs| ==> Used(sw[i]) <= cs[i].limit
    ensures (exists i :: 0 <= i < |cs| && Used(AcquireKeys(ks, cs, id, now)[i]) > cs[i].limit)
            <==> (exists i :: 0 <= i < |cs| && Unguarded(sw, cs, id, i)) && Waved(sw, cs, id)
  {
    AdmitsIsWaved(ks, cs, id, now, sw);
    forall i | 0 <= i < |cs|
      ensures Used(AcquireKeys(ks, cs, id, now)[i]) > cs[i].limit <==> Waved(sw, cs, id) && Unguarded(sw, cs, id, i)
    {
      Exceeded(ks, cs, id, now, sw, i);
    }
    if (exists i :: 0 <= i < |cs| && Unguarded(sw, cs, id, i)) && Waved(sw, cs, id) {
      var i :| 0 <= i < |cs| && Unguarded(sw, cs, id, i);
      assert Used(AcquireKeys(ks, cs, id, now)[i]) > cs[i].limit;
    }
  }

  /** Without a record anywhere the flag is never set, and every limit is kept. */
  lemma FreshWithinLimits(ks: seq<LimitKeys>, cs: seq<Charge>, id: string, now: int, sw: seq<LimitKeys>)
    requires |ks| == |cs| && sw == SweepAll(ks, cs, now)
    requires forall i :: 0 <= i < |cs| ==> Used(sw[i]) <= cs[i].limit && !Recorded(sw, cs, id, i)
    ensures forall i :: 0 <= i < |cs| ==> Used(AcquireKeys(ks, cs, id, now)[i]) <= cs[i].limit
  {
    AdmitsIsWaved(ks, cs, id, now, sw);
    forall i | 0 <= i < |cs| ensures Used(AcquireKeys(ks, cs, id, now)[i]) <= cs[i].limit {
      Exceeded(ks, cs, id, now, sw, i);
    }
  }

  /** Two limits of 10 units, over 10 ms and over 5 ms, and a request's costs for them. */
  function TwoLimits(first: nat, second: nat): seq<Charge> {
    [Charge(10, 10, first), Charge(10, 5, second)]
  }

  /**
  Request `a` is charged 10 to both at 0. At 6 the second limit has forgotten it and
  `b` takes its 10 units. A resend of `a` at 6 is admitted by the record in the first
  log, and takes the second limit to 20.
  */
  lemma CarriedFlagOverfills(a: string, b: string)
    requires a != b
    ensures var k0 := AcquireKeys([ABSENT, ABSENT], TwoLimits(10, 10), a, 0);
            var k6 := AcquireKeys(k0, TwoLimits(0, 10), b, 6);
            && Admits([ABSENT, ABSENT], TwoLimits(10, 10), a, 0) && Admits(k0, TwoLimits(0, 10), b, 6)
            && Admits(k6, TwoLimits(10, 10), a, 6) && Used(AcquireKeys(k6, TwoLimits(10, 10), a, 6)[1]) == 20
  {
    var k0 := AcquireKeys([ABSENT, ABSENT], TwoLimits(10, 10), a, 0);
    BothAbsent(a);
    FirstForgets(a, b, k0);
    SecondRefilled(a, b, AcquireKeys(k0, TwoLimits(0, 10), b, 6));
  }

  /** A first charge of one limit. */
  lemma FirstCharge(c: Charge, id: string, now: int)
    requires 0 < c.cost <= c.limit
    ensures Swept(ABSENT, now, c.window) == ABSENT && !Overfull(ABSENT, c)
    ensures Admit(ABSENT, c, id, now) == Holding(Entry(now, Member(c.cost, id)), now + 2 * c.window)
  {
  }

  /** An acquire for two limits that both have room. */
  lemma AdmittedPair(ks: seq<LimitKeys>, cs: seq<Charge>, id: string, now: int, first: LimitKeys, second: LimitKeys)
    requires |ks| == |cs| == 2
    requires first == Swept(ks[0], now, cs[0].window) && second == Swept(ks[1], now, cs[1].window)
    requires !Overfull(first, cs[0]) && !Overfull(second, cs[1])
    ensures Admits(ks, cs, id, now)
    ensures AcquireKeys(ks, cs, id, now) == [Admit(first, cs[0], id, now), Admit(second, cs[1], id, now)]
  {
    AdmitsIsWaved(ks, cs, id, now, SweepAll(ks, cs, now));
  }

  lemma BothAbsent(a: string)
    ensures Admits([ABSENT, ABSENT], TwoLimits(10, 10), a, 0)
    ensures AcquireKeys([ABSENT, ABSENT], TwoLimits(10, 10), a, 0)
         == [Holding(Entry(0, Member(10, a)), 20), Holding(Entry(0, Member(10, a)), 10)]
  {
    var cs := TwoLimits(10, 10);
    FirstCharge(cs[0], a, 0);
    FirstCharge(cs[1], a, 0);
    AdmittedPair([ABSENT, ABSENT], cs, a, 0, ABSENT, ABSENT);
  }

  lemma FirstForgets(a: string, b: string, ks: seq<LimitKeys>)
    requires ks == [Holding(Entry(0, Member(10, a)), 20), Holding(Entry(0, Member(10, a)), 10)]
    ensures Admits(ks, TwoLimits(0, 10), b, 6)
    ensures AcquireKeys(ks, TwoLimits(0, 10), b, 6) == [ks[0], Holding(Entry(6, Member(10, b)), 16)]
  {
    var cs := TwoLimits(0, 10);
    OneEntry(ks[0].log[0], 20, 6, 10);
    OneEntry(ks[1].log[0], 10, 6, 5);
    FirstCharge(cs[1], b, 6);
    AdmittedPair(ks, cs, b, 6, ks[0], ABSENT);
  }

  lemma SecondRefilled(a: string, b: string, ks: seq<LimitKeys>)
    requires a != b && ks == [Holding(Entry(0, Member(10, a)), 20), Holding(Entry(6, Member(10, b)), 16)]
    ensures Admits(ks, TwoLimits(10, 10), a, 6) && Used(AcquireKeys(ks, TwoLimits(10, 10), a, 6)[1]) == 20
  {
    OneEntry(ks[0].log[0], 20, 6, 10);
    OneEntry(ks[1].log[0], 16, 6, 5);
    var cs := TwoLimits(10, 10);
    var sw := SweepAll(ks, cs, 6);
    assert sw == ks && Recorded(sw, cs, a, 0);
    AdmitsIsWaved(ks, cs, a, 6, sw);
    assert !Has(sw[1].log, Member(10, a));
  }

  /** Keys that hold one charge, with the total in step. */
  function Holding(e: Entry, expiry: int): LimitKeys {
    LimitKeys([e], Some(expiry), Some(e.member.cost), Some(expiry))
  }

  /** Keys that hold one charge: kept by a sweep while the charge is in the window, dropped afterwards. */
  lemma OneEntry(e: Entry, expiry: int, now: int, window: nat)
    requires now <= expiry
    ensures var k := LimitKeys([e], Some(expiry), Some(e.member.cost), Some(expiry));
            && Sum(k.log) == e.member.cost
            && (forall m :: Has(k.log, m) <==> m == e.member)
            && Swept(k, now, window) == if e.at > now - window then k else ABSENT
  {
    assert [e][0] == e && [e][1..] == [] && [e][..0] == [];
    assert Expired([], now - window) == 0;
    assert Expired([e], now - window) == if e.at > now - window then 0 else 1;
  }

  // -- adjustments ----------------------------------------------------------------------

  /**
  A first adjustment at the recorded time moves the charge from its old to its
  new cost at that very time, and changes nothing else.
  */
  lemma FirstAdjust(k: LimitKeys, now: int, window: nat, at: int, before: Member, after: Member)
    requires Sound(k, now, window) && AllAfter(k.log, now - window)
    requires Entry(at, before) in k.log && before.cost > 0 && !Has(k.log, after)
    ensures var k' := Settle(k, now, window, at, before, after);
            && multiset(k'.log) == multiset(k.log) - multiset{Entry(at, before)}
                                   + (if after.cost > 0 then multiset{Entry(at, after)} else multiset{})
            && Used(k') == Used(k) - before.cost + after.cost
  {
    var i :| 0 <= i < |k.log| && k.log[i] == Entry(at, before);
    DropContents(k.log, Entry(at, before));
    DropMembers(k.log, before);
    UnrecordDrift(k, before);
    var u := Unrecord(k, before);
    InsertContents(u.log, Entry(at, after));
    SettleDrift(k, now, window, at, before, after);
    DropSum(k.log, before);
    assert at > now - window;
  }

  /** Nothing is re-added once the request left its window. */
  lemma LateAdjustAddsNothing(k: LimitKeys, now: int, window: nat, at: int, before: Member, after: Member)
    requires Sound(k, now, window) && AllAfter(k.log, now - window)
    requires at <= now - window && (before.cost > 0 ==> !Has(k.log, before))
    ensures Settle(k, now, window, at, before, after) == k
  {
  }

  /** Repeating an adjustment that took effect changes neither the charges nor the total. */
  lemma ResentAdjust(k: LimitKeys, now: int, window: nat, at: int, before: Member, after: Member)
    requires Sound(k, now, window) && AllAfter(k.log, now - window)
    requires before.cost > 0 ==> !Has(k.log, before)
    requires after.cost > 0 && at > now - window ==> Entry(at, after) in k.log
    ensures var k' := Settle(k, now, window, at, before, after);
            multiset(k'.log) == multiset(k.log) && k'.total == k.total
  {
    if after.cost > 0 && at > now - window {
      var i :| 0 <= i < |k.log| && k.log[i] == Entry(at, after);
      DropContents(k.log, Entry(at, after));
      InsertContents(Drop(k.log, after), Entry(at, after));
      var k' := Settle(k, now, window, at, before, after);
      assert multiset(k.log)[Entry(at, after)] >= 1;
      assert multiset(k'.log) == multiset(k.log) - multiset{Entry(at, after)} + multiset{Entry(at, after)};
    }
  }

  /** What the first call of an adjustment leaves is what makes its resend - at any later time - a repetition. */
  lemma AdjustTwice(k: LimitKeys, window: nat, at: int, id: string, c: Change, before: int, now: int, later: int)
    requires Sound(k, before, window) && before <= now <= later && at <= now && c.before != c.after
        && window == c.window
    ensures var once := AdjustOne(k, Some(c), id, now, at);
            var twice := AdjustOne(once, Some(c), id, later, at);
            && multiset(twice.log) == multiset(Swept(once, later, window).log)
            && twice.total == Swept(once, later, window).total
  {
    var o, n := Member(c.before, id), Member(c.after, id);
    var s := Swept(k, now, window);
    SweptSound(k, before, now, window);
    var once := Settle(s, now, window, at, o, n);
    SettleSound(s, now, window, at, o, n);
    SettledHolds(s, now, window, at, o, n);
    var again := Swept(once, later, window);
    SweptSound(once, now, later, window);
    if o.cost > 0 {
      forall x ensures x in again.log ==> x in once.log { LiveMembers(once.log, later - window, x); }
      AbsentFromPart(again.log, once.log, o);
    }
    LiveMembers(once.log, later - window, Entry(at, n));
    ResentAdjust(again, later, window, at, o, n);
  }

  /** After an adjustment the old member is gone, and the new one is recorded at the original time. */
  lemma SettledHolds(k: LimitKeys, now: int, window: nat, at: int, before: Member, after: Member)
    requires before != after
    ensures var k' := Settle(k, now, window, at, before, after);
            && (before.cost > 0 ==> !Has(k'.log, before))
            && (after.cost > 0 && at > now - window ==> Entry(at, after) in k'.log)
  {
    DropMembers(k.log, before);
    var u := Unrecord(k, before);
    DropMembers(u.log, after);
    var e := Entry(at, after);
    InsertMembers(u.log, e);
    InsertMembers(Drop(u.log, after), e);
    var k' := Settle(k, now, window, at, before, after);
    if before.cost > 0 {
      AbsentFromPart(u.log, Drop(k.log, before), before);
      forall i | 0 <= i < |k'.log| ensures k'.log[i].member != before {
        assert k'.log[i] in k'.log;
        if k'.log[i] != e {
          HasEntry(u.log, k'.log[i]);
        }
      }
    }
  }

  /**
  An adjustment that does not raise the cost raises the consumption exactly when it puts
  back a cost, naming a time inside the window, and finds neither the old nor the new
  member. That happens in two ways: the permit names a later time than the recorded one,
  and the charge has left the window already; or the log holds a third cost, put there by
  an earlier adjustment whose reply was lost.
  */
  lemma LoweringRaises(k: LimitKeys, now: int, window: nat, at: int, before: Member, after: Member)
    requires Sound(k, now, window) && after.cost <= before.cost
    ensures Used(Settle(k, now, window, at, before, after)) > Used(k)
            <==> after.cost > 0 && at > now - window && !Has(k.log, before) && !Has(k.log, after)
  {
    DropMembers(k.log, before);
    DropSum(k.log, before);
    DropIsLog(k.log, before);
    if Has(k.log, before) && before != after {
      assert Has(Unrecord(k, before).log, after) == Has(k.log, after);
    }
  }

  /**
  A resent acquire reports a newer time than the recorded one. Limit 10 over
  10 ms: `a` is charged 10 at 0, its resend at 5 is admitted "at 5"; at 11 the
  charge has left and `b` takes all 10 units; lowering `a` from 10 to 9 at 12
  then re-adds it at 5, and the window holds 19.
  */
  lemma LateAdjustOverfills(a: string, b: string)
    requires a != b
    ensures var k0 := AdmitOne(ABSENT, 10, a, 0);
            var k5 := AdmitOne(k0, 10, a, 5);
            var k11 := AdmitOne(k5, 10, b, 11);
            && Used(k0) == Used(k5) == Used(k11) == 10
            && Used(AdjustOne(k11, Some(Change(10, 10, 9)), a, 12, 5)) == 19
  {
    var x, y := Entry(0, Member(10, a)), Entry(11, Member(10, b));
    assert AdmitOne(ABSENT, 10, a, 0) == LimitKeys([x], Some(20), Some(10), Some(20));
    OneEntry(x, 20, 5, 10);
    assert AdmitOne(AdmitOne(ABSENT, 10, a, 0), 10, a, 5) == LimitKeys([x], Some(25), Some(10), Some(25));
    OneEntry(x, 25, 11, 10);
    var k11 := AdmitOne(LimitKeys([x], Some(25), Some(10), Some(25)), 10, b, 11);
    assert k11 == LimitKeys([y], Some(31), Some(10), Some(31));
    OneEntry(y, 31, 12, 10);
    LoweredUnknown(k11, 12, 5, Member(10, a), Member(9, a));
  }

  /**
  Limit 10 over 10 ms: `a` is charged 10 at 0 and lowered to 9 at 1. The reply is lost and
  the client gives up, so its permit still says 10; lowering that to 8 at 2 finds neither
  10 nor 8, and the window holds 17 - with every call naming the recorded time.
  */
  lemma LostAdjustOverfills(a: string)
    ensures var k0 := AdmitOne(ABSENT, 10, a, 0);
            var k1 := AdjustOne(k0, Some(Change(10, 10, 9)), a, 1, 0);
            && Used(k0) == 10 && Used(k1) == 9
            && Used(AdjustOne(k1, Some(Change(10, 10, 8)), a, 2, 0)) == 17
  {
    var x, y := Entry(0, Member(10, a)), Entry(0, Member(9, a));
    assert AdmitOne(ABSENT, 10, a, 0) == Holding(x, 20);
    LoweredOnce(x, 20, 1, Member(9, a));
    OneEntry(y, 21, 2, 10);
    LoweredUnknown(Holding(y, 21), 2, 0, Member(10, a), Member(8, a));
  }

  lemma LoweredOnce(e: Entry, expiry: int, now: int, after: Member)
    requires now <= expiry && e.at > now - 10 && after.cost > 0 && e.member.cost > 0 && after.id == e.member.id
    requires after != e.member
    ensures AdjustOne(Holding(e, expiry), Some(Change(10, e.member.cost, after.cost)), after.id, now, e.at)
         == Holding(Entry(e.at, after), now + 20)
  {
    OneEntry(e, expiry, now, 10);
    assert Member(e.member.cost, after.id) == e.member && Member(after.cost, after.id) == after;
    assert [e][1..] == [] && Drop([e], e.member) == Drop([], e.member) == [];
  }

  /** An adjustment that finds neither member, inside the window, adds the new cost on top. */
  lemma LoweredUnknown(k: LimitKeys, now: int, at: int, before: Member, after: Member)
    requires !Has(k.log, before) && !Has(k.log, after) && after.cost > 0 && at > now - 10
    ensures Used(Settle(k, now, 10, at, before, after)) == Used(k) + after.cost
  {
  }

  /** One limit's share of an acquire that is admitted. */
  function AdmitOne(k: LimitKeys, cost: nat, id: string, now: int): LimitKeys {
    Admit(Swept(k, now, 10), Charge(10, 10, cost), id, now)
  }
}
