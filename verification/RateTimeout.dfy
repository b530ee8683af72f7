/**
The timeout of a blocking acquire is raised only when waiting is pointless: as long as
the other clients give nothing back, no attempt up to the deadline could succeed.
*/
module RateTimeouts {
  import opened Options
  import opened RateLog
  import opened RateKeys
  import opened RateScripts
  import opened RateRuns
  import opened RateLedgers
  import opened RateLaws

  // -- calls that give nothing back -------------------------------------------------------

  /**
  An adjustment that gives nothing back: it does not lower the cost, does not merge two
  records into one, and does not move one to an earlier time.
  */
  predicate Raises(log: Log, at: int, before: Member, after: Member) {
    && before.cost <= after.cost && (before == after || !(Has(log, before) && Has(log, after)))
    && forall x :: x in log && (x.member == before || x.member == after) ==> x.at <= at
  }

  /** A call of another client: any acquire or status call, and adjustments that give nothing back. */
  predicate GivesNothingBack(limits: seq<Limit>, ks: seq<LimitKeys>, t: Timed, id: string)
    requires |ks| == |limits| && WellFormed(limits, t.call)
  {
    match t.call
    case AcquireCall(other, _) => other != id
    case AdjustCall(other, at, changes) =>
      && other != id
      && forall i :: 0 <= i < |limits| && changes[i].Some? ==>
           Raises(Swept(ks[i], t.now, limits[i].window).log, at,
                  Member(changes[i].value.before, other), Member(changes[i].value.after, other))
    case StatusCall => true
  }

  ghost predicate NoRefunds(limits: seq<Limit>, ks: seq<LimitKeys>, start: int, run: seq<Timed>, id: string)
    requires |ks| == |limits| && Clocked(limits, start, run)
    decreases |run|
  {
    run == [] ||
    (&& GivesNothingBack(limits, ks, run[0], id)
     && NoRefunds(limits, StoreStep(limits, ks, run[0]).0, run[0].now, run[1..], id))
  }

  // -- one limit ----------------------------------------------------------------------------

  /** A member that would be charged is not recorded. */
  ghost predicate Unmarked(log: Log, m: Member) {
    m.cost > 0 ==> !Has(log, m)
  }

  /** At `t` the window holds at least `units`, and the member `m` is not among them. */
  ghost predicate Presses(k: LimitKeys, now: int, window: nat, t: int, m: Member, units: nat) {
    Sound(k, now, window) && Unmarked(k.log, m) && UnitsIn(k.log, t - window, t) >= units
  }

  lemma LivePresses(log: Log, cutoff: int, lo: int, hi: int, m: Member)
    requires cutoff <= lo && Unmarked(log, m)
    ensures Unmarked(Live(log, cutoff), m) && UnitsIn(Live(log, cutoff), lo, hi) == UnitsIn(log, lo, hi)
  {
    LiveUnits(log, cutoff, lo, hi);
    if m.cost > 0 {
      LiveAbsent(log, cutoff, m);
    }
  }

  lemma SweptPresses(k: LimitKeys, before: int, now: int, window: nat, t: int, m: Member, units: nat)
    requires Presses(k, before, window, t, m, units) && before <= now <= t
    ensures Presses(Swept(k, now, window), now, window, t, m, units)
    ensures AllAfter(Swept(k, now, window).log, now - window)
  {
    SweptSound(k, before, now, window);
    LivePresses(k.log, now - window, t - window, t, m);
  }

  lemma ChargePresses(k: LimitKeys, now: int, c: Charge, other: string, t: int, m: Member, units: nat)
    requires Presses(k, now, c.window, t, m, units) && other != m.id
    ensures Presses(Admit(k, c, other, now), now, c.window, t, m, units)
  {
    var e := Entry(now, Member(c.cost, other));
    RecordSound(k, now, c.window, e.member);
    InsertUnits(k.log, e, t - c.window, t);
    InsertMembers(k.log, e);
    StaysAbsent(k.log, Insert(k.log, e), e, m);
  }

  lemma StaysAbsent(log: Log, log': Log, e: Entry, m: Member)
    requires Unmarked(log, m) && e.member != m && forall x :: x in log' ==> x in log || x == e
    ensures Unmarked(log', m)
  {
    forall i | 0 <= i < |log'| && m.cost > 0 ensures log'[i].member != m {
      assert log'[i] in log';
      if log'[i] != e {
        HasEntry(log, log'[i]);
      }
    }
  }

  /** What is put back at `at` is not less than what was taken out, and no earlier. */
  lemma SettleUnits(k: LimitKeys, now: int, window: nat, at: int, before: Member, after: Member, lo: int, hi: int)
    requires IsLog(k.log) && AllAfter(k.log, now - window) && Raises(k.log, at, before, after)
    requires now - window <= lo && at <= now <= hi
    ensures UnitsIn(Settle(k, now, window, at, before, after).log, lo, hi) >= UnitsIn(k.log, lo, hi)
  {
    var u := Unrecord(k, before);
    DropMembers(k.log, before);
    InsertUnits(u.log, Entry(at, after), lo, hi);
    if before.cost > 0 && Has(k.log, before) {
      var i :| 0 <= i < |k.log| && k.log[i].member == before;
      DropUnits(k.log, k.log[i], lo, hi);
      assert !Has(u.log, after);
    } else if Has(k.log, after) {
      var i :| 0 <= i < |k.log| && k.log[i].member == after;
      DropUnits(k.log, k.log[i], lo, hi);
      InsertUnits(Drop(k.log, after), Entry(at, after), lo, hi);
    }
  }

  lemma SettleUnmarked(k: LimitKeys, now: int, window: nat, at: int, before: Member, after: Member, m: Member)
    requires Unmarked(k.log, m) && after != m
    ensures Unmarked(Settle(k, now, window, at, before, after).log, m)
  {
    SettledEntries(k, now, window, at, before, after);
    StaysAbsent(k.log, Settle(k, now, window, at, before, after).log, Entry(at, after), m);
  }

  lemma SettlePresses(k: LimitKeys, now: int, window: nat, at: int, before: Member, after: Member,
                      t: int, m: Member, units: nat)
    requires Presses(k, now, window, t, m, units) && AllAfter(k.log, now - window) && Raises(k.log, at, before, after)
    requires at <= now <= t && after.id != m.id
    ensures Presses(Settle(k, now, window, at, before, after), now, window, t, m, units)
  {
    SettleSound(k, now, window, at, before, after);
    SettleUnits(k, now, window, at, before, after, t - window, t);
    SettleUnmarked(k, now, window, at, before, after, m);
  }

  lemma AdjustPresses(k: LimitKeys, before: int, now: int, c: Change, other: string, at: int,
                      t: int, m: Member, units: nat, k': LimitKeys)
    requires Presses(k, before, c.window, t, m, units) && before <= now <= t && at <= now && other != m.id
    requires Raises(Swept(k, now, c.window).log, at, Member(c.before, other), Member(c.after, other))
    requires k' == AdjustOne(k, Some(c), other, now, at)
    ensures Presses(k', now, c.window, t, m, units)
  {
    SweptPresses(k, before, now, c.window, t, m, units);
    SettlePresses(Swept(k, now, c.window), now, c.window, at, Member(c.before, other), Member(c.after, other),
                  t, m, units);
  }

  // -- whole runs -----------------------------------------------------------------------------

  lemma StepPresses(limits: seq<Limit>, ks: seq<LimitKeys>, before: int, call: Timed, id: string,
                    i: nat, t: int, m: Member, units: nat, k': LimitKeys)
    requires |ks| == |limits| && WellFormed(limits, call.call) && GivesNothingBack(limits, ks, call, id) && i < |limits|
    requires Presses(ks[i], before, limits[i].window, t, m, units) && before <= call.now <= t && m.id == id
    requires call.call.AdjustCall? ==> call.call.at <= call.now
    requires k' == StoreStep(limits, ks, call).0[i]
    ensures Presses(k', call.now, limits[i].window, t, m, units)
  {
    var l := limits[i];
    SweptPresses(ks[i], before, call.now, l.window, t, m, units);
    match call.call
    case AcquireCall(other, costs) =>
      ChargePresses(Swept(ks[i], call.now, l.window), call.now, Charge(l.limit, l.window, costs[i]), other,
                    t, m, units);
    case AdjustCall(other, at, changes) =>
      if changes[i].Some? {
        var c := Change(l.window, changes[i].value.before, changes[i].value.after);
        AdjustPresses(ks[i], before, call.now, c, other, at, t, m, units, k');
      }
    case StatusCall =>
  }

  lemma {:induction false} RunPresses(limits: seq<Limit>, ks: seq<LimitKeys>, start: int, run: seq<Timed>, id: string,
                                      i: nat, t: int, m: Member, units: nat)
    requires |ks| == |limits| && Clocked(limits, start, run) && NoRefunds(limits, ks, start, run, id) && i < |limits|
    requires Presses(ks[i], start, limits[i].window, t, m, units) && LastTime(start, run) <= t && m.id == id
    ensures Presses(RunStore(limits, ks, start, run).0[i], LastTime(start, run), limits[i].window, t, m, units)
    decreases |run|
  {
    if run != [] {
      LastIsLater(limits, run[0].now, run[1..]);
      var ks' := StoreStep(limits, ks, run[0]).0;
      StepPresses(limits, ks, start, run[0], id, i, t, m, units, ks'[i]);
      RunPresses(limits, ks', run[0].now, run[1..], id, i, t, m, units);
    }
  }

  lemma {:induction false} LastIsLater(limits: seq<Limit>, start: int, run: seq<Timed>)
    requires Clocked(limits, start, run)
    ensures start <= LastTime(start, run)
    decreases |run|
  {
    if run != [] {
      LastIsLater(limits, run[0].now, run[1..]);
    }
  }

  /** Where every window holds no less than before, a request that was denied still is. */
  lemma LedgerStillDenies(ls: seq<Ledger>, ls': seq<Ledger>, cs: seq<Charge>, id: string, t: int)
    requires |ls| == |ls'| == |cs| && Fresh(ls, cs, id) && Fresh(ls', cs, id) && LedgerRetry(ls, cs, id, t, |cs|) > 0
    requires forall i :: 0 <= i < |cs| ==> Consumed(ls[i], t, cs[i].window) <= Consumed(ls'[i], t, cs[i].window)
    ensures LedgerRetry(ls', cs, id, t, |cs|) > 0
  {
    RetryMeansDenied(ls, cs, id, t, |cs|);
    RetryMeansDenied(ls', cs, id, t, |cs|);
    var i :| 0 <= i < |cs| && Denies(ls, cs, id, t, i);
    FreshNeverResent(ls, cs, id, t, i);
    FreshNeverResent(ls', cs, id, t, i);
    assert Denies(ls', cs, id, t, i);
  }

  lemma StillDenied(ks: seq<LimitKeys>, ks': seq<LimitKeys>, cs: seq<Charge>, id: string,
                    before: int, last: int, t: int)
    requires SoundKeys(ks, cs, before) && Fresh(Logs(ks), cs, id) && before <= t
    requires SoundKeys(ks', cs, last) && Fresh(Logs(ks'), cs, id) && last <= t
    requires forall i :: 0 <= i < |cs| ==> Consumed(ks[i].log, t, cs[i].window) <= Consumed(ks'[i].log, t, cs[i].window)
    requires Retry(ks, cs, id, t) > 0
    ensures Retry(ks', cs, id, t) > 0
  {
    RetryIsLedgers(ks, cs, id, before, t);
    RetryIsLedgers(ks', cs, id, last, t);
    LedgerStillDenies(Logs(ks), Logs(ks'), cs, id, t);
  }

  ghost predicate AllPress(ks: seq<LimitKeys>, now: int, cs: seq<Charge>, id: string, t: int, from: seq<LimitKeys>) {
    |ks| == |cs| == |from|
    && forall i :: 0 <= i < |cs| ==>
         Presses(ks[i], now, cs[i].window, t, Member(cs[i].cost, id), Consumed(from[i].log, t, cs[i].window))
  }

  lemma PressedIsSound(ks: seq<LimitKeys>, now: int, cs: seq<Charge>, id: string, t: int, from: seq<LimitKeys>)
    requires AllPress(ks, now, cs, id, t, from) && ValidCharges(ks, cs)
    ensures SoundKeys(ks, cs, now) && Fresh(Logs(ks), cs, id)
    ensures forall i :: 0 <= i < |cs| ==> Consumed(from[i].log, t, cs[i].window) <= Consumed(ks[i].log, t, cs[i].window)
  {
    forall i | 0 <= i < |cs| && cs[i].cost > 0 ensures !Has(Logs(ks)[i], Member(cs[i].cost, id)) {
      assert Unmarked(ks[i].log, Member(cs[i].cost, id));
    }
  }

  lemma RunAllPresses(limits: seq<Limit>, ks: seq<LimitKeys>, start: int, run: seq<Timed>, id: string,
                      costs: seq<nat>, t: int, end: seq<LimitKeys>)
    requires |ks| == |limits| == |costs| && Clocked(limits, start, run) && NoRefunds(limits, ks, start, run, id)
    requires SoundKeys(ks, Charges(limits, costs), start) && Fresh(Logs(ks), Charges(limits, costs), id)
    requires LastTime(start, run) <= t && end == RunStore(limits, ks, start, run).0
    ensures AllPress(end, LastTime(start, run), Charges(limits, costs), id, t, ks)
  {
    var cs := Charges(limits, costs);
    forall i | 0 <= i < |cs|
      ensures Presses(end[i], LastTime(start, run), cs[i].window, t, Member(cs[i].cost, id),
                      Consumed(ks[i].log, t, cs[i].window))
    {
      assert cs[i].cost > 0 ==> !Has(Logs(ks)[i], Member(cs[i].cost, id));
      RunPresses(limits, ks, start, run, id, i, t, Member(cs[i].cost, id), Consumed(ks[i].log, t, cs[i].window));
    }
  }

  /**
  The timeout is raised only when waiting is pointless: whatever the other clients acquire
  and however they raise the costs of their own permits meanwhile, an attempt at any later
  time up to the deadline is denied.
  */
  lemma TimeoutIsFinal(limits: seq<Limit>, ks: seq<LimitKeys>, costs: seq<nat>, id: string, before: int, now: int,
                       deadline: int, left: seq<LimitKeys>, others: seq<Timed>, t: int)
    requires ValidLimits(limits) && |ks| == |costs| == |limits|
    requires SoundKeys(ks, Charges(limits, costs), before) && before <= now
    requires Fresh(Logs(ks), Charges(limits, costs), id)
    requires now + Retry(ks, Charges(limits, costs), id, now) > deadline
    requires left == AcquireKeys(ks, Charges(limits, costs), id, now)
    requires Clocked(limits, now, others) && NoRefunds(limits, left, now, others, id)
    requires LastTime(now, others) <= t <= deadline
    ensures !Admits(RunStore(limits, left, now, others).0, Charges(limits, costs), id, t)
  {
    var cs := Charges(limits, costs);
    LastIsLater(limits, now, others);
    DeniedLeaves(ks, cs, id, before, now, left);
    SweepTwice(ks, cs, before, now, left);
    DeniedUntil(left, cs, id, now, Retry(ks, cs, id, now), t);
    var end := RunStore(limits, left, now, others).0;
    RunAllPresses(limits, left, now, others, id, costs, t, end);
    PressedIsSound(end, LastTime(now, others), cs, id, t, left);
    StillDenied(left, end, cs, id, now, LastTime(now, others), t);
  }

  lemma DeniedUntil(ks: seq<LimitKeys>, cs: seq<Charge>, id: string, now: int, r: int, t: int)
    requires SoundKeys(ks, cs, now) && Fresh(Logs(ks), cs, id) && r == Retry(ks, cs, id, now) && now <= t < now + r
    ensures Retry(ks, cs, id, t) > 0
  {
    RetryIsLedgers(ks, cs, id, now, now);
    LedgerDeniesBefore(Logs(ks), cs, id, now, r, t);
    RetryIsLedgers(ks, cs, id, now, t);
  }
}
