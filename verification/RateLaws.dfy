/**
The laws a rate limiter is for: no window ever holds more than its limit, the
retry time is exact, requests are all-or-nothing, and resends change nothing -
each with the exact condition under which the scripts keep it.
*/
module RateLaws {
  import opened Options
  import opened RateLog
  import opened RateKeys
  import opened RateScripts
  import opened RateRuns
  import opened RateLedgers
  import opened RateRefinement

  // -- sliding-window safety ---------------------------------------------------------

  /** In no window of the given length, wherever it lies, do the charges exceed the limit. */
  ghost predicate Safe(l: Ledger, limit: nat, window: nat) {
    forall t :: Consumed(l, t, window) <= limit
  }

  lemma ChargeSafe(l: Ledger, now: int, c: Charge, m: Member)
    requires Safe(l, c.limit, c.window) && NoneAfter(l, now) && Fits(l, now, c) && m.cost == c.cost
    ensures Safe(l + [Entry(now, m)], c.limit, c.window)
  {
    var e := Entry(now, m);
    forall t ensures Consumed(l + [e], t, c.window) <= c.limit {
      UnitsConcat(l, [e], t - c.window, t);
      assert Consumed(l, t, c.window) <= c.limit;
      if now <= t {
        UnitsCeiling(l, t - c.window, now, t);
        UnitsMonotone(l, t - c.window, now, now - c.window, now);
      }
    }
  }

  lemma {:induction false} ForgetUnits(l: Ledger, cutoff: int, m: Member, lo: int, hi: int)
    ensures UnitsIn(Forget(l, cutoff, m), lo, hi) <= UnitsIn(l, lo, hi)
    ensures forall x :: x in Forget(l, cutoff, m) <==> x in l && !(x.at > cutoff && x.member == m)
  {
    if l != [] {
      ForgetUnits(l[1..], cutoff, m, lo, hi);
      assert l == [l[0]] + l[1..];
      var r := Forget(l[1..], cutoff, m);
      assert ([l[0]] + r)[1..] == r;
    }
  }

  lemma {:induction false} ForgetTakesBack(l: Ledger, cutoff: int, e: Entry, lo: int, hi: int)
    requires e in l && e.at > cutoff
    ensures UnitsIn(Forget(l, cutoff, e.member), lo, hi) + (if lo < e.at <= hi then e.member.cost else 0)
            <= UnitsIn(l, lo, hi)
  {
    assert l == [l[0]] + l[1..];
    if l[0] == e {
      ForgetUnits(l[1..], cutoff, e.member, lo, hi);
    } else {
      ForgetTakesBack(l[1..], cutoff, e, lo, hi);
      var r := Forget(l[1..], cutoff, e.member);
      assert ([l[0]] + r)[1..] == r;
    }
  }

  /** The charge is recorded, with its old or its new cost, inside the window and no later than at `at`. */
  ghost predicate RecordedBy(l: Ledger, cutoff: int, at: int, before: Member, after: Member) {
    exists i :: 0 <= i < |l| && cutoff < l[i].at <= at && (l[i].member == before || l[i].member == after)
  }

  /**
  An adjustment that lowers a recorded charge, or repeats one that did, or gives the whole
  charge back - once or again - or comes after the request left the window. The time it
  names may be later than the recorded one, as a resent acquire answers the time of the
  resend.
  */
  ghost predicate Lowers(l: Ledger, cutoff: int, at: int, before: Member, after: Member) {
    after.cost <= before.cost && (after.cost > 0 && at > cutoff ==> RecordedBy(l, cutoff, at, before, after))
  }

  /** Whatever is put back at `at` was taken out at a time from the window up to `at`. */
  lemma AmendLowers(l: Ledger, cutoff: int, at: int, before: Member, after: Member, lo: int, hi: int)
    requires Lowers(l, cutoff, at, before, after) && lo <= cutoff
    ensures UnitsIn(Amend(l, cutoff, at, before, after), lo, hi) <= UnitsIn(l, lo, hi)
  {
    ForgetUnits(l, cutoff, before, lo, hi);
    var u := if before.cost > 0 then Forget(l, cutoff, before) else l;
    ForgetUnits(u, cutoff, after, lo, hi);
    if after.cost > 0 && at > cutoff {
      InsertUnits(Forget(u, cutoff, after), Entry(at, after), lo, hi);
      var i :| 0 <= i < |l| && cutoff < l[i].at <= at && (l[i].member == before || l[i].member == after);
      if l[i].member == before {
        ForgetTakesBack(l, cutoff, l[i], lo, hi);
      } else {
        ForgetTakesBack(u, cutoff, l[i], lo, hi);
      }
    }
  }

  /** Later windows hold no more of what was charged by `now` than the window at `now` does. */
  lemma AmendSafe(l: Ledger, limit: nat, window: nat, at: int, before: Member, after: Member, now: int)
    requires Safe(l, limit, window) && NoneAfter(l, now) && at <= now
    requires Lowers(l, now - window, at, before, after)
    ensures Safe(Amend(l, now - window, at, before, after), limit, window)
  {
    var l' := Amend(l, now - window, at, before, after);
    AmendStaysPast(l, now - window, at, before, after, now);
    forall t ensures Consumed(l', t, window) <= limit {
      var u := if t < now then t else now;
      AmendLowers(l, now - window, at, before, after, u - window, u);
      assert Consumed(l, u, window) <= limit;
      if now < t {
        UnitsCeiling(l', t - window, now, t);
        UnitsMonotone(l', t - window, now, now - window, now);
      }
    }
  }

  lemma AmendStaysPast(l: Ledger, cutoff: int, at: int, before: Member, after: Member, now: int)
    requires NoneAfter(l, now) && at <= now
    ensures NoneAfter(Amend(l, cutoff, at, before, after), now)
  {
    ForgetUnits(l, cutoff, before, 0, 0);
    var u := if before.cost > 0 then Forget(l, cutoff, before) else l;
    ForgetUnits(u, cutoff, after, 0, 0);
    InsertMembers(Forget(u, cutoff, after), Entry(at, after));
    var r := Amend(l, cutoff, at, before, after);
    forall i | 0 <= i < |r| ensures r[i].at <= now {
      assert r[i] in r;
      assert r[i] == Entry(at, after) || r[i] in l;
    }
  }

  /** The request is new to every limit it is charged to, or still recorded in all of them. */
  ghost predicate FreshOrResent(ls: seq<Ledger>, cs: seq<Charge>, id: string, now: int)
    requires |ls| == |cs|
  {
    || (forall i :: 0 <= i < |cs| && cs[i].cost > 0 ==> !Charged(ls[i], now - cs[i].window, Member(cs[i].cost, id)))
    || (forall i :: 0 <= i < |cs| && cs[i].cost > 0 ==> Charged(ls[i], now - cs[i].window, Member(cs[i].cost, id)))
  }

  /** Every acquire of the run is fresh or fully recorded, and every adjustment lowers costs. */
  ghost predicate Disciplined(limits: seq<Limit>, ls: seq<Ledger>, start: int, run: seq<Timed>)
    requires |ls| == |limits| && Clocked(limits, start, run)
    decreases |run|
  {
    run == [] ||
    (&& StepDisciplined(limits, ls, run[0])
     && Disciplined(limits, LedgerStep(limits, ls, run[0]).0, run[0].now, run[1..]))
  }

  ghost predicate StepDisciplined(limits: seq<Limit>, ls: seq<Ledger>, t: Timed)
    requires |ls| == |limits| && WellFormed(limits, t.call)
  {
    match t.call
    case AcquireCall(id, costs) => FreshOrResent(ls, Charges(limits, costs), id, t.now)
    case AdjustCall(id, at, costs) =>
      forall i :: 0 <= i < |limits| && costs[i].Some? ==>
        Lowers(ls[i], t.now - limits[i].window, at, Member(costs[i].value.before, id), Member(costs[i].value.after, id))
    case StatusCall => true
  }

  ghost predicate AllSafe(limits: seq<Limit>, ls: seq<Ledger>, now: int) {
    && |ls| == |limits|
    && forall i :: 0 <= i < |limits| ==> NoneAfter(ls[i], now) && Safe(ls[i], limits[i].limit, limits[i].window)
  }

  lemma {:induction false} RetryMeansDenied(ls: seq<Ledger>, cs: seq<Charge>, id: string, now: int, n: nat)
    requires |ls| == |cs| && n <= |cs|
    ensures var r := LedgerRetry(ls, cs, id, now, n);
            && (r == 0 <==> forall i :: 0 <= i < n ==> !Denies(ls, cs, id, now, i))
            && (forall i :: 0 <= i < n && Denies(ls, cs, id, now, i) ==> FirstFit(ls[i], now, cs[i], 1) <= r)
            && (r > 0 ==> exists i :: 0 <= i < n && Denies(ls, cs, id, now, i) && FirstFit(ls[i], now, cs[i], 1) == r)
  {
    if n > 0 {
      RetryMeansDenied(ls, cs, id, now, n - 1);
    }
  }

  lemma AcquireSafe(limits: seq<Limit>, ls: seq<Ledger>, costs: seq<nat>, id: string, before: int, now: int)
    requires AllSafe(limits, ls, before) && before <= now && |costs| == |limits|
    requires FreshOrResent(ls, Charges(limits, costs), id, now)
    ensures AllSafe(limits, LedgerAcquire(ls, Charges(limits, costs), id, now), now)
  {
    var cs := Charges(limits, costs);
    var ls' := LedgerAcquire(ls, cs, id, now);
    RetryMeansDenied(ls, cs, id, now, |cs|);
    forall i | 0 <= i < |limits| ensures NoneAfter(ls'[i], now) && Safe(ls'[i], limits[i].limit, limits[i].window) {
      if ls'[i] != ls[i] {
        assert !Denies(ls, cs, id, now, i);
        ChargeSafe(ls[i], now, cs[i], Member(cs[i].cost, id));
      }
    }
  }

  lemma StepSafe(limits: seq<Limit>, ls: seq<Ledger>, before: int, t: Timed)
    requires AllSafe(limits, ls, before) && before <= t.now
    requires WellFormed(limits, t.call) && (t.call.AdjustCall? ==> t.call.at <= t.now) && StepDisciplined(limits, ls, t)
    ensures AllSafe(limits, LedgerStep(limits, ls, t).0, t.now)
  {
    match t.call
    case AcquireCall(id, costs) =>
      AcquireSafe(limits, ls, costs, id, before, t.now);
    case AdjustCall(id, at, costs) =>
      forall i | 0 <= i < |limits| && costs[i].Some?
        ensures var l := LedgerStep(limits, ls, t).0[i];
                NoneAfter(l, t.now) && Safe(l, limits[i].limit, limits[i].window)
      {
        var o, n := Member(costs[i].value.before, id), Member(costs[i].value.after, id);
        AmendStaysPast(ls[i], t.now - limits[i].window, at, o, n, t.now);
        AmendSafe(ls[i], limits[i].limit, limits[i].window, at, o, n, t.now);
      }
    case StatusCall =>
  }

  /**
  Sliding-window safety over whole runs: however the calls are interleaved, the
  charges of any window of any limit sum to at most the limit, at all times.
  */
  lemma {:induction false} WindowSafety(limits: seq<Limit>, ls: seq<Ledger>, start: int, run: seq<Timed>)
    requires AllSafe(limits, ls, start) && Clocked(limits, start, run) && Disciplined(limits, ls, start, run)
    ensures forall i :: 0 <= i < |limits| ==>
              Safe(RunLedger(limits, ls, start, run).0[i], limits[i].limit, limits[i].window)
    decreases |run|
  {
    if run != [] {
      StepSafe(limits, ls, start, run[0]);
      WindowSafety(limits, LedgerStep(limits, ls, run[0]).0, run[0].now, run[1..]);
    }
  }

  /**
  The same for the scripts, from absent keys: they answered every call of the run as
  that ledger does, so its charges are the ones they admitted.
  */
  lemma ScriptsKeepWindows(limits: seq<Limit>, start: int, run: seq<Timed>)
    requires ValidLimits(limits) && Clocked(limits, start, run)
    requires Disciplined(limits, seq(|limits|, i => []), start, run)
    ensures var empty: seq<Ledger> := seq(|limits|, i => []);
            var ledgers := RunLedger(limits, empty, start, run);
            && RunStore(limits, seq(|limits|, i => ABSENT), start, run).1 == ledgers.1
            && forall i :: 0 <= i < |limits| ==> Safe(ledgers.0[i], limits[i].limit, limits[i].window)
  {
    var ks, ls: seq<Ledger> := seq(|limits|, i => ABSENT), seq(|limits|, i => []);
    RunRefines(limits, ks, ls, start, run);
    forall i | 0 <= i < |limits| ensures Safe(ls[i], limits[i].limit, limits[i].window) {
      assert forall t :: Consumed([], t, limits[i].window) == 0;
    }
    WindowSafety(limits, ls, start, run);
  }

  // -- the retry time ------------------------------------------------------------------

  predicate Fresh(ls: seq<Ledger>, cs: seq<Charge>, id: string)
    requires |ls| == |cs|
  {
    forall i :: 0 <= i < |cs| && cs[i].cost > 0 ==> !Has(ls[i], Member(cs[i].cost, id))
  }

  lemma FreshNeverResent(ls: seq<Ledger>, cs: seq<Charge>, id: string, t: int, i: nat)
    requires |ls| == |cs| && i < |cs| && Fresh(ls, cs, id)
    ensures Denies(ls, cs, id, t, i) <==> cs[i].cost > 0 && !Fits(ls[i], t, cs[i])
  {
    forall j | 0 <= j <= i && cs[j].cost > 0 ensures !Charged(ls[j], t - cs[j].window, Member(cs[j].cost, id)) {
    }
  }

  /** Nothing is left of a request one window later. */
  lemma FitsAfterWindow(l: Ledger, now: int, c: Charge)
    requires NoneAfter(l, now) && c.cost <= c.limit
    ensures Fits(l, now + c.window, c)
  {
    UnitsOutside(l, now, now + c.window);
  }

  /** With nothing in between, a denied request fits at every instant from its retry time on. */
  lemma LedgerAdmitsFrom(ls: seq<Ledger>, cs: seq<Charge>, id: string, now: int, r: nat, t: int)
    requires |ls| == |cs| && Fresh(ls, cs, id) && r == LedgerRetry(ls, cs, id, now, |cs|) && now + r <= t
    requires forall i :: 0 <= i < |cs| ==> NoneAfter(ls[i], now) && cs[i].cost <= cs[i].limit
    ensures LedgerRetry(ls, cs, id, t, |cs|) == 0
  {
    RetryMeansDenied(ls, cs, id, now, |cs|);
    RetryMeansDenied(ls, cs, id, t, |cs|);
    forall i | 0 <= i < |cs| ensures !Denies(ls, cs, id, t, i) {
      FreshNeverResent(ls, cs, id, now, i);
      FreshNeverResent(ls, cs, id, t, i);
      var f := FirstFit(ls[i], now, cs[i], 1);
      if Denies(ls, cs, id, now, i) {
        FitsAfterWindow(ls[i], now, cs[i]);
        FitsStays(ls[i], now, now + f, t, cs[i]);
      } else if cs[i].cost > 0 {
        FitsStays(ls[i], now, now, t, cs[i]);
      }
    }
  }

  /** ... and at no earlier one. */
  lemma LedgerDeniesBefore(ls: seq<Ledger>, cs: seq<Charge>, id: string, now: int, r: nat, t: int)
    requires |ls| == |cs| && Fresh(ls, cs, id) && r == LedgerRetry(ls, cs, id, now, |cs|) && now <= t < now + r
    ensures LedgerRetry(ls, cs, id, t, |cs|) > 0
  {
    RetryMeansDenied(ls, cs, id, now, |cs|);
    RetryMeansDenied(ls, cs, id, t, |cs|);
    var i :| 0 <= i < |cs| && Denies(ls, cs, id, now, i) && FirstFit(ls[i], now, cs[i], 1) == r;
    FreshNeverResent(ls, cs, id, now, i);
    FreshNeverResent(ls, cs, id, t, i);
  }

  /** Once nothing is added, what fits keeps fitting. */
  lemma FitsStays(l: Ledger, now: int, sooner: int, later: int, c: Charge)
    requires NoneAfter(l, now) && now <= sooner <= later && Fits(l, sooner, c)
    ensures Fits(l, later, c)
  {
    UnitsCeiling(l, sooner - c.window, now, sooner);
    UnitsCeiling(l, later - c.window, now, later);
    UnitsMonotone(l, later - c.window, now, sooner - c.window, now);
  }

  ghost predicate SoundKeys(ks: seq<LimitKeys>, cs: seq<Charge>, now: int) {
    ValidCharges(ks, cs) && forall i :: 0 <= i < |ks| ==> Sound(ks[i], now, cs[i].window)
  }

  function Logs(ks: seq<LimitKeys>): (r: seq<Ledger>)
    ensures |r| == |ks|
  {
    seq(|ks|, i requires 0 <= i < |ks| => ks[i].log)
  }

  lemma OwnLog(ks: seq<LimitKeys>, cs: seq<Charge>, now: int)
    requires SoundKeys(ks, cs, now)
    ensures AllRefine(ks, Logs(ks), cs, now)
  {
    forall i | 0 <= i < |ks| ensures Refines(ks[i], Logs(ks)[i], now, cs[i].window) {
      assert Sound(ks[i], now, cs[i].window);
    }
  }

  lemma RetryIsLedgers(ks: seq<LimitKeys>, cs: seq<Charge>, id: string, before: int, now: int)
    requires SoundKeys(ks, cs, before) && before <= now
    ensures Retry(ks, cs, id, now) == LedgerRetry(Logs(ks), cs, id, now, |cs|)
  {
    OwnLog(ks, cs, before);
    RetryRefines(ks, Logs(ks), cs, id, before, now);
  }

  /** A denied fresh request leaves sound keys, without a trace of itself. */
  lemma DeniedLeaves(ks: seq<LimitKeys>, cs: seq<Charge>, id: string, before: int, now: int, ks': seq<LimitKeys>)
    requires SoundKeys(ks, cs, before) && before <= now && Fresh(Logs(ks), cs, id)
    requires ks' == SweepAll(ks, cs, now)
    ensures SoundKeys(ks', cs, now) && Fresh(Logs(ks'), cs, id)
  {
    forall i | 0 <= i < |cs|
      ensures Sound(ks'[i], now, cs[i].window)
      ensures cs[i].cost > 0 ==> !Has(ks'[i].log, Member(cs[i].cost, id))
    {
      SweptSound(ks[i], before, now, cs[i].window);
      assert cs[i].cost > 0 ==> !Has(Logs(ks)[i], Member(cs[i].cost, id));
    }
  }

  /** The script admits a request exactly when it computes no retry time. */
  predicate Admits(ks: seq<LimitKeys>, cs: seq<Charge>, id: string, now: int)
    requires |ks| == |cs|
  {
    Retry(ks, cs, id, now) == 0
  }

  /** From `now` on the request is denied at every instant before `first`, and admitted at every one from then on. */
  ghost predicate AdmittedExactlyFrom(ks: seq<LimitKeys>, cs: seq<Charge>, id: string, now: int, first: int)
    requires |ks| == |cs|
  {
    forall t :: now <= t ==> (Admits(ks, cs, id, t) <==> first <= t)
  }

  /**
  The retry time is exact and minimal: with nothing in between, a denied fresh
  request is admitted by all limits from that much later on, and at every
  earlier instant it is denied. An earlier overshoot changes nothing about it.
  */
  lemma RetryExact(ks: seq<LimitKeys>, cs: seq<Charge>, id: string, before: int, now: int,
                   ks': seq<LimitKeys>, retry: int)
    requires SoundKeys(ks, cs, before) && before <= now
    requires forall i :: 0 <= i < |cs| ==> cs[i].cost <= cs[i].limit
    requires Fresh(Logs(ks), cs, id) && retry == Retry(ks, cs, id, now) > 0
    requires ks' == AcquireKeys(ks, cs, id, now)
    ensures AdmittedExactlyFrom(ks', cs, id, now, now + retry)
  {
    DeniedLeaves(ks, cs, id, before, now, ks');
    SweepTwice(ks, cs, before, now, ks');
    ExactlyFromRetry(ks', cs, id, now, retry);
  }

  lemma ExactlyFromRetry(ks: seq<LimitKeys>, cs: seq<Charge>, id: string, now: int, r: int)
    requires SoundKeys(ks, cs, now) && Fresh(Logs(ks), cs, id)
    requires forall i :: 0 <= i < |cs| ==> cs[i].cost <= cs[i].limit
    requires r == Retry(ks, cs, id, now)
    ensures AdmittedExactlyFrom(ks, cs, id, now, now + r)
  {
    var ls := Logs(ks);
    RetryIsLedgers(ks, cs, id, now, now);
    forall t | now <= t ensures Admits(ks, cs, id, t) <==> now + r <= t {
      RetryIsLedgers(ks, cs, id, now, t);
      if now + r <= t {
        LedgerAdmitsFrom(ls, cs, id, now, r, t);
      } else {
        LedgerDeniesBefore(ls, cs, id, now, r, t);
      }
    }
  }

  /** Sweeping again at the same instant changes nothing. */
  lemma SweepTwice(ks: seq<LimitKeys>, cs: seq<Charge>, before: int, now: int, ks': seq<LimitKeys>)
    requires SoundKeys(ks, cs, before) && before <= now && ks' == SweepAll(ks, cs, now)
    ensures forall id :: Retry(ks', cs, id, now) == Retry(ks, cs, id, now)
  {
    forall i | 0 <= i < |cs| ensures Swept(ks'[i], now, cs[i].window) == ks'[i] {
      SweptSound(ks[i], before, now, cs[i].window);
      SweptStays(ks'[i], now, cs[i].window);
    }
    assert SweepAll(ks', cs, now) == ks';
  }

  lemma SweptStays(k: LimitKeys, now: int, window: nat)
    requires Sound(k, now, window) && AllAfter(k.log, now - window)
    ensures Swept(k, now, window) == k
  {
    NothingExpired(k.log, now - window);
    assert k.log[..0] == [];
    assert k.log != [] ==> !Due(k.logExpiry, now);
  }

  // -- a total that is off ---------------------------------------------------------------

  /** An error `d` of the cached total is what it was, or gone. */
  predicate NoNewDrift(k: LimitKeys, d: int) {
    Drift(k) == d || Drift(k) == 0
  }

  /** The total is missing, as stored or after key expiry, or nothing is left in the window. */
  predicate Rebuilt(k: LimitKeys, now: int, window: int) {
    var found := Visible(k, now);
    found.total.None? || Live(found.log, now - window) == []
  }

  /** Key expiry drops the log, the total or both. */
  lemma VisibleDrift(k: LimitKeys, now: int)
    ensures var v := Visible(k, now);
            (v.log == k.log || v.log == []) && (v.total == k.total || v.total.None?)
  {
  }

  lemma SweptDrift(k: LimitKeys, now: int, window: int)
    requires IsLog(k.log)
    ensures IsLog(Swept(k, now, window).log) && NoNewDrift(Swept(k, now, window), Drift(k))
    ensures Rebuilt(k, now, window) ==> Drift(Swept(k, now, window)) == 0
  {
    var v := Visible(k, now);
    VisibleDrift(k, now);
    EvictDrift(v, now, window);
    LiveIsLog(v.log, now - window);
  }

  /**
  Whatever total is stored, no script makes any limit's error larger: it stays what it
  is in the stored keys, or becomes zero - and zero when the total is missing or the
  window is empty.
  */
  lemma ScriptsKeepDrift(ks: seq<LimitKeys>, cs: seq<Charge>, changes: seq<Option<Change>>, windows: seq<nat>,
                         id: string, now: int, at: int, i: nat)
    requires |ks| == |cs| == |changes| == |windows| && i < |ks| && IsLog(ks[i].log)
    requires windows[i] == cs[i].window && (changes[i].Some? ==> changes[i].value.window == cs[i].window)
    ensures NoNewDrift(AcquireKeys(ks, cs, id, now)[i], Drift(ks[i]))
    ensures NoNewDrift(AdjustKeys(ks, changes, id, now, at)[i], Drift(ks[i]))
    ensures NoNewDrift(StatusKeys(ks, windows, now)[i], Drift(ks[i]))
    ensures Rebuilt(ks[i], now, cs[i].window) ==>
              && Drift(AcquireKeys(ks, cs, id, now)[i]) == Drift(StatusKeys(ks, windows, now)[i]) == 0
              && (changes[i].Some? ==> Drift(AdjustKeys(ks, changes, id, now, at)[i]) == 0)
  {
    var s := Swept(ks[i], now, cs[i].window);
    SweptDrift(ks[i], now, cs[i].window);
    RecordDrift(s, now, cs[i].window, Member(cs[i].cost, id));
    if changes[i].Some? {
      SettleDrift(s, now, cs[i].window, at, Member(changes[i].value.before, id), Member(changes[i].value.after, id));
    }
  }
}
