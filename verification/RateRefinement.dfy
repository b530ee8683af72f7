/**
The scripts - log, cached total, eviction, key expiry, chunked walk - answer
every call exactly like the ideal ledger, over whole runs.
*/
module RateRefinement {
  import opened Options
  import opened RateLog
  import opened RateKeys
  import opened RateScripts
  import opened RateRuns
  import opened RateLedgers

  /** The log is the ledger without a prefix of charges at or before the cutoff. */
  ghost predicate Suffix(log: Log, l: Ledger, cutoff: int) {
    && |log| <= |l|
    && (forall i :: 0 <= i < |log| ==> log[i] == l[|l| - |log| + i])
    && forall i :: 0 <= i < |l| - |log| ==> l[i].at <= cutoff
  }

  /** The keys are sound, and their log is the ledger without charges that are outside the window. */
  ghost predicate Refines(k: LimitKeys, l: Ledger, now: int, window: nat) {
    Sound(k, now, window) && Suffix(k.log, l, now - window)
  }

  lemma SuffixSplit(log: Log, l: Ledger, cutoff: int) returns (gone: Ledger)
    requires Suffix(log, l, cutoff)
    ensures l == gone + log
    ensures forall i :: 0 <= i < |gone| ==> gone[i].at <= cutoff
  {
    gone := l[..|l| - |log|];
  }

  lemma SuffixOfSplit(gone: Ledger, log: Log, cutoff: int)
    requires forall i :: 0 <= i < |gone| ==> gone[i].at <= cutoff
    ensures Suffix(log, gone + log, cutoff)
  {
  }

  /** Evicting more keeps a suffix. */
  lemma LiveSuffix(log: Log, l: Ledger, earlier: int, cutoff: int)
    requires Suffix(log, l, earlier) && earlier <= cutoff
    ensures Suffix(Live(log, cutoff), l, cutoff)
  {
    var n, gone, live := Expired(log, cutoff), |l| - |log|, Live(log, cutoff);
    forall i | 0 <= i < |live| ensures live[i] == l[|l| - |live| + i] {
      assert live[i] == log[n + i];
    }
    forall i | 0 <= i < |l| - |live| ensures l[i].at <= cutoff {
      if gone <= i {
        assert log[i - gone] == l[i];
      }
    }
  }

  lemma SuffixSum(log: Log, l: Ledger, cutoff: int, now: int)
    requires Suffix(log, l, cutoff) && AllAfter(log, cutoff) && NoneAfter(log, now)
    ensures Sum(log) == UnitsIn(l, cutoff, now)
  {
    var gone := SuffixSplit(log, l, cutoff);
    UnitsConcat(gone, log, cutoff, now);
    UnitsOutside(gone, cutoff, now);
    UnitsInside(log, cutoff, now);
  }

  lemma SuffixHas(log: Log, l: Ledger, cutoff: int, m: Member)
    requires Suffix(log, l, cutoff) && AllAfter(log, cutoff)
    ensures Has(log, m) <==> Charged(l, cutoff, m)
  {
    var gone := SuffixSplit(log, l, cutoff);
    if Has(log, m) {
      var i :| 0 <= i < |log| && log[i].member == m;
      assert l[|gone| + i] == log[i];
    }
    if Charged(l, cutoff, m) {
      var i :| 0 <= i < |l| && l[i].at > cutoff && l[i].member == m;
      assert i >= |gone| && log[i - |gone|] == l[i];
    }
  }

  /** A suffix evicted up to the cutoff weighs what the ledger consumed since, and knows the same members. */
  lemma SuffixMeaning(log: Log, l: Ledger, cutoff: int, now: int)
    requires Suffix(log, l, cutoff) && AllAfter(log, cutoff) && NoneAfter(log, now)
    ensures Sum(log) == UnitsIn(l, cutoff, now)
    ensures forall m :: Has(log, m) <==> Charged(l, cutoff, m)
  {
    SuffixSum(log, l, cutoff, now);
    forall m ensures Has(log, m) <==> Charged(l, cutoff, m) {
      SuffixHas(log, l, cutoff, m);
    }
  }

  /** Refining keys with nothing outside the window: the script's view of the ledger. */
  ghost predicate SweptTo(k: LimitKeys, l: Ledger, now: int, window: nat) {
    && Refines(k, l, now, window) && AllAfter(k.log, now - window)
    && Used(k) == Consumed(l, now, window)
    && forall m :: Has(k.log, m) <==> Charged(l, now - window, m)
  }

  lemma SuffixIsSwept(k: LimitKeys, l: Ledger, now: int, window: nat)
    requires Sound(k, now, window) && Suffix(k.log, l, now - window) && AllAfter(k.log, now - window)
    ensures SweptTo(k, l, now, window)
  {
    SuffixMeaning(k.log, l, now - window, now);
  }

  lemma LiveIsSwept(s: LimitKeys, log: Log, l: Ledger, before: int, now: int, window: nat)
    requires IsLog(log) && Suffix(log, l, before - window) && before <= now
    requires Sound(s, now, window) && s.log == Live(log, now - window)
    ensures SweptTo(s, l, now, window)
  {
    LiveIsLog(log, now - window);
    LiveSuffix(log, l, before - window, now - window);
    SuffixIsSwept(s, l, now, window);
  }

  /** Sweeping refines the unchanged ledger, and exposes its consumption and its members. */
  lemma SweptRefines(k: LimitKeys, l: Ledger, before: int, now: int, window: nat)
    requires Refines(k, l, before, window) && before <= now
    ensures SweptTo(Swept(k, now, window), l, now, window)
  {
    SweptSound(k, before, now, window);
    LiveIsSwept(Swept(k, now, window), k.log, l, before, now, window);
  }

  /** A later instant sees the same consumption in the log and in the ledger. */
  lemma SameConsumption(log: Log, l: Ledger, cutoff: int, window: nat, later: int)
    requires Suffix(log, l, cutoff) && cutoff <= later - window
    ensures Consumed(log, later, window) == Consumed(l, later, window)
  {
    var gone := SuffixSplit(log, l, cutoff);
    UnitsConcat(gone, log, later - window, later);
    UnitsOutside(gone, later - window, later);
  }

  /** The script's wait is the ledger's: one millisecond after the other would stop there as well. */
  lemma SameWait(k: LimitKeys, l: Ledger, now: int, c: Charge)
    requires Refines(k, l, now, c.window) && AllAfter(k.log, now - c.window) && c.window >= 1
    requires Used(k) + c.cost > c.limit
    ensures Wait(k, now, c) == FirstFit(l, now, c, 1) >= 1
  {
    WalkIsFirstFit(k, now, c);
    forall t | now <= t ensures Fits(k.log, t, c) == Fits(l, t, c) {
      SameConsumption(k.log, l, now - c.window, c.window, t);
    }
    SameFirstFit(k.log, l, now, c, 1);
  }

  lemma {:induction false} SameFirstFit(a: Ledger, b: Ledger, now: int, c: Charge, d: nat)
    requires forall t :: now <= t ==> Fits(a, t, c) == Fits(b, t, c)
    ensures FirstFit(a, now, c, d) == FirstFit(b, now, c, d)
    decreases c.window - d
  {
    if d < c.window && !Fits(a, now + d, c) {
      SameFirstFit(a, b, now, c, d + 1);
    }
  }

  // -- acquire ---------------------------------------------------------------------

  /** Every limit's keys refine its ledger. */
  ghost predicate AllRefine(ks: seq<LimitKeys>, ls: seq<Ledger>, cs: seq<Charge>, now: int) {
    |ks| == |ls| == |cs| && forall i :: 0 <= i < |ks| ==> Refines(ks[i], ls[i], now, cs[i].window)
  }

  ghost predicate AllSwept(ks: seq<LimitKeys>, ls: seq<Ledger>, cs: seq<Charge>, now: int) {
    |ks| == |ls| == |cs| && forall i :: 0 <= i < |ks| ==> SweptTo(ks[i], ls[i], now, cs[i].window)
  }

  lemma SweepAllRefines(ks: seq<LimitKeys>, ls: seq<Ledger>, cs: seq<Charge>, before: int, now: int)
    requires AllRefine(ks, ls, cs, before) && before <= now
    ensures AllSwept(SweepAll(ks, cs, now), ls, cs, now)
  {
    forall i | 0 <= i < |ks| ensures SweptTo(SweepAll(ks, cs, now)[i], ls[i], now, cs[i].window) {
      SweptRefines(ks[i], ls[i], before, now, cs[i].window);
    }
  }

  lemma SameAlready(sw: seq<LimitKeys>, ls: seq<Ledger>, cs: seq<Charge>, id: string, now: int, n: nat)
    requires AllSwept(sw, ls, cs, now) && n <= |cs|
    ensures Already(sw, cs, id, n) == ResentUpTo(ls, cs, id, now, n)
  {
    forall j | 0 <= j < n
      ensures Recorded(sw, cs, id, j) == (cs[j].cost > 0 && Charged(ls[j], now - cs[j].window, Member(cs[j].cost, id)))
    {
      assert SweptTo(sw[j], ls[j], now, cs[j].window);
    }
    if Already(sw, cs, id, n) {
      var j :| 0 <= j < n && Recorded(sw, cs, id, j);
      assert ResentUpTo(ls, cs, id, now, n);
    }
  }

  /** Limit `i` denies by the script exactly if it does by the ledger, and for the same time. */
  ghost predicate SameAnswer(sw: seq<LimitKeys>, ls: seq<Ledger>, cs: seq<Charge>, id: string, now: int, i: nat)
    requires |sw| == |ls| == |cs| && i < |cs|
  {
    && Violated(sw, cs, id, i) == Denies(ls, cs, id, now, i)
    && (Violated(sw, cs, id, i) ==> Wait(sw[i], now, cs[i]) == FirstFit(ls[i], now, cs[i], 1))
  }

  lemma SameDenial(sw: seq<LimitKeys>, ls: seq<Ledger>, cs: seq<Charge>, id: string, now: int, i: nat)
    requires AllSwept(sw, ls, cs, now) && ValidCharges(sw, cs) && i < |cs|
    ensures SameAnswer(sw, ls, cs, id, now, i)
  {
    SameAlready(sw, ls, cs, id, now, i + 1);
    assert SweptTo(sw[i], ls[i], now, cs[i].window);
    if Violated(sw, cs, id, i) {
      SameWait(sw[i], ls[i], now, cs[i]);
    }
  }

  lemma {:induction false} SameRetry(sw: seq<LimitKeys>, ls: seq<Ledger>, cs: seq<Charge>, id: string, now: int, n: nat)
    requires |sw| == |ls| == |cs| && n <= |cs|
    requires forall i :: 0 <= i < |cs| ==> SameAnswer(sw, ls, cs, id, now, i)
    ensures RetryAfter(sw, cs, id, now, n) == LedgerRetry(ls, cs, id, now, n)
  {
    if n > 0 {
      SameRetry(sw, ls, cs, id, now, n - 1);
      assert SameAnswer(sw, ls, cs, id, now, n - 1);
    }
  }

  lemma ExtendSuffix(log: Log, l: Ledger, cutoff: int, e: Entry)
    requires Suffix(log, l, cutoff) && NoneAfter(log, e.at) && AllAfter(log, cutoff) && e.at > cutoff
    ensures Suffix(Insert(log, e), l + [e], cutoff) && AllAfter(Insert(log, e), cutoff)
  {
    var gone := SuffixSplit(log, l, cutoff);
    InsertLast(log, e);
    assert l + [e] == gone + (log + [e]);
    SuffixOfSplit(gone, log + [e], cutoff);
  }

  lemma RecordNew(k: LimitKeys, l: Ledger, now: int, window: nat, m: Member, k': LimitKeys)
    requires SweptTo(k, l, now, window) && window >= 1 && !Has(k.log, m) && k' == Record(k, now, window, m)
    ensures SweptTo(k', l + [Entry(now, m)], now, window)
  {
    RecordSound(k, now, window, m);
    ExtendSuffix(k.log, l, now - window, Entry(now, m));
    SuffixIsSwept(k', l + [Entry(now, m)], now, window);
  }

  lemma RecordAgain(k: LimitKeys, l: Ledger, now: int, window: nat, m: Member, k': LimitKeys)
    requires SweptTo(k, l, now, window) && Has(k.log, m) && k' == Record(k, now, window, m)
    ensures SweptTo(k', l, now, window)
  {
    RecordSound(k, now, window, m);
    assert k'.log == k.log && k'.total == k.total;
  }

  lemma ChargeRefines(k: LimitKeys, l: Ledger, c: Charge, id: string, now: int)
    requires SweptTo(k, l, now, c.window) && c.window >= 1
    ensures SweptTo(Admit(k, c, id, now), LedgerCharge(l, c, id, now), now, c.window)
  {
    var m, k' := Member(c.cost, id), Admit(k, c, id, now);
    if c.cost > 0 {
      assert Has(k.log, m) <==> Charged(l, now - c.window, m);
      if Has(k.log, m) {
        RecordAgain(k, l, now, c.window, m, k');
      } else {
        RecordNew(k, l, now, c.window, m, k');
      }
    }
  }

  lemma ChargesRefine(sw: seq<LimitKeys>, ls: seq<Ledger>, cs: seq<Charge>, id: string, now: int)
    requires ValidCharges(sw, cs) && AllSwept(sw, ls, cs, now)
    ensures AllSwept(AdmitAll(sw, cs, id, now), LedgerChargeAll(ls, cs, id, now), cs, now)
  {
    forall i | 0 <= i < |cs|
      ensures SweptTo(AdmitAll(sw, cs, id, now)[i], LedgerChargeAll(ls, cs, id, now)[i], now, cs[i].window)
    {
      ChargeRefines(sw[i], ls[i], cs[i], id, now);
    }
  }

  lemma SweptTotals(ks: seq<LimitKeys>, ls: seq<Ledger>, cs: seq<Charge>, now: int, used: seq<int>)
    requires AllSwept(ks, ls, cs, now) && |used| == |ls|
    requires forall i :: 0 <= i < |ls| ==> used[i] == Consumed(ls[i], now, cs[i].window)
    ensures Totals(ks) == used
  {
    forall i | 0 <= i < |ks| ensures Used(ks[i]) == used[i] {
      assert SweptTo(ks[i], ls[i], now, cs[i].window);
    }
  }

  /** RATE_ACQUIRE answers and evolves like the ideal ledger. */
  lemma AcquireRefines(ks: seq<LimitKeys>, ls: seq<Ledger>, cs: seq<Charge>, id: string, before: int, now: int)
    requires AllRefine(ks, ls, cs, before) && before <= now && ValidCharges(ks, cs)
    ensures AllSwept(AcquireKeys(ks, cs, id, now), LedgerAcquire(ls, cs, id, now), cs, now)
    ensures Acquire(ks, cs, id, now) == LedgerReply(ls, cs, id, now)
  {
    var sw := SweepAll(ks, cs, now);
    SweepAllRefines(ks, ls, cs, before, now);
    forall i | 0 <= i < |cs| ensures SameAnswer(sw, ls, cs, id, now, i) {
      SameDenial(sw, ls, cs, id, now, i);
    }
    SameRetry(sw, ls, cs, id, now, |cs|);
    ChargesRefine(sw, ls, cs, id, now);
    SweptTotals(AcquireKeys(ks, cs, id, now), LedgerAcquire(ls, cs, id, now), cs, now,
                LedgerReply(ls, cs, id, now).used);
  }

  lemma RetryRefines(ks: seq<LimitKeys>, ls: seq<Ledger>, cs: seq<Charge>, id: string, before: int, now: int)
    requires AllRefine(ks, ls, cs, before) && before <= now && ValidCharges(ks, cs)
    ensures Retry(ks, cs, id, now) == LedgerRetry(ls, cs, id, now, |cs|)
  {
    AcquireRefines(ks, ls, cs, id, before, now);
    assert Acquire(ks, cs, id, now).retryAfter == LedgerReply(ls, cs, id, now).retryAfter;
  }

  // -- adjust ----------------------------------------------------------------------

  lemma {:induction false} ForgetAfterPrefix(a: Ledger, b: Ledger, cutoff: int, m: Member)
    requires forall i :: 0 <= i < |a| ==> a[i].at <= cutoff
    ensures Forget(a + b, cutoff, m) == a + Forget(b, cutoff, m)
  {
    if a == [] {
      assert a + b == b;
    } else {
      assert (a + b)[1..] == a[1..] + b;
      ForgetAfterPrefix(a[1..], b, cutoff, m);
    }
  }

  lemma {:induction false} ForgetIsDrop(l: Ledger, cutoff: int, m: Member)
    requires AllAfter(l, cutoff)
    ensures Forget(l, cutoff, m) == Drop(l, m) && AllAfter(Drop(l, m), cutoff)
  {
    if l != [] {
      assert forall i :: 0 <= i < |l[1..]| ==> l[1..][i] == l[i + 1];
      ForgetIsDrop(l[1..], cutoff, m);
    }
  }

  /** What an adjustment does to a log that holds nothing from outside the window. */
  function SettledLog(log: Log, cutoff: int, at: int, before: Member, after: Member): Log {
    var u := if before.cost > 0 then Drop(log, before) else log;
    if after.cost > 0 && at > cutoff then Insert(Drop(u, after), Entry(at, after)) else u
  }

  lemma SettleLog(k: LimitKeys, now: int, window: nat, at: int, before: Member, after: Member)
    ensures Settle(k, now, window, at, before, after).log == SettledLog(k.log, now - window, at, before, after)
  {
    DropAbsentUnlessHas(k.log, before);
    var u := if before.cost > 0 then Drop(k.log, before) else k.log;
    DropAbsentUnlessHas(u, after);
  }

  lemma SettledSuffix(log: Log, l: Ledger, cutoff: int, at: int, before: Member, after: Member)
    requires Suffix(log, l, cutoff) && AllAfter(log, cutoff)
    ensures Suffix(SettledLog(log, cutoff, at, before, after), Amend(l, cutoff, at, before, after), cutoff)
  {
    var gone := SuffixSplit(log, l, cutoff);
    ForgetAfterPrefix(gone, log, cutoff, before);
    ForgetIsDrop(log, cutoff, before);
    var u := if before.cost > 0 then Drop(log, before) else log;
    ForgetAfterPrefix(gone, u, cutoff, after);
    ForgetIsDrop(u, cutoff, after);
    if after.cost > 0 && at > cutoff {
      InsertAfterPrefix(gone, Drop(u, after), Entry(at, after));
    }
    SuffixOfSplit(gone, SettledLog(log, cutoff, at, before, after), cutoff);
  }

  lemma SettledKeepsWindow(log: Log, cutoff: int, at: int, before: Member, after: Member)
    requires AllAfter(log, cutoff)
    ensures AllAfter(SettledLog(log, cutoff, at, before, after), cutoff)
  {
    ForgetIsDrop(log, cutoff, before);
    var u := if before.cost > 0 then Drop(log, before) else log;
    ForgetIsDrop(u, cutoff, after);
    var e := Entry(at, after);
    InsertMembers(Drop(u, after), e);
    var r := Insert(Drop(u, after), e);
    forall i | 0 <= i < |r| && e.at > cutoff ensures r[i].at > cutoff {
      assert r[i] in r;
    }
  }

  lemma SettledWindow(log: Log, l: Ledger, cutoff: int, at: int, before: Member, after: Member, log': Log, l': Ledger)
    requires Suffix(log, l, cutoff) && AllAfter(log, cutoff)
    requires log' == SettledLog(log, cutoff, at, before, after) && l' == Amend(l, cutoff, at, before, after)
    ensures Suffix(log', l', cutoff) && AllAfter(log', cutoff)
  {
    SettledSuffix(log, l, cutoff, at, before, after);
    SettledKeepsWindow(log, cutoff, at, before, after);
  }

  lemma SettleRefines(k: LimitKeys, l: Ledger, now: int, window: nat, at: int, before: Member, after: Member,
                      k': LimitKeys, l': Ledger)
    requires SweptTo(k, l, now, window) && at <= now
    requires k' == Settle(k, now, window, at, before, after) && l' == Amend(l, now - window, at, before, after)
    ensures SweptTo(k', l', now, window)
  {
    assert Sound(k', now, window) by {
      SettleSound(k, now, window, at, before, after);
    }
    assert Suffix(k'.log, l', now - window) && AllAfter(k'.log, now - window) by {
      SettleLog(k, now, window, at, before, after);
      SettledWindow(k.log, l, now - window, at, before, after, k'.log, l');
    }
    SuffixIsSwept(k', l', now, window);
  }

  lemma AdjustOneIsSettle(k: LimitKeys, l: Ledger, c: Change, id: string, now: int, at: int)
    ensures AdjustOne(k, Some(c), id, now, at)
         == Settle(Swept(k, now, c.window), now, c.window, at, Member(c.before, id), Member(c.after, id))
    ensures LedgerAmend(l, Some(c), id, now, at)
        == Amend(l, now - c.window, at, Member(c.before, id), Member(c.after, id))
  {
  }

  /** RATE_ADJUST of one limit evolves like amending the ledger, and reports its consumption. */
  lemma AdjustOneRefines(k: LimitKeys, l: Ledger, c: Change, id: string, before: int, now: int, at: int)
    requires Refines(k, l, before, c.window) && before <= now && at <= now
    ensures SweptTo(AdjustOne(k, Some(c), id, now, at), LedgerAmend(l, Some(c), id, now, at), now, c.window)
  {
    SweptRefines(k, l, before, now, c.window);
    AdjustOneIsSettle(k, l, c, id, now, at);
    SettleRefines(Swept(k, now, c.window), l, now, c.window, at, Member(c.before, id), Member(c.after, id),
                  AdjustOne(k, Some(c), id, now, at), LedgerAmend(l, Some(c), id, now, at));
  }

  // -- whole runs ------------------------------------------------------------------

  function LedgerStep(limits: seq<Limit>, ls: seq<Ledger>, t: Timed): (r: (seq<Ledger>, Reply))
    requires |ls| == |limits| && WellFormed(limits, t.call)
    ensures |r.0| == |ls|
  {
    match t.call
    case AcquireCall(id, costs) =>
      var cs := Charges(limits, costs);
      (LedgerAcquire(ls, cs, id, t.now), Admission(LedgerReply(ls, cs, id, t.now)))
    case AdjustCall(id, at, costs) =>
      var ls' := LedgerAdjust(ls, Changes(limits, costs), id, t.now, at);
      (ls', Adjusted(seq(|ls'|, i requires 0 <= i < |ls'| =>
        if costs[i].None? then None else Some(Consumed(ls'[i], t.now, limits[i].window)))))
    case StatusCall =>
      (ls, Consumption(seq(|ls|, i requires 0 <= i < |ls| => Consumed(ls[i], t.now, limits[i].window))))
  }

  ghost function RunLedger(limits: seq<Limit>, ls: seq<Ledger>, start: int, run: seq<Timed>)
    : (r: (seq<Ledger>, seq<Reply>))
    requires |ls| == |limits| && Clocked(limits, start, run)
    ensures |r.0| == |ls|
    decreases |run|
  {
    if run == [] then (ls, [])
    else
      var (ls', reply) := LedgerStep(limits, ls, run[0]);
      var (end, replies) := RunLedger(limits, ls', run[0].now, run[1..]);
      (end, [reply] + replies)
  }

  ghost predicate Related(limits: seq<Limit>, ks: seq<LimitKeys>, ls: seq<Ledger>, now: int) {
    |ks| == |ls| == |limits| && forall i :: 0 <= i < |limits| ==> Refines(ks[i], ls[i], now, limits[i].window)
  }

  lemma AdjustRefines(limits: seq<Limit>, ks: seq<LimitKeys>, ls: seq<Ledger>, before: int, t: Timed)
    requires ValidLimits(limits) && Related(limits, ks, ls, before) && before <= t.now
    requires t.call.AdjustCall? && WellFormed(limits, t.call) && t.call.at <= t.now
    ensures Related(limits, StoreStep(limits, ks, t).0, LedgerStep(limits, ls, t).0, t.now)
    ensures StoreStep(limits, ks, t).1 == LedgerStep(limits, ls, t).1
  {
    var (ks', r) := StoreStep(limits, ks, t);
    var (ls', r') := LedgerStep(limits, ls, t);
    var changes := Changes(limits, t.call.changes);
    forall i | 0 <= i < |limits|
      ensures Refines(ks'[i], ls'[i], t.now, limits[i].window) && r.used[i] == r'.used[i]
    {
      if changes[i].Some? {
        AdjustOneRefines(ks[i], ls[i], changes[i].value, t.call.id, before, t.now, t.call.at);
      } else {
        RefinesLater(ks[i], ls[i], before, t.now, limits[i].window);
      }
    }
    assert r.used == r'.used;
  }

  lemma RefinesLater(k: LimitKeys, l: Ledger, before: int, now: int, window: nat)
    requires Refines(k, l, before, window) && before <= now
    ensures Refines(k, l, now, window)
  {
  }

  lemma StepRefines(limits: seq<Limit>, ks: seq<LimitKeys>, ls: seq<Ledger>, before: int, t: Timed)
    requires ValidLimits(limits) && Related(limits, ks, ls, before) && before <= t.now
    requires WellFormed(limits, t.call) && (t.call.AdjustCall? ==> t.call.at <= t.now)
    ensures Related(limits, StoreStep(limits, ks, t).0, LedgerStep(limits, ls, t).0, t.now)
    ensures StoreStep(limits, ks, t).1 == LedgerStep(limits, ls, t).1
  {
    match t.call
    case AcquireCall(id, costs) =>
      AcquireRefines(ks, ls, Charges(limits, costs), id, before, t.now);
    case AdjustCall(_, _, _) =>
      AdjustRefines(limits, ks, ls, before, t);
    case StatusCall =>
      forall i | 0 <= i < |limits| {
        SweptRefines(ks[i], ls[i], before, t.now, limits[i].window);
      }
      assert StoreStep(limits, ks, t).1.consumed == LedgerStep(limits, ls, t).1.consumed;
  }

  /**
  Over every run the scripts give the replies of the ideal ledger, and leave
  keys that refine it: total and log agree and expire together.
  */
  lemma {:induction false} RunRefines(limits: seq<Limit>, ks: seq<LimitKeys>, ls: seq<Ledger>, start: int,
                                      run: seq<Timed>)
    requires ValidLimits(limits) && Related(limits, ks, ls, start) && Clocked(limits, start, run)
    ensures RunStore(limits, ks, start, run).1 == RunLedger(limits, ls, start, run).1
    ensures Related(limits, RunStore(limits, ks, start, run).0, RunLedger(limits, ls, start, run).0,
                    LastTime(start, run))
    decreases |run|
  {
    if run != [] {
      var ks', ls' := StoreStep(limits, ks, run[0]).0, LedgerStep(limits, ls, run[0]).0;
      assert Related(limits, ks', ls', run[0].now)
        && StoreStep(limits, ks, run[0]).1 == LedgerStep(limits, ls, run[0]).1 by {
        StepRefines(limits, ks, ls, start, run[0]);
      }
      RunRefines(limits, ks', ls', run[0].now, run[1..]);
    }
  }
}
