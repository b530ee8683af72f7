/**
What each call of a limiter does, told by its configuration and the ideal ledgers alone:
when a request is admitted, what it is charged, what an adjustment and a status call report.
*/
module RateCalls {
  import opened Options
  import opened RateLog
  import opened RateKeys
  import opened RateScripts
  import opened RateRuns
  import opened RateLedgers
  import opened RateRefinement
  import opened RateLaws

  // -- acquire -------------------------------------------------------------------------

  /** A charge counts from when it is made, for exactly one window. */
  lemma CountsOneWindow(l: Ledger, e: Entry, t: int, window: nat)
    ensures Consumed(l + [e], t, window)
         == Consumed(l, t, window) + (if e.at <= t < e.at + window then e.member.cost else 0)
  {
    UnitsConcat(l, [e], t - window, t);
    assert [e][1..] == [];
  }

  /** The request is recorded in window `i`, with what it is charged there. */
  predicate Known(limits: seq<Limit>, ls: seq<Ledger>, id: string, costs: seq<nat>, now: int, i: nat)
    requires |ls| == |costs| == |limits| && i < |limits|
  {
    costs[i] > 0 && Charged(ls[i], now - limits[i].window, Member(costs[i], id))
  }

  predicate Room(l: Limit, ledger: Ledger, cost: nat, now: int) {
    Consumed(ledger, now, l.window) + cost <= l.limit
  }

  /** Limit `i` lets the request pass: it costs nothing, there is room, or a limit up to it knows the request. */
  predicate Passes(limits: seq<Limit>, ls: seq<Ledger>, id: string, costs: seq<nat>, now: int, i: nat)
    requires |ls| == |costs| == |limits| && i < |limits|
  {
    || costs[i] == 0 || Room(limits[i], ls[i], costs[i], now)
    || exists j :: 0 <= j <= i && Known(limits, ls, id, costs, now, j)
  }

  lemma DeniesUnlessPasses(limits: seq<Limit>, ls: seq<Ledger>, id: string, costs: seq<nat>, now: int, i: nat)
    requires |ls| == |costs| == |limits| && i < |limits|
    ensures Denies(ls, Charges(limits, costs), id, now, i) <==> !Passes(limits, ls, id, costs, now, i)
  {
    var cs := Charges(limits, costs);
    assert forall j :: 0 <= j <= i ==>
        (Known(limits, ls, id, costs, now, j)
         <==> cs[j].cost > 0 && Charged(ls[j], now - cs[j].window, Member(cs[j].cost, id)));
  }

  /** What the ledger of limit `i` holds after the call. */
  function AfterCall(limits: seq<Limit>, ls: seq<Ledger>, id: string, costs: seq<nat>, now: int, success: bool, i: nat)
    : Ledger
    requires |ls| == |costs| == |limits| && i < |limits|
  {
    if success && costs[i] > 0 && !Known(limits, ls, id, costs, now, i)
    then ls[i] + [Entry(now, Member(costs[i], id))]
    else ls[i]
  }

  /** The ideal limiter decides so, and this is what it leaves and reports. */
  lemma LedgerTells(limits: seq<Limit>, ls: seq<Ledger>, id: string, costs: seq<nat>, now: int,
                    ls': seq<Ledger>, r: AcquireReply)
    requires |ls| == |costs| == |limits|
    requires ls' == LedgerAcquire(ls, Charges(limits, costs), id, now)
    requires r == LedgerReply(ls, Charges(limits, costs), id, now)
    ensures r.success <==> forall i :: 0 <= i < |limits| ==> Passes(limits, ls, id, costs, now, i)
    ensures r.now == now && |r.used| == |limits|
    ensures forall i :: 0 <= i < |limits| ==>
              && ls'[i] == AfterCall(limits, ls, id, costs, now, r.success, i)
              && r.used[i] == Consumed(ls'[i], now, limits[i].window)
  {
    var cs := Charges(limits, costs);
    RetryMeansDenied(ls, cs, id, now, |cs|);
    forall i | 0 <= i < |limits|
      ensures Denies(ls, cs, id, now, i) <==> !Passes(limits, ls, id, costs, now, i)
    {
      DeniesUnlessPasses(limits, ls, id, costs, now, i);
    }
  }

  /**
  The exact admission condition of a call, for keys that stand for any ledgers: every limit
  lets the request pass. Then each limit that charges it and does not know it yet is charged
  its cost, now; a denied call charges nothing. The reply reports what the windows hold.
  */
  lemma AdmittedExactly(limits: seq<Limit>, ks: seq<LimitKeys>, ls: seq<Ledger>, before: int, now: int,
                        id: string, costs: seq<nat>)
    requires ValidLimits(limits) && Related(limits, ks, ls, before) && before <= now && |costs| == |limits|
    ensures var (ks', r) := StoreStep(limits, ks, Timed(now, AcquireCall(id, costs)));
            && r.Admission? && r.reply.now == now
            && (r.reply.success <==> forall i :: 0 <= i < |limits| ==> Passes(limits, ls, id, costs, now, i))
            && |r.reply.used| == |limits|
            && forall i :: 0 <= i < |limits| ==>
                 var l := AfterCall(limits, ls, id, costs, now, r.reply.success, i);
                 Refines(ks'[i], l, now, limits[i].window) && r.reply.used[i] == Consumed(l, now, limits[i].window)
  {
    var cs := Charges(limits, costs);
    AcquireRefines(ks, ls, cs, id, before, now);
    var ls' := LedgerAcquire(ls, cs, id, now);
    LedgerTells(limits, ls, id, costs, now, ls', LedgerReply(ls, cs, id, now));
    assert AllSwept(AcquireKeys(ks, cs, id, now), ls', cs, now);
  }

  /** A request recorded nowhere is admitted exactly if every limit it is charged to has room for it. */
  lemma FreshAdmittedExactly(limits: seq<Limit>, ks: seq<LimitKeys>, ls: seq<Ledger>, before: int, now: int,
                             id: string, costs: seq<nat>)
    requires ValidLimits(limits) && Related(limits, ks, ls, before) && before <= now && |costs| == |limits|
    requires forall i :: 0 <= i < |limits| && costs[i] > 0 ==> !Has(ls[i], Member(costs[i], id))
    ensures StoreStep(limits, ks, Timed(now, AcquireCall(id, costs))).1.reply.success
        <==> forall i :: 0 <= i < |limits| && costs[i] > 0 ==>
               Consumed(ls[i], now, limits[i].window) + costs[i] <= limits[i].limit
  {
    AdmittedExactly(limits, ks, ls, before, now, id, costs);
    forall i | 0 <= i < |limits| ensures !Known(limits, ls, id, costs, now, i) {
    }
    forall i | 0 <= i < |limits|
      ensures Passes(limits, ls, id, costs, now, i) <==> costs[i] == 0 || Room(limits[i], ls[i], costs[i], now)
    {
    }
  }

  /**
  The retry time a denied call replies: with nothing in between, the same call is admitted
  from that much later on and denied at every instant before.
  */
  lemma RetriedExactly(limits: seq<Limit>, ks: seq<LimitKeys>, before: int, now: int, id: string, costs: seq<nat>,
                       ks': seq<LimitKeys>, r: AcquireReply, t: int)
    requires ValidLimits(limits) && |ks| == |costs| == |limits| && before <= now <= t
    requires forall i :: 0 <= i < |limits| ==> Sound(ks[i], before, limits[i].window) && costs[i] <= limits[i].limit
    requires forall i :: 0 <= i < |limits| && costs[i] > 0 ==> !Has(ks[i].log, Member(costs[i], id))
    requires (ks', Admission(r)) == StoreStep(limits, ks, Timed(now, AcquireCall(id, costs)))
    requires !r.success
    ensures r.retryAfter > 0
    ensures StoreStep(limits, ks', Timed(t, AcquireCall(id, costs))).1.reply.success <==> t >= now + r.retryAfter
  {
    var cs := Charges(limits, costs);
    assert Fresh(Logs(ks), cs, id);
    RetryExact(ks, cs, id, before, now, ks', r.retryAfter);
    assert Admits(ks', cs, id, t) <==> now + r.retryAfter <= t;
  }

  // -- the others ----------------------------------------------------------------------------

  /** What an adjustment makes of one limit's ledger. */
  function Settled(l: Limit, ledger: Ledger, id: string, at: int, change: Option<Resettle>, now: int): Ledger {
    if change.None? then ledger
    else Amend(ledger, now - l.window, at, Member(change.value.before, id), Member(change.value.after, id))
  }

  /** An adjustment moves each limit it names from the old cost to the new one, and reports its window. */
  lemma AdjustedExactly(limits: seq<Limit>, ks: seq<LimitKeys>, ls: seq<Ledger>, before: int, now: int,
                        id: string, at: int, changes: seq<Option<Resettle>>)
    requires ValidLimits(limits) && Related(limits, ks, ls, before) && before <= now && at <= now
    requires |changes| == |limits|
    ensures var (ks', r) := StoreStep(limits, ks, Timed(now, AdjustCall(id, at, changes)));
            && r.Adjusted? && |r.used| == |limits|
            && forall i :: 0 <= i < |limits| ==>
                 var l := Settled(limits[i], ls[i], id, at, changes[i], now);
                 && Refines(ks'[i], l, now, limits[i].window)
                 && r.used[i] == if changes[i].None? then None else Some(Consumed(l, now, limits[i].window))
  {
    AdjustRefines(limits, ks, ls, before, Timed(now, AdjustCall(id, at, changes)));
  }

  /** A status call reports what every window holds, and charges nothing. */
  lemma ReportedExactly(limits: seq<Limit>, ks: seq<LimitKeys>, ls: seq<Ledger>, before: int, now: int)
    requires ValidLimits(limits) && Related(limits, ks, ls, before) && before <= now
    ensures var (ks', r) := StoreStep(limits, ks, Timed(now, StatusCall));
            && r.Consumption? && |r.consumed| == |limits|
            && forall i :: 0 <= i < |limits| ==>
                 Refines(ks'[i], ls[i], now, limits[i].window)
                 && r.consumed[i] == Consumed(ls[i], now, limits[i].window)
  {
    StepRefines(limits, ks, ls, before, Timed(now, StatusCall));
  }

  // -- key expiry ----------------------------------------------------------------------------

  /** Log and total expire together: two windows from now, or when they did before. */
  predicate Expires(k: LimitKeys, k': LimitKeys, now: int, window: nat, renewed: bool) {
    k'.log != [] ==>
      k'.logExpiry == k'.totalExpiry == if renewed then Some(now + 2 * window) else k.logExpiry
  }

  lemma SweepExpires(k: LimitKeys, before: int, now: int, window: nat)
    requires Sound(k, before, window) && before <= now
    ensures Expires(k, Swept(k, now, window), now, window, false)
  {
    VisibleSound(k, before, now, window);
    EvictIs(Visible(k, now), now, window);
  }

  lemma ChargeExpires(k: LimitKeys, c: Charge, id: string, now: int)
    requires Sound(k, now, c.window)
    ensures Expires(k, Admit(k, c, id, now), now, c.window, c.cost > 0)
    ensures c.cost > 0 ==> Admit(k, c, id, now).log != []
  {
  }

  lemma SettleExpires(k: LimitKeys, now: int, window: nat, at: int, before: Member, after: Member)
    requires Sound(k, now, window)
    ensures Expires(k, Settle(k, now, window, at, before, after), now, window, Puts(now, window, at, after))
    ensures Puts(now, window, at, after) ==> Settle(k, now, window, at, before, after).log != []
  {
    UnrecordSound(k, now, window, before);
    ReenterDrift(Unrecord(k, before), now, window, Entry(at, after));
  }

  /** A call renews the keys of limit `i` if it charges it, again or for the first time, or puts a cost back. */
  predicate Renews(l: Limit, t: Timed, success: bool, i: nat) {
    match t.call
    case AcquireCall(_, costs) => success && i < |costs| && costs[i] > 0
    case AdjustCall(_, at, changes) =>
      i < |changes| && changes[i].Some? && changes[i].value.after > 0 && at > t.now - l.window
    case StatusCall => false
  }

  /** Every other call leaves the time they expire at. */
  lemma RenewedExactly(limits: seq<Limit>, ks: seq<LimitKeys>, before: int, t: Timed, i: nat,
                       k': LimitKeys, r: Reply)
    requires |ks| == |limits| && WellFormed(limits, t.call) && i < |limits|
    requires Sound(ks[i], before, limits[i].window) && before <= t.now
    requires k' == StoreStep(limits, ks, t).0[i] && r == StoreStep(limits, ks, t).1
    ensures var renewed := Renews(limits[i], t, r.Admission? && r.reply.success, i);
            Expires(ks[i], k', t.now, limits[i].window, renewed) && (renewed ==> k'.log != [])
  {
    var l := limits[i];
    var s := Swept(ks[i], t.now, l.window);
    SweptSound(ks[i], before, t.now, l.window);
    SweepExpires(ks[i], before, t.now, l.window);
    match t.call
    case AcquireCall(id, costs) =>
      ChargeExpires(s, Charge(l.limit, l.window, costs[i]), id, t.now);
    case AdjustCall(id, at, changes) =>
      if changes[i].Some? {
        SettleExpires(s, t.now, l.window, at, Member(changes[i].value.before, id), Member(changes[i].value.after, id));
      }
    case StatusCall =>
  }
}
