/**
The ideal rate limiter: per limit a ledger of all charges ever made, oldest
first. Nothing is evicted or cached and no key expires; consumption is summed
up over the window on every call, and the retry time is found by trying one
millisecond after the other. `RateRefinement` shows that the scripts answer
exactly like this.
*/
module RateLedgers {
  import opened Options
  import opened RateLog
  import opened RateKeys
  import opened RateScripts

  type Ledger = Log

  function Consumed(l: Ledger, now: int, window: nat): nat {
    UnitsIn(l, now - window, now)
  }

  /** The member was charged and is still in the window. */
  predicate Charged(l: Ledger, cutoff: int, m: Member) {
    exists i :: 0 <= i < |l| && l[i].at > cutoff && l[i].member == m
  }

  predicate Fits(l: Ledger, now: int, c: Charge) {
    Consumed(l, now, c.window) + c.cost <= c.limit
  }

  /** The first of the waits d, d + 1, ... after which the request fits; one window at most. */
  function FirstFit(l: Ledger, now: int, c: Charge, d: nat): (r: nat)
    ensures d <= r && (d <= c.window ==> r <= c.window)
    ensures r < c.window ==> Fits(l, now + r, c)
    ensures forall t :: now + d <= t < now + r ==> !Fits(l, t, c)
    decreases c.window - d
  {
    if d >= c.window || Fits(l, now + d, c) then d else FirstFit(l, now, c, d + 1)
  }

  /** Takes the charge of a member back, if it is still in the window. */
  function Forget(l: Ledger, cutoff: int, m: Member): Ledger {
    if l == [] then []
    else if l[0].at > cutoff && l[0].member == m then Forget(l[1..], cutoff, m)
    else [l[0]] + Forget(l[1..], cutoff, m)
  }

  /** Replaces a charge that is still in the window; nothing is re-added once the request left it. */
  function Amend(l: Ledger, cutoff: int, at: int, before: Member, after: Member): Ledger {
    var l := if before.cost > 0 then Forget(l, cutoff, before) else l;
    if after.cost > 0 && at > cutoff then Insert(Forget(l, cutoff, after), Entry(at, after)) else l
  }

  predicate ResentUpTo(ls: seq<Ledger>, cs: seq<Charge>, id: string, now: int, n: nat)
    requires |ls| == |cs| && n <= |cs|
  {
    exists j :: 0 <= j < n && cs[j].cost > 0 && Charged(ls[j], now - cs[j].window, Member(cs[j].cost, id))
  }

  predicate Denies(ls: seq<Ledger>, cs: seq<Charge>, id: string, now: int, i: nat)
    requires |ls| == |cs| && i < |cs|
  {
    cs[i].cost > 0 && !Fits(ls[i], now, cs[i]) && !ResentUpTo(ls, cs, id, now, i + 1)
  }

  function LedgerRetry(ls: seq<Ledger>, cs: seq<Charge>, id: string, now: int, n: nat): (r: nat)
    requires |ls| == |cs| && n <= |cs|
  {
    if n == 0 then 0
    else
      var r := LedgerRetry(ls, cs, id, now, n - 1);
      if Denies(ls, cs, id, now, n - 1) && FirstFit(ls[n - 1], now, cs[n - 1], 1) > r
      then FirstFit(ls[n - 1], now, cs[n - 1], 1)
      else r
  }

  function LedgerCharge(l: Ledger, c: Charge, id: string, now: int): Ledger {
    var m := Member(c.cost, id);
    if c.cost > 0 && !Charged(l, now - c.window, m) then l + [Entry(now, m)] else l
  }

  function LedgerChargeAll(ls: seq<Ledger>, cs: seq<Charge>, id: string, now: int): (r: seq<Ledger>)
    requires |ls| == |cs|
    ensures |r| == |ls|
  {
    seq(|ls|, i requires 0 <= i < |ls| => LedgerCharge(ls[i], cs[i], id, now))
  }

  function LedgerAcquire(ls: seq<Ledger>, cs: seq<Charge>, id: string, now: int): (r: seq<Ledger>)
    requires |ls| == |cs|
    ensures |r| == |ls|
  {
    if LedgerRetry(ls, cs, id, now, |cs|) > 0 then ls else LedgerChargeAll(ls, cs, id, now)
  }

  function LedgerReply(ls: seq<Ledger>, cs: seq<Charge>, id: string, now: int): AcquireReply
    requires |ls| == |cs|
  {
    var retry := LedgerRetry(ls, cs, id, now, |cs|);
    var ls' := LedgerAcquire(ls, cs, id, now);
    AcquireReply(retry == 0, retry, now, seq(|ls'|, i requires 0 <= i < |ls'| => Consumed(ls'[i], now, cs[i].window)))
  }

  function LedgerAmend(l: Ledger, change: Option<Change>, id: string, now: int, at: int): Ledger {
    if change.None? then l
    else
      var c := change.value;
      Amend(l, now - c.window, at, Member(c.before, id), Member(c.after, id))
  }

  function LedgerAdjust(ls: seq<Ledger>, changes: seq<Option<Change>>, id: string, now: int, at: int): (r: seq<Ledger>)
    requires |ls| == |changes|
    ensures |r| == |ls|
  {
    seq(|ls|, i requires 0 <= i < |ls| => LedgerAmend(ls[i], changes[i], id, now, at))
  }

  // -- the oldest-first walk finds the first fitting millisecond -----------------

  lemma {:induction false} UnitsCeiling(l: Ledger, lo: int, now: int, hi: int)
    requires NoneAfter(l, now) && now <= hi
    ensures UnitsIn(l, lo, hi) == UnitsIn(l, lo, now)
  {
    if l != [] {
      assert forall i :: 0 <= i < |l[1..]| ==> l[1..][i] == l[i + 1];
      UnitsCeiling(l[1..], lo, now, hi);
    }
  }

  lemma {:induction false} UnitsAtMostSum(l: Ledger, lo: int, hi: int)
    ensures UnitsIn(l, lo, hi) <= Sum(l)
  {
    if l != [] {
      UnitsAtMostSum(l[1..], lo, hi);
    }
  }

  /** The walk stops at the first score by which `need` units will have left, and not before. */
  lemma {:induction false} WalkStops(log: Log, need: int, now: int, window: int)
    requires Sorted(log) && NoneAfter(log, now)
    requires 1 <= need <= Sum(log)
    ensures var t := Walk(log, need, now, window) - window + now;
            && (exists i :: 0 <= i < |log| && log[i].at == t)
            && Sum(log) - UnitsIn(log, t, now) >= need
            && forall lo :: lo < t ==> Sum(log) - UnitsIn(log, lo, now) < need
  {
    var t := Walk(log, need, now, window) - window + now;
    var rest := log[1..];
    assert forall i :: 0 <= i < |rest| ==> rest[i] == log[i + 1];
    if log[0].member.cost >= need {
      UnitsAtMostSum(rest, t, now);
    } else {
      WalkStops(rest, need - log[0].member.cost, now, window);
      var i :| 0 <= i < |rest| && rest[i].at == t;
      assert log[i + 1].at == t && log[0].at <= t;
    }
    forall lo | lo < t ensures Sum(log) - UnitsIn(log, lo, now) < need {
      if log[0].at > lo {
        assert forall i :: 0 <= i < |log| ==> log[0].at <= log[i].at;
        UnitsInside(log, lo, now);
      }
    }
  }

  lemma {:induction false} WalkShort(log: Log, need: int, now: int, window: int)
    requires need > Sum(log)
    ensures Walk(log, need, now, window) == window
  {
    if log != [] {
      WalkShort(log[1..], need - log[0].member.cost, now, window);
    }
  }

  /**
  The wait the script computes for a violated limit is the first millisecond at
  which the request would fit - one window if it is larger than its limit. For any
  other request it is the moment at which an entry leaves, never the default.
  */
  lemma WalkIsFirstFit(k: LimitKeys, now: int, c: Charge)
    requires Sound(k, now, c.window) && AllAfter(k.log, now - c.window) && c.window >= 1
    requires Used(k) + c.cost > c.limit
    ensures Wait(k, now, c) == FirstFit(k.log, now, c, 1)
    ensures 1 <= Wait(k, now, c) <= c.window
    ensures c.cost <= c.limit ==>
              && Fits(k.log, now + Wait(k, now, c), c)
              && exists i :: 0 <= i < |k.log| && k.log[i].at == now + Wait(k, now, c) - c.window
  {
    var need := Used(k) + c.cost - c.limit;
    var d := Wait(k, now, c);
    forall t | now <= t ensures Consumed(k.log, t, c.window) == UnitsIn(k.log, t - c.window, now) {
      UnitsCeiling(k.log, t - c.window, now, t);
    }
    if need <= Sum(k.log) {
      WalkStops(k.log, need, now, c.window);
      assert now + d - c.window == d - c.window + now && Fits(k.log, now + d, c);
      forall u | now < u < now + d ensures !Fits(k.log, u, c) {
        assert u - c.window < d - c.window + now;
      }
    } else {
      WalkShort(k.log, need, now, c.window);
      assert FirstFit(k.log, now, c, 1) >= c.window by {
        assert c.cost > c.limit;
      }
    }
  }
}
