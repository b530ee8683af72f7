/**
RATE_ACQUIRE, RATE_ADJUST and RATE_STATUS over all the limits of a limiter, as
functions of the keys before the call. `RateStore` proves the scripts' loops
against these; the laws of the limiter are proved about them.
*/
module RateScripts {
  import opened Options
  import opened RateLog
  import opened RateKeys

  datatype AcquireReply = AcquireReply(success: bool, retryAfter: int, now: int, used: seq<int>)

  /** One limit of an adjustment: the recorded cost and the one that replaces it. */
  datatype Change = Change(window: nat, before: nat, after: nat)

  ghost predicate ValidCharges(ks: seq<LimitKeys>, cs: seq<Charge>) {
    |ks| == |cs| && forall i :: 0 <= i < |cs| ==> cs[i].window >= 1
  }

  ghost predicate ValidChanges(ks: seq<LimitKeys>, changes: seq<Option<Change>>) {
    |ks| == |changes| && forall i :: 0 <= i < |changes| && changes[i].Some? ==> changes[i].value.window >= 1
  }

  ghost predicate ValidWindows(ks: seq<LimitKeys>, windows: seq<nat>) {
    |ks| == |windows| && forall i :: 0 <= i < |windows| ==> windows[i] >= 1
  }

  function SweepAll(ks: seq<LimitKeys>, cs: seq<Charge>, now: int): (r: seq<LimitKeys>)
    requires |ks| == |cs|
    ensures |r| == |ks|
  {
    seq(|ks|, i requires 0 <= i < |ks| => Swept(ks[i], now, cs[i].window))
  }

  function Totals(ks: seq<LimitKeys>): (r: seq<int>)
    ensures |r| == |ks|
  {
    seq(|ks|, i requires 0 <= i < |ks| => Used(ks[i]))
  }

  /** The script found the caller's own member in log `i`. */
  predicate Recorded(sw: seq<LimitKeys>, cs: seq<Charge>, id: string, i: nat)
    requires |sw| == |cs| && i < |cs|
  {
    cs[i].cost > 0 && Has(sw[i].log, Member(cs[i].cost, id))
  }

  /** The script's flag `already` after the first `n` limits: once set, it stays set. */
  predicate Already(sw: seq<LimitKeys>, cs: seq<Charge>, id: string, n: nat)
    requires |sw| == |cs| && n <= |cs|
  {
    exists j :: 0 <= j < n && Recorded(sw, cs, id, j)
  }

  lemma AlreadyStep(sw: seq<LimitKeys>, cs: seq<Charge>, id: string, i: nat)
    requires |sw| == |cs| && i < |cs|
    ensures Already(sw, cs, id, i + 1) == (Already(sw, cs, id, i) || Recorded(sw, cs, id, i))
  {
    if Recorded(sw, cs, id, i) {
      assert Already(sw, cs, id, i + 1);
    }
  }

  predicate Overfull(k: LimitKeys, c: Charge) {
    c.cost > 0 && Used(k) + c.cost > c.limit
  }

  /** Limit `i` denies the request. */
  predicate Violated(sw: seq<LimitKeys>, cs: seq<Charge>, id: string, i: nat)
    requires |sw| == |cs| && i < |cs|
  {
    Overfull(sw[i], cs[i]) && !Already(sw, cs, id, i + 1)
  }

  /** The longest wait over the violated ones of the first `n` limits; 0 if there is none. */
  function RetryAfter(sw: seq<LimitKeys>, cs: seq<Charge>, id: string, now: int, n: nat): (r: int)
    requires |sw| == |cs| && n <= |cs|
    ensures r >= 0
  {
    if n == 0 then 0
    else
      var r := RetryAfter(sw, cs, id, now, n - 1);
      if Violated(sw, cs, id, n - 1) && Wait(sw[n - 1], now, cs[n - 1]) > r then Wait(sw[n - 1], now, cs[n - 1])
      else r
  }

  /** The retry time is positive exactly when some limit is violated, and it is the longest of their waits. */
  lemma {:induction false} RetryIsLongestWait(sw: seq<LimitKeys>, cs: seq<Charge>, id: string, now: int, n: nat)
    requires |sw| == |cs| && n <= |cs|
    ensures var r := RetryAfter(sw, cs, id, now, n);
            && (r > 0 <==> exists i :: 0 <= i < n && Violated(sw, cs, id, i))
            && (forall i :: 0 <= i < n && Violated(sw, cs, id, i) ==> Wait(sw[i], now, cs[i]) <= r)
            && (r > 0 ==> exists i :: 0 <= i < n && Violated(sw, cs, id, i) && Wait(sw[i], now, cs[i]) == r)
  {
    if n > 0 {
      RetryIsLongestWait(sw, cs, id, now, n - 1);
    }
  }

  function Admit(k: LimitKeys, c: Charge, id: string, now: int): LimitKeys {
    if c.cost > 0 then Record(k, now, c.window, Member(c.cost, id)) else k
  }

  function AdmitAll(sw: seq<LimitKeys>, cs: seq<Charge>, id: string, now: int): (r: seq<LimitKeys>)
    requires |sw| == |cs|
    ensures |r| == |sw|
  {
    seq(|sw|, i requires 0 <= i < |sw| => Admit(sw[i], cs[i], id, now))
  }

  function Retry(ks: seq<LimitKeys>, cs: seq<Charge>, id: string, now: int): int
    requires |ks| == |cs|
  {
    RetryAfter(SweepAll(ks, cs, now), cs, id, now, |cs|)
  }

  function AcquireKeys(ks: seq<LimitKeys>, cs: seq<Charge>, id: string, now: int): (r: seq<LimitKeys>)
    requires |ks| == |cs|
    ensures |r| == |ks|
  {
    var sw := SweepAll(ks, cs, now);
    if Retry(ks, cs, id, now) > 0 then sw else AdmitAll(sw, cs, id, now)
  }

  function Acquire(ks: seq<LimitKeys>, cs: seq<Charge>, id: string, now: int): AcquireReply
    requires |ks| == |cs|
  {
    var retry := Retry(ks, cs, id, now);
    AcquireReply(retry == 0, retry, now, Totals(AcquireKeys(ks, cs, id, now)))
  }

  function AdjustOne(k: LimitKeys, change: Option<Change>, id: string, now: int, at: int): LimitKeys {
    if change.None? then k
    else
      var c := change.value;
      Settle(Swept(k, now, c.window), now, c.window, at, Member(c.before, id), Member(c.after, id))
  }

  /** RATE_ADJUST; a limit whose cost does not change is not among its keys. */
  function AdjustKeys(ks: seq<LimitKeys>, changes: seq<Option<Change>>, id: string, now: int,
                      at: int): (r: seq<LimitKeys>)
    requires |ks| == |changes|
    ensures |r| == |ks|
  {
    seq(|ks|, i requires 0 <= i < |ks| => AdjustOne(ks[i], changes[i], id, now, at))
  }

  function StatusKeys(ks: seq<LimitKeys>, windows: seq<nat>, now: int): (r: seq<LimitKeys>)
    requires |ks| == |windows|
    ensures |r| == |ks|
  {
    seq(|ks|, i requires 0 <= i < |ks| => Swept(ks[i], now, windows[i]))
  }

  /** The consumption an adjustment reports, for the limits it was given. */
  function Reported(ks: seq<LimitKeys>, changes: seq<Option<Change>>): (r: seq<Option<int>>)
    requires |ks| == |changes|
    ensures |r| == |ks|
  {
    seq(|ks|, i requires 0 <= i < |ks| => if changes[i].None? then None else Some(Used(ks[i])))
  }
}
