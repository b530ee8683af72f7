/**
The client side of an acquire: resolving the costs, waiting out the retry time, and
giving up when the deadline comes first.
*/
module RateClients {
  import opened Options
  import opened RateKeys
  import opened RateScripts
  import opened RateRuns
  import opened RateLaws

  // -- costs -----------------------------------------------------------------------

  datatype NamedLimit = NamedLimit(name: string, limit: Limit)

  /** One cost for every limit, or a cost by limit name. */
  datatype Cost = Uniform(units: int) | PerLimit(byName: map<string, int>)

  datatype CostError = UnknownLimit | NegativeCost(index: nat) | ExceedsLimit(index: nat)

  datatype Resolved = Costs(costs: seq<nat>) | Rejected(error: CostError)

  /** The cost a limit is charged; limits missing from a mapping cost 1. */
  function CostOf(cost: Cost, name: string): int {
    match cost
    case Uniform(units) => units
    case PerLimit(byName) => if name in byName then byName[name] else 1
  }

  predicate KnownNames(limits: seq<NamedLimit>, cost: Cost) {
    cost.PerLimit? ==> forall name :: name in cost.byName ==> exists i :: 0 <= i < |limits| && limits[i].name == name
  }

  /** The units a caller asks of a limit, told without `CostOf`. */
  predicate Asks(cost: Cost, name: string, units: int) {
    && (cost.Uniform? ==> units == cost.units)
    && (cost.PerLimit? && name in cost.byName ==> units == cost.byName[name])
    && (cost.PerLimit? && name !in cost.byName ==> units == 1)
  }

  predicate Chargeable(l: NamedLimit, cost: Cost) {
    exists units :: 0 <= units <= l.limit.limit && Asks(cost, l.name, units)
  }

  /**
  The request goes to Redis exactly if it names no unknown limit and every cost
  fits its limit on its own; otherwise the first offending limit is reported.
  */
  method ResolveCosts(limits: seq<NamedLimit>, cost: Cost) returns (r: Resolved)
    ensures r.Costs? <==> KnownNames(limits, cost) && forall i :: 0 <= i < |limits| ==> Chargeable(limits[i], cost)
    ensures r.Costs? ==> |r.costs| == |limits| && forall i :: 0 <= i < |limits| ==>
                           Asks(cost, limits[i].name, r.costs[i]) && r.costs[i] <= limits[i].limit.limit
    ensures r == Rejected(UnknownLimit) <==> !KnownNames(limits, cost)
    ensures r.Rejected? && !r.error.UnknownLimit? ==>
              && r.error.index < |limits|
              && (forall j :: 0 <= j < r.error.index ==> Chargeable(limits[j], cost))
              && var l := limits[r.error.index];
                 exists units :: Asks(cost, l.name, units)
                   && (if r.error.NegativeCost? then units < 0 else units > l.limit.limit)
  {
    if !KnownNames(limits, cost) {
      return Rejected(UnknownLimit);
    }
    var costs: seq<nat> := [];
    for i := 0 to |limits|
      invariant |costs| == i
      invariant forall j :: 0 <= j < i ==> Asks(cost, limits[j].name, costs[j]) && costs[j] <= limits[j].limit.limit
    {
      var c := CostOf(cost, limits[i].name);
      assert forall units :: Asks(cost, limits[i].name, units) ==> units == c;
      assert Asks(cost, limits[i].name, c);
      if c < 0 {
        return Rejected(NegativeCost(i));
      }
      if c > limits[i].limit.limit {
        return Rejected(ExceedsLimit(i));
      }
      costs := costs + [c];
    }
    r := Costs(costs);
  }

  // -- waiting -----------------------------------------------------------------------

  /** The sleep before the next attempt; `None` raises RateLimitTimeoutError. */
  method NextWait(retryAfter: nat, jitter: nat, timeout: Option<nat>, elapsed: int) returns (delay: Option<nat>)
    ensures delay.None? <==> timeout.Some? && elapsed + retryAfter > timeout.value
    ensures delay.Some? ==> retryAfter <= delay.value <= retryAfter + jitter
    ensures delay.Some? && timeout.Some? ==> elapsed + delay.value <= timeout.value
    ensures delay.Some? && (timeout.None? || elapsed + retryAfter + jitter <= timeout.value) ==>
        delay.value == retryAfter + jitter
  {
    var d := retryAfter + jitter;
    if timeout.Some? {
      var remaining := timeout.value - elapsed;
      if retryAfter > remaining {
        return None;
      }
      if remaining < d {
        d := remaining;
      }
    }
    delay := Some(d);
  }

  /**
  What one attempt meets: how long it came late (latency before the first attempt, an
  overrun of the sleep before a later one), the retry time the script answers at a given
  instant - 0 if it admits - and the jitter drawn for the sleep that follows a denial.
  */
  datatype Round = Round(late: nat, answer: int -> nat, jitter: nat)

  /** The last attempt, made at `at`; `Waiting` is a loop whose next attempt is still to come. */
  datatype Outcome = Admitted(at: int) | Denied(at: int, retryAfter: nat) | TimedOut(at: int, retryAfter: nat) | Waiting

  /** A denied attempt: due at `due`, made at `at`, answered a retry time, followed by a sleep. */
  datatype Try = Try(due: int, at: int, retryAfter: nat, sleep: nat)

  /** The sleep covers the retry time, and ends by the deadline. */
  predicate GoodTry(x: Try, r: Round, timeout: Option<nat>, start: int) {
    && x.at == x.due + r.late && x.retryAfter == r.answer(x.at)
    && 0 < x.retryAfter <= x.sleep <= x.retryAfter + r.jitter
    && (timeout.Some? ==> x.at + x.sleep <= start + timeout.value)
  }

  /** Each attempt is due when the sleep after the one before it ends. */
  ghost predicate Paced(tries: seq<Try>, timeout: Option<nat>, start: int, world: seq<Round>) {
    && |tries| <= |world| && (tries != [] ==> tries[0].due == start)
    && (forall i :: 0 <= i < |tries| ==> GoodTry(tries[i], world[i], timeout, start))
    && (forall i, j :: 0 <= i < |tries| && j == i + 1 < |tries| ==> tries[j].due == tries[i].at + tries[i].sleep)
  }

  /** When the last sleep ends. */
  function Resumes(tries: seq<Try>, start: int): int {
    if tries == [] then start else tries[|tries| - 1].at + tries[|tries| - 1].sleep
  }

  /** The deadline cannot be met by waiting out a retry time of `retryAfter` from `now`. */
  predicate Hopeless(timeout: Option<nat>, start: int, now: int, retryAfter: nat) {
    timeout.Some? && now + retryAfter > start + timeout.value
  }

  /** How the loop ends after the denied attempts `tries`. */
  predicate EndsAs(outcome: Outcome, tries: seq<Try>, blocking: bool, timeout: Option<nat>, start: int,
                   world: seq<Round>) {
    if outcome.Waiting? then |tries| == |world| && (tries != [] ==> blocking)
    else
      && |tries| < |world| && (tries != [] ==> blocking) && outcome.at == Resumes(tries, start) + world[|tries|].late
      && match outcome
         case Admitted(at) => world[|tries|].answer(at) == 0
         case Denied(at, retryAfter) => !blocking && retryAfter == world[|tries|].answer(at) > 0
         case TimedOut(at, retryAfter) =>
           blocking && retryAfter == world[|tries|].answer(at) > 0 && Hopeless(timeout, start, at, retryAfter)
         case Waiting => false
  }

  /**
  The wait loop, over what its attempts meet. With a timeout it is over within one more
  attempt than the timeout has milliseconds.
  */
  method AcquireLoop(blocking: bool, timeout: Option<nat>, start: int, world: seq<Round>)
    returns (outcome: Outcome, tries: seq<Try>)
    ensures Paced(tries, timeout, start, world) && EndsAs(outcome, tries, blocking, timeout, start, world)
    ensures timeout.Some? && |world| > timeout.value ==> !outcome.Waiting?
  {
    var now := start;
    tries := [];
    while |tries| < |world|
      invariant Paced(tries, timeout, start, world) && (tries != [] ==> blocking) && now == Resumes(tries, start)
      decreases |world| - |tries|
    {
      var r, due := world[|tries|], now;
      now := now + r.late;
      var retryAfter := r.answer(now);
      if retryAfter == 0 {
        return Admitted(now), tries;
      }
      if !blocking {
        return Denied(now, retryAfter), tries;
      }
      var delay := NextWait(retryAfter, r.jitter, timeout, now - start);
      if delay.None? {
        return TimedOut(now, retryAfter), tries;
      }
      tries := tries + [Try(due, now, retryAfter, delay.value)];
      now := now + delay.value;
    }
    EverySleepCounts(tries, timeout, start, world);
    outcome := Waiting;
  }

  /** A sleep lasts a millisecond at least, so a deadline leaves room for no more of them than it has milliseconds. */
  lemma {:induction false} EverySleepCounts(tries: seq<Try>, timeout: Option<nat>, start: int, world: seq<Round>)
    requires Paced(tries, timeout, start, world)
    ensures Resumes(tries, start) >= start + |tries| && (timeout.Some? ==> |tries| <= timeout.value)
  {
    if tries != [] {
      var n := |tries| - 1;
      EverySleepCounts(tries[..n], timeout, start, world);
      assert GoodTry(tries[n], world[n], timeout, start);
      assert tries[n].due == Resumes(tries[..n], start);
    }
  }

  // -- a lone caller --------------------------------------------------------------------

  /** An attempt that finds the keys `ks` is answered by RATE_ACQUIRE. */
  ghost predicate ByScript(r: Round, ks: seq<LimitKeys>, cs: seq<Charge>, id: string) {
    |ks| == |cs| && forall now {:trigger Retry(ks, cs, id, now)} :: r.answer(now) == Retry(ks, cs, id, now)
  }

  /** A request that was never charged before and fits its limits, on keys the scripts left by `start`. */
  ghost predicate Promising(ks: seq<LimitKeys>, cs: seq<Charge>, id: string, start: int) {
    SoundKeys(ks, cs, start) && Fresh(Logs(ks), cs, id) && forall i :: 0 <= i < |cs| ==> cs[i].cost <= cs[i].limit
  }

  /**
  The first two attempts, if the loop gets that far: when they are made, and what follows from
  a second one that is admitted.
  */
  lemma DoneAfterTwo(outcome: Outcome, tries: seq<Try>, blocking: bool, timeout: Option<nat>, start: int,
                     world: seq<Round>)
    requires Paced(tries, timeout, start, world) && EndsAs(outcome, tries, blocking, timeout, start, world)
        && |world| >= 2
    ensures |tries| >= 1 ==>
              var x := tries[0];
              x.at == start + world[0].late && x.sleep >= x.retryAfter == world[0].answer(x.at) > 0
    ensures |tries| == 0 ==> !outcome.Waiting?
    ensures |tries| >= 1 && world[1].answer(tries[0].at + tries[0].sleep + world[1].late) == 0 ==>
              |tries| == 1 && outcome.Admitted?
  {
    forall i | 0 <= i < |tries| ensures GoodTry(tries[i], world[i], timeout, start) {
    }
  }

  /** After a sleep of at least the retry time the script admits what it denied, if nobody else called. */
  lemma SecondAttempt(ks: seq<LimitKeys>, cs: seq<Charge>, id: string, start: int, now: int, retry: int, later: int,
                      ks': seq<LimitKeys>)
    requires Promising(ks, cs, id, start) && start <= now && retry == Retry(ks, cs, id, now) > 0
    requires ks' == AcquireKeys(ks, cs, id, now) && later >= now + retry
    ensures Retry(ks', cs, id, later) == 0
  {
    RetryExact(ks, cs, id, start, now, ks', retry);
    assert now <= later && Admits(ks', cs, id, later);
  }

  lemma SecondAnswer(first: Round, second: Round, ks: seq<LimitKeys>, cs: seq<Charge>, id: string,
                     start: int, now: int, retry: int, later: int, ks': seq<LimitKeys>)
    requires Promising(ks, cs, id, start) && ByScript(first, ks, cs, id)
    requires start <= now && retry == first.answer(now) > 0 && later >= now + retry
    requires ks' == AcquireKeys(ks, cs, id, now) && ByScript(second, ks', cs, id)
    ensures second.answer(later) == 0
  {
    assert retry == Retry(ks, cs, id, now);
    SecondAttempt(ks, cs, id, start, now, retry, later, ks');
  }

  /**
  A caller of the loop that RATE_ACQUIRE answers, and that finds at its second attempt the
  keys its first one left, is admitted by the second at the latest, or gives up at the first.
  */
  lemma LoneCallerTwoAttempts(outcome: Outcome, tries: seq<Try>, blocking: bool, timeout: Option<nat>, start: int,
                              world: seq<Round>, cs: seq<Charge>, id: string, first: int,
                              found: seq<LimitKeys>, left: seq<LimitKeys>)
    requires Paced(tries, timeout, start, world) && EndsAs(outcome, tries, blocking, timeout, start, world)
    requires |world| >= 2 && first == start + world[0].late
    requires Promising(found, cs, id, start) && ByScript(world[0], found, cs, id)
    requires left == AcquireKeys(found, cs, id, first) && ByScript(world[1], left, cs, id)
    ensures |tries| <= 1 && !outcome.Waiting? && (|tries| == 1 ==> outcome.Admitted?)
  {
    DoneAfterTwo(outcome, tries, blocking, timeout, start, world);
    if |tries| >= 1 {
      var later := tries[0].at + tries[0].sleep + world[1].late;
      SecondAnswer(world[0], world[1], found, cs, id, start, first, tries[0].retryAfter, later, left);
    }
  }
}
