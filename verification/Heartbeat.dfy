/**
The heartbeat loop: refreshing at an interval, retrying failures faster, and
giving the lock up when it cannot be refreshed before its deadline. Times are
milliseconds of the client's monotonic clock.
*/
module Heartbeats {
  import opened Options

  /** Without a `lockTimeout` there is no deadline, and transient errors are retried forever. */
  datatype Config = Config(interval: nat, retryStep: nat, lockTimeout: Option<nat>)

  datatype Outcome = Refreshed | NotOwned | TransientError | FatalError

  /** One turn as the world has it: stopped while waiting, or an attempt that started late and took some time. */
  datatype Turn = Stopped | Attempted(late: nat, took: nat, outcome: Outcome)

  /** Where the loop stands: the end of the last attempt, the deadline and the next wait. */
  datatype Pulse = Pulse(now: int, deadline: Option<int>, step: nat, lost: bool, over: bool)

  function Begin(cfg: Config, now: int): Pulse {
    Pulse(now, if cfg.lockTimeout.Some? then Some(now + cfg.lockTimeout.value) else None, cfg.interval, false, false)
  }

  function Next(cfg: Config, p: Pulse, turn: Turn): Pulse {
    match turn
    case Stopped => p.(over := true)
    case Attempted(late, took, outcome) =>
      var start := p.now + p.step + late;
      var end := start + took;
      match outcome
      case Refreshed =>
        if cfg.lockTimeout.Some? then Pulse(end, Some(start + cfg.lockTimeout.value), cfg.interval, false, false)
        else p.(now := end)
      case NotOwned => p.(now := end, lost := true, over := true)
      case FatalError => p.(now := end, lost := true, over := true)
      case TransientError =>
        if p.deadline.None? then p.(now := end)
        else if end >= p.deadline.value then p.(now := end, lost := true, over := true)
        else p.(now := end,
                step := if cfg.retryStep < p.deadline.value - end then cfg.retryStep else p.deadline.value - end)
  }

  /** The loop over the turns it lives to see. */
  function Run(cfg: Config, p: Pulse, world: seq<Turn>): Pulse
    decreases |world|
  {
    if p.over || world == [] then p else Run(cfg, Next(cfg, p, world[0]), world[1..])
  }

  class Heartbeat {
    const cfg: Config
    var lockLost: bool

    constructor (cfg: Config)
      ensures this.cfg == cfg && !lockLost
    {
      this.cfg := cfg;
      lockLost := false;
    }

    /** Runs until stopped, lost, or out of turns. */
    method Loop(begin: int, world: seq<Turn>) returns (now: int, deadline: Option<int>, over: bool)
      requires !lockLost
      modifies this
      ensures lockLost == Run(cfg, Begin(cfg, begin), world).lost && over == Run(cfg, Begin(cfg, begin), world).over
      ensures now == Run(cfg, Begin(cfg, begin), world).now && deadline == Run(cfg, Begin(cfg, begin), world).deadline
    {
      now, over := begin, false;
      deadline := if cfg.lockTimeout.Some? then Some(now + cfg.lockTimeout.value) else None;
      var step: nat := cfg.interval;
      var i := 0;
      while i < |world| && !over
        invariant 0 <= i <= |world| && (!over ==> !lockLost)
        invariant Run(cfg, Begin(cfg, begin), world) == Run(cfg, Pulse(now, deadline, step, lockLost, over), world[i..])
        decreases |world| - i
      {
        var turn := world[i];
        assert world[i..][0] == turn && world[i..][1..] == world[i + 1..];
        i := i + 1;
        if turn.Stopped? {
          over := true;
          continue;
        }
        var attemptStart := now + step + turn.late;
        now := attemptStart + turn.took;
        match turn.outcome {
          case FatalError =>
            lockLost, over := true, true;
          case TransientError =>
            if deadline.Some? {
              if now >= deadline.value {
                lockLost, over := true, true;
              } else {
                step := if cfg.retryStep < deadline.value - now then cfg.retryStep else deadline.value - now;
              }
            }
          case NotOwned =>
            lockLost, over := true, true;
          case Refreshed =>
            if cfg.lockTimeout.Some? {
              deadline := Some(attemptStart + cfg.lockTimeout.value);
              step := cfg.interval;
            }
        }
      }
    }
  }

  // -- how long a failing heartbeat keeps the lock -----------------------------------------

  predicate OnlyTransient(world: seq<Turn>, slowest: nat) {
    forall i :: 0 <= i < |world| ==>
      world[i].Attempted? && world[i].outcome.TransientError? && world[i].late + world[i].took <= slowest
  }

  /** Waiting, with the next attempt due no later than the deadline. */
  predicate OnTime(p: Pulse) {
    p.deadline.Some? && !p.lost && !p.over && p.now + p.step <= p.deadline.value
  }

  /** After a successful refresh the next attempt is due in time if it, and the interval, fit the timeout. */
  lemma RefreshedIsOnTime(cfg: Config, p: Pulse, late: nat, took: nat, timeout: nat)
    requires !p.lost && !p.over && cfg.lockTimeout == Some(timeout) && cfg.interval + took <= timeout
    ensures var p' := Next(cfg, p, Attempted(late, took, Refreshed));
            OnTime(p') && p'.deadline == Some(p.now + p.step + late + timeout)
  {
  }

  /**
  A run of transient errors gives the lock up never before the deadline set by the
  last successful refresh, and never more than one slow attempt after it.
  */
  lemma {:induction false} LostWithinBounds(cfg: Config, p: Pulse, world: seq<Turn>, slowest: nat)
    requires OnTime(p) && OnlyTransient(world, slowest)
    ensures var end := Run(cfg, p, world);
            && end.deadline == p.deadline && end.over == end.lost
            && (end.lost ==> p.deadline.value <= end.now <= p.deadline.value + slowest)
            && (!end.lost ==> OnTime(end))
    decreases |world|
  {
    if world != [] {
      var p' := Next(cfg, p, world[0]);
      assert forall i :: 0 <= i < |world[1..]| ==> world[1..][i] == world[i + 1];
      if !p'.over {
        LostWithinBounds(cfg, p', world[1..], slowest);
      }
    }
  }

  /** Retrying, it has given up by the time its retry steps add up to the time that was left. */
  lemma {:induction false} GivesUp(cfg: Config, p: Pulse, world: seq<Turn>, slowest: nat)
    requires p.deadline.Some? && !p.over && !p.lost && p.now < p.deadline.value
    requires p.step == if cfg.retryStep < p.deadline.value - p.now then cfg.retryStep else p.deadline.value - p.now
    requires OnlyTransient(world, slowest) && |world| * cfg.retryStep >= p.deadline.value - p.now
    ensures Run(cfg, p, world).lost
    decreases |world|
  {
    assert world != [];
    var p' := Next(cfg, p, world[0]);
    assert forall i :: 0 <= i < |world[1..]| ==> world[1..][i] == world[i + 1];
    if !p'.over {
      assert p'.deadline.value - p'.now <= p.deadline.value - p.now - cfg.retryStep;
      assert (|world| - 1) * cfg.retryStep == |world| * cfg.retryStep - cfg.retryStep;
      GivesUp(cfg, p', world[1..], slowest);
    }
  }

  /**
  From a successful refresh on, uninterrupted transient errors end the loop within
  one attempt more than it takes retry steps to fill the lock timeout.
  */
  lemma GivesUpAfterRefresh(cfg: Config, p: Pulse, late: nat, took: nat, timeout: nat, world: seq<Turn>, slowest: nat)
    requires !p.lost && !p.over && cfg.lockTimeout == Some(timeout) && cfg.interval + took <= timeout
    requires OnlyTransient(world, slowest) && |world| >= 1 && (|world| - 1) * cfg.retryStep >= timeout
    ensures Run(cfg, Next(cfg, p, Attempted(late, took, Refreshed)), world).lost
  {
    var renewed := Next(cfg, p, Attempted(late, took, Refreshed));
    var p' := Next(cfg, renewed, world[0]);
    assert forall i :: 0 <= i < |world[1..]| ==> world[1..][i] == world[i + 1];
    if !p'.over {
      GivesUp(cfg, p', world[1..], slowest);
    }
  }

  /** Without a deadline transient errors never end the loop. */
  lemma {:induction false} NoTimeoutNoLoss(cfg: Config, p: Pulse, world: seq<Turn>, slowest: nat)
    requires p.deadline.None? && !p.lost && !p.over && OnlyTransient(world, slowest)
    ensures !Run(cfg, p, world).over
    decreases |world|
  {
    if world != [] {
      assert forall i :: 0 <= i < |world[1..]| ==> world[1..][i] == world[i + 1];
      NoTimeoutNoLoss(cfg, Next(cfg, p, world[0]), world[1..], slowest);
    }
  }

  // -- the loop, told by its turns -----------------------------------------------------------

  /** When turn `n` begins, for a loop begun at `t`: the end of the attempt before it. */
  function EndOf(cfg: Config, t: int, world: seq<Turn>, n: nat): int
    requires n <= |world|
    decreases n, 0
  {
    if n == 0 then t
    else match world[n - 1]
      case Stopped => EndOf(cfg, t, world, n - 1)
      case Attempted(late, took, _) => EndOf(cfg, t, world, n - 1) + WaitOf(cfg, t, world, n - 1) + late + took
  }

  predicate Confirms(turn: Turn) {
    turn.Attempted? && turn.outcome.Refreshed?
  }

  /** Since when the lock is known to be held: the start of the last attempt that refreshed it, or of the loop. */
  function HeldSince(cfg: Config, t: int, world: seq<Turn>, n: nat): int
    requires n <= |world|
    decreases n, 1
  {
    if n == 0 then t
    else if Confirms(world[n - 1]) then EndOf(cfg, t, world, n) - world[n - 1].took
    else HeldSince(cfg, t, world, n - 1)
  }

  /** The wait before turn `n`: the interval, or after an error the retry step, cut short by the deadline. */
  function WaitOf(cfg: Config, t: int, world: seq<Turn>, n: nat): int
    requires n <= |world|
    decreases n, 2
  {
    if n == 0 || cfg.lockTimeout.None? || Confirms(world[n - 1]) then cfg.interval
    else
      var left := HeldSince(cfg, t, world, n) + cfg.lockTimeout.value - EndOf(cfg, t, world, n);
      if left < cfg.retryStep then left else cfg.retryStep
  }

  /** Turn `n` loses the lock: it is not owned, or the error is fatal, or comes once the deadline has passed. */
  predicate Loses(cfg: Config, t: int, world: seq<Turn>, n: nat)
    requires n < |world|
  {
    && world[n].Attempted?
    && match world[n].outcome
       case Refreshed => false
       case NotOwned => true
       case FatalError => true
       case TransientError =>
         cfg.lockTimeout.Some?
           && EndOf(cfg, t, world, n + 1) >= HeldSince(cfg, t, world, n) + cfg.lockTimeout.value
  }

  predicate Ends(cfg: Config, t: int, world: seq<Turn>, n: nat)
    requires n < |world|
  {
    world[n].Stopped? || Loses(cfg, t, world, n)
  }

  lemma {:induction false} RunOn(cfg: Config, p: Pulse, a: seq<Turn>, b: seq<Turn>)
    ensures Run(cfg, p, a + b) == Run(cfg, Run(cfg, p, a), b)
    decreases |a|
  {
    if a == [] {
      assert a + b == b;
    } else if !p.over {
      assert (a + b)[0] == a[0] && (a + b)[1..] == a[1..] + b;
      RunOn(cfg, Next(cfg, p, a[0]), a[1..], b);
    }
  }

  /** The loop still runs before turn `n`, and this is where it stands. */
  predicate StandsAt(cfg: Config, t: int, world: seq<Turn>, n: nat, p: Pulse)
    requires n <= |world|
  {
    && !p.lost && !p.over && p.now == EndOf(cfg, t, world, n) && p.step == WaitOf(cfg, t, world, n)
    && p.deadline == if cfg.lockTimeout.Some? then Some(HeldSince(cfg, t, world, n) + cfg.lockTimeout.value) else None
  }

  lemma TurnTells(cfg: Config, t: int, world: seq<Turn>, n: nat, p: Pulse)
    requires n < |world| && StandsAt(cfg, t, world, n, p)
    ensures var p' := Next(cfg, p, world[n]);
            && p'.now == EndOf(cfg, t, world, n + 1)
            && (p'.over <==> Ends(cfg, t, world, n)) && (p'.lost <==> Loses(cfg, t, world, n))
            && (!p'.over ==> StandsAt(cfg, t, world, n + 1, p'))
  {
  }

  lemma {:induction false} StandsUntilItEnds(cfg: Config, t: int, world: seq<Turn>, n: nat)
    requires n <= |world| && forall m :: 0 <= m < n ==> !Ends(cfg, t, world, m)
    ensures StandsAt(cfg, t, world, n, Run(cfg, Begin(cfg, t), world[..n]))
  {
    if n > 0 {
      StandsUntilItEnds(cfg, t, world, n - 1);
      OneMoreTurn(cfg, t, world, n - 1);
      TurnTells(cfg, t, world, n - 1, Run(cfg, Begin(cfg, t), world[..n - 1]));
    }
  }

  lemma OneMoreTurn(cfg: Config, t: int, world: seq<Turn>, n: nat)
    requires n < |world| && !Run(cfg, Begin(cfg, t), world[..n]).over
    ensures Run(cfg, Begin(cfg, t), world[..n + 1]) == Next(cfg, Run(cfg, Begin(cfg, t), world[..n]), world[n])
  {
    assert world[..n + 1] == world[..n] + [world[n]];
    RunOn(cfg, Begin(cfg, t), world[..n], [world[n]]);
    var p := Run(cfg, Begin(cfg, t), world[..n]);
    assert [world[n]][1..] == [];
    assert Run(cfg, Next(cfg, p, world[n]), []) == Next(cfg, p, world[n]);
  }

  /**
  The first turn that ends the loop decides: the lock is lost if that turn was not a stop,
  but an answer that it is not owned, a fatal error, or an error once the time since the
  last confirmation reached the lock timeout.
  */
  lemma EndsWithTurn(cfg: Config, t: int, world: seq<Turn>, n: nat)
    requires n < |world| && Ends(cfg, t, world, n) && forall m :: 0 <= m < n ==> !Ends(cfg, t, world, m)
    ensures var end := Run(cfg, Begin(cfg, t), world);
            end.over && end.now == EndOf(cfg, t, world, n + 1) && (end.lost <==> Loses(cfg, t, world, n))
  {
    StandsUntilItEnds(cfg, t, world, n);
    OneMoreTurn(cfg, t, world, n);
    TurnTells(cfg, t, world, n, Run(cfg, Begin(cfg, t), world[..n]));
    assert world == world[..n + 1] + world[n + 1..];
    RunOn(cfg, Begin(cfg, t), world[..n + 1], world[n + 1..]);
  }

  lemma FirstEnd(cfg: Config, t: int, world: seq<Turn>, n: nat) returns (first: nat)
    requires n < |world| && Ends(cfg, t, world, n)
    ensures first <= n && Ends(cfg, t, world, first) && forall m :: 0 <= m < first ==> !Ends(cfg, t, world, m)
  {
    first := 0;
    while !Ends(cfg, t, world, first)
      invariant first <= n && forall m :: 0 <= m < first ==> !Ends(cfg, t, world, m)
      decreases n - first
    {
      first := first + 1;
    }
  }

  /** Turn `n` is the first that ends the loop, and loses the lock. */
  predicate LosesFirst(cfg: Config, t: int, world: seq<Turn>, n: nat)
    requires n < |world|
  {
    Loses(cfg, t, world, n) && forall m :: 0 <= m < n ==> !Ends(cfg, t, world, m)
  }

  /** The loop is over, and the lock lost, exactly if a turn says so - told by the turns alone. */
  lemma LostExactly(cfg: Config, t: int, world: seq<Turn>)
    ensures Run(cfg, Begin(cfg, t), world).over <==> exists n :: 0 <= n < |world| && Ends(cfg, t, world, n)
    ensures Run(cfg, Begin(cfg, t), world).lost <==> exists n :: 0 <= n < |world| && LosesFirst(cfg, t, world, n)
  {
    assert forall m :: 0 <= m < |world| && LosesFirst(cfg, t, world, m) ==> Ends(cfg, t, world, m);
    if n :| 0 <= n < |world| && Ends(cfg, t, world, n) {
      var first := FirstEnd(cfg, t, world, n);
      EndsWithTurn(cfg, t, world, first);
      assert Loses(cfg, t, world, first) ==> LosesFirst(cfg, t, world, first);
      assert forall m :: 0 <= m < |world| && LosesFirst(cfg, t, world, m) ==> m == first;
    } else {
      StandsUntilItEnds(cfg, t, world, |world|);
      assert world[..|world|] == world;
    }
  }

  /** In particular the first turn that is no success loses the lock if it is not owned or fatally wrong. */
  lemma NotOwnedIsLost(cfg: Config, t: int, world: seq<Turn>, n: nat)
    requires n < |world| && forall m :: 0 <= m < n ==> Confirms(world[m])
    requires world[n].Attempted? && (world[n].outcome.NotOwned? || world[n].outcome.FatalError?)
    ensures Run(cfg, Begin(cfg, t), world).lost
  {
    EndsWithTurn(cfg, t, world, n);
  }
}
