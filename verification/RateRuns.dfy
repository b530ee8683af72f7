/** The calls a limiter serves, one by one and over whole runs. */
module RateRuns {
  import opened Options
  import opened RateKeys
  import opened RateScripts

  /** A limiter's configuration: one capacity and window per limit. */
  datatype Limit = Limit(limit: nat, window: nat)

  /** Old and new cost of one limit of an adjustment; `None` where the cost does not change. */
  datatype Resettle = Resettle(before: nat, after: nat)

  datatype Call =
    | AcquireCall(id: string, costs: seq<nat>)
    | AdjustCall(id: string, at: int, changes: seq<Option<Resettle>>)
    | StatusCall

  datatype Timed = Timed(now: int, call: Call)

  datatype Reply =
    | Admission(reply: AcquireReply)
    | Adjusted(used: seq<Option<int>>)
    | Consumption(consumed: seq<int>)

  function Charges(limits: seq<Limit>, costs: seq<nat>): (cs: seq<Charge>)
    requires |limits| == |costs|
    ensures |cs| == |limits|
  {
    seq(|limits|, i requires 0 <= i < |limits| => Charge(limits[i].limit, limits[i].window, costs[i]))
  }

  function Changes(limits: seq<Limit>, costs: seq<Option<Resettle>>): (cs: seq<Option<Change>>)
    requires |limits| == |costs|
    ensures |cs| == |limits|
  {
    seq(|limits|, i requires 0 <= i < |limits| =>
      if costs[i].None? then None else Some(Change(limits[i].window, costs[i].value.before, costs[i].value.after)))
  }

  function Windows(limits: seq<Limit>): (ws: seq<nat>)
    ensures |ws| == |limits|
  {
    seq(|limits|, i requires 0 <= i < |limits| => limits[i].window)
  }

  predicate WellFormed(limits: seq<Limit>, call: Call) {
    match call
    case AcquireCall(_, costs) => |costs| == |limits|
    case AdjustCall(_, _, costs) => |costs| == |limits|
    case StatusCall => true
  }

  /**
  Calls arrive by a nondecreasing server clock, and an adjustment names an
  admission time that lies in the past.
  */
  ghost predicate Clocked(limits: seq<Limit>, start: int, run: seq<Timed>)
    decreases |run|
  {
    run == [] ||
    (&& start <= run[0].now && WellFormed(limits, run[0].call)
     && (run[0].call.AdjustCall? ==> run[0].call.at <= run[0].now)
     && Clocked(limits, run[0].now, run[1..]))
  }

  function StoreStep(limits: seq<Limit>, ks: seq<LimitKeys>, t: Timed): (r: (seq<LimitKeys>, Reply))
    requires |ks| == |limits| && WellFormed(limits, t.call)
    ensures |r.0| == |ks|
  {
    match t.call
    case AcquireCall(id, costs) =>
      var cs := Charges(limits, costs);
      (AcquireKeys(ks, cs, id, t.now), Admission(Acquire(ks, cs, id, t.now)))
    case AdjustCall(id, at, costs) =>
      var changes := Changes(limits, costs);
      var ks' := AdjustKeys(ks, changes, id, t.now, at);
      (ks', Adjusted(Reported(ks', changes)))
    case StatusCall =>
      var ks' := StatusKeys(ks, Windows(limits), t.now);
      (ks', Consumption(Totals(ks')))
  }

  /** All replies of a run of the scripts, and the keys it leaves. */
  ghost function RunStore(limits: seq<Limit>, ks: seq<LimitKeys>, start: int, run: seq<Timed>)
    : (r: (seq<LimitKeys>, seq<Reply>))
    requires |ks| == |limits| && Clocked(limits, start, run)
    ensures |r.0| == |ks|
    decreases |run|
  {
    if run == [] then (ks, [])
    else
      var (ks', reply) := StoreStep(limits, ks, run[0]);
      var (end, replies) := RunStore(limits, ks', run[0].now, run[1..]);
      (end, [reply] + replies)
  }

  /** The instant of the last call of a run that began at `start`. */
  function LastTime(start: int, run: seq<Timed>): int
    decreases |run|
  {
    if run == [] then start else LastTime(run[0].now, run[1..])
  }

  ghost predicate ValidLimits(limits: seq<Limit>) {
    forall i :: 0 <= i < |limits| ==> limits[i].window >= 1
  }
}
