/**
Settling a permit: the client's checks and arguments for an adjustment, and the tie
between a permit's costs and what the logs hold under its identifier.
*/
module RatePermits {
  import opened Options
  import opened RateLog
  import opened RateKeys
  import opened RateScripts
  import opened RateRuns
  import opened RateStores
  import opened RateClients

  // -- the client's side --------------------------------------------------------------

  datatype AdjustError = NotAdmitted | ForeignPermit | LimitsChanged | UnknownName | NegativeUnits(name: string)

  /** An admitted permit; its costs and the consumption it last saw are updated in place. */
  class RatePermit {
    const success: bool
    const identifier: string
    const acquiredAt: int
    const limiter: string
    var costs: map<string, nat>
    var used: map<string, int>

    constructor (success: bool, identifier: string, acquiredAt: int, limiter: string, costs: map<string, nat>,
                 used: map<string, int>)
      ensures this.success == success && this.identifier == identifier && this.acquiredAt == acquiredAt
      ensures this.limiter == limiter && this.costs == costs && this.used == used
    {
      this.success, this.identifier, this.acquiredAt, this.limiter := success, identifier, acquiredAt, limiter;
      this.costs, this.used := costs, used;
    }
  }

  function Names(limits: seq<NamedLimit>): set<string> {
    set i | 0 <= i < |limits| :: limits[i].name
  }

  /** One new cost for every limit, or new ones by name; limits missing from a mapping keep theirs. */
  function NewCosts(costs: map<string, nat>, cost: Cost): map<string, int> {
    match cost
    case Uniform(units) => map name | name in costs :: units
    case PerLimit(byName) => costs + byName
  }

  /** Every new cost, told without `NewCosts`: the one that was asked for, or the old one. */
  predicate Replaces(costs: map<string, nat>, was: map<string, nat>, cost: Cost)
    requires costs.Keys == was.Keys
  {
    forall name :: name in costs ==>
      costs[name] == if cost.Uniform? then cost.units
                     else if name in cost.byName then cost.byName[name] else was[name]
  }

  function ChangeOf(l: NamedLimit, was: map<string, nat>, costs: map<string, nat>): Option<Change>
    requires l.name in was && l.name in costs
  {
    if was[l.name] == costs[l.name] then None else Some(Change(l.limit.window, was[l.name], costs[l.name]))
  }

  function ChangesOf(limits: seq<NamedLimit>, was: map<string, nat>, costs: map<string, nat>): (r: seq<Option<Change>>)
    requires Names(limits) <= was.Keys && Names(limits) <= costs.Keys
    ensures |r| == |limits|
  {
    seq(|limits|, i requires 0 <= i < |limits| => NamedChange(limits, was, costs, i))
  }

  function NamedChange(limits: seq<NamedLimit>, was: map<string, nat>, costs: map<string, nat>, i: nat): Option<Change>
    requires Names(limits) <= was.Keys && Names(limits) <= costs.Keys && i < |limits|
  {
    assert limits[i].name in Names(limits);
    ChangeOf(limits[i], was, costs)
  }

  /** A limit is sent exactly if its cost changes: the old cost, the new one and the limit's window. */
  predicate Sends(l: NamedLimit, was: map<string, nat>, costs: map<string, nat>, change: Option<Change>) {
    && l.name in was && l.name in costs
    && (change.Some? <==> was[l.name] != costs[l.name])
    && (change.Some? ==>
          change.value.window == l.limit.window && change.value.before == was[l.name]
          && change.value.after == costs[l.name])
  }

  /** The limit's keys afterwards: settled from the old to the new cost, or as they were. */
  predicate Settles(l: NamedLimit, was: map<string, nat>, costs: map<string, nat>, k: LimitKeys, k': LimitKeys,
                    id: string, now: int, at: int) {
    && l.name in was && l.name in costs
    && k' == if was[l.name] == costs[l.name] then k
             else AdjustOne(k, Some(Change(l.limit.window, was[l.name], costs[l.name])), id, now, at)
  }

  /** The consumption noted under a name: what was reported, or what was there. */
  predicate Entered(name: string, reported: Option<int>, used: map<string, int>, used': map<string, int>) {
    if reported.Some? then name in used' && used'[name] == reported.value
    else (name in used <==> name in used') && (name in used ==> used'[name] == used[name])
  }

  /** The permit shows the consumption of the limits that were settled, and for the others what it showed. */
  predicate Shows(l: NamedLimit, was: map<string, nat>, costs: map<string, nat>, used: map<string, int>,
                  used': map<string, int>, k': LimitKeys) {
    && l.name in was && l.name in costs
    && Entered(l.name, if was[l.name] == costs[l.name] then None else Some(Used(k')), used, used')
  }

  /** Without a change nothing is asked of Redis, and nothing would have been done. */
  lemma NothingChanges(limits: seq<NamedLimit>, was: map<string, nat>, costs: map<string, nat>, ks: seq<LimitKeys>,
                       id: string, now: int, at: int)
    requires was.Keys == costs.Keys == Names(limits) && |ks| == |limits|
    requires forall i :: 0 <= i < |limits| ==> ChangesOf(limits, was, costs)[i].None?
    ensures was == costs && AdjustKeys(ks, ChangesOf(limits, was, costs), id, now, at) == ks
  {
    forall name | name in was ensures was[name] == costs[name] {
      var i :| 0 <= i < |limits| && limits[i].name == name;
      assert ChangesOf(limits, was, costs)[i].None?;
    }
  }

  class RateLimiter {
    const limits: seq<NamedLimit>
    const scope: string
    const store: RateStore

    constructor (limits: seq<NamedLimit>, scope: string, store: RateStore)
      ensures this.limits == limits && this.scope == scope && this.store == store
    {
      this.limits, this.scope, this.store := limits, scope, store;
    }

    /** A configuration has positive windows and distinct names. */
    ghost predicate Valid()
      reads this, store
    {
      && |store.keys| == |limits|
      && (forall i :: 0 <= i < |limits| ==> limits[i].limit.window >= 1)
      && (forall i, j :: 0 <= i < j < |limits| ==> limits[i].name != limits[j].name)
    }

    method ResolveAdjustment(permit: RatePermit, cost: Cost)
      returns (costs: map<string, nat>, error: Option<AdjustError>)
      ensures error == Some(NotAdmitted) <==> !permit.success
      ensures error == Some(ForeignPermit) <==> permit.success && permit.limiter != scope
      ensures error == Some(LimitsChanged)
          <==> permit.success && permit.limiter == scope && permit.costs.Keys != Names(limits)
      ensures error == Some(UnknownName) <==>
                && permit.success && permit.limiter == scope && permit.costs.Keys == Names(limits)
                && cost.PerLimit? && !(cost.byName.Keys <= Names(limits))
      ensures error.None? ==> costs.Keys == Names(limits) == permit.costs.Keys && Replaces(costs, permit.costs, cost)
      ensures error.Some? && error.value.NegativeUnits? ==>
                && error.value.name in Names(limits)
                && if cost.Uniform? then cost.units < 0
                   else error.value.name in cost.byName && cost.byName[error.value.name] < 0
    {
      costs, error := map[], None;
      if !permit.success {
        return costs, Some(NotAdmitted);
      }
      if permit.limiter != scope {
        return costs, Some(ForeignPermit);
      }
      if permit.costs.Keys != Names(limits) {
        return costs, Some(LimitsChanged);
      }
      if cost.PerLimit? && !(cost.byName.Keys <= Names(limits)) {
        return costs, Some(UnknownName);
      }
      var wanted := NewCosts(permit.costs, cost);
      assert wanted.Keys == Names(limits);
      for i := 0 to |limits|
        invariant forall j :: 0 <= j < i ==> wanted[limits[j].name] >= 0
      {
        assert limits[i].name in Names(limits);
        if wanted[limits[i].name] < 0 {
          return costs, Some(NegativeUnits(limits[i].name));
        }
      }
      costs := map name | name in wanted :: wanted[name];
    }

    /** Only the limits whose cost actually changes go to Redis. */
    method AdjustArgs(was: map<string, nat>, costs: map<string, nat>) returns (changes: seq<Option<Change>>, any: bool)
      requires Names(limits) <= was.Keys && Names(limits) <= costs.Keys
      ensures changes == ChangesOf(limits, was, costs)
      ensures forall i :: 0 <= i < |limits| ==> Sends(limits[i], was, costs, changes[i])
      ensures any <==> exists i :: 0 <= i < |limits| && changes[i].Some?
    {
      changes, any := [], false;
      for i := 0 to |limits|
        invariant |changes| == i
        invariant forall j :: 0 <= j < i ==> changes[j] == NamedChange(limits, was, costs, j)
        invariant forall j :: 0 <= j < i ==> Sends(limits[j], was, costs, changes[j])
        invariant any <==> exists j :: 0 <= j < i && changes[j].Some?
      {
        var c := NamedChange(limits, was, costs, i);
        any := any || c.Some?;
        changes := changes + [c];
      }
    }

    /** The part of an adjustment that talks to Redis. */
    method Settle(permit: RatePermit, costs: map<string, nat>, now: int)
      requires Valid() && permit.costs.Keys == costs.Keys == Names(limits)
      modifies permit, store
      ensures Valid() && permit.costs == costs
      ensures forall i :: 0 <= i < |limits| ==>
                Settles(limits[i], old(permit.costs), costs, old(store.keys)[i], store.keys[i],
                        permit.identifier, now, permit.acquiredAt)
                && Shows(limits[i], old(permit.costs), costs, old(permit.used), permit.used, store.keys[i])
    {
      var changes, any := AdjustArgs(permit.costs, costs);
      if any {
        var used := store.RateAdjust(permit.identifier, now, permit.acquiredAt, changes);
        ApplyAdjustment(permit, costs, used);
      } else {
        NothingChanges(limits, permit.costs, costs, store.keys, permit.identifier, now, permit.acquiredAt);
      }
    }

    /** A refusal changes nothing; otherwise every limit whose cost changes is settled, and no other. */
    method Adjust(permit: RatePermit, cost: Cost, now: int) returns (error: Option<AdjustError>)
      requires Valid()
      modifies permit, store
      ensures Valid()
      ensures error.Some? ==> unchanged(permit) && unchanged(store)
      ensures error.None? ==>
                old(permit.costs).Keys == permit.costs.Keys && Replaces(permit.costs, old(permit.costs), cost)
      ensures error.None? ==>
                forall i :: 0 <= i < |limits| ==>
                  Settles(limits[i], old(permit.costs), permit.costs, old(store.keys)[i], store.keys[i],
                          permit.identifier, now, permit.acquiredAt)
                  && Shows(limits[i], old(permit.costs), permit.costs, old(permit.used), permit.used, store.keys[i])
    {
      var costs;
      costs, error := ResolveAdjustment(permit, cost);
      if error.None? {
        Settle(permit, costs, now);
      }
    }

    method ApplyAdjustment(permit: RatePermit, costs: map<string, nat>, used: seq<Option<int>>)
      requires |used| == |limits| && Valid()
      modifies permit
      ensures permit.costs == costs
      ensures forall i :: 0 <= i < |limits| ==>
                Entered(limits[i].name, used[i], old(permit.used), permit.used)
    {
      permit.costs := costs;
      for i := 0 to |limits|
        invariant permit.costs == costs
        invariant forall j :: 0 <= j < i ==> Entered(limits[j].name, used[j], old(permit.used), permit.used)
        invariant forall j :: i <= j < |limits| ==> Entered(limits[j].name, None, old(permit.used), permit.used)
      {
        if used[i].Some? {
          permit.used := permit.used[limits[i].name := used[i].value];
        }
      }
    }
  }

  // -- a permit's costs are what the logs hold ------------------------------------------------

  /**
  Under `id` the log holds exactly the permit's cost, once, at the time of admission - until
  it leaves the window.
  */
  ghost predicate Holds(k: LimitKeys, cutoff: int, id: string, at: int, cost: nat) {
    && (forall x :: x in k.log && x.member.id == id ==> x == Entry(at, Member(cost, id)) && cost > 0)
    && (cost > 0 && at > cutoff ==> Entry(at, Member(cost, id)) in k.log)
  }

  lemma SweptHolds(k: LimitKeys, before: int, now: int, window: nat, id: string, at: int, cost: nat)
    requires Sound(k, before, window) && before <= now && Holds(k, before - window, id, at, cost)
    ensures Holds(Swept(k, now, window), now - window, id, at, cost)
  {
    SweptSound(k, before, now, window);
    forall x ensures x in Live(k.log, now - window) ==> x in k.log {
      LiveMembers(k.log, now - window, x);
    }
    LiveMembers(k.log, now - window, Entry(at, Member(cost, id)));
  }

  /** Nothing is logged any more, or the adjustment names the logged cost as the old one or as the new one. */
  predicate Knows(cutoff: int, at: int, cost: nat, before: nat, after: nat) {
    cost == 0 || at <= cutoff || before == cost || after == cost
  }

  /**
  With `cost` in the log, the permit's new cost is what the log holds after an adjustment
  exactly if the adjustment is the first of its kind or a resend - it knows the logged
  cost - or the charge is gone. A client that gave up on a lost reply knows neither.
  */
  lemma SettleHolds(k: LimitKeys, now: int, window: nat, id: string, at: int, cost: nat, before: nat, after: nat)
    requires AllAfter(k.log, now - window) && Holds(k, now - window, id, at, cost)
    ensures Holds(Settle(k, now, window, at, Member(before, id), Member(after, id)), now - window, id, at, after)
            <==> Knows(now - window, at, cost, before, after)
  {
    SettledEntries(k, now, window, at, Member(before, id), Member(after, id));
    var e := Entry(at, Member(cost, id));
    forall x | x in k.log && x.member.id == id ensures x.at > now - window {
      var i :| 0 <= i < |k.log| && k.log[i] == x;
    }
    if !Knows(now - window, at, cost, before, after) {
      assert e in k.log && e in Settle(k, now, window, at, Member(before, id), Member(after, id)).log;
    }
  }

  lemma OthersSettleHolds(k: LimitKeys, now: int, window: nat, id: string, at: int, cost: nat,
                          stamp: int, before: Member, after: Member)
    requires Holds(k, now - window, id, at, cost) && before.id != id && after.id != id
    ensures Holds(Settle(k, now, window, stamp, before, after), now - window, id, at, cost)
  {
    SettledEntries(k, now, window, stamp, before, after);
  }

  lemma OthersChargeHolds(k: LimitKeys, now: int, c: Charge, other: string, id: string, at: int, cost: nat)
    requires Holds(k, now - c.window, id, at, cost) && other != id
    ensures Holds(Admit(k, c, other, now), now - c.window, id, at, cost)
  {
    InsertMembers(k.log, Entry(now, Member(c.cost, other)));
  }

  ghost predicate AllHold(limits: seq<Limit>, ks: seq<LimitKeys>, now: int, id: string, at: int, costs: seq<nat>) {
    && |ks| == |limits| == |costs|
    && forall i :: 0 <= i < |limits| ==> OneHolds(limits[i], ks[i], now, id, at, costs[i])
  }

  ghost predicate OneHolds(l: Limit, k: LimitKeys, now: int, id: string, at: int, cost: nat) {
    Sound(k, now, l.window) && Holds(k, now - l.window, id, at, cost)
  }

  /**
  Calls that leave the permit's charge to its owner: others use other identifiers, and the
  owner's adjustments - first calls and resends - know the cost that is logged.
  */
  predicate Respects(limits: seq<Limit>, t: Timed, id: string, at: int, costs: seq<nat>)
    requires |costs| == |limits|
  {
    match t.call
    case AcquireCall(other, _) => other != id
    case AdjustCall(other, stamp, changes) =>
      other == id ==>
        && stamp == at && |changes| == |costs|
        && forall i :: 0 <= i < |costs| && changes[i].Some? ==>
             Knows(t.now - limits[i].window, at, costs[i], changes[i].value.before, changes[i].value.after)
    case StatusCall => true
  }

  function CostsAfter(costs: seq<nat>, call: Call, id: string): (r: seq<nat>)
    ensures |r| == |costs|
  {
    if call.AdjustCall? && call.id == id && |call.changes| == |costs| then
      seq(|costs|, i requires 0 <= i < |costs| =>
        if call.changes[i].Some? then call.changes[i].value.after else costs[i])
    else costs
  }

  lemma LaterHolds(l: Limit, k: LimitKeys, before: int, now: int, id: string, at: int, cost: nat)
    requires OneHolds(l, k, before, id, at, cost) && before <= now
    ensures OneHolds(l, k, now, id, at, cost)
  {
  }

  lemma SweepHolds(l: Limit, k: LimitKeys, before: int, now: int, id: string, at: int, cost: nat)
    requires OneHolds(l, k, before, id, at, cost) && before <= now
    ensures OneHolds(l, Swept(k, now, l.window), now, id, at, cost)
        && AllAfter(Swept(k, now, l.window).log, now - l.window)
  {
    SweptSound(k, before, now, l.window);
    SweptHolds(k, before, now, l.window, id, at, cost);
  }

  lemma AdjustHolds(l: Limit, k: LimitKeys, before: int, now: int, id: string, at: int, cost: nat,
                    other: string, stamp: int, c: Resettle, k': LimitKeys)
    requires OneHolds(l, k, before, id, at, cost) && before <= now && stamp <= now
    requires other == id ==> stamp == at && Knows(now - l.window, at, cost, c.before, c.after)
    requires k' == AdjustOne(k, Some(Change(l.window, c.before, c.after)), other, now, stamp)
    ensures OneHolds(l, k', now, id, at, if other == id then c.after else cost)
  {
    var s := Swept(k, now, l.window);
    SweepHolds(l, k, before, now, id, at, cost);
    SettleSound(s, now, l.window, stamp, Member(c.before, other), Member(c.after, other));
    if other == id {
      SettleHolds(s, now, l.window, id, at, cost, c.before, c.after);
    } else {
      OthersSettleHolds(s, now, l.window, id, at, cost, stamp, Member(c.before, other), Member(c.after, other));
    }
  }

  lemma AcquireHolds(l: Limit, k: LimitKeys, before: int, now: int, id: string, at: int, cost: nat, other: string,
                     charged: nat)
    requires OneHolds(l, k, before, id, at, cost) && before <= now && other != id
    ensures OneHolds(l, Swept(k, now, l.window), now, id, at, cost)
    ensures OneHolds(l, Admit(Swept(k, now, l.window), Charge(l.limit, l.window, charged), other, now),
                     now, id, at, cost)
  {
    var s := Swept(k, now, l.window);
    SweepHolds(l, k, before, now, id, at, cost);
    RecordSound(s, now, l.window, Member(charged, other));
    OthersChargeHolds(s, now, Charge(l.limit, l.window, charged), other, id, at, cost);
  }

  lemma StepHolds(limits: seq<Limit>, ks: seq<LimitKeys>, before: int, t: Timed, id: string, at: int, costs: seq<nat>)
    requires AllHold(limits, ks, before, id, at, costs) && before <= t.now && WellFormed(limits, t.call)
    requires (t.call.AdjustCall? ==> t.call.at <= t.now) && Respects(limits, t, id, at, costs)
    ensures AllHold(limits, StoreStep(limits, ks, t).0, t.now, id, at, CostsAfter(costs, t.call, id))
  {
    var ks' := StoreStep(limits, ks, t).0;
    forall i | 0 <= i < |limits|
      ensures OneHolds(limits[i], ks'[i], t.now, id, at, CostsAfter(costs, t.call, id)[i])
    {
      match t.call
      case AcquireCall(other, charged) =>
        AcquireHolds(limits[i], ks[i], before, t.now, id, at, costs[i], other, charged[i]);
      case AdjustCall(other, stamp, changes) =>
        if changes[i].Some? {
          AdjustHolds(limits[i], ks[i], before, t.now, id, at, costs[i], other, stamp, changes[i].value, ks'[i]);
        } else {
          LaterHolds(limits[i], ks[i], before, t.now, id, at, costs[i]);
        }
      case StatusCall =>
        SweepHolds(limits[i], ks[i], before, t.now, id, at, costs[i]);
    }
  }

  /** The permit's calls and everyone else's, in the order the server runs them. */
  ghost predicate AllRespect(limits: seq<Limit>, run: seq<Timed>, id: string, at: int, costs: seq<nat>)
    requires |costs| == |limits|
    decreases |run|
  {
    run == [] || (Respects(limits, run[0], id, at, costs)
      && AllRespect(limits, run[1..], id, at, CostsAfter(costs, run[0].call, id)))
  }

  function FinalCosts(run: seq<Timed>, id: string, costs: seq<nat>): seq<nat>
    decreases |run|
  {
    if run == [] then costs else FinalCosts(run[1..], id, CostsAfter(costs, run[0].call, id))
  }

  /**
  However often a permit is adjusted, with lost replies and resends, and whatever others
  acquire, adjust or look up in between: until it leaves a window each log holds the
  permit's current cost, once, at the time of admission, and nothing else under its
  identifier.
  */
  lemma {:induction false} PermitIsItsCharge(limits: seq<Limit>, ks: seq<LimitKeys>, start: int, run: seq<Timed>,
                                             id: string, at: int, costs: seq<nat>)
    requires AllHold(limits, ks, start, id, at, costs) && Clocked(limits, start, run)
    requires AllRespect(limits, run, id, at, costs)
    ensures AllHold(limits, RunStore(limits, ks, start, run).0, LastTime(start, run),
                    id, at, FinalCosts(run, id, costs))
    decreases |run|
  {
    if run != [] {
      StepHolds(limits, ks, start, run[0], id, at, costs);
      PermitIsItsCharge(limits, StoreStep(limits, ks, run[0]).0, run[0].now, run[1..],
                        id, at, CostsAfter(costs, run[0].call, id));
    }
  }

  predicate Unused(k: LimitKeys, id: string) {
    forall x :: x in k.log ==> x.member.id != id
  }

  lemma SweptUnused(k: LimitKeys, before: int, now: int, window: nat, id: string)
    requires Sound(k, before, window) && before <= now && Unused(k, id)
    ensures Unused(Swept(k, now, window), id) && forall cost :: !Has(Swept(k, now, window).log, Member(cost, id))
  {
    SweptSound(k, before, now, window);
    var s := Swept(k, now, window);
    forall x | x in s.log ensures x.member.id != id {
      LiveMembers(k.log, now - window, x);
    }
    forall cost ensures !Has(s.log, Member(cost, id)) {
      forall j | 0 <= j < |s.log| ensures s.log[j].member != Member(cost, id) {
        assert s.log[j] in s.log;
      }
    }
  }

  lemma ChargeHolds(l: Limit, s: LimitKeys, now: int, id: string, cost: nat)
    requires Sound(s, now, l.window) && Unused(s, id) && !Has(s.log, Member(cost, id))
    ensures OneHolds(l, Admit(s, Charge(l.limit, l.window, cost), id, now), now, id, now, cost)
  {
    RecordSound(s, now, l.window, Member(cost, id));
    InsertMembers(s.log, Entry(now, Member(cost, id)));
  }

  /** What an admitted request that was never charged before leaves is where that starts. */
  lemma AdmissionHolds(limits: seq<Limit>, ks: seq<LimitKeys>, before: int, now: int, id: string, costs: seq<nat>)
    requires |ks| == |limits| == |costs| && before <= now
    requires forall i :: 0 <= i < |limits| ==> Sound(ks[i], before, limits[i].window) && Unused(ks[i], id)
    requires Retry(ks, Charges(limits, costs), id, now) == 0
    ensures AllHold(limits, AcquireKeys(ks, Charges(limits, costs), id, now), now, id, now, costs)
  {
    var cs := Charges(limits, costs);
    var sw := SweepAll(ks, cs, now);
    forall i | 0 <= i < |limits| ensures OneHolds(limits[i], AdmitAll(sw, cs, id, now)[i], now, id, now, costs[i]) {
      SweptSound(ks[i], before, now, limits[i].window);
      SweptUnused(ks[i], before, now, limits[i].window, id);
      ChargeHolds(limits[i], sw[i], now, id, costs[i]);
    }
  }
}
