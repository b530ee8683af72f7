/**
The semaphore as a lease protocol. Clients and the server share one clock;
requests, executions and replies are separate steps, replies get lost, requests
execute late or more than once, and key expiry happens in between.
*/
module Lease {
  import opened Options
  import opened SemaphoreLaws
  import opened SemaphoreScripts
  import opened Sets

  /** Every client may use its own lock_timeout. */
  datatype Config = Config(limit: nat, timeout: string -> nat)

  /**
  What a client knows. `deadline` is the heartbeat's, set by a successful refresh:
  the attempt's start plus the timeout. `expiresAt` is the last expiry the server
  answered. An attempt in flight remembers when it began and whether an
  execution of it has succeeded.
  */
  datatype Client = Client(released: bool, began: Option<int>, ok: bool, deadline: Option<int>, expiresAt: Option<int>)

  /** A fencing token, in the order the tokens were issued. */
  datatype Grant = Grant(id: string, token: nat)

  /** `applied` lists the writes a token-checking resource let through, by grant. */
  datatype World = World(now: int, slots: Slots, clients: map<string, Client>,
                         grants: seq<Grant>, highest: nat, applied: seq<nat>)

  datatype Step =
    | Tick(ms: nat)
    | AcquireExec(id: string)
    | RefreshBegin(id: string)
    | RefreshExec(id: string)
    | RefreshDone(id: string)
    | RefreshError(id: string)
    | RefreshLost(id: string)
    | ReleaseBegin(id: string)
    | ReleaseExec(id: string)
    | Sweep
    | Write(grant: nat)

  function Start(now: int): World {
    World(now, FREE, map[], [], 0, [])
  }

  const NEWCOMER := Client(false, None, false, None, None)

  function Known(w: World, id: string): Client {
    if id in w.clients then w.clients[id] else NEWCOMER
  }

  predicate Enabled(w: World, step: Step) {
    match step
    case RefreshBegin(id) => id in w.clients && !w.clients[id].released && w.clients[id].began.None?
    case RefreshExec(id) => id in w.clients
    case RefreshDone(id) => id in w.clients && !w.clients[id].released && w.clients[id].began.Some? && w.clients[id].ok
    case RefreshError(id) => id in w.clients
    case RefreshLost(id) => id in w.clients
    case ReleaseBegin(id) => id in w.clients
    case ReleaseExec(id) => id in w.clients && w.clients[id].released
    case Write(grant) => grant < |w.grants|
    case _ => true
  }

  /** One step; a step that is not enabled does nothing. */
  function Apply(cfg: Config, w: World, step: Step): World {
    if !Enabled(w, step) then w
    else
      match step
      case Tick(ms) => w.(now := w.now + ms)
      case AcquireExec(id) => ExecAcquire(cfg, w, id)
      case RefreshBegin(id) => w.(clients := w.clients[id := w.clients[id].(began := Some(w.now), ok := false)])
      case RefreshExec(id) => ExecRefresh(cfg, w, id)
      case RefreshDone(id) =>
        var c := w.clients[id];
        w.(clients := w.clients[id := c.(began := None, ok := false,
                                         deadline := Some(c.began.value + cfg.timeout(id)))])
      case RefreshError(id) => w.(clients := w.clients[id := w.clients[id].(began := None, ok := false)])
      case RefreshLost(id) =>
        w.(clients := w.clients[id := w.clients[id].(began := None, ok := false, deadline := None, expiresAt := None)])
      case ReleaseBegin(id) =>
        w.(clients := w.clients[id := Client(true, None, false, None, None)])
      case ReleaseExec(id) => w.(slots := ReleaseSlots(w.slots, id, w.now))
      case Sweep => w.(slots := Swept(w.slots, w.now))
      case Write(grant) =>
        var token := w.grants[grant].token;
        if token >= w.highest then w.(highest := token, applied := w.applied + [grant]) else w
  }

  /** The acquire script runs; its reply tells the client a new expiry and a token. */
  function ExecAcquire(cfg: Config, w: World, id: string): World {
    var w' := w.(slots := AcquireSlots(w.slots, id, cfg.limit, cfg.timeout(id), w.now));
    match Acquire(w.slots, id, cfg.limit, cfg.timeout(id), w.now)
    case Busy(_) => w'
    case Granted(token, expires, _) =>
      var c := Known(w, id);
      w'.(grants := w.grants + [Grant(id, token)],
          clients := w.clients[id := if c.released then c else c.(expiresAt := Some(expires))])
  }

  /** The refresh script runs - for an attempt in flight, or late for one given up. */
  function ExecRefresh(cfg: Config, w: World, id: string): World
    requires id in w.clients
  {
    var w' := w.(slots := RefreshSlots(w.slots, id, cfg.timeout(id), w.now));
    var c := w.clients[id];
    if Held(w.slots, id, w.now) && !c.released then
      w'.(clients := w.clients[id := c.(ok := c.ok || c.began.Some?, expiresAt := Some(w.now + cfg.timeout(id)))])
    else w'
  }

  function Run(cfg: Config, w: World, steps: seq<Step>): World
    decreases |steps|
  {
    if steps == [] then w else Run(cfg, Apply(cfg, w, steps[0]), steps[1..])
  }

  // -- what a client may believe ------------------------------------------------------

  predicate Later(t: Option<int>, now: int) {
    t.Some? && t.value > now
  }

  /** The unreleased clients that believe, by deadline or reported expiry, to hold a slot. */
  ghost function Believers(w: World): set<string> {
    set id | id in w.clients && !w.clients[id].released
             && (Later(w.clients[id].deadline, w.now) || Later(w.clients[id].expiresAt, w.now))
  }

  /** As long as `t` is in the future, the server holds an entry of `id` that lasts until then. */
  ghost predicate Covered(w: World, id: string, t: Option<int>) {
    Later(t, w.now) ==> id in w.slots.owners && w.slots.owners[id] >= t.value
  }

  /** What a reply still in flight would make the client believe. */
  function Promised(cfg: Config, id: string, c: Client): Option<int> {
    if c.began.Some? && c.ok then Some(c.began.value + cfg.timeout(id)) else None
  }

  ghost predicate ClientInv(cfg: Config, w: World, id: string)
    requires id in w.clients
  {
    var c := w.clients[id];
    && (c.began.Some? ==> c.began.value <= w.now)
    && Covered(w, id, c.deadline) && Covered(w, id, c.expiresAt) && Covered(w, id, Promised(cfg, id, c))
    && (c.released ==> c == Client(true, None, false, None, None))
  }

  ghost predicate Inv(cfg: Config, w: World) {
    && Bounded(w.slots, cfg.limit)
    && (forall id :: id in w.slots.owners ==> w.slots.owners[id] <= w.now + cfg.timeout(id))
    && (forall id :: id in w.clients ==> ClientInv(cfg, w, id))
  }

  /** What a script leaves: bounded keys, and no entry shortened that has not run out - `gone` excepted. */
  ghost predicate Preserves(cfg: Config, w: World, slots: Slots, gone: set<string>) {
    && Bounded(slots, cfg.limit)
    && (forall id :: id in slots.owners ==> slots.owners[id] <= w.now + cfg.timeout(id))
    && (forall id :: id !in gone && id in w.slots.owners && w.slots.owners[id] > w.now ==>
          id in slots.owners && slots.owners[id] >= w.slots.owners[id])
  }

  /** Client `id` is told of nothing that its new entry does not last for. */
  ghost predicate Learns(cfg: Config, w: World, slots: Slots, id: string, c: Client, c': Client) {
    && c'.released == c.released && c'.began == c.began && c'.deadline == c.deadline
    && (c' != c ==> !c.released && id in slots.owners && slots.owners[id] >= w.now + cfg.timeout(id))
    && c'.expiresAt in {c.expiresAt, Some(w.now + cfg.timeout(id))}
  }

  lemma ServerStepInv(cfg: Config, w: World, w': World, id: string, gone: set<string>)
    requires Inv(cfg, w) && w'.now == w.now && Preserves(cfg, w, w'.slots, gone)
    requires forall x :: x in gone && x in w.clients ==> w.clients[x].released
    requires forall x :: x in w'.clients && x != id ==> x in w.clients && w'.clients[x] == w.clients[x]
    requires id in w'.clients ==> Learns(cfg, w, w'.slots, id, Known(w, id), w'.clients[id])
    ensures Inv(cfg, w')
  {
    forall x | x in w'.clients ensures ClientInv(cfg, w', x) {
      if x in w.clients {
        assert ClientInv(cfg, w, x);
      }
    }
  }

  lemma AcquirePreserves(cfg: Config, w: World, id: string)
    requires Inv(cfg, w)
    ensures Preserves(cfg, w, AcquireSlots(w.slots, id, cfg.limit, cfg.timeout(id), w.now), {})
  {
    AcquireKeeps(w.slots, id, cfg.limit, cfg.timeout(id), w.now);
    AcquireEntry(w.slots, id, cfg.limit, cfg.timeout(id), w.now);
    SweptKeeps(w.slots, cfg.limit, w.now);
  }

  lemma AcquireInv(cfg: Config, w: World, id: string)
    requires Inv(cfg, w)
    ensures Inv(cfg, ExecAcquire(cfg, w, id))
  {
    var w' := ExecAcquire(cfg, w, id);
    AcquirePreserves(cfg, w, id);
    AcquireEntry(w.slots, id, cfg.limit, cfg.timeout(id), w.now);
    assert w'.slots == AcquireSlots(w.slots, id, cfg.limit, cfg.timeout(id), w.now) && w'.now == w.now;
    assert id in w'.clients ==> Learns(cfg, w, w'.slots, id, Known(w, id), w'.clients[id]);
    ServerStepInv(cfg, w, w', id, {});
  }

  lemma RefreshPreserves(cfg: Config, w: World, id: string)
    requires Inv(cfg, w)
    ensures Preserves(cfg, w, RefreshSlots(w.slots, id, cfg.timeout(id), w.now), {})
  {
    RefreshKeeps(w.slots, id, cfg.limit, cfg.timeout(id), w.now);
    RefreshEntry(w.slots, id, cfg.limit, cfg.timeout(id), w.now);
    SweptKeeps(w.slots, cfg.limit, w.now);
  }

  lemma RefreshInv(cfg: Config, w: World, id: string)
    requires Inv(cfg, w) && id in w.clients
    ensures Inv(cfg, ExecRefresh(cfg, w, id))
  {
    RefreshPreserves(cfg, w, id);
    RefreshEntry(w.slots, id, cfg.limit, cfg.timeout(id), w.now);
    ServerStepInv(cfg, w, ExecRefresh(cfg, w, id), id, {});
  }

  predicate OnServer(step: Step) {
    step.AcquireExec? || step.RefreshExec? || step.ReleaseExec? || step.Sweep?
  }

  lemma ServerActInv(cfg: Config, w: World, step: Step)
    requires Inv(cfg, w) && Enabled(w, step) && OnServer(step)
    ensures Inv(cfg, Apply(cfg, w, step))
  {
    match step
    case AcquireExec(id) => AcquireInv(cfg, w, id);
    case RefreshExec(id) => RefreshInv(cfg, w, id);
    case ReleaseExec(id) =>
      ReleaseKeeps(w.slots, id, cfg.limit, w.now);
      ServerStepInv(cfg, w, Apply(cfg, w, step), id, {id});
    case Sweep =>
      SweptKeeps(w.slots, cfg.limit, w.now);
      ServerStepInv(cfg, w, Apply(cfg, w, step), "", {});
  }

  lemma StepInv(cfg: Config, w: World, step: Step)
    requires Inv(cfg, w)
    ensures Inv(cfg, Apply(cfg, w, step))
  {
    if Enabled(w, step) {
      if OnServer(step) {
        ServerActInv(cfg, w, step);
      } else {
        ClientStepInv(cfg, w, Apply(cfg, w, step));
      }
    }
  }

  /** A step that leaves the server alone, and gives no client a belief that was not promised to it. */
  lemma ClientStepInv(cfg: Config, w: World, w': World)
    requires Inv(cfg, w) && w'.slots == w.slots && w'.now >= w.now
    requires forall id :: id in w'.clients ==> id in w.clients && Inherits(cfg, w, w', id)
    ensures Inv(cfg, w')
  {
    forall id | id in w'.clients ensures ClientInv(cfg, w', id) {
      assert ClientInv(cfg, w, id);
      assert Inherits(cfg, w, w', id);
    }
  }

  ghost predicate Inherits(cfg: Config, w: World, w': World, id: string)
    requires id in w.clients && id in w'.clients
  {
    var c, c' := w.clients[id], w'.clients[id];
    && c'.deadline in {None, c.deadline, Promised(cfg, id, c)}
    && c'.expiresAt in {None, c.expiresAt}
    && Promised(cfg, id, c') in {None, Promised(cfg, id, c)}
    && (c'.began.Some? ==> c'.began.value <= w'.now)
    && (c'.released ==> c' == Client(true, None, false, None, None))
  }

  lemma {:induction false} RunInv(cfg: Config, w: World, steps: seq<Step>)
    requires Inv(cfg, w)
    ensures Inv(cfg, Run(cfg, w, steps))
    decreases |steps|
  {
    if steps != [] {
      StepInv(cfg, w, steps[0]);
      RunInv(cfg, Apply(cfg, w, steps[0]), steps[1..]);
    }
  }

  /**
  At no moment of any run do more than `limit` unreleased clients believe to hold
  a slot, because the server still holds an unexpired entry of each of them.
  */
  lemma LeaseSafety(cfg: Config, start: int, steps: seq<Step>)
    ensures var w := Run(cfg, Start(start), steps);
            && |Believers(w)| <= cfg.limit
            && forall id :: id in Believers(w) ==>
                 id in Visible(w.slots, w.now).owners && Visible(w.slots, w.now).owners[id] > w.now
  {
    var w := Run(cfg, Start(start), steps);
    RunInv(cfg, Start(start), steps);
    forall id | id in Believers(w) ensures id in w.slots.owners && w.slots.owners[id] > w.now {
      assert ClientInv(cfg, w, id);
    }
    SubsetSize(Believers(w), w.slots.owners.Keys);
    SweptKeeps(w.slots, cfg.limit, w.now);
  }

  // -- where beliefs come from ------------------------------------------------------------

  /**
  An acquire that finds a free slot, or the caller's own, is granted: the client believes to
  hold it until one timeout from then, and has the next token.
  */
  lemma GrantIsBelieved(cfg: Config, w: World, id: string, w': World)
    requires Bounded(w.slots, cfg.limit) && !Known(w, id).released && cfg.timeout(id) > 0
    requires w' == Apply(cfg, w, AcquireExec(id))
    requires id in Holders(w.slots, w.now) || |Holders(w.slots, w.now)| < cfg.limit
    ensures id in Believers(w') && w'.clients[id].expiresAt == Some(w.now + cfg.timeout(id))
    ensures w'.grants == w.grants + [Grant(id, w.slots.fencing + 1)] && w'.slots.fencing == w.slots.fencing + 1
  {
    var reply := Acquire(w.slots, id, cfg.limit, cfg.timeout(id), w.now);
    assert reply.Granted? by {
      GrantedExactly(w.slots, id, cfg.limit, cfg.timeout(id), w.now);
    }
    assert reply.token == w'.slots.fencing == w.slots.fencing + 1 && reply.expires == w.now + cfg.timeout(id) by {
      AcquireEntry(w.slots, id, cfg.limit, cfg.timeout(id), w.now);
    }
  }

  /**
  A refresh that begins, runs `a` later and is answered `b` after that, and whose entry had
  not run out when it ran, moves the deadline to one timeout after it began, and the expiry
  the client was told to one timeout after it ran.
  */
  lemma RefreshMovesDeadline(cfg: Config, w: World, id: string, a: nat, b: nat)
    requires Bounded(w.slots, cfg.limit)
    requires id in w.clients && !w.clients[id].released && w.clients[id].began.None?
    requires id in w.slots.owners && w.slots.owners[id] >= w.now + a
    ensures var w' := Apply(cfg, Refreshing(cfg, w, id, a, b), RefreshDone(id));
            && w'.now == w.now + a + b && w'.clients.Keys == w.clients.Keys
            && w'.clients[id] == w.clients[id].(began := None, ok := false,
                                                deadline := Some(w.now + cfg.timeout(id)),
                                                expiresAt := Some(w.now + a + cfg.timeout(id)))
  {
    assert Held(w.slots, id, w.now + a);
  }

  function Refreshing(cfg: Config, w: World, id: string, a: nat, b: nat): World {
    Apply(cfg, Apply(cfg, Apply(cfg, Apply(cfg, w, RefreshBegin(id)), Tick(a)), RefreshExec(id)), Tick(b))
  }

  /**
  A client that is told its lock is lost, or gives it back, believes no more; its release
  takes the entry out.
  */
  lemma BeliefEnds(cfg: Config, w: World, id: string)
    requires id in w.clients
    ensures id !in Believers(Apply(cfg, w, RefreshLost(id))) && id !in Believers(Apply(cfg, w, ReleaseBegin(id)))
    ensures id !in Apply(cfg, Apply(cfg, w, ReleaseBegin(id)), ReleaseExec(id)).slots.owners
  {
  }

  // -- the first deadline ---------------------------------------------------------------

  /** An acquire granted at `at` is backed by an entry exactly until one timeout later, if nobody calls for it again. */
  lemma GrantedUntil(s: Slots, limit: nat, a: string, timeout: nat, at: int, u: int)
    requires Bounded(s, limit) && Acquire(s, a, limit, timeout, at).Granted? && at <= u
    ensures a in Swept(AcquireSlots(s, a, limit, timeout, at), u).owners <==> u < at + timeout
  {
    AcquireKeeps(s, a, limit, timeout, at);
    AcquireEntry(s, a, limit, timeout, at);
    SweptKeeps(AcquireSlots(s, a, limit, timeout, at), limit, u);
  }

  /**
  The heartbeat's first deadline counts from when the loop started, after the acquire
  returned. Whatever the keys and the limit, a deadline set at `r` for an acquire that ran
  at `at` is covered until it runs out exactly if no time passed in between.
  */
  lemma FirstDeadlineCovered(s: Slots, limit: nat, a: string, timeout: nat, at: int, r: int)
    requires Bounded(s, limit) && Acquire(s, a, limit, timeout, at).Granted? && at <= r
    ensures (forall u :: at <= u < r + timeout ==> a in Swept(AcquireSlots(s, a, limit, timeout, at), u).owners)
        <==> r == at
  {
    forall u | at <= u ensures a in Swept(AcquireSlots(s, a, limit, timeout, at), u).owners <==> u < at + timeout {
      GrantedUntil(s, limit, a, timeout, at, u);
    }
    if at < r {
      var u := at + timeout;
      assert at <= u < r + timeout && a !in Swept(AcquireSlots(s, a, limit, timeout, at), u).owners;
    }
  }

  /**
  What that costs, with one slot acquired at `s` and the loop started at `r`: another
  client is let in at a time `u` the first one still trusts exactly if the server's entry
  has run out by then - for `r - s` milliseconds two clients believe to hold the slot.
  */
  lemma FirstDeadlineExposed(a: string, b: string, timeout: nat, s: int, r: int, u: int)
    requires a != b && s <= r && s <= u < r + timeout
    ensures Acquire(FREE, a, 1, timeout, s).Granted?
    ensures Acquire(AcquireSlots(FREE, a, 1, timeout, s), b, 1, timeout, u).Granted? <==> u >= s + timeout
  {
    var mine := AcquireSlots(FREE, a, 1, timeout, s);
    assert Swept(FREE, s).owners == map[];
    assert mine.owners == map[a := s + timeout];
    assert Top(mine.owners) == s + timeout;
    var swept := Swept(mine, u);
    if u < s + timeout {
      assert swept.owners == map[a := s + timeout];
    } else {
      assert swept.owners == map[];
    }
  }

  // -- fencing --------------------------------------------------------------------------

  /** Tokens strictly increase in the order they were granted, and writes were let through in that order. */
  ghost predicate Fenced(w: World) {
    && (forall i, j :: 0 <= i < j < |w.grants| ==> w.grants[i].token < w.grants[j].token)
    && (forall i :: 0 <= i < |w.grants| ==> w.grants[i].token <= w.slots.fencing)
    && (forall i :: 0 <= i < |w.applied| ==> w.applied[i] < |w.grants| && w.grants[w.applied[i]].token <= w.highest)
    && (forall i, j :: 0 <= i < j < |w.applied| ==> w.applied[i] <= w.applied[j])
  }

  lemma WriteFenced(cfg: Config, w: World, grant: nat)
    requires Fenced(w)
    ensures Fenced(Apply(cfg, w, Write(grant)))
  {
    if grant < |w.grants| && w.grants[grant].token >= w.highest {
      assert forall g :: grant < g < |w.grants| ==> w.grants[grant].token < w.grants[g].token;
      assert forall i :: 0 <= i < |w.applied| ==> w.applied[i] <= grant;
      var applied := w.applied + [grant];
      assert forall i :: 0 <= i < |applied| ==> applied[i] == if i < |w.applied| then w.applied[i] else grant;
    }
  }

  lemma GrantFenced(cfg: Config, w: World, id: string)
    requires Fenced(w)
    ensures Fenced(ExecAcquire(cfg, w, id))
  {
    AcquireEntry(w.slots, id, cfg.limit, cfg.timeout(id), w.now);
  }

  lemma StepFenced(cfg: Config, w: World, step: Step)
    requires Fenced(w)
    ensures Fenced(Apply(cfg, w, step))
  {
    match step
    case AcquireExec(id) => GrantFenced(cfg, w, id);
    case Write(grant) => WriteFenced(cfg, w, grant);
    case _ =>
      var w' := Apply(cfg, w, step);
      assert w'.slots.fencing == w.slots.fencing && w'.grants == w.grants;
      assert w'.applied == w.applied && w'.highest == w.highest;
  }

  /**
  Fencing over any run, with renewals, expirations and releases in any order: every
  granted token is larger than all before it, and a resource that refuses tokens
  below the highest seen never applies a holder's write after a later holder's.
  */
  lemma {:induction false} FencingOrdersWrites(cfg: Config, w: World, steps: seq<Step>)
    requires Fenced(w)
    ensures Fenced(Run(cfg, w, steps))
    decreases |steps|
  {
    if steps != [] {
      StepFenced(cfg, w, steps[0]);
      FencingOrdersWrites(cfg, Apply(cfg, w, steps[0]), steps[1..]);
    }
  }

  /** The resource remembers the token of the last write it let through. */
  ghost predicate Remembers(w: World) {
    && (w.applied == [] ==> w.highest == 0)
    && (w.applied != [] ==>
          var last := w.applied[|w.applied| - 1];
          last < |w.grants| && w.grants[last].token == w.highest)
  }

  lemma StepRemembers(cfg: Config, w: World, step: Step)
    requires Remembers(w)
    ensures Remembers(Apply(cfg, w, step))
  {
  }

  lemma {:induction false} RunRemembers(cfg: Config, w: World, steps: seq<Step>)
    requires Remembers(w)
    ensures Remembers(Run(cfg, w, steps))
    decreases |steps|
  {
    if steps != [] {
      StepRemembers(cfg, w, steps[0]);
      RunRemembers(cfg, Apply(cfg, w, steps[0]), steps[1..]);
    }
  }

  /** A write is let through exactly if no write with a larger token was. */
  lemma WriteLetThrough(cfg: Config, start: int, steps: seq<Step>, grant: nat)
    requires grant < |Run(cfg, Start(start), steps).grants|
    ensures var w := Run(cfg, Start(start), steps);
            && (forall i :: 0 <= i < |w.applied| ==> w.applied[i] < |w.grants|)
            && Apply(cfg, w, Write(grant)).applied ==
               if forall i :: 0 <= i < |w.applied| ==> w.grants[w.applied[i]].token <= w.grants[grant].token
               then w.applied + [grant] else w.applied
  {
    FencingOrdersWrites(cfg, Start(start), steps);
    RunRemembers(cfg, Start(start), steps);
  }
}
