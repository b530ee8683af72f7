/**
The order of first runs - those a handler sees as not reclaimed: an entry has at
most one, ever, in any worker; and while leaders follow one another without
overlapping, first runs start in stream order, one unsettled handler at a time.
*/
module DispatchOrder {
  import opened Dispatch
  import opened DispatchSafety

  /** Entries a worker has read as new and may still start a first run of. */
  function FirstPending(w: Worker): set<nat> {
    match w.lead
    case Asking(kind, _, reply) => if kind.Read? && reply.Some? then Elems(reply.value) else {}
    case Batch(todo, reclaimed) => if reclaimed then {} else Elems(todo)
    case Dropping(_, _, todo, reclaimed) => if reclaimed then {} else Elems(todo)
    case Awaiting(_, todo, reclaimed) => if reclaimed then {} else Elems(todo)
    case _ => {}
  }

  predicate NewlyRead(s: Server, s': Server, e: nat) {
    e == s.delivered && s'.delivered == e + 1
  }

  ghost predicate Moves(s: Server, s': Server, w: Worker, w': Worker, start: seq<nat>) {
    && s.delivered <= s'.delivered && |start| <= 1
    && (forall e :: e in FirstPending(w') ==> (e in FirstPending(w) && e !in start) || NewlyRead(s, s', e))
    && (forall e :: e in start ==> e in FirstPending(w) && forall d :: d in FirstPending(w') ==> e < d)
    && (FirstPending(w) != {} ==> !w.lead.NotLeading?)
    && (forall e :: e in FirstPending(w') ==> !w'.lead.NotLeading?)
  }

  lemma SeekMoves(cfg: Config, s: Server, w: Worker, act: SeekAct)
    requires CanSeek(w, act) && AskingInv(s, w)
    ensures Moves(s, s, w, AfterSeek(w, act), [])
  {
  }

  lemma BatchMoves(cfg: Config, s: Server, w: Worker, act: BatchAct)
    requires CanBatch(cfg, s, w, act) && Ascending(Todo(w.lead))
    ensures Moves(s, s, w, AfterBatch(cfg, s, w, act), FirstStart(w, Batching(act)))
  {
  }

  lemma LeaveMoves(cfg: Config, s: Server, w: Worker, act: LeaveAct)
    requires CanLeave(cfg, w, act)
    ensures Moves(s, s, w, AfterLeave(cfg, w, act), [])
  {
  }

  lemma ExecuteMoves(cfg: Config, s: Server, name: string, w: Worker, command: Command)
    requires CanExecute(cfg, s, name, w, command)
    ensures Moves(s, ServerAfter(cfg, s, name, w, command), w, AfterExecute(cfg, s, name, w, command), [])
  {
  }

  function ServerThen(cfg: Config, s: Server, name: string, w: Worker, act: Act): Server
    requires Enabled(cfg, s, name, w, act)
  {
    if act.Execute? then ServerAfter(cfg, s, name, w, act.command) else s
  }

  /**
  What a worker may first-start after a step it already could before, or it has just been
  delivered; a start uses it up.
  */
  lemma ActMoves(cfg: Config, s: Server, name: string, w: Worker, act: Act)
    requires AskingInv(s, w) && Ascending(Todo(w.lead)) && Enabled(cfg, s, name, w, act)
    ensures Moves(s, ServerThen(cfg, s, name, w, act), w, WorkerAfter(cfg, s, name, w, act), FirstStart(w, act))
  {
    match act
    case Seek(a) => SeekMoves(cfg, s, w, a);
    case Batching(a) => BatchMoves(cfg, s, w, a);
    case Leaving(a) => LeaveMoves(cfg, s, w, a);
    case Execute(c) => ExecuteMoves(cfg, s, name, w, c);
    case _ =>
  }

  ghost predicate QueueMoves(q: Queue, q': Queue, name: string, start: seq<nat>) {
    && Moves(q.server, q'.server, WorkerOf(q, name), WorkerOf(q', name), start)
    && q'.workers == q.workers[name := WorkerOf(q', name)] && q'.firstStarts == q.firstStarts + start
  }

  lemma NextMoves(cfg: Config, q: Queue, name: string, act: Act)
    requires QueueInv(cfg, q) && Enabled(cfg, q.server, name, WorkerOf(q, name), act)
    ensures QueueMoves(q, Next(cfg, q, Act(name, act)), name, FirstStart(WorkerOf(q, name), act))
  {
    var w := WorkerOf(q, name);
    assert AskingInv(q.server, w) && Ascending(Todo(w.lead)) by {
      assert name in q.workers ==> WorkerInv(cfg, q.server, q.workers[name]);
    }
    ActMoves(cfg, q.server, name, w, act);
  }

  ghost predicate Idles(q: Queue, q': Queue) {
    q'.workers == q.workers && q'.firstStarts == q.firstStarts && q'.server.delivered == q.server.delivered
  }

  /** A step moves the first starts of the worker that acts, or none. */
  lemma StepMoves(cfg: Config, q: Queue, step: Step)
    requires QueueInv(cfg, q)
    ensures
      || Idles(q, Next(cfg, q, step))
      || (step.Act? && QueueMoves(q, Next(cfg, q, step), step.name, FirstStart(WorkerOf(q, step.name), step.act)))
  {
    if step.Act? && Enabled(cfg, q.server, step.name, WorkerOf(q, step.name), step.act) {
      NextMoves(cfg, q, step.name, step.act);
    }
  }

  // -- at most one first run of an entry -----------------------------------------------------

  predicate MayFirstStart(q: Queue, n: string, e: nat) {
    n in q.workers && e in FirstPending(q.workers[n])
  }

  ghost predicate PendingInv(q: Queue) {
    && (forall n, e: nat :: MayFirstStart(q, n, e) ==> e < q.server.delivered && e !in q.firstStarts)
    && (forall n, m, e: nat :: MayFirstStart(q, n, e) && MayFirstStart(q, m, e) ==> n == m)
    && (forall e :: e in q.firstStarts ==> e < q.server.delivered)
  }

  ghost predicate AllDistinct(s: seq<nat>) {
    forall i, j :: 0 <= i < j < |s| ==> s[i] != s[j]
  }

  /** Where a chance to start first comes from. */
  lemma MayMoves(q: Queue, q': Queue, name: string, start: seq<nat>, n: string, e: nat)
    requires QueueMoves(q, q', name, start) && MayFirstStart(q', n, e)
    ensures (MayFirstStart(q, n, e) && (n == name ==> e !in start)) || (n == name && NewlyRead(q.server, q'.server, e))
  {
  }

  lemma PendingKept(q: Queue, q': Queue, name: string, start: seq<nat>)
    requires PendingInv(q) && AllDistinct(q.firstStarts) && QueueMoves(q, q', name, start)
    ensures PendingInv(q') && AllDistinct(q'.firstStarts)
  {
    assert forall e :: e in start ==> MayFirstStart(q, name, e);
    forall n, e: nat | MayFirstStart(q', n, e)
      ensures e < q'.server.delivered && e !in q'.firstStarts
      ensures forall m :: MayFirstStart(q', m, e) ==> n == m
    {
      MayMoves(q, q', name, start, n, e);
      forall m | MayFirstStart(q', m, e) ensures n == m {
        MayMoves(q, q', name, start, m, e);
      }
    }
    forall i, j | 0 <= i < j < |q'.firstStarts| ensures q'.firstStarts[i] != q'.firstStarts[j] {
      if j >= |q.firstStarts| {
        assert q'.firstStarts[i] in q.firstStarts && q'.firstStarts[j] in start;
      }
    }
  }

  lemma PendingStep(cfg: Config, q: Queue, step: Step, q': Queue)
    requires QueueInv(cfg, q) && PendingInv(q) && AllDistinct(q.firstStarts) && q' == Next(cfg, q, step)
    ensures PendingInv(q') && AllDistinct(q'.firstStarts)
  {
    StepMoves(cfg, q, step);
    if Idles(q, q') {
      assert forall n, e: nat :: MayFirstStart(q', n, e) ==> MayFirstStart(q, n, e);
    } else {
      PendingKept(q, q', step.name, FirstStart(WorkerOf(q, step.name), step.act));
    }
  }

  lemma {:induction false} PendingRun(cfg: Config, q: Queue, steps: seq<Step>)
    requires QueueInv(cfg, q) && PendingInv(q) && AllDistinct(q.firstStarts)
    ensures AllDistinct(RunSteps(cfg, q, steps).firstStarts)
    decreases |steps|
  {
    if steps != [] {
      PendingStep(cfg, q, steps[0], Next(cfg, q, steps[0]));
      NextKeeps(cfg, q, steps[0]);
      PendingRun(cfg, Next(cfg, q, steps[0]), steps[1..]);
    }
  }

  /** Over all workers and all time no entry starts twice as a first run, whoever leads and however often. */
  lemma OneFirstRun(cfg: Config, steps: seq<Step>)
    ensures AllDistinct(RunSteps(cfg, EMPTY, steps).firstStarts)
  {
    PendingRun(cfg, EMPTY, steps);
  }

  // -- first in, first out under exclusive leadership ------------------------------------------

  predicate Leads(q: Queue, name: string) {
    name in q.workers && !q.workers[name].lead.NotLeading?
  }

  ghost predicate OneLeader(q: Queue) {
    forall n, m :: Leads(q, n) && Leads(q, m) ==> n == m
  }

  /** In every state of the run at most one worker leads the queue. */
  ghost predicate Exclusive(cfg: Config, q: Queue, steps: seq<Step>)
    decreases |steps|
  {
    OneLeader(q) && (steps != [] ==> Exclusive(cfg, Next(cfg, q, steps[0]), steps[1..]))
  }

  ghost predicate FifoInv(q: Queue) {
    && Ascending(q.firstStarts)
    && forall n, e: nat, x :: MayFirstStart(q, n, e) && x in q.firstStarts ==> x < e
  }

  lemma FifoKept(q: Queue, q': Queue, name: string, start: seq<nat>)
    requires PendingInv(q) && FifoInv(q) && OneLeader(q) && OneLeader(q') && QueueMoves(q, q', name, start)
    ensures FifoInv(q')
  {
    assert forall e :: e in start ==> MayFirstStart(q, name, e) && Leads(q, name);
    forall n, e: nat, x | MayFirstStart(q', n, e) && x in q'.firstStarts
      ensures x < e
    {
      MayMoves(q, q', name, start, n, e);
      if MayFirstStart(q, n, e) {
        assert n != name ==> Leads(q', n) && Leads(q, n);
      }
    }
    forall i, j | 0 <= i < j < |q'.firstStarts| ensures q'.firstStarts[i] < q'.firstStarts[j] {
      if j >= |q.firstStarts| {
        assert q'.firstStarts[i] in q.firstStarts && q'.firstStarts[j] in start;
      }
    }
  }

  lemma FifoStep(cfg: Config, q: Queue, step: Step, q': Queue)
    requires QueueInv(cfg, q) && PendingInv(q) && FifoInv(q) && OneLeader(q) && q' == Next(cfg, q, step)
        && OneLeader(q')
    ensures FifoInv(q')
  {
    StepMoves(cfg, q, step);
    if Idles(q, q') {
      assert forall n, e: nat :: MayFirstStart(q', n, e) ==> MayFirstStart(q, n, e);
    } else {
      FifoKept(q, q', step.name, FirstStart(WorkerOf(q, step.name), step.act));
    }
  }

  lemma {:induction false} FifoRun(cfg: Config, q: Queue, steps: seq<Step>)
    requires QueueInv(cfg, q) && PendingInv(q) && FifoInv(q) && Exclusive(cfg, q, steps)
    ensures FifoInv(RunSteps(cfg, q, steps)) && OneLeader(RunSteps(cfg, q, steps))
    decreases |steps|
  {
    if steps != [] {
      assert AllDistinct(q.firstStarts);
      PendingStep(cfg, q, steps[0], Next(cfg, q, steps[0]));
      FifoStep(cfg, q, steps[0], Next(cfg, q, steps[0]));
      NextKeeps(cfg, q, steps[0]);
      FifoRun(cfg, Next(cfg, q, steps[0]), steps[1..]);
    }
  }

  /** First runs start in stream order over any sequence of leaders, as long as no two lead at once. */
  lemma FirstStartsInStreamOrder(cfg: Config, steps: seq<Step>)
    requires Exclusive(cfg, EMPTY, steps)
    ensures Ascending(RunSteps(cfg, EMPTY, steps).firstStarts)
  {
    FifoRun(cfg, EMPTY, steps);
  }

  /** And then at most one handler of the queue is neither admitted nor over. */
  lemma SerializedAdmission(cfg: Config, steps: seq<Step>, n: string, m: string, r: nat, p: nat)
    requires Exclusive(cfg, EMPTY, steps)
    requires Unsettled(WorkerOf(RunSteps(cfg, EMPTY, steps), n), r)
        && Unsettled(WorkerOf(RunSteps(cfg, EMPTY, steps), m), p)
    ensures n == m && r == p
  {
    var q := RunSteps(cfg, EMPTY, steps);
    RunKeeps(cfg, EMPTY, steps);
    FifoRun(cfg, EMPTY, steps);
    assert OneUnsettled(q.workers[n]) && OneUnsettled(q.workers[m]);
    assert Leads(q, n) && Leads(q, m);
  }
}
