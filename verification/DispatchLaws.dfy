/**
What the queue promises in every state a run reaches, whatever the workers, their
crashes and the server's timing do.
*/
module DispatchLaws {
  import opened Dispatch
  import opened DispatchSafety

  lemma Reachable(cfg: Config, steps: seq<Step>)
    ensures QueueInv(cfg, RunSteps(cfg, EMPTY, steps))
  {
    RunKeeps(cfg, EMPTY, steps);
  }

  // -- no job is lost -----------------------------------------------------------------

  /**
  Every submitted entry is unread, pending, answered, or dropped as malformed or too
  late - and an answered one is gone, so it cannot be delivered or claimed again.
  */
  lemma NoJobIsLost(cfg: Config, steps: seq<Step>)
    ensures NothingLost(RunSteps(cfg, EMPTY, steps).server)
    ensures forall e :: e in RunSteps(cfg, EMPTY, steps).server.answered ==>
              && e !in RunSteps(cfg, EMPTY, steps).server.entries
              && e !in RunSteps(cfg, EMPTY, steps).server.pel
  {
    Reachable(cfg, steps);
    ServerInvNothingLost(RunSteps(cfg, EMPTY, steps).server);
  }

  // -- handlers -----------------------------------------------------------------------

  /**
  In every worker: touches only what it handles, at most one live run of an entry, one
  unsettled run, runs within the cap.
  */
  lemma WorkersBehave(cfg: Config, steps: seq<Step>, name: string)
    ensures var w := WorkerOf(RunSteps(cfg, EMPTY, steps), name);
            TouchesOnlyHandled(w) && NoOverlap(w) && OneUnsettled(w) && WithinCap(cfg, w)
  {
    Reachable(cfg, steps);
    NewcomerInv(cfg, RunSteps(cfg, EMPTY, steps).server);
  }

  /**
  A handler that starts is the only live one of its entry in that worker, and the entry is
  none whose finishing transaction ran for the worker, told of it or not: a reply computed
  before the finish was filtered.
  */
  lemma StartsAreFresh(cfg: Config, steps: seq<Step>, name: string, run: nat)
    requires var q := RunSteps(cfg, EMPTY, steps);
             Enabled(cfg, q.server, name, WorkerOf(q, name), Batching(Start(run)))
    ensures var w := WorkerOf(RunSteps(cfg, EMPTY, steps), name);
            !LiveFor(w, w.lead.todo[0]) && w.lead.todo[0] !in w.finished
  {
    var q := RunSteps(cfg, EMPTY, steps);
    Reachable(cfg, steps);
    assert name in q.workers;
    var w := q.workers[name];
    assert w.lead.todo[0] in Todo(w.lead);
  }

  /** Only a crash makes a worker forget that it finished an entry. */
  lemma FinishIsRemembered(cfg: Config, q: Queue, step: Step, name: string, e: nat)
    requires e in WorkerOf(q, name).finished
    ensures e in WorkerOf(Next(cfg, q, step), name).finished || step == Act(name, Crash)
  {
  }

  // -- handing back ---------------------------------------------------------------------

  /** The claim of a hand-back makes what it returns reclaimable at once by anyone. */
  lemma HandBackIsReclaimable(cfg: Config, s: Server, name: string, w: Worker, e: nat)
    requires CanExecute(cfg, s, name, w, ServeClaim) && e in w.lock.ids && e in s.pel
    ensures Idle(cfg, ServerAfter(cfg, s, name, w, ServeClaim), e)
    ensures e !in w.taken ==> e in AfterExecute(cfg, s, name, w, ServeClaim).returned
  {
  }

  /** No later touch of that worker resets the idle time of what it returned. */
  lemma TouchSparesReturned(cfg: Config, steps: seq<Step>, name: string, e: nat)
    requires var q := RunSteps(cfg, EMPTY, steps);
             && CanExecute(cfg, q.server, name, WorkerOf(q, name), ServeTouch)
             && e in WorkerOf(q, name).returned && e in q.server.pel
    ensures var q := RunSteps(cfg, EMPTY, steps);
            var s' := ServerAfter(cfg, q.server, name, WorkerOf(q, name), ServeTouch);
            e in s'.pel && s'.pel[e] == q.server.pel[e]
  {
    Reachable(cfg, steps);
    assert name in RunSteps(cfg, EMPTY, steps).workers;
  }

  /** An entry stays returned until a reply brings it back into the worker's hands, or the worker dies. */
  lemma ReturnedUntilTaken(cfg: Config, q: Queue, step: Step, name: string, e: nat)
    requires e in WorkerOf(q, name).returned
    ensures var w' := WorkerOf(Next(cfg, q, step), name);
            e in w'.returned || (e in w'.taken && e in Todo(w'.lead)) || step == Act(name, Crash)
  {
  }

  // -- requeued before unread -----------------------------------------------------------

  lemma ScanKeeps(cfg: Config, s: Server, name: string, w: Worker, ids: seq<nat>, e: nat)
    requires CanExecute(cfg, s, name, w, Serve(ids)) && w.lead.kind.Reclaim? && FoundFirst(w, e)
    requires Covers(cfg, s, ids) && e in w.requeued
    ensures var w' := AfterExecute(cfg, s, name, w, Serve(ids));
            e in w'.requeued && e in Todo(AfterSeek(w', Receive).lead) <==> Idle(cfg, s, e)
  {
    assert e in Unknown(ids, w.lead.snapshot) <==> e in ids;
  }

  /**
  A scan that covers the pending list brings a waiting job into the batch exactly if its entry
  lies idle when the scan runs.
  */
  lemma ScanFindsRequeued(cfg: Config, steps: seq<Step>, name: string, ids: seq<nat>, e: nat)
    requires var q := RunSteps(cfg, EMPTY, steps);
             var w := WorkerOf(q, name);
             && CanExecute(cfg, q.server, name, w, Serve(ids)) && w.lead.kind.Reclaim?
             && Covers(cfg, q.server, ids) && e in w.requeued
    ensures var q := RunSteps(cfg, EMPTY, steps);
            var w' := AfterExecute(cfg, q.server, name, WorkerOf(q, name), Serve(ids));
            e in w'.requeued && e in Todo(AfterSeek(w', Receive).lead) <==> Idle(cfg, q.server, e)
  {
    var q := RunSteps(cfg, EMPTY, steps);
    assert FoundFirst(WorkerOf(q, name), e) by {
      Reachable(cfg, steps);
      assert name in q.workers && RequeuedFirst(q.workers[name]);
    }
    ScanKeeps(cfg, q.server, name, WorkerOf(q, name), ids, e);
  }

  /**
  A waiting job is waiting until it starts or is dropped - unless its worker leaves the queue,
  dies, or a scan misses it.
  */
  lemma RequeuedUntilStarted(cfg: Config, q: Queue, step: Step, name: string, e: nat)
    requires e in WorkerOf(q, name).requeued && e !in WorkerOf(Next(cfg, q, step), name).requeued
    ensures var w := WorkerOf(q, name);
            && step.Act? && step.name == name
            && match step.act
               case Batching(Start(_)) => e == w.lead.todo[0]
               case Batching(DropBegin) => e == w.lead.todo[0]
               case Execute(Serve(ids)) => w.lead.kind.Reclaim? && e !in ids
               case Seek(act) => WorkerOf(Next(cfg, q, step), name).lead.NotLeading?
               case Leaving(_) => true
               case Crash => true
               case _ => false
  {
  }
}
