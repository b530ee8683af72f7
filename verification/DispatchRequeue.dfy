/**
Requeueing over whole runs: a job whose handler raised RequeueJob before it was
admitted starts again before its leader reads anything new.
*/
module DispatchRequeue {
  import opened Options
  import opened Dispatch
  import opened DispatchSafety

  // -- what may happen meanwhile ----------------------------------------------------------

  /** A worker that neither leads nor has anything to do with entry `e`. */
  ghost predicate Aloof(w: Worker, e: nat) {
    && w.lead.NotLeading? && e !in w.taken
    && (w.lock.Touching? ==> e !in w.lock.ids) && (w.lock.Claiming? ==> e !in w.lock.ids)
    && forall r :: r in w.runs ==> w.runs[r].entry != e
  }

  ghost predicate OthersAloof(q: Queue, name: string, e: nat) {
    forall m :: m in q.workers && m != name ==> Aloof(q.workers[m], e)
  }

  /** A request that was given up on claims `e` after all. */
  predicate LateClaim(act: Act, e: nat) {
    act.Execute? && act.command.ServeLate? && act.command.sent.Asked? && !act.command.sent.kind.Read?
    && e in act.command.ids
  }

  /**
  The leader does not leave, its scans cover the pending list and are answered once, and the
  hand-back of `e` does not fail.
  */
  predicate Carries(cfg: Config, s: Server, w: Worker, act: Act, e: nat) {
    match act
    case Seek(seek) => !seek.Leave? && !seek.LeadFail?
    case Leaving(_) => false
    case Crash => false
    case Handler(run, handler) =>
      handler.RunReturned? && w.lock.Claiming? && run in w.runs && w.runs[run].entry == e ==> w.lock.served
    case Execute(command) =>
      command.Serve? && w.lead.Asking? && w.lead.kind.Reclaim? ==> w.lead.reply.None? && Covers(cfg, s, command.ids)
    case _ => true
  }

  predicate Undisturbed(cfg: Config, q: Queue, step: Step, name: string, e: nat) {
    step.Act? ==>
      && !LateClaim(step.act, e)
      && if step.name == name then Carries(cfg, q.server, WorkerOf(q, name), step.act, e) else step.act != Seek(Elect)
  }

  /** Every step of the run leaves the leader its queue and its scans. */
  ghost predicate Peaceful(cfg: Config, q: Queue, steps: seq<Step>, name: string, e: nat)
    decreases |steps|
  {
    steps == [] || (Undisturbed(cfg, q, steps[0], name, e)
      && Peaceful(cfg, Next(cfg, q, steps[0]), steps[1..], name, e))
  }

  // -- what is claimed -----------------------------------------------------------------------

  /** The step starts `e`, or drops it as too late. */
  predicate Takes(cfg: Config, q: Queue, step: Step, name: string, e: nat) {
    && step.Act? && step.name == name && step.act.Batching? && (step.act.batch.Start? || step.act.batch.DropBegin?)
    && var w := WorkerOf(q, name);
       CanBatch(cfg, q.server, w, step.act.batch) && w.lead.todo[0] == e
  }

  /** The step reads an unread entry for the leader. */
  predicate Reads(cfg: Config, q: Queue, step: Step, name: string) {
    && step.Act? && step.name == name && step.act.Execute? && step.act.command.Serve?
    && var w := WorkerOf(q, name);
       CanExecute(cfg, q.server, name, w, step.act.command) && w.lead.kind.Read?
  }

  /**
  The job is still the leader's to run: the handler that gave it back is not over, or it waits
  for its second start.
  */
  predicate StillWaits(w: Worker, run: nat, e: nat) {
    e in w.requeued || (run in w.runs && w.runs[run].entry == e && !w.runs[run].admitted)
  }

  /**
  Until `e` is started or dropped - or answered by an earlier run's late transaction - it
  waits, and nothing unread is read.
  */
  ghost predicate RunsFirst(cfg: Config, q: Queue, steps: seq<Step>, name: string, run: nat, e: nat)
    decreases |steps|
  {
    e in q.server.pel ==>
      && StillWaits(WorkerOf(q, name), run, e)
      && (steps == [] || Takes(cfg, q, steps[0], name, e)
          || (!Reads(cfg, q, steps[0], name) && RunsFirst(cfg, Next(cfg, q, steps[0]), steps[1..], name, run, e)))
  }

  // -- the way of a requeued job ----------------------------------------------------------------

  predicate InReply(lead: Lead, e: nat) {
    lead.Asking? && lead.reply.Some? && e in lead.reply.value
  }

  /** Its handler waits out the delay or hands the entry back; once the claim ran the entry lies idle. */
  predicate Returns(cfg: Config, s: Server, w: Worker, run: nat, e: nat) {
    && w.lead.Awaiting? && w.lead.run == run && run in w.runs && w.runs[run].entry == e && !w.runs[run].admitted
    && (w.runs[run].phase.Delaying? || w.runs[run].phase.HandingBack?)
    && (w.lock.Claiming? && w.lock.run == Some(run) && w.lock.served ==> e in w.returned && Idle(cfg, s, e))
  }

  /** Handed back, it lies idle until a scan finds it, and then is in the reply and in the batch. */
  predicate Awaits(cfg: Config, s: Server, w: Worker, e: nat) {
    && e in w.requeued
    && (e in Todo(w.lead) || (e in w.returned && (Idle(cfg, s, e) || InReply(w.lead, e))))
  }

  predicate Waits(cfg: Config, s: Server, w: Worker, run: nat, e: nat) {
    Returns(cfg, s, w, run, e) || Awaits(cfg, s, w, e)
  }

  /** Time passes, and nobody claims `e`. */
  predicate Spares(s: Server, s': Server, e: nat) {
    s.now <= s'.now && (e in s'.pel ==> e in s.pel && s'.pel[e] == s.pel[e])
  }

  lemma WaitsOn(cfg: Config, s: Server, s': Server, w: Worker, run: nat, e: nat)
    requires Waits(cfg, s, w, run, e) && Spares(s, s', e) && e in s'.pel
    ensures Waits(cfg, s', w, run, e)
  {
  }

  // -- the others -------------------------------------------------------------------------------

  lemma AloofWorker(cfg: Config, s: Server, name: string, w: Worker, act: Act, e: nat)
    requires Aloof(w, e) && Enabled(cfg, s, name, w, act) && act != Seek(Elect)
    ensures Aloof(WorkerAfter(cfg, s, name, w, act), e)
  {
  }

  lemma AloofServer(cfg: Config, s: Server, name: string, w: Worker, command: Command, e: nat)
    requires ServerInv(s) && Aloof(w, e) && CanExecute(cfg, s, name, w, command) && !LateClaim(Execute(command), e)
        && e in s.pel
    ensures Spares(s, ServerAfter(cfg, s, name, w, command), e)
  {
  }

  // -- the leader -------------------------------------------------------------------------------

  lemma SeekWaits(cfg: Config, s: Server, w: Worker, act: SeekAct, run: nat, e: nat)
    requires RequeuedFirst(w) && Waits(cfg, s, w, run, e) && CanSeek(w, act) && Carries(cfg, s, w, Seek(act), e)
    ensures Waits(cfg, s, AfterSeek(w, act), run, e)
  {
    assert e in w.requeued ==> FoundFirst(w, e);
    if act.Receive? && e in w.lead.reply.value && e !in w.lead.snapshot {
      assert e in Unknown(w.lead.reply.value, w.lead.snapshot);
    }
  }

  lemma BatchWaits(cfg: Config, s: Server, w: Worker, act: BatchAct, run: nat, e: nat)
    requires Waits(cfg, s, w, run, e) && CanBatch(cfg, s, w, act)
    requires act.Start? || act.DropBegin? ==> w.lead.todo[0] != e
    ensures Waits(cfg, s, AfterBatch(cfg, s, w, act), run, e)
  {
    if (act.Start? || act.DropBegin?) && e in w.lead.todo {
      assert e in w.lead.todo[1..];
    }
  }

  lemma RunWaits(cfg: Config, s: Server, w: Worker, r: nat, act: RunAct, run: nat, e: nat)
    requires LockInv(w) && Waits(cfg, s, w, run, e) && CanRun(w, r, act) && Carries(cfg, s, w, Handler(r, act), e)
    ensures Waits(cfg, s, AfterRun(w, r, act), run, e)
  {
  }

  lemma TouchWaits(cfg: Config, s: Server, name: string, w: Worker, act: Act, run: nat, e: nat)
    requires Waits(cfg, s, w, run, e) && Enabled(cfg, s, name, w, act) && (act.TouchBegin? || act.TouchEnd?)
    ensures Waits(cfg, s, WorkerAfter(cfg, s, name, w, act), run, e)
  {
  }

  /** A scan that covers the pending list finds the entry, as it lies idle. */
  lemma ScanWaits(cfg: Config, s: Server, name: string, w: Worker, ids: seq<nat>, run: nat, e: nat)
    requires RequeuedFirst(w) && Waits(cfg, s, w, run, e) && CanExecute(cfg, s, name, w, Serve(ids)) && e in s.pel
    requires Carries(cfg, s, w, Execute(Serve(ids)), e)
    ensures !w.lead.kind.Read?
    ensures Waits(cfg, ServerAfter(cfg, s, name, w, Serve(ids)), AfterExecute(cfg, s, name, w, Serve(ids)), run, e)
  {
    assert FoundFirst(w, e);
  }

  lemma ClaimWaits(cfg: Config, s: Server, name: string, w: Worker, run: nat, e: nat)
    requires LeadInv(s, w) && LockInv(w) && Waits(cfg, s, w, run, e) && CanExecute(cfg, s, name, w, ServeClaim)
        && e in s.pel
    ensures Waits(cfg, ServerAfter(cfg, s, name, w, ServeClaim), AfterExecute(cfg, s, name, w, ServeClaim), run, e)
  {
  }

  lemma OtherCommandWaits(cfg: Config, s: Server, name: string, w: Worker, command: Command, run: nat, e: nat)
    requires ServerInv(s) && LockInv(w) && Waits(cfg, s, w, run, e) && CanExecute(cfg, s, name, w, command)
    requires !command.Serve? && !command.ServeClaim? && !LateClaim(Execute(command), e) && e in s.pel
    ensures var s' := ServerAfter(cfg, s, name, w, command);
            e in s'.pel ==> Waits(cfg, s', AfterExecute(cfg, s, name, w, command), run, e)
  {
  }

  lemma CommandWaits(cfg: Config, s: Server, name: string, w: Worker, command: Command, run: nat, e: nat)
    requires ServerInv(s) && WorkerInv(cfg, s, w) && Waits(cfg, s, w, run, e) && CanExecute(cfg, s, name, w, command)
    requires Carries(cfg, s, w, Execute(command), e) && !LateClaim(Execute(command), e) && e in s.pel
    ensures command.Serve? ==> !w.lead.kind.Read?
    ensures var s' := ServerAfter(cfg, s, name, w, command);
            e in s'.pel ==> Waits(cfg, s', AfterExecute(cfg, s, name, w, command), run, e)
  {
    if command.Serve? {
      ScanWaits(cfg, s, name, w, command.ids, run, e);
    } else if command.ServeClaim? {
      ClaimWaits(cfg, s, name, w, run, e);
    } else {
      OtherCommandWaits(cfg, s, name, w, command, run, e);
    }
  }

  lemma LeaderWaits(cfg: Config, s: Server, name: string, w: Worker, act: Act, run: nat, e: nat)
    requires WorkerInv(cfg, s, w) && Waits(cfg, s, w, run, e) && Enabled(cfg, s, name, w, act) && !act.Execute?
    requires Carries(cfg, s, w, act, e)
    requires act.Batching? && (act.batch.Start? || act.batch.DropBegin?) ==> w.lead.todo[0] != e
    ensures Waits(cfg, s, WorkerAfter(cfg, s, name, w, act), run, e)
  {
    match act
    case Seek(a) => SeekWaits(cfg, s, w, a, run, e);
    case Batching(a) => BatchWaits(cfg, s, w, a, run, e);
    case Handler(r, a) => RunWaits(cfg, s, w, r, a, run, e);
    case _ => TouchWaits(cfg, s, name, w, act, run, e);
  }

  // -- whole runs -----------------------------------------------------------------------------------

  ghost predicate QueueWaits(cfg: Config, q: Queue, name: string, run: nat, e: nat) {
    && OthersAloof(q, name, e)
    && name in q.workers && (e in q.server.pel ==> Waits(cfg, q.server, q.workers[name], run, e))
  }

  lemma OtherStep(cfg: Config, q: Queue, m: string, act: Act, name: string, run: nat, e: nat, q': Queue)
    requires QueueWaits(cfg, q, name, run, e) && ServerInv(q.server) && e in q.server.pel && m != name
    requires act != Seek(Elect) && !LateClaim(act, e) && Enabled(cfg, q.server, m, WorkerOf(q, m), act)
    requires q' == Next(cfg, q, Act(m, act))
    ensures QueueWaits(cfg, q', name, run, e)
  {
    var w := WorkerOf(q, m);
    assert Aloof(w, e);
    AloofWorker(cfg, q.server, m, w, act, e);
    assert Spares(q.server, q'.server, e) by {
      if act.Execute? {
        AloofServer(cfg, q.server, m, w, act.command, e);
      }
    }
    assert q'.workers == q.workers[m := WorkerAfter(cfg, q.server, m, w, act)];
    if e in q'.server.pel {
      WaitsOn(cfg, q.server, q'.server, q.workers[name], run, e);
    }
  }

  lemma OwnStep(cfg: Config, q: Queue, act: Act, name: string, run: nat, e: nat, w: Worker, w': Worker, s': Server)
    requires ServerInv(q.server) && WorkerInv(cfg, q.server, w) && Waits(cfg, q.server, w, run, e) && e in q.server.pel
    requires Enabled(cfg, q.server, name, w, act) && Carries(cfg, q.server, w, act, e) && !LateClaim(act, e)
    requires act.Batching? && (act.batch.Start? || act.batch.DropBegin?) ==> w.lead.todo[0] != e
    requires w' == WorkerAfter(cfg, q.server, name, w, act)
    requires s' == if act.Execute? then ServerAfter(cfg, q.server, name, w, act.command) else q.server
    ensures (e in s'.pel ==> Waits(cfg, s', w', run, e)) && (act.Execute? && act.command.Serve? ==> !w.lead.kind.Read?)
  {
    if act.Execute? {
      CommandWaits(cfg, q.server, name, w, act.command, run, e);
    } else {
      LeaderWaits(cfg, q.server, name, w, act, run, e);
    }
  }

  lemma StepWaits(cfg: Config, q: Queue, step: Step, name: string, run: nat, e: nat, q': Queue)
    requires QueueInv(cfg, q) && QueueWaits(cfg, q, name, run, e) && e in q.server.pel && q' == Next(cfg, q, step)
    requires Undisturbed(cfg, q, step, name, e) && !Takes(cfg, q, step, name, e)
    ensures QueueWaits(cfg, q', name, run, e) && !Reads(cfg, q, step, name)
  {
    if step.Act? && Enabled(cfg, q.server, step.name, WorkerOf(q, step.name), step.act) {
      if step.name == name {
        OwnStep(cfg, q, step.act, name, run, e, q.workers[name], q'.workers[name], q'.server);
      } else {
        OtherStep(cfg, q, step.name, step.act, name, run, e, q');
      }
    } else {
      WaitsOn(cfg, q.server, q'.server, q.workers[name], run, e);
    }
  }

  lemma {:induction false} WaitingRun(cfg: Config, q: Queue, steps: seq<Step>, name: string, run: nat, e: nat)
    requires QueueInv(cfg, q) && QueueWaits(cfg, q, name, run, e) && Peaceful(cfg, q, steps, name, e)
    ensures RunsFirst(cfg, q, steps, name, run, e)
    decreases |steps|
  {
    if steps != [] && e in q.server.pel && !Takes(cfg, q, steps[0], name, e) {
      NextKeeps(cfg, q, steps[0]);
      StepWaits(cfg, q, steps[0], name, run, e, Next(cfg, q, steps[0]));
      WaitingRun(cfg, Next(cfg, q, steps[0]), steps[1..], name, run, e);
    }
  }

  /**
  From any reachable state in which the leader waits for a handler that raised RequeueJob
  before it admitted: as long as the leader keeps its queue, its scans cover the pending
  list and nobody else leads or holds the entry, the job waits, is found and starts again
  before anything unread is read.
  */
  lemma RequeuedRunsFirst(cfg: Config, before: seq<Step>, steps: seq<Step>, name: string, run: nat, e: nat)
    requires var q := RunSteps(cfg, EMPTY, before);
             var w := WorkerOf(q, name);
             && w.lead.Awaiting? && w.lead.run == run && run in w.runs && w.runs[run].entry == e
             && !w.runs[run].admitted && w.runs[run].phase.Delaying?
             && OthersAloof(q, name, e) && Peaceful(cfg, q, steps, name, e)
    ensures RunsFirst(cfg, RunSteps(cfg, EMPTY, before), steps, name, run, e)
  {
    var q := RunSteps(cfg, EMPTY, before);
    RunKeeps(cfg, EMPTY, before);
    assert name in q.workers && LockInv(q.workers[name]);
    WaitingRun(cfg, q, steps, name, run, e);
  }
}
