/**
What leading a queue comes to, action by action, told of the worker, the stream and the
pending list as they were: what a reply makes of the leader, what it may do next with the
head of its batch, and what it hands back when it leaves.
*/
module DispatchLeading {
  import opened Options
  import opened Dispatch
  import opened DispatchSafety
  import opened DispatchDelivery

  // -- looking for work -------------------------------------------------------------------

  /** The entries of the reply that were not taken when it was asked for. */
  function Brought(lead: Lead): set<nat> {
    if lead.Asking? && lead.reply.Some? then Elems(lead.reply.value) - lead.snapshot else {}
  }

  /**
  What a reply brought is the next batch, all of it and nothing else, and a first delivery
  exactly if it was a read. Without anything new the own backlog is asked for after a scan,
  and an unread entry only after the backlog.
  */
  lemma ReceivedExactly(cfg: Config, q: Queue, name: string)
    requires Enabled(cfg, q.server, name, WorkerOf(q, name), Seek(Receive))
    ensures var w, w' := WorkerOf(q, name), WorkerOf(Next(cfg, q, Act(name, Seek(Receive))), name);
            && w'.taken == w.taken + Brought(w.lead)
            && if Brought(w.lead) != {} then
                 w'.lead.Batch? && Elems(w'.lead.todo) == Brought(w.lead)
                 && (w'.lead.reclaimed <==> !w.lead.kind.Read?)
               else
                 w'.lead == match w.lead.kind
                            case Reclaim => Asking(Backlog, w.taken, None)
                            case Backlog => Asking(Read, {}, None)
                            case Read => Ready
  {
    var w := WorkerOf(q, name);
    UnknownIs(w.lead.reply.value, w.lead.snapshot);
  }

  /** A forced scan is asked for at once, and its request takes the order off the worker. */
  lemma ScanFirst(cfg: Config, q: Queue, name: string)
    requires WorkerOf(q, name).lead.Ready?
    ensures var w' := WorkerOf(Next(cfg, q, Act(name, Seek(AskReclaim))), name);
            w'.lead == Asking(Reclaim, w'.taken, None) && w'.taken == WorkerOf(q, name).taken && !w'.reclaimNow
    ensures var w' := WorkerOf(Next(cfg, q, Act(name, Seek(AskRead))), name);
            w'.lead == if WorkerOf(q, name).reclaimNow then Ready else Asking(Read, {}, None)
  {
  }

  // -- the head of the batch ----------------------------------------------------------------

  predicate BelowCap(cfg: Config, w: Worker) {
    cfg.maxAdmitted.None? || |w.runs| < cfg.maxAdmitted.value
  }

  /**
  The head of a batch is dropped exactly if it is malformed or its submitter has given up, is
  started exactly if it is not malformed and there is room under the cap, and is handed back
  exactly if there is none.
  */
  lemma HeadOfBatch(cfg: Config, steps: seq<Step>, name: string, run: nat)
    requires var w := WorkerOf(RunSteps(cfg, EMPTY, steps), name); w.lead.Batch? && w.lead.todo != []
    ensures var s, w := RunSteps(cfg, EMPTY, steps).server, WorkerOf(RunSteps(cfg, EMPTY, steps), name);
            var e := w.lead.todo[0];
            && e < |s.infos|
            && (CanBatch(cfg, s, w, DropBegin)
                <==> s.infos[e].malformed || (s.infos[e].deadline.Some? && s.infos[e].deadline.value <= s.now))
            && (CanBatch(cfg, s, w, Start(run)) <==> !s.infos[e].malformed && BelowCap(cfg, w) && run !in w.runs)
            && (CanLeave(cfg, w, Quit) <==> !BelowCap(cfg, w))
  {
    var q := RunSteps(cfg, EMPTY, steps);
    RunKeeps(cfg, EMPTY, steps);
    var w := q.workers[name];
    assert w.lead.todo[0] in Todo(w.lead);
  }

  /** A job that a leader reads, that is well-formed and finds room, is started as a first run. */
  lemma ReadThenStarted(cfg: Config, q: Queue, name: string, e: nat, run: nat)
    requires var w := WorkerOf(q, name);
             && w.lead == Asking(Read, {}, Some([e])) && BelowCap(cfg, w) && run !in w.runs
             && e < |q.server.infos| && !q.server.infos[e].malformed
    ensures var q' := Next(cfg, Next(cfg, q, Act(name, Seek(Receive))), Act(name, Batching(Start(run))));
            && q'.server == q.server && q'.firstStarts == q.firstStarts + [e]
            && WorkerOf(q', name).lead == Awaiting(run, [], false)
            && WorkerOf(q', name).runs == WorkerOf(q, name).runs[run := Run(e, Handling, false, false)]
  {
    assert [e][1..] == [] && Unknown([e], {}) == [e];
    assert WorkerOf(Next(cfg, q, Act(name, Seek(Receive))), name).lead == Batch([e], false);
  }

  /** An entry that is dropped leaves the pending list with its acknowledgement and the stream with its deletion. */
  lemma DroppedIsGone(cfg: Config, q: Queue, name: string)
    requires WorkerOf(q, name).lead.Dropping?
    ensures var lead := WorkerOf(q, name).lead;
            var q1 := Next(cfg, q, Act(name, Execute(ServeAck)));
            var q2 := Next(cfg, q1, Act(name, Execute(ServeDel)));
            var q3 := Next(cfg, q2, Act(name, Batching(DropDone)));
            && q1.server.pel == q.server.pel - {lead.entry} && q2.server.pel == q1.server.pel
            && q2.server.entries == q.server.entries - {lead.entry}
            && WorkerOf(q3, name).lead == Batch(lead.todo, lead.reclaimed)
  {
  }

  /** The leader goes on exactly when the handler it waits for admitted or is gone. */
  lemma AdmitSettles(cfg: Config, q: Queue, name: string)
    requires WorkerOf(q, name).lead.Awaiting?
    ensures var w := WorkerOf(q, name);
            var goesOn := Enabled(cfg, q.server, name, w, Batching(Settled));
            && (goesOn <==> w.lead.run !in w.runs || w.runs[w.lead.run].admitted)
            && (w.lead.run in w.runs && w.runs[w.lead.run].phase.Handling? ==>
                  var w' := WorkerOf(Next(cfg, q, Act(name, Handler(w.lead.run, Admit))), name);
                  w'.lead == w.lead && CanBatch(cfg, q.server, w', Settled))
  {
  }

  // -- idle times ---------------------------------------------------------------------------

  /** A touch keeps what it names from being reclaimed for another idle period, and changes nothing else. */
  lemma TouchHolds(cfg: Config, q: Queue, name: string, e: nat, q': Queue)
    requires Enabled(cfg, q.server, name, WorkerOf(q, name), Execute(ServeTouch)) && e in q.server.pel
    requires q' == Next(cfg, q, Act(name, Execute(ServeTouch)))
    ensures q'.server.pel.Keys == q.server.pel.Keys
    ensures q'.server.pel[e] == if e in WorkerOf(q, name).lock.ids then Pending(name, q.server.now) else q.server.pel[e]
    ensures e in WorkerOf(q, name).lock.ids ==>
              forall later, ids :: later < q.server.now + cfg.reclaimIdle ==>
                Claimable(cfg, q'.server.(now := later), ids) ==> e !in ids
  {
  }

  /** A touch takes the lock, names what the worker touches, and gives the lock back. */
  lemma TouchTakesLock(cfg: Config, q: Queue, name: string)
    requires WorkerOf(q, name).lock.Free?
    ensures var q1 := Next(cfg, q, Act(name, TouchBegin));
            var q2 := Next(cfg, q1, Act(name, TouchEnd));
            WorkerOf(q1, name).lock == Touching(WorkerOf(q, name).taken) && WorkerOf(q2, name).lock.Free?
  {
  }

  /** And that is every entry that is to be dispatched or has a live handler. */
  lemma HandledIsTouched(cfg: Config, steps: seq<Step>, name: string)
    ensures var w := WorkerOf(RunSteps(cfg, EMPTY, steps), name);
            && (forall e :: e in Todo(w.lead) ==> e in w.taken)
            && (forall r :: r in w.runs && IsLive(w.runs[r]) ==> w.runs[r].entry in w.taken)
  {
    var q := RunSteps(cfg, EMPTY, steps);
    RunKeeps(cfg, EMPTY, steps);
    assert name in q.workers ==> TakenInv(q.server, q.workers[name]);
  }

  /** A scan that is answered takes over what it returns, and nothing else. */
  lemma ScanTakesOver(cfg: Config, q: Queue, name: string, ids: seq<nat>, e: nat)
    requires Enabled(cfg, q.server, name, WorkerOf(q, name), Execute(Serve(ids))) && e in q.server.pel
    requires !WorkerOf(q, name).lead.kind.Read?
    ensures var pel := Next(cfg, q, Act(name, Execute(Serve(ids)))).server.pel;
            && pel.Keys == q.server.pel.Keys
            && pel[e] == if e in ids then Pending(name, q.server.now) else q.server.pel[e]
  {
  }

  // -- handlers -----------------------------------------------------------------------------

  /** A handler that returns is answered: its transaction may run, and then the entry is gone for good. */
  lemma ReturnedIsAnswered(cfg: Config, q: Queue, name: string, run: nat)
    requires Enabled(cfg, q.server, name, WorkerOf(q, name), Handler(run, HandlerReturns))
    ensures var e := WorkerOf(q, name).runs[run].entry;
            var q1 := Next(cfg, q, Act(name, Handler(run, HandlerReturns)));
            var q2 := Next(cfg, q1, Act(name, Execute(ServeFinish(run))));
            var q3 := Next(cfg, q2, Act(name, Handler(run, FinishOk)));
            && q2.server.answered == q.server.answered + {e}
            && q2.server.pel == q.server.pel - {e} && q2.server.entries == q.server.entries - {e}
            && WorkerOf(q3, name).runs == WorkerOf(q, name).runs - {run}
            && WorkerOf(q3, name).taken == WorkerOf(q, name).taken - {e}
            && e in WorkerOf(q3, name).finished
  {
  }

  /** A handler that asks to be requeued waits, and then lets go of its entry. */
  lemma RequeuedLetsGo(cfg: Config, q: Queue, name: string, run: nat)
    requires Enabled(cfg, q.server, name, WorkerOf(q, name), Handler(run, HandlerRequeues))
    ensures var w := WorkerOf(q, name);
            var e := w.runs[run].entry;
            var q1 := Next(cfg, q, Act(name, Handler(run, HandlerRequeues)));
            var w2 := WorkerOf(Next(cfg, q1, Act(name, Handler(run, DelayOver))), name);
            && w2.taken == w.taken - {e} && w2.lock == w.lock
            && w2.runs == w.runs[run := w.runs[run].(phase := HandingBack)]
  {
  }

  /**
  It hands the entry back under the lock: once the claim ran anyone may reclaim the entry, and
  the worker scans again.
  */
  lemma RequeuedIsHandedBack(cfg: Config, q: Queue, name: string, run: nat)
    requires var w := WorkerOf(q, name);
             && run in w.runs && w.runs[run].phase.HandingBack? && w.lock.Free? && w.runs[run].entry in q.server.pel
    ensures var w := WorkerOf(q, name);
            var q1 := Next(cfg, q, Act(name, Handler(run, RunLock)));
            var q2 := Next(cfg, q1, Act(name, Execute(ServeClaim)));
            var q3 := Next(cfg, q2, Act(name, Handler(run, RunReturned)));
            && Idle(cfg, q2.server, w.runs[run].entry) && q3.server == q2.server
            && WorkerOf(q3, name).runs == w.runs - {run}
            && WorkerOf(q3, name).lock.Free? && WorkerOf(q3, name).reclaimNow
  {
  }

  // -- leaving ------------------------------------------------------------------------------

  /**
  A leader that leaves gives up an entry only to hand it back - unless its handler was just
  finishing - and what it hands back stays to be claimed until the claim was answered.
  */
  lemma LeavingHandsBack(cfg: Config, q: Queue, name: string, act: LeaveAct, w: Worker, w': Worker)
    requires w == WorkerOf(q, name) && Enabled(cfg, q.server, name, w, Leaving(act))
    requires w' == WorkerOf(Next(cfg, q, Act(name, Leaving(act))), name)
    ensures forall e :: e in w.taken && e !in w'.taken ==>
              || (w'.lead.Returning? && e in w'.lead.ids)
              || (act.CancelDelivered? && w.runs[w.lead.run].phase.Finishing? && w.runs[w.lead.run].entry == e)
    ensures w.lead.Returning? && w.lead.ids != {} && w'.lead != w.lead ==> act.ReturnDone?
    ensures act.ReturnLock? ==> w'.lock == Claiming(w.lead.ids, false, None)
  {
  }
}
