/**
A worker's own bookkeeping, updated in place: what each stretch of its coroutines
between two awaits does to the ids it touches, its runs and its lock. Every method is
one action of the queue's transition system, keeps the worker's invariant on the server
`s`, and states what it is for.
*/
module DispatchWorkers {
  import opened Options
  import opened Dispatch
  import opened DispatchDelivery
  import opened DispatchSafety

  class DispatchWorker {
    var taken: set<nat>
    var lead: Lead
    var runs: map<nat, Run>
    var lock: Lock
    var reclaimNow: bool
    ghost var finished: set<nat>
    ghost var returned: set<nat>
    ghost var requeued: set<nat>
    ghost var sent: set<Sent>

    constructor ()
      ensures State() == NEWCOMER
    {
      taken, lead, runs, lock, reclaimNow := {}, NotLeading, map[], Free, false;
      finished, returned, requeued, sent := {}, {}, {}, {};
    }

    ghost function State(): Worker
      reads this
    {
      Worker(taken, lead, runs, lock, reclaimNow, finished, returned, requeued, sent)
    }

    /** What every method may rely on, and restores. */
    ghost predicate Valid(cfg: Config, s: Server)
      reads this
    {
      ServerInv(s) && WorkerInv(cfg, s, State())
    }

    // -- the leading coroutine

    /**
    The snapshot is taken before the request is sent: it covers what is touched, and hides no
    job that waits to start again.
    */
    method AskReclaim(ghost cfg: Config, ghost s: Server)
      requires Valid(cfg, s) && CanSeek(State(), SeekAct.AskReclaim)
      modifies this
      ensures Valid(cfg, s) && State() == AfterSeek(old(State()), SeekAct.AskReclaim)
      ensures lead == Asking(Reclaim, taken, None) && taken == old(taken) && !reclaimNow
      ensures taken <= lead.snapshot && requeued !! lead.snapshot
    {
      WorkerKeeps(cfg, s, "", State(), Seek(SeekAct.AskReclaim));
      reclaimNow := false;
      sent := sent + {Asked(Reclaim)};
      lead := Asking(Reclaim, taken, None);
      assert forall e :: e in requeued ==> FoundFirst(State(), e);
    }

    /** The entries of a reply that were not taken when the request was sent. */
    static method Filter(ids: seq<nat>, snapshot: set<nat>) returns (entries: seq<nat>)
      ensures entries == Unknown(ids, snapshot)
    {
      entries := [];
      for i := 0 to |ids|
        invariant entries + Unknown(ids[i..], snapshot) == Unknown(ids, snapshot)
      {
        assert ids[i..] == [ids[i]] + ids[i + 1..];
        if ids[i] !in snapshot {
          entries := entries + [ids[i]];
        }
      }
    }

    /**
    The entries that were not taken when they were asked for are the batch, flagged as reclaimed
    unless they were read; none of them was finished here or has a live run, whenever the reply
    was computed.
    */
    method Receive(ghost cfg: Config, ghost s: Server)
      requires Valid(cfg, s) && CanSeek(State(), SeekAct.Receive)
      modifies this
      ensures Valid(cfg, s) && State() == AfterSeek(old(State()), SeekAct.Receive)
      ensures forall e :: e in Todo(lead) ==> e in taken && e !in finished && !LiveFor(State(), e)
      ensures Elems(Todo(lead)) == Elems(old(lead).reply.value) - old(lead).snapshot
      ensures Todo(lead) != [] ==> lead.Batch? && (lead.reclaimed <==> !old(lead).kind.Read?)
    {
      WorkerKeeps(cfg, s, "", State(), Seek(SeekAct.Receive));
      BatchedExactly(State());
      var kind := lead.kind;
      var entries := Filter(lead.reply.value, lead.snapshot);
      if entries != [] {
        Take(entries);
        returned := returned - Elems(entries);
        lead := Batch(entries, !kind.Read?);
      } else if kind.Reclaim? {
        sent := sent + {Asked(Backlog)};
        lead := Asking(Backlog, taken, None);
      } else if kind.Backlog? {
        sent := sent + {Asked(Read)};
        lead := Asking(Read, {}, None);
      } else {
        lead := Ready;
      }
    }

    method Take(ids: seq<nat>)
      modifies this`taken
      ensures taken == old(taken) + Elems(ids)
    {
      for i := 0 to |ids|
        invariant taken == old(taken) + Elems(ids[..i])
      {
        assert Elems(ids[..i + 1]) == Elems(ids[..i]) + {ids[i]};
        taken := taken + {ids[i]};
      }
      assert ids[..|ids|] == ids;
    }

    method Discard(ids: seq<nat>)
      modifies this`taken
      ensures taken == old(taken) - Elems(ids)
    {
      for i := 0 to |ids|
        invariant taken == old(taken) - Elems(ids[..i])
      {
        assert Elems(ids[..i + 1]) == Elems(ids[..i]) + {ids[i]};
        taken := taken - {ids[i]};
      }
      assert ids[..|ids|] == ids;
    }

    /** An error while leading: what was never dispatched is no longer touched, what has a handler still is. */
    method LeadFail(ghost cfg: Config, ghost s: Server)
      requires Valid(cfg, s) && CanSeek(State(), SeekAct.LeadFail)
      modifies this
      ensures Valid(cfg, s) && State() == AfterSeek(old(State()), SeekAct.LeadFail)
      ensures forall e :: e in taken <==> LiveFor(State(), e)
    {
      WorkerKeeps(cfg, s, "", State(), Seek(SeekAct.LeadFail));
      Discard(Todo(lead));
      requeued := {};
      lead := NotLeading;
      LiveIsTaken(cfg, s, State());
    }

    /**
    The new run is the only live one of its entry, which is touched, was not finished here and
    is not in the rest of the batch.
    */
    method Start(cfg: Config, s: Server, run: nat)
      requires Valid(cfg, s) && CanBatch(cfg, s, State(), BatchAct.Start(run))
      modifies this
      ensures Valid(cfg, s) && State() == AfterBatch(cfg, s, old(State()), BatchAct.Start(run))
      ensures var e := old(lead).todo[0];
              && e in taken && e !in finished && e !in Todo(lead) && OnlyLive(runs, run, e)
              && runs == old(runs)[run := Run(e, Handling, false, old(lead).reclaimed)]
    {
      WorkerKeeps(cfg, s, "", State(), Batching(BatchAct.Start(run)));
      assert lead.todo[0] in Todo(lead);
      var entry, rest := lead.todo[0], lead.todo[1..];
      taken := taken + {entry};
      requeued := requeued - {entry};
      runs := runs[run := Run(entry, Handling, false, lead.reclaimed)];
      lead := Awaiting(run, rest, lead.reclaimed);
    }

    /**
    The cancelled handler is gone, has let go of the lock, and its entry is neither run by
    another nor in the batch.
    */
    method CancelDelivered(cfg: Config, ghost s: Server)
      requires Valid(cfg, s) && CanLeave(cfg, State(), LeaveAct.CancelDelivered)
      modifies this
      ensures Valid(cfg, s) && State() == AfterLeave(cfg, old(State()), LeaveAct.CancelDelivered)
      ensures !LiveFor(State(), lead.entry) && lead.entry !in Todo(lead)
      ensures lock.Claiming? ==> lock.run != Some(old(lead).run)
    {
      ghost var after := AfterLeave(cfg, State(), LeaveAct.CancelDelivered);
      CancelLetsGo(cfg, s, State());
      var run := lead.run;
      if runs[run].phase.Finishing? {
        taken := taken - {runs[run].entry};
      }
      if lock.Claiming? && lock.run == Some(run) {
        lock := Free;
      }
      runs := runs - {run};
      lead := Cancelled(lead.entry, lead.todo);
      assert State() == after;
    }

    /** The ids are no longer touched before the claim that returns them is sent. */
    method HandBack(ids: seq<nat>, todo: seq<nat>)
      modifies this
      ensures State() == Return(old(State()), ids, todo) && taken !! lead.ids
      ensures lead == Returning(Elems(ids), todo) && taken == old(taken) - Elems(ids)
    {
      Discard(ids);
      requeued := {};
      lead := Returning(Elems(ids), todo);
    }

    /**
    Once the claim was answered the lock is free, and nothing of what was handed back, or is
    next to be, is touched.
    */
    method HandedBack(cfg: Config, ghost s: Server)
      requires Valid(cfg, s) && CanLeave(cfg, State(), LeaveAct.ReturnDone)
      modifies this
      ensures Valid(cfg, s) && State() == AfterLeave(cfg, old(State()), LeaveAct.ReturnDone)
      ensures lock.Free? && returned == old(returned) && returned !! taken
      ensures old(lead).todo == [] ==> lead.NotLeading?
      ensures old(lead).todo != [] ==> lead == Returning(Elems(old(lead).todo), []) && lead.ids !! taken
    {
      WorkerKeeps(cfg, s, "", State(), Leaving(LeaveAct.ReturnDone));
      lock := Free;
      if lead.todo == [] {
        requeued := {};
        lead := NotLeading;
      } else {
        HandBack(lead.todo, []);
      }
    }

    // -- a handler

    /** The delay is over: the entry has no live run any more and is no longer touched. */
    method DelayOver(ghost cfg: Config, ghost s: Server, run: nat)
      requires Valid(cfg, s) && CanRun(State(), run, RunAct.DelayOver)
      modifies this
      ensures Valid(cfg, s) && State() == AfterRun(old(State()), run, RunAct.DelayOver)
      ensures var e := old(runs)[run].entry; e !in taken && !LiveFor(State(), e)
    {
      ghost var after := AfterRun(State(), run, RunAct.DelayOver);
      DelayOverLetsGo(cfg, s, State(), run);
      Discard([runs[run].entry]);
      runs := runs[run := runs[run].(phase := HandingBack)];
      assert State() == after;
    }

    /**
    The hand-back of a requeued job is over, whether or not its claim ran: whatever waits will
    be found by the next scan.
    */
    method RunReturned(ghost cfg: Config, ghost s: Server, run: nat)
      requires Valid(cfg, s) && CanRun(State(), run, RunAct.RunReturned)
      modifies this
      ensures Valid(cfg, s) && State() == AfterRun(old(State()), run, RunAct.RunReturned)
      ensures lock.Free? && run !in runs
      ensures forall e :: e in requeued ==> FoundFirst(State(), e)
      ensures old(lock.served && !runs[run].admitted && lead.Awaiting?) ==> old(runs)[run].entry in requeued
    {
      WorkerKeeps(cfg, s, "", State(), Handler(run, RunAct.RunReturned));
      if lock.served && !runs[run].admitted && lead.Awaiting? {
        requeued := requeued + {runs[run].entry};
      }
      lock := Free;
      reclaimNow := true;
      runs := runs - {run};
    }

    /** Finished or failed, the entry is no longer touched, and no run of it is live. */
    method Finished(ghost cfg: Config, ghost s: Server, run: nat, ghost ok: bool)
      requires Valid(cfg, s) && CanRun(State(), run, if ok then FinishOk else FinishFail)
      modifies this
      ensures Valid(cfg, s) && State() == AfterRun(old(State()), run, if ok then FinishOk else FinishFail)
      ensures var e := old(runs)[run].entry; e !in taken && !LiveFor(State(), e) && (ok ==> e !in s.pel)
    {
      WorkerKeeps(cfg, s, "", State(), Handler(run, if ok then FinishOk else FinishFail));
      taken := taken - {runs[run].entry};
      runs := runs - {run};
    }

    // -- the touch loop

    /**
    The ids to touch are read under the lock: all of them are handled, and none was handed back
    while waiting for it.
    */
    method TouchBegin(cfg: Config, s: Server, name: string)
      requires Valid(cfg, s) && Enabled(cfg, s, name, State(), Act.TouchBegin)
      modifies this
      ensures Valid(cfg, s) && State() == WorkerAfter(cfg, s, name, old(State()), Act.TouchBegin)
      ensures lock == Touching(taken) && lock.ids !! returned
      ensures forall e :: e in lock.ids ==> e in Todo(lead) || LiveFor(State(), e) || Owed(lead, e)
    {
      WorkerKeeps(cfg, s, name, State(), Act.TouchBegin);
      lock := Touching(taken);
    }
  }

  lemma BatchedExactly(w: Worker)
    requires CanSeek(w, SeekAct.Receive)
    ensures var lead := AfterSeek(w, SeekAct.Receive).lead;
            && Elems(Todo(lead)) == Elems(w.lead.reply.value) - w.lead.snapshot
            && (Todo(lead) != [] ==> lead.Batch? && (lead.reclaimed <==> !w.lead.kind.Read?))
  {
    UnknownIs(w.lead.reply.value, w.lead.snapshot);
  }

  /** `run` is a live run of `e`, and the only one. */
  ghost predicate OnlyLive(runs: map<nat, Run>, run: nat, e: nat) {
    && run in runs && IsLive(runs[run]) && runs[run].entry == e
    && forall r :: r in runs && r != run && IsLive(runs[r]) ==> runs[r].entry != e
  }

  lemma DelayOverLetsGo(cfg: Config, s: Server, w: Worker, run: nat)
    requires ServerInv(s) && WorkerInv(cfg, s, w) && CanRun(w, run, RunAct.DelayOver)
    ensures var w' := AfterRun(w, run, RunAct.DelayOver);
            WorkerInv(cfg, s, w') && w.runs[run].entry !in w'.taken && !LiveFor(w', w.runs[run].entry)
  {
    WorkerKeeps(cfg, s, "", w, Handler(run, RunAct.DelayOver));
  }

  lemma CancelLetsGo(cfg: Config, s: Server, w: Worker)
    requires ServerInv(s) && WorkerInv(cfg, s, w) && CanLeave(cfg, w, LeaveAct.CancelDelivered)
    ensures var w' := AfterLeave(cfg, w, LeaveAct.CancelDelivered);
            WorkerInv(cfg, s, w') && !LiveFor(w', w'.lead.entry) && w'.lead.entry !in Todo(w'.lead)
  {
    WorkerKeeps(cfg, s, "", w, Leaving(LeaveAct.CancelDelivered));
  }

  lemma LiveIsTaken(cfg: Config, s: Server, w: Worker)
    requires WorkerInv(cfg, s, w) && w.lead.NotLeading?
    ensures forall e :: e in w.taken <==> LiveFor(w, e)
  {
  }
}
