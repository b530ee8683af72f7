/**
Where runs come from. A log kept beside the queue notes what each request brought its
leader - and what of it nobody had read before - and from which delivery each handler was
started. It looks at requests, replies and starts, never at the flag `reclaimed`; the
theorem is that the flag tells the same.
*/
module DispatchDelivery {
  import opened Dispatch
  import opened DispatchSafety

  /** The entries a reply brought that were not taken when it was asked for, and which of them were unread. */
  datatype Delivery = Delivery(kind: Kind, ids: set<nat>, unread: set<nat>)

  /**
  `unread`: what nobody had read when the reply under way was computed; `last`: the last
  delivery of each worker that brought something; `origins`: the delivery each run was
  started from; `firsts`: the entries started from unread ones, in order.
  */
  datatype Log = Log(unread: map<string, set<nat>>, last: map<string, Delivery>,
                     origins: map<(string, nat), Delivery>, firsts: seq<nat>)

  const NOTHING := Log(map[], map[], map[], [])

  function Unread(s: Server, ids: seq<nat>): set<nat> {
    set e | e in ids && e >= s.delivered
  }

  /** An enabled action of worker `name`, noted. */
  function Note(log: Log, s: Server, name: string, lead: Lead, act: Act): Log {
    match act
    case Execute(Serve(ids)) => log.(unread := log.unread[name := Unread(s, ids)])
    case Seek(Receive) =>
      if lead.Asking? && lead.reply.Some? && name in log.unread && Elems(lead.reply.value) - lead.snapshot != {} then
        log.(last := log.last[name := Delivery(lead.kind, Elems(lead.reply.value) - lead.snapshot,
                                               log.unread[name] - lead.snapshot)])
      else log
    case Batching(Start(run)) =>
      if Todo(lead) != [] && name in log.last then
        log.(origins := log.origins[(name, run) := log.last[name]],
             firsts := if Todo(lead)[0] in log.last[name].unread then log.firsts + [Todo(lead)[0]] else log.firsts)
      else log
    case _ => log
  }

  function Noted(cfg: Config, q: Queue, step: Step, log: Log): Log {
    if step.Act? && Enabled(cfg, q.server, step.name, WorkerOf(q, step.name), step.act)
    then Note(log, q.server, step.name, WorkerOf(q, step.name).lead, step.act)
    else log
  }

  /** The log of a whole run. */
  function LogOf(cfg: Config, q: Queue, steps: seq<Step>, log: Log): Log
    decreases |steps|
  {
    if steps == [] then log else LogOf(cfg, Next(cfg, q, steps[0]), steps[1..], Noted(cfg, q, steps[0], log))
  }

  // -- what the log has to do with the queue ------------------------------------------------

  /** What a read brought was unread, all of it; what a scan or the backlog brought was not. */
  ghost predicate Pure(d: Delivery) {
    d.unread == if d.kind.Read? then d.ids else {}
  }

  /** The reply under way. */
  ghost predicate ReplyNoted(log: Log, name: string, w: Worker) {
    w.lead.Asking? && w.lead.reply.Some? ==>
      name in log.unread && log.unread[name] == if w.lead.kind.Read? then Elems(w.lead.reply.value) else {}
  }

  predicate Dispatching(lead: Lead) {
    lead.Batch? || lead.Dropping? || lead.Awaiting?
  }

  /** The batch that is dispatched. */
  ghost predicate BatchNoted(log: Log, name: string, w: Worker) {
    Dispatching(w.lead) ==>
      && name in log.last && Pure(log.last[name]) && Elems(Todo(w.lead)) <= log.last[name].ids
      && (w.lead.reclaimed <==> !log.last[name].kind.Read?)
  }

  /** The runs: a run is flagged as reclaimed exactly if its entry had been read before the request that brought it. */
  ghost predicate RunsNoted(log: Log, name: string, w: Worker) {
    forall r :: r in w.runs ==>
      && (name, r) in log.origins && Pure(log.origins[(name, r)]) && w.runs[r].entry in log.origins[(name, r)].ids
      && (w.runs[r].reclaimed <==> w.runs[r].entry !in log.origins[(name, r)].unread)
  }

  ghost predicate WorkerNoted(log: Log, name: string, w: Worker) {
    ReplyNoted(log, name, w) && BatchNoted(log, name, w) && RunsNoted(log, name, w)
  }

  ghost predicate AllNoted(log: Log, q: Queue) {
    q.firstStarts == log.firsts && forall name :: name in q.workers ==> WorkerNoted(log, name, q.workers[name])
  }

  // -- one action ---------------------------------------------------------------------------

  /** A request is answered. */
  lemma ServeNoted(cfg: Config, s: Server, name: string, w: Worker, ids: seq<nat>, log: Log, log': Log, w': Worker)
    requires ServerInv(s) && WorkerNoted(log, name, w) && CanExecute(cfg, s, name, w, Serve(ids))
    requires w' == AfterExecute(cfg, s, name, w, Serve(ids))
    requires log' == Note(log, s, name, w.lead, Execute(Serve(ids)))
    ensures WorkerNoted(log', name, w')
  {
    assert Unread(s, ids) == if w.lead.kind.Read? then Elems(ids) else {};
  }

  lemma UnknownIs(ids: seq<nat>, snapshot: set<nat>)
    ensures Elems(Unknown(ids, snapshot)) == Elems(ids) - snapshot
    ensures Unknown(ids, snapshot) == [] <==> Elems(ids) - snapshot == {}
  {
    var entries := Unknown(ids, snapshot);
    if entries != [] {
      assert entries[0] in Elems(entries);
    }
  }

  /** A reply is received. */
  lemma ReceiveNoted(s: Server, name: string, w: Worker, log: Log, log': Log, w': Worker)
    requires WorkerNoted(log, name, w) && AskingInv(s, w) && CanSeek(w, Receive)
    requires w' == AfterSeek(w, Receive) && log' == Note(log, s, name, w.lead, Seek(Receive))
    ensures WorkerNoted(log', name, w')
  {
    UnknownIs(w.lead.reply.value, w.lead.snapshot);
  }

  /** A handler is started. */
  lemma StartNoted(cfg: Config, s: Server, name: string, w: Worker, run: nat, log: Log, log': Log, w': Worker)
    requires WorkerNoted(log, name, w) && CanBatch(cfg, s, w, Start(run))
    requires w' == AfterBatch(cfg, s, w, Start(run)) && log' == Note(log, s, name, w.lead, Batching(Start(run)))
    ensures WorkerNoted(log', name, w')
    ensures log'.firsts == log.firsts + FirstStart(w, Batching(Start(run)))
  {
    assert w.lead.todo[0] in Elems(w.lead.todo);
  }

  predicate Silent(act: Act) {
    !(act.Execute? && act.command.Serve?) && act != Seek(Receive) && !(act.Batching? && act.batch.Start?)
  }

  /** No reply, no batch and no run that was not there, and no flag or entry changed. */
  ghost predicate NothingNew(w: Worker, w': Worker) {
    && (w'.lead.Asking? && w'.lead.reply.Some? ==> w'.lead == w.lead)
    && (Dispatching(w'.lead) ==>
          Dispatching(w.lead) && w'.lead.reclaimed == w.lead.reclaimed
          && forall e :: e in Todo(w'.lead) ==> e in Todo(w.lead))
    && forall r :: r in w'.runs ==>
         r in w.runs && w'.runs[r].entry == w.runs[r].entry && w'.runs[r].reclaimed == w.runs[r].reclaimed
  }

  lemma NothingNewNoted(log: Log, name: string, w: Worker, w': Worker)
    requires WorkerNoted(log, name, w) && NothingNew(w, w')
    ensures WorkerNoted(log, name, w')
  {
    if Dispatching(w'.lead) {
      forall e | e in Elems(Todo(w'.lead)) ensures e in log.last[name].ids {
        assert e in Elems(Todo(w.lead));
      }
    }
  }

  lemma SilentSeek(w: Worker, act: SeekAct)
    requires CanSeek(w, act) && act != Receive
    ensures NothingNew(w, AfterSeek(w, act))
  {
  }

  lemma SilentBatch(cfg: Config, s: Server, w: Worker, act: BatchAct)
    requires CanBatch(cfg, s, w, act) && !act.Start?
    ensures NothingNew(w, AfterBatch(cfg, s, w, act))
  {
  }

  lemma SilentLeave(cfg: Config, w: Worker, act: LeaveAct)
    requires CanLeave(cfg, w, act)
    ensures NothingNew(w, AfterLeave(cfg, w, act))
  {
  }

  lemma SilentRun(w: Worker, run: nat, act: RunAct)
    requires CanRun(w, run, act)
    ensures NothingNew(w, AfterRun(w, run, act))
  {
  }

  lemma SilentCommand(cfg: Config, s: Server, name: string, w: Worker, command: Command)
    requires CanExecute(cfg, s, name, w, command) && !command.Serve?
    ensures NothingNew(w, AfterExecute(cfg, s, name, w, command))
  {
  }

  /** Nothing else brings or starts anything. */
  lemma SilentAct(cfg: Config, s: Server, name: string, w: Worker, act: Act)
    requires Enabled(cfg, s, name, w, act) && Silent(act)
    ensures NothingNew(w, WorkerAfter(cfg, s, name, w, act))
  {
    match act
    case Seek(a) => SilentSeek(w, a);
    case Batching(a) => SilentBatch(cfg, s, w, a);
    case Leaving(a) => SilentLeave(cfg, w, a);
    case Handler(r, a) => SilentRun(w, r, a);
    case Execute(c) => SilentCommand(cfg, s, name, w, c);
    case _ =>
  }

  lemma ActNoted(cfg: Config, s: Server, name: string, w: Worker, act: Act, log: Log, log': Log, w': Worker)
    requires ServerInv(s) && AskingInv(s, w) && WorkerNoted(log, name, w) && Enabled(cfg, s, name, w, act)
    requires w' == WorkerAfter(cfg, s, name, w, act) && log' == Note(log, s, name, w.lead, act)
    ensures WorkerNoted(log', name, w') && log'.firsts == log.firsts + FirstStart(w, act)
  {
    if act.Execute? && act.command.Serve? {
      ServeNoted(cfg, s, name, w, act.command.ids, log, log', w');
    } else if act == Seek(Receive) {
      ReceiveNoted(s, name, w, log, log', w');
    } else if act.Batching? && act.batch.Start? {
      StartNoted(cfg, s, name, w, act.batch.run, log, log', w');
    } else {
      SilentAct(cfg, s, name, w, act);
      NothingNewNoted(log, name, w, w');
    }
  }

  // -- whole runs -----------------------------------------------------------------------------

  /** Other workers' entries in the log are their own business. */
  lemma OthersNoted(log: Log, log': Log, s: Server, name: string, lead: Lead, act: Act, other: string, w: Worker)
    requires WorkerNoted(log, other, w) && other != name && log' == Note(log, s, name, lead, act)
    ensures WorkerNoted(log', other, w)
  {
  }

  lemma StepNoted(cfg: Config, q: Queue, step: Step, log: Log, q': Queue, log': Log)
    requires QueueInv(cfg, q) && AllNoted(log, q) && q' == Next(cfg, q, step) && log' == Noted(cfg, q, step, log)
    ensures AllNoted(log', q')
  {
    if step.Act? && Enabled(cfg, q.server, step.name, WorkerOf(q, step.name), step.act) {
      var w := WorkerOf(q, step.name);
      ActNoted(cfg, q.server, step.name, w, step.act, log, log', WorkerOf(q', step.name));
      forall n | n in q'.workers ensures WorkerNoted(log', n, q'.workers[n]) {
        if n != step.name {
          OthersNoted(log, log', q.server, step.name, w.lead, step.act, n, q.workers[n]);
        }
      }
    }
  }

  lemma {:induction false} RunNoted(cfg: Config, q: Queue, steps: seq<Step>, log: Log)
    requires QueueInv(cfg, q) && AllNoted(log, q)
    ensures AllNoted(LogOf(cfg, q, steps, log), RunSteps(cfg, q, steps))
    decreases |steps|
  {
    if steps != [] {
      NextKeeps(cfg, q, steps[0]);
      StepNoted(cfg, q, steps[0], log, Next(cfg, q, steps[0]), Noted(cfg, q, steps[0], log));
      RunNoted(cfg, Next(cfg, q, steps[0]), steps[1..], Noted(cfg, q, steps[0], log));
    }
  }

  /**
  Over every run: a handler run is flagged as not reclaimed exactly if its entry was unread
  when the request that brought it ran - which is exactly if that request was a read - and
  the first starts are the starts from such entries, all of them, in order.
  */
  lemma FirstRunsAreReads(cfg: Config, steps: seq<Step>)
    ensures var q, log := RunSteps(cfg, EMPTY, steps), LogOf(cfg, EMPTY, steps, NOTHING);
            && q.firstStarts == log.firsts
            && forall name, r: nat :: name in q.workers && r in q.workers[name].runs ==>
                 && (name, r) in log.origins
                 && var run, origin := q.workers[name].runs[r], log.origins[(name, r)];
                    run.entry in origin.ids && (!run.reclaimed <==> run.entry in origin.unread)
                    && (!run.reclaimed <==> origin.kind.Read?)
  {
    RunNoted(cfg, EMPTY, steps, NOTHING);
    var q, log := RunSteps(cfg, EMPTY, steps), LogOf(cfg, EMPTY, steps, NOTHING);
    forall name, r: nat | name in q.workers && r in q.workers[name].runs
      ensures RunsNoted(log, name, q.workers[name])
    {
      assert WorkerNoted(log, name, q.workers[name]);
    }
  }

  /**
  A leader that is at a batch and starts its first entry: the run is a first one, and is added
  to the first starts, exactly if its last delivery was a read.
  */
  lemma StartedExactly(cfg: Config, steps: seq<Step>, name: string, run: nat)
    requires var q := RunSteps(cfg, EMPTY, steps);
             Enabled(cfg, q.server, name, WorkerOf(q, name), Batching(Start(run)))
    ensures var q, log := RunSteps(cfg, EMPTY, steps), LogOf(cfg, EMPTY, steps, NOTHING);
            var q' := Next(cfg, q, Act(name, Batching(Start(run))));
            var e := WorkerOf(q, name).lead.todo[0];
            && name in log.last && e in log.last[name].ids
            && var read := log.last[name].kind.Read?;
               WorkerOf(q', name).runs[run] == Run(e, Handling, false, !read)
               && q'.firstStarts == if read then q.firstStarts + [e] else q.firstStarts
  {
    RunNoted(cfg, EMPTY, steps, NOTHING);
    var q := RunSteps(cfg, EMPTY, steps);
    assert WorkerNoted(LogOf(cfg, EMPTY, steps, NOTHING), name, q.workers[name]);
    assert q.workers[name].lead.todo[0] in Elems(Todo(q.workers[name].lead));
  }
}
