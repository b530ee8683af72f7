/**
What every step of the queue keeps: no entry is lost, a worker touches only what
it handles, and never runs an entry twice at once.
*/
module DispatchSafety {
  import opened Dispatch

  // -- the server ---------------------------------------------------------------------

  /**
  Every entry is unread in the stream, or pending in the group and still in the
  stream, or was answered, or was dropped because it was malformed or too late.
  */
  ghost predicate NothingLost(s: Server) {
    forall e: nat :: e < |s.infos| ==>
      || (s.delivered <= e && e in s.entries)
      || (e in s.pel && e in s.entries)
      || e in s.answered
      || (e in s.dropped
            && (s.infos[e].malformed || (s.infos[e].deadline.Some? && s.infos[e].deadline.value <= s.now)))
  }

  ghost predicate ServerInv(s: Server) {
    && s.delivered <= |s.infos|
    && (forall e :: e in s.pel ==> e < s.delivered && e in s.entries)
    && (forall e: nat :: s.delivered <= e < |s.infos| ==> e in s.entries)
    && (forall e :: e in s.entries ==> e < |s.infos|)
    && (forall e: nat :: e < s.delivered ==> e in s.pel || e in s.answered || e in s.dropped)
    && (forall e :: e in s.dropped ==> Doomed(s, e))
    && (forall e :: e in s.answered ==> e < s.delivered && e !in s.entries)
  }

  lemma ServerInvNothingLost(s: Server)
    requires ServerInv(s)
    ensures NothingLost(s)
  {
  }

  /** How the server may change under a worker: time passes, entries are added and delivered, pending ones go. */
  ghost predicate Evolves(s: Server, s': Server) {
    && s.now <= s'.now && s.infos <= s'.infos && s.delivered <= s'.delivered
    && forall e :: e in s'.pel && e < s.delivered ==> e in s.pel
  }

  // -- a worker ------------------------------------------------------------------------

  /** The entry of a cancelled handler that the leader is about to hand back. */
  predicate Owed(lead: Lead, e: nat) {
    (lead.Cancelling? || lead.Cancelled?) && lead.entry == e
  }

  ghost predicate LiveFor(w: Worker, e: nat) {
    exists r :: r in w.runs && IsLive(w.runs[r]) && w.runs[r].entry == e
  }

  /**
  Touching implies handling: every entry the worker touches is in its undispatched
  batch, has a live handler - running, waiting out a requeue delay or finishing -
  or is owed a hand-back by the leader that just cancelled its handler.
  */
  ghost predicate TouchesOnlyHandled(w: Worker) {
    forall e :: e in w.taken ==> e in Todo(w.lead) || LiveFor(w, e) || Owed(w.lead, e)
  }

  /** No two live handler runs of one entry, and none of an entry that is still to be dispatched. */
  ghost predicate NoOverlap(w: Worker) {
    && (forall r, q :: r in w.runs && q in w.runs && r != q && IsLive(w.runs[r]) && IsLive(w.runs[q]) ==>
          w.runs[r].entry != w.runs[q].entry)
    && (forall r :: r in w.runs && IsLive(w.runs[r]) ==> w.runs[r].entry !in Todo(w.lead))
  }

  ghost predicate TakenInv(s: Server, w: Worker) {
    && (forall e :: e in w.taken ==> e < s.delivered)
    && (forall r :: r in w.runs && IsLive(w.runs[r]) ==> w.runs[r].entry in w.taken)
    && Ascending(Todo(w.lead)) && (forall e :: e in Todo(w.lead) ==> e in w.taken)
  }

  /** Requests in flight: the snapshot still covers what is taken; a first delivery was never taken. */
  ghost predicate AskingInv(s: Server, w: Worker) {
    w.lead.Asking? ==>
      && (if w.lead.kind.Read? then w.lead.snapshot == {} else w.taken <= w.lead.snapshot)
      && (w.lead.reply.Some? ==>
            var ids := w.lead.reply.value;
            && Ascending(ids) && (forall e :: e in ids ==> e < s.delivered)
            && (w.lead.kind.Read? ==> forall e :: e in ids ==> e !in w.taken))
  }

  /** A finished entry is neither pending nor to be dispatched, and filtered out of any reply still in flight. */
  ghost predicate FinishedStaysFinished(s: Server, w: Worker) {
    && (forall e :: e in w.finished ==>
          && e < s.delivered && e !in s.pel && e !in Todo(w.lead)
          && (w.lead.Asking? && w.lead.reply.Some? && e in w.lead.reply.value ==> e in w.lead.snapshot))
    && (forall r :: r in w.runs && w.runs[r].phase == Finishing(true) ==> w.runs[r].entry !in s.pel)
  }

  /** The handler the leader waits for or is cancelling: the only live run of its entry, which is not in the batch. */
  ghost predicate SoleRun(w: Worker, run: nat, e: nat, todo: seq<nat>) {
    && e !in todo && (run in w.runs ==> w.runs[run].entry == e)
    && (e in w.taken ==> run in w.runs && IsLive(w.runs[run]))
    && (forall r :: r in w.runs && r != run && IsLive(w.runs[r]) ==> w.runs[r].entry != e)
  }

  ghost predicate LeadInv(s: Server, w: Worker) {
    match w.lead
    case Dropping(e, acked, _, _) => e < s.delivered && Doomed(s, e) && (acked ==> e !in s.pel)
    case Awaiting(run, todo, _) => run in w.runs ==> SoleRun(w, run, w.runs[run].entry, todo)
    case Cancelling(run, e, todo) => SoleRun(w, run, e, todo)
    case Cancelled(e, todo) => e !in todo && !LiveFor(w, e)
    case _ => true
  }

  /** The claim lock orders touches and hand-backs: a touch in flight names nothing that was handed back. */
  ghost predicate LockInv(w: Worker) {
    && w.returned !! w.taken
    && match w.lock
       case Free => true
       case Touching(ids) => ids !! w.returned
       case Claiming(ids, _, Some(run)) => run in w.runs && w.runs[run].phase.HandingBack? && ids == {w.runs[run].entry}
       case Claiming(ids, _, None) => w.lead.Returning? && ids == w.lead.ids && ids != {}
  }

  /** One unsettled handler at most: the one the leader waits for, or is cancelling. */
  ghost predicate OneUnsettled(w: Worker) {
    forall r :: r in w.runs && !w.runs[r].admitted ==>
      (w.lead.Awaiting? || w.lead.Cancelling?) && w.lead.run == r
  }

  predicate WithinCap(cfg: Config, w: Worker) {
    cfg.maxAdmitted.Some? ==> |w.runs| <= cfg.maxAdmitted.value
  }

  predicate FoundFirst(w: Worker, e: nat) {
    if w.lead.Asking? then
      w.lead.kind.Reclaim? && e !in w.lead.snapshot && e !in w.taken && (w.lead.reply.Some? ==> e in w.lead.reply.value)
    else (w.reclaimNow && e !in w.taken) || e in Todo(w.lead)
  }

  /** A requeued entry will be found by a reclaim scan before anything unread is asked for. */
  ghost predicate RequeuedFirst(w: Worker) {
    forall e :: e in w.requeued ==> FoundFirst(w, e)
  }

  /** What a command that still may run names: something delivered, and what it drops may be dropped. */
  predicate MayRun(s: Server, x: Sent) {
    match x
    case Asked(_) => true
    case Finish(e) => e < s.delivered
    case DropAck(e) => e < s.delivered && Doomed(s, e)
    case DropDel(e) => e < s.delivered && e !in s.pel
  }

  ghost predicate SentInv(s: Server, w: Worker) {
    forall x :: x in w.sent ==> MayRun(s, x)
  }

  ghost predicate WorkerInv(cfg: Config, s: Server, w: Worker) {
    && TakenInv(s, w) && TouchesOnlyHandled(w) && NoOverlap(w) && AskingInv(s, w) && FinishedStaysFinished(s, w)
    && LeadInv(s, w) && LockInv(w) && OneUnsettled(w) && WithinCap(cfg, w) && RequeuedFirst(w) && SentInv(s, w)
  }

  // -- the server's steps -----------------------------------------------------------------

  lemma EnqueueKeeps(cfg: Config, s: Server, job: Job)
    requires ServerInv(s)
    ensures ServerInv(Enqueue(cfg, s, job)) && Evolves(s, Enqueue(cfg, s, job))
  {
  }

  lemma ClaimKeeps(s: Server, ids: set<nat>, name: string, since: int)
    requires ServerInv(s)
    ensures ServerInv(Claim(s, ids, name, since)) && Evolves(s, Claim(s, ids, name, since))
  {
  }

  lemma AnswerKeeps(s: Server, e: nat)
    requires ServerInv(s) && e < s.delivered
    ensures ServerInv(Answer(s, e)) && Evolves(s, Answer(s, e))
  {
  }

  lemma DropKeeps(s: Server, e: nat)
    requires ServerInv(s) && e < s.delivered && Doomed(s, e)
    ensures ServerInv(Drop(s, e)) && Evolves(s, Drop(s, e))
  {
  }

  lemma DeleteKeeps(s: Server, e: nat)
    requires ServerInv(s) && e < s.delivered && e !in s.pel
    ensures ServerInv(s.(entries := s.entries - {e})) && Evolves(s, s.(entries := s.entries - {e}))
  {
  }

  lemma RequestKeeps(s: Server, name: string, kind: Kind, ids: seq<nat>)
    requires ServerInv(s)
    ensures ServerInv(AfterRequest(s, name, kind, ids)) && Evolves(s, AfterRequest(s, name, kind, ids))
  {
    if !kind.Read? {
      ClaimKeeps(s, Elems(ids), name, s.now);
    }
  }

  lemma LateKeeps(s: Server, name: string, sent: Sent, ids: seq<nat>)
    requires ServerInv(s) && MayRun(s, sent)
    ensures ServerInv(AfterLate(s, name, sent, ids)) && Evolves(s, AfterLate(s, name, sent, ids))
  {
    match sent
    case Asked(kind) => RequestKeeps(s, name, kind, ids);
    case Finish(e) => AnswerKeeps(s, e);
    case DropAck(e) => DropKeeps(s, e);
    case DropDel(e) => DeleteKeeps(s, e);
  }

  /** Every command a worker's invariant allows keeps the account of all entries. */
  lemma ServerStep(cfg: Config, s: Server, name: string, w: Worker, command: Command)
    requires ServerInv(s) && WorkerInv(cfg, s, w) && CanExecute(cfg, s, name, w, command)
    ensures ServerInv(ServerAfter(cfg, s, name, w, command)) && Evolves(s, ServerAfter(cfg, s, name, w, command))
  {
    match command
    case Serve(ids) => RequestKeeps(s, name, w.lead.kind, ids);
    case ServeAck => DropKeeps(s, w.lead.entry);
    case ServeDel => DeleteKeeps(s, w.lead.entry);
    case ServeFinish(run) => AnswerKeeps(s, w.runs[run].entry);
    case ServeClaim => ClaimKeeps(s, w.lock.ids, name, s.now - cfg.reclaimIdle);
    case ServeTouch => ClaimKeeps(s, w.lock.ids, name, s.now);
    case ServeLate(sent, ids) => LateKeeps(s, name, sent, ids);
  }

  /** A worker's invariant survives whatever the others do to the server. */
  lemma OthersKeep(cfg: Config, s: Server, s': Server, w: Worker)
    requires WorkerInv(cfg, s, w) && Evolves(s, s')
    ensures WorkerInv(cfg, s', w)
  {
  }

  // -- a worker's own steps ---------------------------------------------------------------

  /** A live run that stays live under its entry keeps that entry accounted for. */
  lemma StillLive(w: Worker, w': Worker, e: nat)
    requires LiveFor(w, e)
    requires forall r :: r in w.runs && IsLive(w.runs[r]) && w.runs[r].entry == e ==>
               r in w'.runs && IsLive(w'.runs[r]) && w'.runs[r].entry == e
    ensures LiveFor(w', e)
  {
    var r :| r in w.runs && IsLive(w.runs[r]) && w.runs[r].entry == e;
    assert r in w'.runs;
  }

  lemma {:induction false} UnknownAscends(ids: seq<nat>, snapshot: set<nat>)
    requires Ascending(ids)
    ensures Ascending(Unknown(ids, snapshot))
  {
    if ids != [] {
      UnknownAscends(ids[1..], snapshot);
      var r := Unknown(ids[1..], snapshot);
      forall j | 0 <= j < |r| ensures ids[0] < r[j] {
        assert r[j] in r && r[j] in ids[1..];
      }
    }
  }

  lemma SeekTracks(cfg: Config, s: Server, w: Worker, act: SeekAct, w': Worker)
    requires TakenInv(s, w) && NoOverlap(w) && AskingInv(s, w) && CanSeek(w, act) && w' == AfterSeek(w, act)
    ensures TakenInv(s, w') && NoOverlap(w')
  {
    if act.Receive? {
      UnknownAscends(w.lead.reply.value, w.lead.snapshot);
    }
  }

  lemma SeekTouches(cfg: Config, s: Server, w: Worker, act: SeekAct, w': Worker)
    requires ServerInv(s) && WorkerInv(cfg, s, w) && CanSeek(w, act) && w' == AfterSeek(w, act)
    ensures TouchesOnlyHandled(w')
  {
  }

  lemma SeekReplies(cfg: Config, s: Server, w: Worker, act: SeekAct, w': Worker)
    requires ServerInv(s) && WorkerInv(cfg, s, w) && CanSeek(w, act) && w' == AfterSeek(w, act)
    ensures AskingInv(s, w') && FinishedStaysFinished(s, w')
  {
  }

  lemma SeekControls(cfg: Config, s: Server, w: Worker, act: SeekAct, w': Worker)
    requires ServerInv(s) && WorkerInv(cfg, s, w) && CanSeek(w, act) && w' == AfterSeek(w, act)
    ensures LeadInv(s, w') && LockInv(w')
  {
  }

  lemma SeekOrders(cfg: Config, s: Server, w: Worker, act: SeekAct, w': Worker)
    requires TakenInv(s, w) && OneUnsettled(w) && WithinCap(cfg, w) && RequeuedFirst(w) && CanSeek(w, act)
        && w' == AfterSeek(w, act)
    ensures OneUnsettled(w') && WithinCap(cfg, w') && RequeuedFirst(w')
  {
  }

  lemma SeekSends(cfg: Config, s: Server, w: Worker, act: SeekAct, w': Worker)
    requires SentInv(s, w) && CanSeek(w, act) && w' == AfterSeek(w, act)
    ensures SentInv(s, w')
  {
  }

  lemma BatchTracks(cfg: Config, s: Server, w: Worker, act: BatchAct, w': Worker)
    requires TakenInv(s, w) && NoOverlap(w) && CanBatch(cfg, s, w, act) && w' == AfterBatch(cfg, s, w, act)
    ensures TakenInv(s, w') && NoOverlap(w')
  {
  }

  lemma BatchTouches(cfg: Config, s: Server, w: Worker, act: BatchAct, w': Worker)
    requires ServerInv(s) && WorkerInv(cfg, s, w) && CanBatch(cfg, s, w, act) && w' == AfterBatch(cfg, s, w, act)
    ensures TouchesOnlyHandled(w')
  {
    forall e | e in w'.taken && LiveFor(w, e) && !Owed(w'.lead, e)
      ensures LiveFor(w', e)
    {
      StillLive(w, w', e);
    }
    if act.Start? {
      assert act.run in w'.runs && LiveFor(w', w.lead.todo[0]);
    }
  }

  lemma BatchReplies(cfg: Config, s: Server, w: Worker, act: BatchAct, w': Worker)
    requires ServerInv(s) && WorkerInv(cfg, s, w) && CanBatch(cfg, s, w, act) && w' == AfterBatch(cfg, s, w, act)
    ensures AskingInv(s, w') && FinishedStaysFinished(s, w')
  {
  }

  lemma BatchControls(cfg: Config, s: Server, w: Worker, act: BatchAct, w': Worker)
    requires TakenInv(s, w) && NoOverlap(w) && LeadInv(s, w) && LockInv(w) && CanBatch(cfg, s, w, act)
        && w' == AfterBatch(cfg, s, w, act)
    ensures LeadInv(s, w') && LockInv(w')
  {
    if act.Start? || act.DropBegin? {
      assert w.lead.todo[0] in w.lead.todo;
    }
  }

  lemma BatchOrders(cfg: Config, s: Server, w: Worker, act: BatchAct, w': Worker)
    requires ServerInv(s) && WorkerInv(cfg, s, w) && CanBatch(cfg, s, w, act) && w' == AfterBatch(cfg, s, w, act)
    ensures OneUnsettled(w') && WithinCap(cfg, w') && RequeuedFirst(w')
  {
  }

  lemma BatchSends(cfg: Config, s: Server, w: Worker, act: BatchAct, w': Worker)
    requires TakenInv(s, w) && SentInv(s, w) && CanBatch(cfg, s, w, act) && w' == AfterBatch(cfg, s, w, act)
    ensures SentInv(s, w')
  {
    if act.DropBegin? {
      assert w.lead.todo[0] in w.lead.todo;
    }
  }

  lemma ReturnTracks(s: Server, w: Worker, ids: seq<nat>, todo: seq<nat>)
    requires TakenInv(s, w) && NoOverlap(w) && Ascending(todo)
    requires forall e :: e in todo ==> e in Todo(w.lead) && e !in ids
    requires forall r :: r in w.runs && IsLive(w.runs[r]) ==> w.runs[r].entry !in ids
    ensures TakenInv(s, Return(w, ids, todo)) && NoOverlap(Return(w, ids, todo))
  {
  }

  lemma LeaveTracks(cfg: Config, s: Server, w: Worker, act: LeaveAct, w': Worker)
    requires TakenInv(s, w) && NoOverlap(w) && LeadInv(s, w) && CanLeave(cfg, w, act) && w' == AfterLeave(cfg, w, act)
    ensures TakenInv(s, w') && NoOverlap(w')
  {
    match act
    case Quit =>
      assert w.lead.todo[0] in Todo(w.lead);
      ReturnTracks(s, w, [w.lead.todo[0]], w.lead.todo[1..]);
    case CancelMoot => ReturnTracks(s, w, [], w.lead.todo);
    case HandBackCancelled =>
      assert forall r :: r in w.runs && IsLive(w.runs[r]) ==> LiveFor(w, w.runs[r].entry);
      ReturnTracks(s, w, [w.lead.entry], w.lead.todo);
    case ReturnSkip => ReturnTracks(s, w, w.lead.todo, []);
    case ReturnDone => ReturnTracks(s, w.(lock := Free), w.lead.todo, []);
    case _ =>
  }

  lemma LeaveTouches(cfg: Config, s: Server, w: Worker, act: LeaveAct, w': Worker)
    requires TouchesOnlyHandled(w) && LeadInv(s, w) && CanLeave(cfg, w, act) && w' == AfterLeave(cfg, w, act)
    ensures TouchesOnlyHandled(w')
  {
    forall e | e in w'.taken && e !in Todo(w'.lead) && !Owed(w'.lead, e)
      ensures LiveFor(w', e)
    {
      StillLive(w, w', e);
    }
  }

  lemma LeaveReplies(cfg: Config, s: Server, w: Worker, act: LeaveAct, w': Worker)
    requires ServerInv(s) && WorkerInv(cfg, s, w) && CanLeave(cfg, w, act) && w' == AfterLeave(cfg, w, act)
    ensures AskingInv(s, w') && FinishedStaysFinished(s, w')
  {
  }

  lemma LeaveControls(cfg: Config, s: Server, w: Worker, act: LeaveAct, w': Worker)
    requires TakenInv(s, w) && NoOverlap(w) && LeadInv(s, w) && LockInv(w) && CanLeave(cfg, w, act)
        && w' == AfterLeave(cfg, w, act)
    ensures LeadInv(s, w') && LockInv(w')
  {
  }

  lemma FewerRuns(runs: map<nat, Run>, run: nat)
    ensures |runs - {run}| <= |runs|
  {
    if run in runs {
      assert (runs - {run})[run := runs[run]] == runs;
    } else {
      assert runs - {run} == runs;
    }
  }

  lemma LeaveOrders(cfg: Config, s: Server, w: Worker, act: LeaveAct, w': Worker)
    requires LockInv(w) && OneUnsettled(w) && WithinCap(cfg, w) && RequeuedFirst(w)
    requires CanLeave(cfg, w, act) && w' == AfterLeave(cfg, w, act)
    ensures OneUnsettled(w') && WithinCap(cfg, w') && RequeuedFirst(w')
  {
    match act
    case AbandonBegin =>
    case ReturnLock =>
    case CancelDelivered => FewerRuns(w.runs, w.lead.run);
    case _ => assert w'.requeued == {};
  }

  lemma LeaveSends(cfg: Config, s: Server, w: Worker, act: LeaveAct, w': Worker)
    requires SentInv(s, w) && CanLeave(cfg, w, act) && w' == AfterLeave(cfg, w, act)
    ensures SentInv(s, w')
  {
  }

  lemma RunTracks(cfg: Config, s: Server, w: Worker, run: nat, act: RunAct, w': Worker)
    requires ServerInv(s) && WorkerInv(cfg, s, w) && CanRun(w, run, act) && w' == AfterRun(w, run, act)
    ensures TakenInv(s, w') && NoOverlap(w')
  {
  }

  lemma RunTouches(cfg: Config, s: Server, w: Worker, run: nat, act: RunAct, w': Worker)
    requires ServerInv(s) && WorkerInv(cfg, s, w) && CanRun(w, run, act) && w' == AfterRun(w, run, act)
    ensures TouchesOnlyHandled(w')
  {
    forall e | e in w'.taken && LiveFor(w, e) && !Owed(w'.lead, e)
      ensures LiveFor(w', e)
    {
      StillLive(w, w', e);
    }
  }

  lemma RunReplies(cfg: Config, s: Server, w: Worker, run: nat, act: RunAct, w': Worker)
    requires ServerInv(s) && WorkerInv(cfg, s, w) && CanRun(w, run, act) && w' == AfterRun(w, run, act)
    ensures AskingInv(s, w') && FinishedStaysFinished(s, w')
  {
  }

  lemma RunControls(cfg: Config, s: Server, w: Worker, run: nat, act: RunAct, w': Worker)
    requires TakenInv(s, w) && NoOverlap(w) && LeadInv(s, w) && LockInv(w) && CanRun(w, run, act)
        && w' == AfterRun(w, run, act)
    ensures LeadInv(s, w') && LockInv(w')
  {
  }

  lemma RunOrders(cfg: Config, s: Server, w: Worker, run: nat, act: RunAct, w': Worker)
    requires TakenInv(s, w) && LeadInv(s, w) && LockInv(w)
    requires OneUnsettled(w) && WithinCap(cfg, w) && RequeuedFirst(w)
    requires CanRun(w, run, act) && w' == AfterRun(w, run, act)
    ensures OneUnsettled(w') && WithinCap(cfg, w') && RequeuedFirst(w')
  {
  }

  lemma RunSends(cfg: Config, s: Server, w: Worker, run: nat, act: RunAct, w': Worker)
    requires WorkerInv(cfg, s, w) && CanRun(w, run, act) && w' == AfterRun(w, run, act)
    ensures SentInv(s, w')
  {
  }

  lemma ExecuteTracks(cfg: Config, s: Server, name: string, w: Worker, command: Command, s': Server, w': Worker)
    requires ServerInv(s) && WorkerInv(cfg, s, w) && CanExecute(cfg, s, name, w, command) && !command.ServeLate?
    requires s' == ServerAfter(cfg, s, name, w, command) && w' == AfterExecute(cfg, s, name, w, command)
    ensures TakenInv(s', w') && NoOverlap(w')
  {
  }

  lemma ExecuteTouches(cfg: Config, s: Server, name: string, w: Worker, command: Command, w': Worker)
    requires ServerInv(s) && WorkerInv(cfg, s, w) && CanExecute(cfg, s, name, w, command) && !command.ServeLate?
        && w' == AfterExecute(cfg, s, name, w, command)
    ensures TouchesOnlyHandled(w')
  {
    forall e | e in w'.taken && LiveFor(w, e) && !Owed(w'.lead, e)
      ensures LiveFor(w', e)
    {
      StillLive(w, w', e);
    }
  }

  lemma ExecuteReplies(cfg: Config, s: Server, name: string, w: Worker, command: Command, s': Server, w': Worker)
    requires ServerInv(s) && WorkerInv(cfg, s, w) && CanExecute(cfg, s, name, w, command) && !command.ServeLate?
    requires s' == ServerAfter(cfg, s, name, w, command) && w' == AfterExecute(cfg, s, name, w, command)
    ensures AskingInv(s', w') && FinishedStaysFinished(s', w')
  {
  }

  lemma ExecuteControls(cfg: Config, s: Server, name: string, w: Worker, command: Command, s': Server, w': Worker)
    requires ServerInv(s) && WorkerInv(cfg, s, w) && CanExecute(cfg, s, name, w, command) && !command.ServeLate?
    requires s' == ServerAfter(cfg, s, name, w, command) && w' == AfterExecute(cfg, s, name, w, command)
    ensures LeadInv(s', w') && LockInv(w')
  {
  }

  lemma ExecuteOrders(cfg: Config, s: Server, name: string, w: Worker, command: Command, w': Worker)
    requires OneUnsettled(w) && WithinCap(cfg, w) && RequeuedFirst(w)
    requires CanExecute(cfg, s, name, w, command) && !command.ServeLate? && w' == AfterExecute(cfg, s, name, w, command)
    ensures OneUnsettled(w') && WithinCap(cfg, w') && RequeuedFirst(w')
  {
  }

  lemma ExecuteSends(cfg: Config, s: Server, name: string, w: Worker, command: Command, s': Server, w': Worker)
    requires ServerInv(s) && WorkerInv(cfg, s, w) && CanExecute(cfg, s, name, w, command) && !command.ServeLate?
    requires s' == ServerAfter(cfg, s, name, w, command) && w' == AfterExecute(cfg, s, name, w, command)
    requires Evolves(s, s')
    ensures SentInv(s', w')
  {
  }

  lemma CommandKeeps(cfg: Config, s: Server, name: string, w: Worker, command: Command)
    requires ServerInv(s) && WorkerInv(cfg, s, w) && CanExecute(cfg, s, name, w, command)
    ensures ServerInv(ServerAfter(cfg, s, name, w, command)) && Evolves(s, ServerAfter(cfg, s, name, w, command))
    ensures WorkerInv(cfg, ServerAfter(cfg, s, name, w, command), AfterExecute(cfg, s, name, w, command))
  {
    var s', w' := ServerAfter(cfg, s, name, w, command), AfterExecute(cfg, s, name, w, command);
    ServerStep(cfg, s, name, w, command);
    if command.ServeLate? {
      OthersKeep(cfg, s, s', w);
      return;
    }
    ExecuteSends(cfg, s, name, w, command, s', w');
    ExecuteTracks(cfg, s, name, w, command, s', w');
    ExecuteTouches(cfg, s, name, w, command, w');
    ExecuteReplies(cfg, s, name, w, command, s', w');
    ExecuteControls(cfg, s, name, w, command, s', w');
    ExecuteOrders(cfg, s, name, w, command, w');
  }

  lemma TouchKeeps(cfg: Config, s: Server, name: string, w: Worker, act: Act)
    requires WorkerInv(cfg, s, w) && Enabled(cfg, s, name, w, act)
    requires act.TouchBegin? || act.TouchEnd? || act.Crash?
    ensures WorkerInv(cfg, s, WorkerAfter(cfg, s, name, w, act))
  {
  }

  /** A worker's own steps keep its invariant. */
  lemma WorkerKeeps(cfg: Config, s: Server, name: string, w: Worker, act: Act)
    requires ServerInv(s) && WorkerInv(cfg, s, w) && Enabled(cfg, s, name, w, act) && !act.Execute?
    ensures WorkerInv(cfg, s, WorkerAfter(cfg, s, name, w, act))
  {
    var w' := WorkerAfter(cfg, s, name, w, act);
    match act
    case Seek(a) => SeekTracks(cfg, s, w, a, w'); SeekSends(cfg, s, w, a, w'); SeekTouches(cfg, s, w, a, w');
                    SeekReplies(cfg, s, w, a, w');
                    SeekControls(cfg, s, w, a, w'); SeekOrders(cfg, s, w, a, w');
    case Batching(a) => BatchTracks(cfg, s, w, a, w'); BatchSends(cfg, s, w, a, w'); BatchTouches(cfg, s, w, a, w');
                        BatchReplies(cfg, s, w, a, w');
                        BatchControls(cfg, s, w, a, w'); BatchOrders(cfg, s, w, a, w');
    case Leaving(a) => LeaveTracks(cfg, s, w, a, w'); LeaveSends(cfg, s, w, a, w'); LeaveTouches(cfg, s, w, a, w');
                       LeaveReplies(cfg, s, w, a, w');
                       LeaveControls(cfg, s, w, a, w'); LeaveOrders(cfg, s, w, a, w');
    case Handler(r, a) => RunTracks(cfg, s, w, r, a, w'); RunSends(cfg, s, w, r, a, w');
                          RunTouches(cfg, s, w, r, a, w'); RunReplies(cfg, s, w, r, a, w');
                          RunControls(cfg, s, w, r, a, w'); RunOrders(cfg, s, w, r, a, w');
    case _ => TouchKeeps(cfg, s, name, w, act);
  }

  // -- whole runs -----------------------------------------------------------------------------

  ghost predicate QueueInv(cfg: Config, q: Queue) {
    ServerInv(q.server) && forall name :: name in q.workers ==> WorkerInv(cfg, q.server, q.workers[name])
  }

  lemma NewcomerInv(cfg: Config, s: Server)
    ensures WorkerInv(cfg, s, NEWCOMER)
  {
  }

  /** One worker acted, the server evolved: the others' invariants still hold. */
  lemma ActorKeeps(cfg: Config, q: Queue, name: string, w': Worker, q': Queue)
    requires QueueInv(cfg, q) && ServerInv(q'.server) && Evolves(q.server, q'.server) && WorkerInv(cfg, q'.server, w')
    requires q'.workers == q.workers[name := w']
    ensures QueueInv(cfg, q')
  {
    forall n | n in q.workers && n != name
      ensures WorkerInv(cfg, q'.server, q.workers[n])
    {
      OthersKeep(cfg, q.server, q'.server, q.workers[n]);
    }
  }

  lemma ServerMoves(cfg: Config, q: Queue, s': Server)
    requires QueueInv(cfg, q) && ServerInv(s') && Evolves(q.server, s')
    ensures QueueInv(cfg, q.(server := s'))
  {
    forall n | n in q.workers
      ensures WorkerInv(cfg, s', q.workers[n])
    {
      OthersKeep(cfg, q.server, s', q.workers[n]);
    }
  }

  lemma ActKeeps(cfg: Config, q: Queue, name: string, act: Act)
    requires QueueInv(cfg, q) && Enabled(cfg, q.server, name, WorkerOf(q, name), act)
    ensures QueueInv(cfg, Next(cfg, q, Act(name, act))) && Evolves(q.server, Next(cfg, q, Act(name, act)).server)
  {
    var w := WorkerOf(q, name);
    assert WorkerInv(cfg, q.server, w) by {
      NewcomerInv(cfg, q.server);
    }
    if act.Execute? {
      CommandKeeps(cfg, q.server, name, w, act.command);
    } else {
      WorkerKeeps(cfg, q.server, name, w, act);
    }
    ActorKeeps(cfg, q, name, WorkerAfter(cfg, q.server, name, w, act), Next(cfg, q, Act(name, act)));
  }

  lemma NextKeeps(cfg: Config, q: Queue, step: Step)
    requires QueueInv(cfg, q)
    ensures QueueInv(cfg, Next(cfg, q, step)) && Evolves(q.server, Next(cfg, q, step).server)
  {
    match step
    case Tick(_) => ServerMoves(cfg, q, Next(cfg, q, step).server);
    case Submit(job) =>
      EnqueueKeeps(cfg, q.server, job);
      ServerMoves(cfg, q, Next(cfg, q, step).server);
    case Act(name, act) =>
      if Enabled(cfg, q.server, name, WorkerOf(q, name), act) {
        ActKeeps(cfg, q, name, act);
      }
  }

  lemma {:induction false} RunKeeps(cfg: Config, q: Queue, steps: seq<Step>)
    requires QueueInv(cfg, q)
    ensures QueueInv(cfg, RunSteps(cfg, q, steps)) && Evolves(q.server, RunSteps(cfg, q, steps).server)
    decreases |steps|
  {
    if steps != [] {
      NextKeeps(cfg, q, steps[0]);
      RunKeeps(cfg, Next(cfg, q, steps[0]), steps[1..]);
    }
  }
}
