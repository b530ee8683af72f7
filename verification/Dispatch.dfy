/**
One dispatch queue as a transition system: a Redis stream with its consumer
group, and any number of workers. Every worker action is one stretch of a
coroutine between two awaits; a Redis command runs on the server between being
sent and being answered, so that everything else may happen in between.
*/
module Dispatch {
  import opened Options

  /** `maxSize` 0 is unbounded; `maxAdmitted` is the cap on handlers of one worker. Times are milliseconds. */
  datatype Config = Config(maxSize: nat, markerTtl: nat, maxAdmitted: Option<nat>, reclaimIdle: nat)

  // -- the server ------------------------------------------------------------------

  /** What a producer submits; `timeout` is absent for a job without deadline. */
  datatype Job = Job(id: string, malformed: bool, timeout: Option<int>)

  datatype Info = Info(job: string, malformed: bool, deadline: Option<int>)

  /** A delivered, unacknowledged entry: whose it is, and since when it has been idle. */
  datatype Pending = Pending(consumer: string, since: int)

  /** The submit marker of a job, and when it expires. */
  datatype Marker = Marker(entry: nat, expiry: int)

  /**
  Entries are numbered in stream order: those below `delivered` have been read by
  the group, the others are unread. `answered` and `dropped` are what became of
  entries that are gone: a reply was pushed, or the job was expired or malformed.
  */
  datatype Server = Server(now: int, infos: seq<Info>, entries: set<nat>, delivered: nat, pel: map<nat, Pending>,
                           markers: map<string, Marker>, answered: set<nat>, dropped: set<nat>)

  predicate Marked(s: Server, job: string) {
    job in s.markers && s.now <= s.markers[job].expiry
  }

  predicate Full(cfg: Config, s: Server) {
    cfg.maxSize > 0 && |s.entries| >= cfg.maxSize
  }

  function Stamped(job: Job, now: int): Info {
    Info(job.id, job.malformed, if job.timeout.Some? then Some(now + job.timeout.value) else None)
  }

  /** DISPATCH_ENQUEUE. */
  function Enqueue(cfg: Config, s: Server, job: Job): Server {
    if Marked(s, job.id) || Full(cfg, s) then s
    else s.(infos := s.infos + [Stamped(job, s.now)], entries := s.entries + {|s.infos|},
            markers := s.markers[job.id := Marker(|s.infos|, s.now + cfg.markerTtl)])
  }

  /** The entry id the script returns; `None` is a full queue. */
  function EnqueueReply(cfg: Config, s: Server, job: Job): Option<nat> {
    if Marked(s, job.id) then Some(s.markers[job.id].entry)
    else if Full(cfg, s) then None
    else Some(|s.infos|)
  }

  /** XCLAIM: takes pending entries over; ids that are not pending are ignored. */
  function Claim(s: Server, ids: set<nat>, consumer: string, since: int): Server {
    s.(pel := map e | e in s.pel :: if e in ids then Pending(consumer, since) else s.pel[e])
  }

  /** XREADGROUP ">" COUNT 1. */
  function ReadNext(s: Server, consumer: string): Server {
    if s.delivered >= |s.infos| then s
    else s.(delivered := s.delivered + 1, pel := s.pel[s.delivered := Pending(consumer, s.now)])
  }

  /** The transaction of `_finish`: push the reply, acknowledge, delete. */
  function Answer(s: Server, e: nat): Server {
    s.(pel := s.pel - {e}, entries := s.entries - {e}, answered := s.answered + {e})
  }

  /** A job its leader drops instead of running it: malformed, or its submitter has given up. */
  predicate Doomed(s: Server, e: nat) {
    e < |s.infos| && (s.infos[e].malformed || (s.infos[e].deadline.Some? && s.infos[e].deadline.value <= s.now))
  }

  /** A deadline may also pass while the leader waits for a free slot; the job is started then. */
  predicate Runnable(s: Server, e: nat) {
    e < |s.infos| && !s.infos[e].malformed
  }

  predicate Idle(cfg: Config, s: Server, e: nat) {
    e in s.pel && s.now - s.pel[e].since >= cfg.reclaimIdle
  }

  predicate Ascending(ids: seq<nat>) {
    forall i, j :: 0 <= i < j < |ids| ==> ids[i] < ids[j]
  }

  /** A reply XAUTOCLAIM may give: pending entries that have been idle for long enough. */
  predicate Claimable(cfg: Config, s: Server, ids: seq<nat>) {
    Ascending(ids) && forall e :: e in ids ==> Idle(cfg, s, e)
  }

  /** One scan covered the whole pending list. */
  predicate Covers(cfg: Config, s: Server, ids: seq<nat>) {
    forall e :: e in s.pel && Idle(cfg, s, e) ==> e in ids
  }

  // -- a worker -----------------------------------------------------------------------

  datatype Phase = Handling | Delaying | Finishing(served: bool) | HandingBack

  /** One handler task: `admitted` once the handler called admit(). */
  datatype Run = Run(entry: nat, phase: Phase, admitted: bool, reclaimed: bool)

  datatype Kind = Reclaim | Backlog | Read

  /** A command that was sent; it may run once more, or late, after its caller was told of an error. */
  datatype Sent = Asked(kind: Kind) | Finish(entry: nat) | DropAck(entry: nat) | DropDel(entry: nat)

  /**
  Where the leading coroutine is. `Asking` has a request in flight, the snapshot of
  `_taken` made before it, and the reply once the server computed it. `Returning`
  hands `ids` back, and then the rest of the batch.
  */
  datatype Lead =
    | NotLeading
    | Ready
    | Asking(kind: Kind, snapshot: set<nat>, reply: Option<seq<nat>>)
    | Batch(todo: seq<nat>, reclaimed: bool)
    | Dropping(entry: nat, acked: bool, todo: seq<nat>, reclaimed: bool)
    | Awaiting(run: nat, todo: seq<nat>, reclaimed: bool)
    | Cancelling(run: nat, entry: nat, todo: seq<nat>)
    | Cancelled(entry: nat, todo: seq<nat>)
    | Returning(ids: set<nat>, todo: seq<nat>)

  /** `_claim_lock`: held around a touch, or around the claim of a hand-back - the leader's or a run's. */
  datatype Lock =
    | Free
    | Touching(ids: set<nat>)
    | Claiming(ids: set<nat>, served: bool, run: Option<nat>)

  /**
  `taken`, `reclaimNow` are the worker's own. The other sets are history:
  `finished` entries whose finishing transaction ran while the worker waited for it,
  `returned` entries a hand-back claim of it ran for and that it has not taken again,
  `requeued` entries whose handler raised RequeueJob before admission and that have not
  started again, `sent` the commands it ever sent that may still run.
  */
  datatype Worker = Worker(taken: set<nat>, lead: Lead, runs: map<nat, Run>, lock: Lock, reclaimNow: bool,
                           finished: set<nat>, returned: set<nat>, requeued: set<nat>, sent: set<Sent>)

  const NEWCOMER := Worker({}, NotLeading, map[], Free, false, {}, {}, {}, {})

  function Todo(lead: Lead): seq<nat> {
    match lead
    case Batch(todo, _) => todo
    case Dropping(_, _, todo, _) => todo
    case Awaiting(_, todo, _) => todo
    case Cancelling(_, _, todo) => todo
    case Cancelled(_, todo) => todo
    case Returning(_, todo) => todo
    case _ => []
  }

  function Elems(s: seq<nat>): set<nat> {
    set e | e in s
  }

  /** A reply without the entries that were taken when the request was sent. */
  function Unknown(ids: seq<nat>, snapshot: set<nat>): (r: seq<nat>)
    ensures forall e :: e in r <==> e in ids && e !in snapshot
  {
    if ids == [] then []
    else
      var r := Unknown(ids[1..], snapshot);
      if ids[0] in snapshot then r else [ids[0]] + r
  }

  predicate IsLive(r: Run) {
    !r.phase.HandingBack?
  }

  /** The leader still waits for this run: it is neither admitted nor over. */
  predicate Unsettled(w: Worker, run: nat) {
    run in w.runs && !w.runs[run].admitted
  }

  predicate AtCap(cfg: Config, w: Worker) {
    cfg.maxAdmitted.Some? && |w.runs| >= cfg.maxAdmitted.value
  }

  /** What the leading coroutine does while it looks for work. */
  datatype SeekAct = Elect | Leave | LeadFail | AskReclaim | AskRead | Receive

  /** What it does with a batch. */
  datatype BatchAct = BatchDone | DropBegin | DropDone | Start(run: nat) | Settled

  /** What it does once it has to leave the queue. */
  datatype LeaveAct =
    | Quit | AbandonBegin | CancelDelivered | CancelMoot | HandBackCancelled
    | ReturnSkip | ReturnLock | ReturnDone

  /** What a handler task does. */
  datatype RunAct = Admit | HandlerReturns | HandlerRequeues | DelayOver | RunLock | RunReturned | FinishOk | FinishFail

  /** A command of the worker runs on the server; `ids` is the reply to a request. */
  datatype Command =
    | Serve(ids: seq<nat>) | ServeAck | ServeDel | ServeFinish(run: nat) | ServeClaim | ServeTouch
    | ServeLate(sent: Sent, ids: seq<nat>)

  /** After a crash a namesake may start afresh. */
  datatype Act =
    | Seek(seek: SeekAct)
    | Batching(batch: BatchAct)
    | Leaving(leave: LeaveAct)
    | Handler(run: nat, handler: RunAct)
    | TouchBegin
    | TouchEnd
    | Execute(command: Command)
    | Crash

  // -- looking for work

  predicate CanSeek(w: Worker, act: SeekAct) {
    match act
    case Elect => w.lead.NotLeading?
    case Leave => w.lead.Ready?
    case LeadFail => w.lead.Asking? || w.lead.Batch? || w.lead.Dropping?
    case AskReclaim => w.lead.Ready?
    case AskRead => w.lead.Ready? && !w.reclaimNow
    case Receive => w.lead.Asking? && w.lead.reply.Some?
  }

  function AfterSeek(w: Worker, act: SeekAct): Worker
    requires CanSeek(w, act)
  {
    match act
    case Elect => w.(lead := Ready)
    case Leave => StopLeading(w)
    case LeadFail => StopLeading(w.(taken := w.taken - Elems(Todo(w.lead))))
    case AskReclaim => Ask(w.(reclaimNow := false), Reclaim, w.taken)
    case AskRead => Ask(w, Read, {})
    case Receive => Received(w, w.lead.kind, Unknown(w.lead.reply.value, w.lead.snapshot))
  }

  /** The leader gives up; what it had requeued is the next leader's business. */
  function StopLeading(w: Worker): Worker {
    w.(lead := NotLeading, requeued := {})
  }

  /** Nothing to reclaim: look into the own backlog; nothing there either: read on. */
  function Received(w: Worker, kind: Kind, entries: seq<nat>): Worker {
    if entries != [] then
      w.(taken := w.taken + Elems(entries), returned := w.returned - Elems(entries),
         lead := Batch(entries, !kind.Read?))
    else match kind
      case Reclaim => Ask(w, Backlog, w.taken)
      case Backlog => Ask(w, Read, {})
      case Read => w.(lead := Ready)
  }

  function Ask(w: Worker, kind: Kind, snapshot: set<nat>): Worker {
    w.(lead := Asking(kind, snapshot, None), sent := w.sent + {Asked(kind)})
  }

  // -- dispatching a batch

  predicate CanBatch(cfg: Config, s: Server, w: Worker, act: BatchAct) {
    match act
    case BatchDone => w.lead.Batch? && w.lead.todo == []
    case DropBegin => w.lead.Batch? && w.lead.todo != [] && Doomed(s, w.lead.todo[0])
    case DropDone => w.lead.Dropping? && w.lead.acked
    case Start(run) => w.lead.Batch? && w.lead.todo != [] && Runnable(s, w.lead.todo[0]) && !AtCap(cfg, w)
      && run !in w.runs
    case Settled => w.lead.Awaiting? && !Unsettled(w, w.lead.run)
  }

  function AfterBatch(cfg: Config, s: Server, w: Worker, act: BatchAct): Worker
    requires CanBatch(cfg, s, w, act)
  {
    match act
    case BatchDone => w.(lead := Ready)
    case DropBegin =>
      var e := w.lead.todo[0];
      w.(taken := w.taken - {e}, requeued := w.requeued - {e}, sent := w.sent + {DropAck(e)},
         lead := Dropping(e, false, w.lead.todo[1..], w.lead.reclaimed))
    case DropDone => w.(lead := Batch(w.lead.todo, w.lead.reclaimed))
    case Start(run) =>
      var e := w.lead.todo[0];
      w.(runs := w.runs[run := Run(e, Handling, false, w.lead.reclaimed)], taken := w.taken + {e},
         requeued := w.requeued - {e}, lead := Awaiting(run, w.lead.todo[1..], w.lead.reclaimed))
    case Settled => w.(lead := Batch(w.lead.todo, w.lead.reclaimed))
  }

  // -- leaving the queue

  predicate CanLeave(cfg: Config, w: Worker, act: LeaveAct) {
    match act
    case Quit => w.lead.Batch? && w.lead.todo != [] && AtCap(cfg, w)
    case AbandonBegin => w.lead.Awaiting? && Unsettled(w, w.lead.run)
    case CancelDelivered => w.lead.Cancelling? && w.lead.run in w.runs
    case CancelMoot => w.lead.Cancelling? && w.lead.run !in w.runs
    case HandBackCancelled => w.lead.Cancelled?
    case ReturnSkip => w.lead.Returning? && w.lead.ids == {}
    case ReturnLock => w.lead.Returning? && w.lead.ids != {} && w.lock.Free?
    case ReturnDone => w.lead.Returning? && w.lock.Claiming? && w.lock.run.None?
  }

  function AfterLeave(cfg: Config, w: Worker, act: LeaveAct): Worker
    requires CanLeave(cfg, w, act)
  {
    match act
    case Quit => Return(w, [w.lead.todo[0]], w.lead.todo[1..])
    case AbandonBegin => w.(lead := Cancelling(w.lead.run, w.runs[w.lead.run].entry, w.lead.todo), requeued := {})
    case CancelDelivered => Cancel(w, w.lead.run)
    case CancelMoot => Return(w, [], w.lead.todo)
    case HandBackCancelled => Return(w, [w.lead.entry], w.lead.todo)
    case ReturnSkip => Returned(w, w.lead.todo)
    case ReturnLock => w.(lock := Claiming(w.lead.ids, false, None))
    case ReturnDone => Returned(w.(lock := Free), w.lead.todo)
  }

  /**
  The cancellation reaches the handler; one that was finishing still gives its entry up, one
  in the lock releases it.
  */
  function Cancel(w: Worker, run: nat): Worker
    requires run in w.runs && w.lead.Cancelling?
  {
    w.(taken := if w.runs[run].phase.Finishing? then w.taken - {w.runs[run].entry} else w.taken,
       runs := w.runs - {run},
       lock := if w.lock.Claiming? && w.lock.run == Some(run) then Free else w.lock,
       lead := Cancelled(w.lead.entry, w.lead.todo))
  }

  function Return(w: Worker, ids: seq<nat>, todo: seq<nat>): Worker {
    w.(taken := w.taken - Elems(ids), lead := Returning(Elems(ids), todo), requeued := {})
  }

  /** After a hand-back: the rest of the batch is handed back as well, and then the queue is left. */
  function Returned(w: Worker, todo: seq<nat>): Worker {
    if todo == [] then StopLeading(w) else Return(w, todo, [])
  }

  // -- a handler

  predicate CanRun(w: Worker, run: nat, act: RunAct) {
    && run in w.runs
    && match act
       case Admit => w.runs[run].phase.Handling? && !(w.lead.Cancelling? && w.lead.run == run)
       case HandlerReturns => w.runs[run].phase.Handling?
       case HandlerRequeues => w.runs[run].phase.Handling?
       case DelayOver => w.runs[run].phase.Delaying?
       case RunLock => w.runs[run].phase.HandingBack? && w.lock.Free?
       case RunReturned => w.lock.Claiming? && w.lock.run == Some(run)
       case FinishOk => w.runs[run].phase == Finishing(true)
       case FinishFail => w.runs[run].phase.Finishing?
  }

  function AfterRun(w: Worker, run: nat, act: RunAct): Worker
    requires CanRun(w, run, act)
  {
    var r := w.runs[run];
    match act
    case Admit => w.(runs := w.runs[run := r.(admitted := true)])
    case HandlerReturns => w.(runs := w.runs[run := r.(phase := Finishing(false))], sent := w.sent + {Finish(r.entry)})
    case HandlerRequeues => w.(runs := w.runs[run := r.(phase := Delaying)])
    case DelayOver => w.(runs := w.runs[run := r.(phase := HandingBack)], taken := w.taken - {r.entry})
    case RunLock => w.(lock := Claiming({r.entry}, false, Some(run)))
    case RunReturned =>
      w.(runs := w.runs - {run}, lock := Free, reclaimNow := true,
         requeued := if w.lock.served && !r.admitted && w.lead.Awaiting? then w.requeued + {r.entry} else w.requeued)
    case FinishOk => w.(runs := w.runs - {run}, taken := w.taken - {r.entry})
    case FinishFail => w.(runs := w.runs - {run}, taken := w.taken - {r.entry})
  }

  // -- commands

  predicate ValidReply(cfg: Config, s: Server, name: string, kind: Kind, ids: seq<nat>) {
    match kind
    case Reclaim => Claimable(cfg, s, ids)
    case Backlog => Ascending(ids) && forall e :: e in ids ==> e in s.pel && s.pel[e].consumer == name
    case Read => ids == if s.delivered < |s.infos| then [s.delivered] else []
  }

  /** XAUTOCLAIM and a re-read of the own backlog restart the idle time of what they deliver. */
  function AfterRequest(s: Server, name: string, kind: Kind, ids: seq<nat>): Server {
    if kind.Read? then ReadNext(s, name) else Claim(s, Elems(ids), name, s.now)
  }

  /** XACK of a job that is dropped; XDEL follows. */
  function Drop(s: Server, e: nat): Server {
    s.(pel := s.pel - {e}, dropped := s.dropped + {e})
  }

  function AfterLate(s: Server, name: string, sent: Sent, ids: seq<nat>): Server {
    match sent
    case Asked(kind) => AfterRequest(s, name, kind, ids)
    case Finish(entry) => Answer(s, entry)
    case DropAck(entry) => Drop(s, entry)
    case DropDel(entry) => s.(entries := s.entries - {entry})
  }

  predicate CanExecute(cfg: Config, s: Server, name: string, w: Worker, command: Command) {
    match command
    case Serve(ids) => w.lead.Asking? && ValidReply(cfg, s, name, w.lead.kind, ids)
    case ServeAck => w.lead.Dropping?
    case ServeDel => w.lead.Dropping? && w.lead.acked
    case ServeFinish(run) => run in w.runs && w.runs[run].phase.Finishing?
    case ServeLate(sent, ids) => sent in w.sent && (sent.Asked? ==> ValidReply(cfg, s, name, sent.kind, ids))
    case ServeClaim => w.lock.Claiming?
    case ServeTouch => w.lock.Touching?
  }

  function ServerAfter(cfg: Config, s: Server, name: string, w: Worker, command: Command): Server
    requires CanExecute(cfg, s, name, w, command)
  {
    match command
    case Serve(ids) => AfterRequest(s, name, w.lead.kind, ids)
    case ServeAck => Drop(s, w.lead.entry)
    case ServeDel => s.(entries := s.entries - {w.lead.entry})
    case ServeFinish(run) => Answer(s, w.runs[run].entry)
    case ServeClaim => Claim(s, w.lock.ids, name, s.now - cfg.reclaimIdle)
    case ServeTouch => Claim(s, w.lock.ids, name, s.now)
    case ServeLate(sent, ids) => AfterLate(s, name, sent, ids)
  }

  /** The worker's record of what the server did: the reply under way, the history sets. */
  function AfterExecute(cfg: Config, s: Server, name: string, w: Worker, command: Command): Worker
    requires CanExecute(cfg, s, name, w, command)
  {
    match command
    case Serve(ids) =>
      w.(lead := w.lead.(reply := Some(ids)),
         requeued := if w.lead.kind.Reclaim? then w.requeued * Elems(ids) else w.requeued)
    case ServeAck => w.(lead := w.lead.(acked := true), sent := w.sent + {DropDel(w.lead.entry)})
    case ServeFinish(run) =>
      w.(runs := w.runs[run := w.runs[run].(phase := Finishing(true))], finished := w.finished + {w.runs[run].entry})
    case ServeClaim => w.(lock := w.lock.(served := true), returned := w.returned + (w.lock.ids - w.taken))
    case _ => w
  }

  // -- any action

  predicate Enabled(cfg: Config, s: Server, name: string, w: Worker, act: Act) {
    match act
    case Seek(seek) => CanSeek(w, seek)
    case Batching(batch) => CanBatch(cfg, s, w, batch)
    case Leaving(leave) => CanLeave(cfg, w, leave)
    case Handler(run, handler) => CanRun(w, run, handler)
    case TouchBegin => w.lock.Free?
    case TouchEnd => w.lock.Touching?
    case Execute(command) => CanExecute(cfg, s, name, w, command)
    case Crash => true
  }

  function WorkerAfter(cfg: Config, s: Server, name: string, w: Worker, act: Act): Worker
    requires Enabled(cfg, s, name, w, act)
  {
    match act
    case Seek(seek) => AfterSeek(w, seek)
    case Batching(batch) => AfterBatch(cfg, s, w, batch)
    case Leaving(leave) => AfterLeave(cfg, w, leave)
    case Handler(run, handler) => AfterRun(w, run, handler)
    case TouchBegin => w.(lock := Touching(w.taken))
    case TouchEnd => w.(lock := Free)
    case Execute(command) => AfterExecute(cfg, s, name, w, command)
    case Crash => NEWCOMER.(sent := w.sent)
  }

  // -- the whole queue -----------------------------------------------------------------

  /** `firstStarts`: the handler starts with reclaimed=False, in order, over all workers. */
  datatype Queue = Queue(server: Server, workers: map<string, Worker>, firstStarts: seq<nat>)

  datatype Step =
    | Tick(ms: nat)
    | Submit(job: Job)
    | Act(name: string, act: Act)

  const EMPTY := Queue(Server(0, [], {}, 0, map[], map[], {}, {}), map[], [])

  function WorkerOf(q: Queue, name: string): Worker {
    if name in q.workers then q.workers[name] else NEWCOMER
  }

  /** The entry an action starts a first run of, if it does. */
  function FirstStart(w: Worker, act: Act): (r: seq<nat>)
    ensures |r| <= 1
  {
    if act.Batching? && act.batch.Start? && w.lead.Batch? && w.lead.todo != [] && !w.lead.reclaimed
    then [w.lead.todo[0]]
    else []
  }

  /** One step of the queue; an action that is not enabled does nothing. */
  function Next(cfg: Config, q: Queue, step: Step): Queue {
    match step
    case Tick(ms) => q.(server := q.server.(now := q.server.now + ms))
    case Submit(job) => q.(server := Enqueue(cfg, q.server, job))
    case Act(name, act) =>
      var w := WorkerOf(q, name);
      if !Enabled(cfg, q.server, name, w, act) then q
      else Queue(if act.Execute? then ServerAfter(cfg, q.server, name, w, act.command) else q.server,
                 q.workers[name := WorkerAfter(cfg, q.server, name, w, act)],
                 q.firstStarts + FirstStart(w, act))
  }

  function RunSteps(cfg: Config, q: Queue, steps: seq<Step>): Queue
    decreases |steps|
  {
    if steps == [] then q else RunSteps(cfg, Next(cfg, q, steps[0]), steps[1..])
  }
}
