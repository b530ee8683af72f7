/**
That the queue serves: from any state, a worker that does not lead may take the lead, find
the next unread job, run it to its answer and leave; and a leader that has to leave a
running handler hands its job back. Every action on the way is enabled when its turn comes.
*/
module DispatchService {
  import opened Options
  import opened Dispatch
  import opened DispatchLeading

  lemma {:induction false} RunOn(cfg: Config, q: Queue, a: seq<Step>, b: seq<Step>)
    ensures RunSteps(cfg, q, a + b) == RunSteps(cfg, RunSteps(cfg, q, a), b)
    decreases |a|
  {
    if a == [] {
      assert a + b == b;
    } else {
      assert (a + b)[0] == a[0] && (a + b)[1..] == a[1..] + b;
      RunOn(cfg, Next(cfg, q, a[0]), a[1..], b);
    }
  }

  lemma RunTwo(cfg: Config, q: Queue, a: Step, b: Step)
    ensures RunSteps(cfg, q, [a, b]) == Next(cfg, Next(cfg, q, a), b)
  {
    assert [a, b][1..] == [b] && [b][1..] == [];
    assert RunSteps(cfg, Next(cfg, q, a), [b]) == Next(cfg, Next(cfg, q, a), b);
  }

  lemma RunThree(cfg: Config, q: Queue, a: Step, b: Step, c: Step)
    ensures RunSteps(cfg, q, [a, b, c]) == Next(cfg, Next(cfg, Next(cfg, q, a), b), c)
  {
    assert [a, b, c][1..] == [b, c] && [b, c][1..] == [c] && [c][1..] == [];
    assert RunSteps(cfg, Next(cfg, q, a), [b, c]) == RunSteps(cfg, Next(cfg, Next(cfg, q, a), b), [c]);
  }

  /** An empty reply takes nothing over. */
  lemma ClaimNothing(s: Server, name: string, since: int)
    ensures Claim(s, {}, name, since) == s
  {
    assert Claim(s, {}, name, since).pel == s.pel;
  }


  function Electing(name: string): seq<Step> {
    [Act(name, Seek(Elect)), Act(name, Seek(AskReclaim)), Act(name, Execute(Serve([])))]
  }

  /** Elected, a worker scans for idle entries first. */
  lemma Elected(cfg: Config, q: Queue, name: string)
    requires WorkerOf(q, name).lead.NotLeading?
    ensures var w, q' := WorkerOf(q, name), RunSteps(cfg, q, Electing(name));
            && q'.server == q.server && q'.firstStarts == q.firstStarts
            && WorkerOf(q', name).lead == Asking(Reclaim, w.taken, Some([]))
            && WorkerOf(q', name).runs == w.runs && WorkerOf(q', name).taken == w.taken
  {
    RunThree(cfg, q, Electing(name)[0], Electing(name)[1], Electing(name)[2]);
    ClaimNothing(q.server, name, q.server.now);
  }

  /** With nothing to reclaim it looks into its own backlog. */
  lemma Scanned(cfg: Config, q: Queue, name: string)
    requires WorkerOf(q, name).lead == Asking(Reclaim, WorkerOf(q, name).taken, Some([]))
    ensures var w, q' := WorkerOf(q, name), RunSteps(cfg, q, Scanning(name));
            && q'.server == q.server && q'.firstStarts == q.firstStarts
            && WorkerOf(q', name).lead == Asking(Backlog, w.taken, Some([]))
            && WorkerOf(q', name).runs == w.runs && WorkerOf(q', name).taken == w.taken
  {
    RunTwo(cfg, q, Scanning(name)[0], Scanning(name)[1]);
    ClaimNothing(q.server, name, q.server.now);
  }

  function Scanning(name: string): seq<Step> {
    [Act(name, Seek(Receive)), Act(name, Execute(Serve([])))]
  }

  /** With nothing there either it reads the next unread entry, which is pending from then on. */
  lemma ReadsOn(cfg: Config, q: Queue, name: string, e: nat)
    requires WorkerOf(q, name).lead == Asking(Backlog, WorkerOf(q, name).taken, Some([]))
    requires e == q.server.delivered < |q.server.infos|
    ensures var w, q' := WorkerOf(q, name), RunSteps(cfg, q, Reading(name, e));
            && q'.server == q.server.(delivered := e + 1, pel := q.server.pel[e := Pending(name, q.server.now)])
            && q'.firstStarts == q.firstStarts && WorkerOf(q', name).lead == Asking(Read, {}, Some([e]))
            && WorkerOf(q', name).runs == w.runs && WorkerOf(q', name).taken == w.taken
  {
    RunTwo(cfg, q, Reading(name, e)[0], Reading(name, e)[1]);
  }

  function Reading(name: string, e: nat): seq<Step> {
    [Act(name, Seek(Receive)), Act(name, Execute(Serve([e])))]
  }

  /** It starts the job, if it is well-formed and there is room. */
  lemma StartsIt(cfg: Config, q: Queue, name: string, e: nat, run: nat)
    requires var w := WorkerOf(q, name);
             && w.lead == Asking(Read, {}, Some([e])) && BelowCap(cfg, w) && run !in w.runs
             && e < |q.server.infos| && !q.server.infos[e].malformed
    ensures var w, q' := WorkerOf(q, name), RunSteps(cfg, q, Starting(name, run));
            && q'.server == q.server && q'.firstStarts == q.firstStarts + [e]
            && WorkerOf(q', name).lead == Awaiting(run, [], false)
            && WorkerOf(q', name).runs == w.runs[run := Run(e, Handling, false, false)]
  {
    RunTwo(cfg, q, Starting(name, run)[0], Starting(name, run)[1]);
    ReadThenStarted(cfg, q, name, e, run);
  }

  function Starting(name: string, run: nat): seq<Step> {
    [Act(name, Seek(Receive)), Act(name, Batching(Start(run)))]
  }

  /** The handler returns and its reply is pushed. */
  lemma AnswersIt(cfg: Config, q: Queue, name: string, e: nat, run: nat)
    requires var w := WorkerOf(q, name);
             && run in w.runs && w.runs[run].entry == e && w.runs[run].phase.Handling?
             && w.lead == Awaiting(run, [], false)
    ensures var w, q' := WorkerOf(q, name), RunSteps(cfg, q, Answering(name, run));
            && q'.server == Answer(q.server, e) && q'.firstStarts == q.firstStarts
            && WorkerOf(q', name).lead == w.lead && WorkerOf(q', name).runs == w.runs - {run}
  {
    RunThree(cfg, q, Answering(name, run)[0], Answering(name, run)[1], Answering(name, run)[2]);
    ReturnedIsAnswered(cfg, q, name, run);
  }

  function Answering(name: string, run: nat): seq<Step> {
    [Act(name, Handler(run, HandlerReturns)), Act(name, Execute(ServeFinish(run))), Act(name, Handler(run, FinishOk))]
  }

  /** The batch done, the leader may leave. */
  lemma Leaves(cfg: Config, q: Queue, name: string, run: nat)
    requires WorkerOf(q, name).lead == Awaiting(run, [], false) && run !in WorkerOf(q, name).runs
    ensures var w, q' := WorkerOf(q, name), RunSteps(cfg, q, Ending(name));
            && q'.server == q.server && q'.firstStarts == q.firstStarts
            && WorkerOf(q', name).lead.NotLeading? && WorkerOf(q', name).runs == w.runs
  {
    RunThree(cfg, q, Ending(name)[0], Ending(name)[1], Ending(name)[2]);
  }

  function Ending(name: string): seq<Step> {
    [Act(name, Batching(Settled)), Act(name, Batching(BatchDone)), Act(name, Seek(Leave))]
  }

  /** The worker's way from its election to the start of the next unread entry. */
  function Finding(name: string, e: nat, run: nat): seq<Step> {
    Electing(name) + Scanning(name) + Reading(name, e) + Starting(name, run)
  }

  lemma FindsUnread(cfg: Config, q: Queue, name: string, e: nat, run: nat)
    requires WorkerOf(q, name).lead.NotLeading? && run !in WorkerOf(q, name).runs && BelowCap(cfg, WorkerOf(q, name))
    requires e == q.server.delivered < |q.server.infos| && !q.server.infos[e].malformed
    ensures var w, q' := WorkerOf(q, name), RunSteps(cfg, q, Finding(name, e, run));
            && q'.server == q.server.(delivered := e + 1, pel := q.server.pel[e := Pending(name, q.server.now)])
            && q'.firstStarts == q.firstStarts + [e] && WorkerOf(q', name).lead == Awaiting(run, [], false)
            && WorkerOf(q', name).runs == w.runs[run := Run(e, Handling, false, false)]
  {
    var x, y, z, u := Electing(name), Scanning(name), Reading(name, e), Starting(name, run);
    RunOn(cfg, q, x + y + z, u);
    RunOn(cfg, q, x + y, z);
    RunOn(cfg, q, x, y);
    Elected(cfg, q, name);
    var q1 := RunSteps(cfg, q, x);
    Scanned(cfg, q1, name);
    var q2 := RunSteps(cfg, q1, y);
    ReadsOn(cfg, q2, name, e);
    StartsIt(cfg, RunSteps(cfg, q2, z), name, e, run);
  }

  /**
  From any state a worker that does not lead and has room can serve the next unread job, on its
  own and at once: it starts it as a first run, pushes its answer and leaves, and nothing else
  in the stream or among its handlers has changed.
  */
  lemma UnreadIsServed(cfg: Config, q: Queue, name: string, e: nat, run: nat)
    requires WorkerOf(q, name).lead.NotLeading? && run !in WorkerOf(q, name).runs && BelowCap(cfg, WorkerOf(q, name))
    requires e == q.server.delivered < |q.server.infos| && !q.server.infos[e].malformed && e !in q.server.pel
    ensures var q' := RunSteps(cfg, q, Finding(name, e, run) + (Answering(name, run) + Ending(name)));
            && q'.server == q.server.(delivered := e + 1, answered := q.server.answered + {e},
                                      entries := q.server.entries - {e})
            && q'.firstStarts == q.firstStarts + [e]
            && WorkerOf(q', name).lead.NotLeading? && WorkerOf(q', name).runs == WorkerOf(q, name).runs
  {
    var x, y := Finding(name, e, run), Answering(name, run) + Ending(name);
    RunOn(cfg, q, x, y);
    FindsUnread(cfg, q, name, e, run);
    var q1 := RunSteps(cfg, q, x);
    AnswersAndLeaves(cfg, q1, name, e, run);
    assert q1.server.pel - {e} == q.server.pel;
    assert WorkerOf(q1, name).runs - {run} == WorkerOf(q, name).runs;
  }

  lemma AnswersAndLeaves(cfg: Config, q: Queue, name: string, e: nat, run: nat)
    requires var w := WorkerOf(q, name);
             && run in w.runs && w.runs[run].entry == e && w.runs[run].phase.Handling?
             && w.lead == Awaiting(run, [], false)
    ensures var q' := RunSteps(cfg, q, Answering(name, run) + Ending(name));
            && q'.server == Answer(q.server, e) && q'.firstStarts == q.firstStarts
            && WorkerOf(q', name).lead.NotLeading? && WorkerOf(q', name).runs == WorkerOf(q, name).runs - {run}
  {
    RunOn(cfg, q, Answering(name, run), Ending(name));
    AnswersIt(cfg, q, name, e, run);
    Leaves(cfg, RunSteps(cfg, q, Answering(name, run)), name, run);
  }

  // -- leaving a running handler ----------------------------------------------------------

  /** The entries are idle now, and no other changed. */
  ghost predicate Freed(cfg: Config, s: Server, s': Server, ids: set<nat>) {
    && s'.now == s.now && s'.pel.Keys == s.pel.Keys
    && forall e :: e in s.pel ==> if e in ids then Idle(cfg, s', e) else s'.pel[e] == s.pel[e]
  }

  function HandBack(name: string): seq<Step> {
    [Act(name, Leaving(ReturnLock)), Act(name, Execute(ServeClaim)), Act(name, Leaving(ReturnDone))]
  }

  /** A claim under the lock: what the leader hands back lies idle, and the rest of its batch is next. */
  lemma HandsBack(cfg: Config, q: Queue, name: string, ids: set<nat>, todo: seq<nat>)
    requires WorkerOf(q, name).lead == Returning(ids, todo) && WorkerOf(q, name).lock.Free? && ids != {}
    ensures var w, q' := WorkerOf(q, name), RunSteps(cfg, q, HandBack(name));
            && Freed(cfg, q.server, q'.server, ids)
            && WorkerOf(q', name).runs == w.runs && WorkerOf(q', name).lock.Free?
            && WorkerOf(q', name).lead == if todo == [] then NotLeading else Returning(Elems(todo), [])
  {
    RunThree(cfg, q, HandBack(name)[0], HandBack(name)[1], HandBack(name)[2]);
  }

  lemma FreedBoth(cfg: Config, s: Server, s1: Server, s2: Server, ids: set<nat>, more: set<nat>)
    requires Freed(cfg, s, s1, ids) && Freed(cfg, s1, s2, more)
    ensures Freed(cfg, s, s2, ids + more)
  {
  }

  function HandBackAll(name: string, todo: seq<nat>): seq<Step> {
    HandBack(name) + (if todo == [] then [] else HandBack(name))
  }

  /** Both claims, if there is a rest. */
  lemma HandsBackAll(cfg: Config, q: Queue, name: string, ids: set<nat>, todo: seq<nat>)
    requires WorkerOf(q, name).lead == Returning(ids, todo) && WorkerOf(q, name).lock.Free? && ids != {}
    ensures var w, q' := WorkerOf(q, name), RunSteps(cfg, q, HandBackAll(name, todo));
            && Freed(cfg, q.server, q'.server, ids + Elems(todo))
            && WorkerOf(q', name).runs == w.runs && WorkerOf(q', name).lead.NotLeading?
  {
    HandsBack(cfg, q, name, ids, todo);
    var q1 := RunSteps(cfg, q, HandBack(name));
    RunOn(cfg, q, HandBack(name), if todo == [] then [] else HandBack(name));
    if todo == [] {
      assert ids + Elems(todo) == ids;
    } else {
      assert todo[0] in Elems(todo);
      HandsBack(cfg, q1, name, Elems(todo), []);
      FreedBoth(cfg, q.server, q1.server, RunSteps(cfg, q1, HandBack(name)).server, ids, Elems(todo));
    }
  }

  function Abandon(name: string): seq<Step> {
    [Act(name, Leaving(AbandonBegin)), Act(name, Leaving(CancelDelivered)), Act(name, Leaving(HandBackCancelled))]
  }

  /** The leader waits for a handler that is neither admitted nor over, and the lock is free. */
  predicate WaitsFor(w: Worker, run: nat) {
    w.lead.Awaiting? && w.lead.run == run && run in w.runs && !w.runs[run].admitted && w.lock.Free?
  }

  /** A leader that has to leave an unsettled handler cancels it and lets go of its entry. */
  lemma Cancels(cfg: Config, q: Queue, name: string, run: nat)
    requires WaitsFor(WorkerOf(q, name), run)
    ensures var w, q' := WorkerOf(q, name), RunSteps(cfg, q, Abandon(name));
            && q'.server == q.server && WorkerOf(q', name).lock.Free?
            && WorkerOf(q', name).lead == Returning({w.runs[run].entry}, w.lead.todo)
            && WorkerOf(q', name).runs == w.runs - {run}
  {
    RunThree(cfg, q, Abandon(name)[0], Abandon(name)[1], Abandon(name)[2]);
  }

  /**
  From any state a leader can leave the handler it waits for, and its batch, at once: the
  handler is gone, and its entry and every entry of the batch that is pending may be reclaimed
  by anyone from then on.
  */
  lemma LeavingFreesAll(cfg: Config, q: Queue, name: string, run: nat)
    requires WaitsFor(WorkerOf(q, name), run)
    ensures var w := WorkerOf(q, name);
            var q' := RunSteps(cfg, q, Abandon(name) + HandBackAll(name, w.lead.todo));
            && WorkerOf(q', name).lead.NotLeading? && WorkerOf(q', name).runs == w.runs - {run}
            && Freed(cfg, q.server, q'.server, {w.runs[run].entry} + Elems(w.lead.todo))
  {
    var w := WorkerOf(q, name);
    Cancels(cfg, q, name, run);
    HandsBackAll(cfg, RunSteps(cfg, q, Abandon(name)), name, {w.runs[run].entry}, w.lead.todo);
    RunOn(cfg, q, Abandon(name), HandBackAll(name, w.lead.todo));
  }

  function Quitting(name: string): seq<Step> {
    [Act(name, Leaving(Quit))]
  }

  /** A leader without room for its next job, too, can leave and free its whole batch. */
  lemma QuittingFreesAll(cfg: Config, q: Queue, name: string)
    requires var w := WorkerOf(q, name);
             w.lead.Batch? && w.lead.todo != [] && !BelowCap(cfg, w) && w.lock.Free?
    ensures var w := WorkerOf(q, name);
            var q' := RunSteps(cfg, q, Quitting(name) + HandBackAll(name, w.lead.todo[1..]));
            && WorkerOf(q', name).lead.NotLeading? && WorkerOf(q', name).runs == w.runs
            && Freed(cfg, q.server, q'.server, Elems(w.lead.todo))
  {
    var e, rest := WorkerOf(q, name).lead.todo[0], WorkerOf(q, name).lead.todo[1..];
    var q1 := Next(cfg, q, Act(name, Leaving(Quit)));
    assert Quitting(name)[1..] == [] && RunSteps(cfg, q, Quitting(name)) == q1;
    assert [e][0] == e && Elems([e]) == {e};
    HandsBackAll(cfg, q1, name, {e}, rest);
    RunOn(cfg, q, Quitting(name), HandBackAll(name, rest));
    assert WorkerOf(q, name).lead.todo == [e] + rest && Elems([e] + rest) == {e} + Elems(rest);
  }

  function Missing(name: string): seq<Step> {
    [Act(name, Leaving(CancelMoot)), Act(name, Leaving(ReturnSkip))]
  }

  /** If the handler was over before the cancellation reached it, the rest of the batch is handed back all the same. */
  lemma CancelsTooLate(cfg: Config, q: Queue, name: string)
    requires var w := WorkerOf(q, name); w.lead.Cancelling? && w.lead.run !in w.runs
    ensures var w, w' := WorkerOf(q, name), WorkerOf(RunSteps(cfg, q, Missing(name)), name);
            && w'.runs == w.runs && w'.lock == w.lock
            && w'.lead == if w.lead.todo == [] then NotLeading else Returning(Elems(w.lead.todo), [])
  {
    RunTwo(cfg, q, Missing(name)[0], Missing(name)[1]);
  }
}
