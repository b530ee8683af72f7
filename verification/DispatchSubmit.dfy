/**
Submitting: the script that appends a job in place, and what holds of it over runs -
a resent submit finds the entry it already made, and the stream never outgrows its bound.
*/
module DispatchSubmit {
  import opened Options
  import opened Dispatch
  import opened DispatchSafety
  import opened Sets

  /** The keys DISPATCH_ENQUEUE works on: the stream and the submit markers. */
  class Stream {
    var infos: seq<Info>
    var entries: set<nat>
    var markers: map<string, Marker>

    constructor ()
      ensures infos == [] && entries == {} && markers == map[]
    {
      infos, entries, markers := [], {}, map[];
    }

    /** This stream as part of a server. */
    function In(s: Server): Server
      reads this
    {
      s.(infos := infos, entries := entries, markers := markers)
    }

    /** Runs at the server's time; `s` is whatever else the server holds. */
    method Submit(cfg: Config, job: Job, s: Server) returns (reply: Option<nat>)
      modifies this
      ensures In(s) == Enqueue(cfg, old(In(s)), job)
      ensures reply == EnqueueReply(cfg, old(In(s)), job)
    {
      if job.id in markers && s.now <= markers[job.id].expiry {
        return Some(markers[job.id].entry);
      }
      if cfg.maxSize > 0 && |entries| >= cfg.maxSize {
        return None;
      }
      var deadline := None;
      if job.timeout.Some? {
        deadline := Some(s.now + job.timeout.value);
      }
      var id := |infos|;
      infos := infos + [Info(job.id, job.malformed, deadline)];
      entries := entries + {id};
      markers := markers[job.id := Marker(id, s.now + cfg.markerTtl)];
      reply := Some(id);
    }
  }

  /**
  What a submit does, told of the stream and the markers alone: a job whose marker lives gets
  its entry back, a full stream refuses, and otherwise the job is appended with its deadline
  and marked.
  */
  lemma SubmittedExactly(cfg: Config, s: Server, job: Job)
    ensures var s', reply := Enqueue(cfg, s, job), EnqueueReply(cfg, s, job);
            if job.id in s.markers && s.now <= s.markers[job.id].expiry then
              s' == s && reply == Some(s.markers[job.id].entry)
            else if cfg.maxSize > 0 && |s.entries| >= cfg.maxSize then
              s' == s && reply == None
            else
              var deadline := if job.timeout.Some? then Some(s.now + job.timeout.value) else None;
              && reply == Some(|s.infos|)
              && s' == s.(infos := s.infos + [Info(job.id, job.malformed, deadline)],
                          entries := s.entries + {|s.infos|},
                          markers := s.markers[job.id := Marker(|s.infos|, s.now + cfg.markerTtl)])
  {
  }

  // -- the bound ---------------------------------------------------------------------------

  ghost predicate Bounded(cfg: Config, s: Server) {
    cfg.maxSize > 0 ==> |s.entries| <= cfg.maxSize
  }

  lemma CommandRemoves(cfg: Config, s: Server, name: string, w: Worker, command: Command)
    requires CanExecute(cfg, s, name, w, command)
    ensures ServerAfter(cfg, s, name, w, command).entries <= s.entries
    ensures ServerAfter(cfg, s, name, w, command).markers == s.markers
    ensures ServerAfter(cfg, s, name, w, command).infos == s.infos
    ensures ServerAfter(cfg, s, name, w, command).now == s.now
  {
  }

  lemma StepBounded(cfg: Config, q: Queue, step: Step)
    requires Bounded(cfg, q.server)
    ensures Bounded(cfg, Next(cfg, q, step).server)
  {
    if step.Act? && step.act.Execute? && Enabled(cfg, q.server, step.name, WorkerOf(q, step.name), step.act) {
      CommandRemoves(cfg, q.server, step.name, WorkerOf(q, step.name), step.act.command);
      SubsetSize(Next(cfg, q, step).server.entries, q.server.entries);
    }
  }

  lemma {:induction false} RunBounded(cfg: Config, q: Queue, steps: seq<Step>)
    requires Bounded(cfg, q.server)
    ensures Bounded(cfg, RunSteps(cfg, q, steps).server)
    decreases |steps|
  {
    if steps != [] {
      StepBounded(cfg, q, steps[0]);
      RunBounded(cfg, Next(cfg, q, steps[0]), steps[1..]);
    }
  }

  /** The stream never holds more than the bound: requeueing, reclaiming and handing back append nothing. */
  lemma StreamStaysBounded(cfg: Config, steps: seq<Step>)
    ensures Bounded(cfg, RunSteps(cfg, EMPTY, steps).server)
  {
    RunBounded(cfg, EMPTY, steps);
  }

  // -- resent submits --------------------------------------------------------------------------

  /** Every entry ever appended for a job. */
  function EntriesOf(s: Server, job: string): set<nat> {
    set e: nat | e < |s.infos| && s.infos[e].job == job
  }

  ghost predicate MarkersInv(s: Server) {
    && (forall j :: j in s.markers ==> s.markers[j].entry in EntriesOf(s, j))
    && (forall e: nat :: e < |s.infos| ==> s.infos[e].job in s.markers && e <= s.markers[s.infos[e].job].entry)
  }

  /** Nothing but time and other jobs' entries happened to this job's marker. */
  ghost predicate MarkerKept(s: Server, s': Server, job: string) {
    && s.now <= s'.now && job in s.markers && job in s'.markers && s'.markers[job] == s.markers[job]
    && EntriesOf(s', job) == EntriesOf(s, job)
  }

  lemma EnqueueMarks(cfg: Config, s: Server, job: Job)
    requires MarkersInv(s)
    ensures MarkersInv(Enqueue(cfg, s, job))
    ensures forall j :: Marked(s, j) ==> MarkerKept(s, Enqueue(cfg, s, job), j)
  {
    var s' := Enqueue(cfg, s, job);
    if s' != s {
      forall j | j in s.markers && j != job.id ensures EntriesOf(s', j) == EntriesOf(s, j) {
      }
      assert |s.infos| in EntriesOf(s', job.id);
    }
  }

  lemma StepMarks(cfg: Config, q: Queue, step: Step)
    requires MarkersInv(q.server)
    ensures MarkersInv(Next(cfg, q, step).server)
    ensures forall j :: Marked(q.server, j) ==> MarkerKept(q.server, Next(cfg, q, step).server, j)
    ensures q.server.now <= Next(cfg, q, step).server.now
  {
    match step
    case Tick(_) =>
    case Submit(job) => EnqueueMarks(cfg, q.server, job);
    case Act(name, act) =>
      if act.Execute? && Enabled(cfg, q.server, name, WorkerOf(q, name), act) {
        CommandRemoves(cfg, q.server, name, WorkerOf(q, name), act.command);
      }
  }

  lemma {:induction false} RunMarks(cfg: Config, q: Queue, steps: seq<Step>)
    requires MarkersInv(q.server)
    ensures MarkersInv(RunSteps(cfg, q, steps).server)
    ensures q.server.now <= RunSteps(cfg, q, steps).server.now
    decreases |steps|
  {
    if steps != [] {
      StepMarks(cfg, q, steps[0]);
      RunMarks(cfg, Next(cfg, q, steps[0]), steps[1..]);
    }
  }

  lemma {:induction false} MarkerLives(cfg: Config, q: Queue, steps: seq<Step>, job: string)
    requires MarkersInv(q.server) && job in q.server.markers
    requires RunSteps(cfg, q, steps).server.now <= q.server.markers[job].expiry
    ensures MarkerKept(q.server, RunSteps(cfg, q, steps).server, job)
    decreases |steps|
  {
    RunMarks(cfg, q, steps);
    if steps != [] {
      var q1 := Next(cfg, q, steps[0]);
      StepMarks(cfg, q, steps[0]);
      RunMarks(cfg, q1, steps[1..]);
      assert Marked(q.server, job);
      MarkerLives(cfg, q1, steps[1..], job);
    }
  }

  /** The reply of a submit that is not refused names an entry of that job. */
  lemma ReplyNamesTheJob(cfg: Config, steps: seq<Step>, job: Job)
    requires EnqueueReply(cfg, RunSteps(cfg, EMPTY, steps).server, job).Some?
    ensures var s := RunSteps(cfg, EMPTY, steps).server;
            EnqueueReply(cfg, s, job).value in EntriesOf(Enqueue(cfg, s, job), job.id)
  {
    RunMarks(cfg, EMPTY, steps);
    EnqueueMarks(cfg, RunSteps(cfg, EMPTY, steps).server, job);
  }

  /**
  Once a submit was accepted, every resend while its marker lives returns the same
  entry and appends nothing, whatever happens in between - even to a full queue.
  */
  lemma ResendFindsItsEntry(cfg: Config, before: seq<Step>, job: Job, between: seq<Step>, resent: Job)
    requires var q := RunSteps(cfg, EMPTY, before);
             var q' := RunSteps(cfg, Next(cfg, q, Submit(job)), between);
             && EnqueueReply(cfg, q.server, job).Some? && resent.id == job.id
             && q'.server.now <= Next(cfg, q, Submit(job)).server.markers[job.id].expiry
    ensures var q := RunSteps(cfg, EMPTY, before);
            var s' := RunSteps(cfg, Next(cfg, q, Submit(job)), between).server;
            && EnqueueReply(cfg, s', resent) == EnqueueReply(cfg, q.server, job)
            && Enqueue(cfg, s', resent) == s'
            && EntriesOf(s', job.id) == EntriesOf(Next(cfg, q, Submit(job)).server, job.id)
  {
    var q := RunSteps(cfg, EMPTY, before);
    RunMarks(cfg, EMPTY, before);
    StepMarks(cfg, q, Submit(job));
    MarkerLives(cfg, Next(cfg, q, Submit(job)), between, job.id);
  }

  /** What has left the stream does not come back, and what is appended is new. */
  lemma StepAppends(cfg: Config, q: Queue, step: Step)
    ensures var s, s' := q.server, Next(cfg, q, step).server;
            s.infos <= s'.infos && forall e :: e in s'.entries && e < |s.infos| ==> e in s.entries
  {
    if step.Act? && step.act.Execute? && Enabled(cfg, q.server, step.name, WorkerOf(q, step.name), step.act) {
      CommandRemoves(cfg, q.server, step.name, WorkerOf(q, step.name), step.act.command);
    }
  }

  lemma {:induction false} RunAppends(cfg: Config, q: Queue, steps: seq<Step>)
    ensures var s, s' := q.server, RunSteps(cfg, q, steps).server;
            s.infos <= s'.infos && forall e :: e in s'.entries && e < |s.infos| ==> e in s.entries
    decreases |steps|
  {
    if steps != [] {
      StepAppends(cfg, q, steps[0]);
      RunAppends(cfg, Next(cfg, q, steps[0]), steps[1..]);
    }
  }

  /** The job's entries that are in the stream. */
  function Streamed(s: Server, job: string): set<nat> {
    EntriesOf(s, job) * s.entries
  }

  /**
  A job of which nothing is in the stream - never submitted, or submitted long ago and done
  with - that is submitted, and resent at will while its marker lives, has one entry in the
  stream at most: the one the submit returned, for as long as it is not removed.
  */
  lemma OneEntryPerJob(cfg: Config, before: seq<Step>, job: Job, between: seq<Step>)
    requires var q := RunSteps(cfg, EMPTY, before);
             var q' := RunSteps(cfg, Next(cfg, q, Submit(job)), between);
             && !Marked(q.server, job.id) && Streamed(q.server, job.id) == {} && EnqueueReply(cfg, q.server, job).Some?
             && q'.server.now <= q.server.now + cfg.markerTtl
    ensures var q := RunSteps(cfg, EMPTY, before);
            var s' := RunSteps(cfg, Next(cfg, q, Submit(job)), between).server;
            var id := EnqueueReply(cfg, q.server, job).value;
            && Streamed(s', job.id) == (if id in s'.entries then {id} else {})
            && EntriesOf(s', job.id) == EntriesOf(q.server, job.id) + {id}
  {
    var q := RunSteps(cfg, EMPTY, before);
    var q1 := Next(cfg, q, Submit(job));
    var s' := RunSteps(cfg, q1, between).server;
    var id := EnqueueReply(cfg, q.server, job).value;
    RunMarks(cfg, EMPTY, before);
    StepMarks(cfg, q, Submit(job));
    MarkerLives(cfg, q1, between, job.id);
    RunAppends(cfg, q1, between);
    assert EntriesOf(q1.server, job.id) == EntriesOf(q.server, job.id) + {id};
    forall e | e in Streamed(s', job.id) && e != id ensures e in Streamed(q.server, job.id) {
      assert e in EntriesOf(q1.server, job.id) && e < |q1.server.infos|;
    }
  }

  // -- jobs that are dropped -----------------------------------------------------------------

  /** What was appended for a job stays what it was, in a sound server. */
  lemma StaysSubmitted(cfg: Config, before: seq<Step>, job: Job, between: seq<Step>, s: Server, s': Server)
    requires s == RunSteps(cfg, EMPTY, before).server
    requires s' == RunSteps(cfg, Next(cfg, RunSteps(cfg, EMPTY, before), Submit(job)), between).server
    requires EnqueueReply(cfg, s, job) == Some(|s.infos|) && Enqueue(cfg, s, job) != s
    ensures ServerInv(s') && |s.infos| < |s'.infos|
    ensures s'.infos[|s.infos|].malformed == job.malformed
    ensures s'.infos[|s.infos|].deadline == if job.timeout.Some? then Some(s.now + job.timeout.value) else None
  {
    var q := RunSteps(cfg, EMPTY, before);
    var q1 := Next(cfg, q, Submit(job));
    RunKeeps(cfg, EMPTY, before);
    NextKeeps(cfg, q, Submit(job));
    RunKeeps(cfg, q1, between);
    assert s'.infos[|s.infos|] == q1.server.infos[|s.infos|] by {
      RunAppends(cfg, q1, between);
    }
  }

  /**
  Over every run: the entry of an accepted job may be dropped exactly if the job is malformed,
  or its timeout has passed since it was submitted - and has been dropped only if so.
  */
  lemma DroppedNoSooner(cfg: Config, before: seq<Step>, job: Job, between: seq<Step>, name: string)
    requires var s := RunSteps(cfg, EMPTY, before).server;
             && !(job.id in s.markers && s.now <= s.markers[job.id].expiry)
             && !(cfg.maxSize > 0 && |s.entries| >= cfg.maxSize)
    ensures var s := RunSteps(cfg, EMPTY, before).server;
            var q' := RunSteps(cfg, Next(cfg, RunSteps(cfg, EMPTY, before), Submit(job)), between);
            var s', w', id := q'.server, WorkerOf(q', name), |s.infos|;
            var late := job.malformed || (job.timeout.Some? && s.now + job.timeout.value <= s'.now);
            && EnqueueReply(cfg, s, job) == Some(id) && (id in s'.dropped ==> late)
            && (w'.lead.Batch? && w'.lead.todo != [] && w'.lead.todo[0] == id ==>
                  (CanBatch(cfg, s', w', DropBegin) <==> late))
  {
    var s := RunSteps(cfg, EMPTY, before).server;
    var s' := RunSteps(cfg, Next(cfg, RunSteps(cfg, EMPTY, before), Submit(job)), between).server;
    assert |Enqueue(cfg, s, job).infos| == |s.infos| + 1;
    StaysSubmitted(cfg, before, job, between, s, s');
  }
}
