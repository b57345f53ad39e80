/**
  What the job manager holds, told from the events alone: which jobs were accepted, which
  queue each went to, what the workers of each queue are doing, and the two counters.
*/
module JobHistory {
  import opened Entities
  import opened Jobs

  lemma RunSnoc(s: State, es: seq<Event>)
    requires es != []
    ensures Run(s, es) == Step(Run(s, es[..|es| - 1]), es[|es| - 1])
  {
    var n := |es| - 1;
    assert es == es[..n] + [es[n]];
    RunConcat(s, es[..n], [es[n]]);
    assert [es[n]] == [es[n]] + [];
    RunCons(Run(s, es[..n]), es[n], []);
  }

  /* ---------- Which queue a job goes to ---------- */

  /** The jobs of one priority, in order. */
  function WithPriority(js: seq<Job>, p: int): seq<Job> {
    if js == [] then []
    else WithPriority(js[..|js| - 1], p) + if js[|js| - 1].priority == p then [js[|js| - 1]] else []
  }

  lemma {:induction false} LanesByPriority(js: seq<Job>)
    ensures ByLane(js) == Queues(WithPriority(js, 0), WithPriority(js, 1), WithPriority(js, 2), WithPriority(js, 3))
  {
    if js != [] { LanesByPriority(js[..|js| - 1]); }
  }

  /**
    After any run each queue holds, in order, the accepted jobs of one priority that no worker
    has taken yet: critical 0, live 1, background 2, analytics 3; and there are no others.
   */
  lemma QueuesByPriority(capacity: nat, es: seq<Event>)
    ensures var s := Run(Fresh(capacity), es);
            && WithPriority(s.admitted, 0) == WithPriority(s.started, 0) + s.queues.critical
            && WithPriority(s.admitted, 1) == WithPriority(s.started, 1) + s.queues.live
            && WithPriority(s.admitted, 2) == WithPriority(s.started, 2) + s.queues.background
            && WithPriority(s.admitted, 3) == WithPriority(s.started, 3) + s.queues.analytics
            && forall j :: j in s.admitted ==> 0 <= j.priority <= 3
  {
    var s := Run(Fresh(capacity), es);
    ReachableKeeps(capacity, es);
    Conservation(capacity, es);
    LanesByPriority(s.admitted);
    LanesByPriority(s.started);
  }

  /* ---------- Which jobs are accepted ---------- */

  function QueueOf(q: Queues, p: int): seq<Job>
    requires 0 <= p <= 3
  {
    if p == 0 then q.critical else if p == 1 then q.live else if p == 2 then q.background else q.analytics
  }

  /** The submission names a job of a known priority, no Stop came before it, and the job's queue has room. */
  ghost predicate AcceptedAt(capacity: nat, es: seq<Event>, k: nat) {
    && k < |es| && es[k].Submit? && es[k].request.Some? && 0 <= es[k].request.value.priority <= 3
    && Stop !in es[..k]
    && |QueueOf(Run(Fresh(capacity), es[..k]).queues, es[k].request.value.priority)| < capacity
  }

  /** The accepted jobs in order, a job without an id under the generated one. */
  ghost function Accepted(capacity: nat, es: seq<Event>): seq<Job> {
    if es == [] then []
    else
      var n := |es| - 1;
      Accepted(capacity, es[..n]) +
      if !AcceptedAt(capacity, es, n) then []
      else if es[n].request.value.id == "" then [Job(es[n].generated, es[n].request.value.priority)]
      else [es[n].request.value]
  }

  lemma StepStops(s: State, e: Event)
    ensures Step(s, e).stopped <==> s.stopped || e == Stop
  {
  }

  lemma {:induction false} StoppedByStop(capacity: nat, es: seq<Event>)
    ensures Run(Fresh(capacity), es).stopped <==> Stop in es
  {
    if es != [] {
      var n := |es| - 1;
      RunSnoc(Fresh(capacity), es);
      StoppedByStop(capacity, es[..n]);
      StepStops(Run(Fresh(capacity), es[..n]), es[n]);
      assert es == es[..n] + [es[n]];
    }
  }

  /** One step accepts, or does not. */
  lemma StepAdmits(s: State, e: Event)
    requires s.closed == s.stopped
    ensures var ok := && !s.stopped && e.Submit? && e.request.Some? && 0 <= e.request.value.priority <= 3
                      && |QueueOf(s.queues, e.request.value.priority)| < s.capacity;
            Step(s, e).admitted ==
            if !ok then s.admitted
            else s.admitted + [if e.request.value.id == "" then Job(e.generated, e.request.value.priority) else e.request.value]
  {
  }

  lemma {:induction false} AdmittedAre(capacity: nat, es: seq<Event>)
    ensures Run(Fresh(capacity), es).admitted == Accepted(capacity, es)
  {
    if es != [] {
      var n := |es| - 1;
      var s := Run(Fresh(capacity), es[..n]);
      RunSnoc(Fresh(capacity), es);
      AdmittedAre(capacity, es[..n]);
      StoppedByStop(capacity, es[..n]);
      ReachableKeeps(capacity, es[..n]);
      RunCapacity(Fresh(capacity), es[..n]);
      StepAdmits(s, es[n]);
    }
  }

  /** Why a submission is refused: for the first of these that holds, and it is accepted when none does. */
  lemma OutcomeExactlyWhen(s: State, request: Option<Job>)
    ensures var r := Verdict(s, request);
            var named := !s.stopped && request.Some?;
            var known := named && 0 <= request.value.priority <= 3;
            && (r == ManagerStopped <==> s.stopped)
            && (r == NilJob <==> !s.stopped && request.None?)
            && (r == UnknownPriority <==> named && !known)
            && (r == QueueFull <==> known && |QueueOf(s.queues, request.value.priority)| >= s.capacity)
            && (r == Outcome.Accepted <==> known && |QueueOf(s.queues, request.value.priority)| < s.capacity)
  {
  }

  /* ---------- What the workers do ---------- */

  /** Job `j` ends, successfully or not: it is running, and of a known priority. */
  predicate Ends(s: State, e: Event) { e.Finish? && e.job in s.running && 0 <= e.job.priority <= 3 }

  /** A worker of this queue leaves: the manager was cancelled, or its queue is closed and empty. */
  predicate Leaves(s: State, e: Event, l: Lane) {
    && e == Leave(l) && s.idle.Get(l) > 0 && s.waiting > 0
    && (s.cancelled || (s.closed && s.queues.Get(l) == []))
  }

  /** What the events say about one queue's workers: how many were hired, and how many have left. */
  ghost function Hired(es: seq<Event>, l: Lane): nat {
    if es == [] then 0
    else Hired(es[..|es| - 1], l) + if es[|es| - 1].Start? then es[|es| - 1].workers.Get(l) else 0
  }

  ghost function Gone(capacity: nat, es: seq<Event>, l: Lane): nat {
    if es == [] then 0
    else Gone(capacity, es[..|es| - 1], l) + if Leaves(Run(Fresh(capacity), es[..|es| - 1]), es[|es| - 1], l) then 1 else 0
  }

  ghost function EndCount(capacity: nat, es: seq<Event>, onlyFailed: bool): nat {
    if es == [] then 0
    else
      var e := es[|es| - 1];
      EndCount(capacity, es[..|es| - 1], onlyFailed) +
      if Ends(Run(Fresh(capacity), es[..|es| - 1]), e) && (onlyFailed ==> e.failed) then 1 else 0
  }

  function PriorityOf(l: Lane): int {
    match l
    case Critical => 0
    case Live => 1
    case Background => 2
    case Analytics => 3
  }

  /** The workers of this queue that are busy: jobs of its priority that were started and have not ended. */
  function Busy(s: State, l: Lane): int { |WithPriority(s.started, PriorityOf(l))| - |WithPriority(s.done, PriorityOf(l))| }

  lemma PrioritySnoc(js: seq<Job>, job: Job, p: int)
    ensures WithPriority(js + [job], p) == WithPriority(js, p) + if job.priority == p then [job] else []
  {
    assert (js + [job])[..|js|] == js;
  }

  lemma SetGet(n: Pool, l: Lane, x: nat, m: Lane)
    ensures n.Set(l, x).Get(m) == if m == l then x else n.Get(m)
  {
  }

  lemma TakeWorkers(s: State, k: Lane, l: Lane)
    requires Placed(s) && CanTake(s, k)
    ensures Taken(s, k).idle.Get(l) + Busy(Taken(s, k), l) == s.idle.Get(l) + Busy(s, l)
  {
    var job := s.queues.Get(k)[0];
    assert job in s.queues.Get(k);
    SetGet(s.idle, k, s.idle.Get(k) - 1, l);
    PrioritySnoc(s.started, job, PriorityOf(l));
  }

  lemma FinishWorkers(s: State, job: Job, failed: bool, l: Lane)
    requires CanFinish(s, job)
    ensures Finished(s, job, failed).idle.Get(l) + Busy(Finished(s, job, failed), l) == s.idle.Get(l) + Busy(s, l)
  {
    var k := LaneOf(job.priority).value;
    SetGet(s.idle, k, s.idle.Get(k) + 1, l);
    PrioritySnoc(s.done, job, PriorityOf(l));
  }

  lemma StepWorkers(s: State, e: Event, l: Lane)
    requires Placed(s)
    ensures var t := Step(s, e);
            t.idle.Get(l) + Busy(t, l) ==
            s.idle.Get(l) + Busy(s, l) + (if e.Start? then e.workers.Get(l) else 0) - (if Leaves(s, e, l) then 1 else 0)
  {
    if e.Take? {
      if CanTake(s, e.lane) { TakeWorkers(s, e.lane, l); }
    } else if e.Finish? {
      if CanFinish(s, e.job) { FinishWorkers(s, e.job, e.failed, l); }
    } else if e.Leave? {
      if s.idle.Get(e.lane) > 0 { SetGet(s.idle, e.lane, s.idle.Get(e.lane) - 1, l); }
    }
  }

  /** Workers are told to leave by Cancel or Stop. */
  lemma {:induction false} CancelledByEvents(capacity: nat, es: seq<Event>)
    ensures Run(Fresh(capacity), es).cancelled <==> Cancel in es || Stop in es
    ensures Run(Fresh(capacity), es).closed <==> Stop in es
  {
    if es != [] {
      var n := |es| - 1;
      var s := Run(Fresh(capacity), es[..n]);
      RunSnoc(Fresh(capacity), es);
      CancelledByEvents(capacity, es[..n]);
      StepCancels(s, es[n]);
      StoppedByStop(capacity, es[..n]);
      assert es == es[..n] + [es[n]];
    }
  }

  lemma StepCancels(s: State, e: Event)
    ensures Step(s, e).cancelled <==> s.cancelled || e == Cancel || (e == Stop && !s.stopped)
    ensures Step(s, e).closed <==> s.closed || (e == Stop && !s.stopped)
  {
  }

  lemma StepEnds(s: State, e: Event)
    ensures Step(s, e).processed == s.processed + if Ends(s, e) then 1 else 0
    ensures Step(s, e).failed == s.failed + if Ends(s, e) && e.failed then 1 else 0
  {
  }

  /**
    After any run: the workers hired for a queue are idle, busy with a job of its priority, or
    gone; and the counters are the numbers of jobs that ended, and that ended in failure.
   */
  lemma {:induction false} WorkersTellTheEvents(capacity: nat, es: seq<Event>, l: Lane)
    ensures var s := Run(Fresh(capacity), es);
            && s.idle.Get(l) + Busy(s, l) + Gone(capacity, es, l) == Hired(es, l)
            && s.processed == EndCount(capacity, es, false) && s.failed == EndCount(capacity, es, true)
    decreases |es|
  {
    if es != [] {
      var n := |es| - 1;
      var s := Run(Fresh(capacity), es[..n]);
      RunSnoc(Fresh(capacity), es);
      WorkersTellTheEvents(capacity, es[..n], l);
      ReachableKeeps(capacity, es[..n]);
      StepWorkers(s, es[n], l);
      StepEnds(s, es[n]);
    }
  }
}
