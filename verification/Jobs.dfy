/**
  The job manager: four bounded queues by priority, pools of workers, and a table of active
  jobs by id. Every critical section and every channel operation is one step; a job may run
  for any time and end either way.
*/
module Jobs {
  import opened Entities

  datatype Lane = Critical | Live | Background | Analytics

  datatype Job = Job(id: string, priority: int)

  datatype Queues = Queues(critical: seq<Job>, live: seq<Job>, background: seq<Job>, analytics: seq<Job>) {
    function Get(l: Lane): seq<Job> {
      match l
      case Critical => critical
      case Live => live
      case Background => background
      case Analytics => analytics
    }

    function Set(l: Lane, x: seq<Job>): Queues {
      match l
      case Critical => this.(critical := x)
      case Live => this.(live := x)
      case Background => this.(background := x)
      case Analytics => this.(analytics := x)
    }
  }

  /** Numbers of workers. */
  datatype Pool = Pool(critical: nat, live: nat, background: nat, analytics: nat) {
    function Get(l: Lane): nat {
      match l
      case Critical => critical
      case Live => live
      case Background => background
      case Analytics => analytics
    }

    function Set(l: Lane, x: nat): Pool {
      match l
      case Critical => this.(critical := x)
      case Live => this.(live := x)
      case Background => this.(background := x)
      case Analytics => this.(analytics := x)
    }

    function Total(): nat { critical + live + background + analytics }

    function Add(n: Pool): Pool {
      Pool(critical + n.critical, live + n.live, background + n.background, analytics + n.analytics)
    }
  }

  function LaneOf(priority: int): Option<Lane> {
    if priority == 0 then Some(Critical)
    else if priority == 1 then Some(Live)
    else if priority == 2 then Some(Background)
    else if priority == 3 then Some(Analytics)
    else None
  }

  datatype State = State(
    capacity: nat,
    queues: Queues,
    closed: bool,
    cancelled: bool,
    stopped: bool,
    crashed: bool,
    idle: Pool,
    waiting: nat,
    running: multiset<Job>,
    active: map<string, Job>,
    processed: nat,
    failed: nat,
    admitted: seq<Job>,
    started: seq<Job>,
    done: seq<Job>)

  datatype Event =
    | Start(workers: Pool)
    | Submit(request: Option<Job>, generated: string)
    | Take(lane: Lane)
    | Finish(job: Job, failed: bool)
    | Leave(lane: Lane)
    | Cancel
    | Stop

  datatype Outcome = Accepted | ManagerStopped | NilJob | UnknownPriority | QueueFull

  function Named(request: Job, generated: string): Job {
    if request.id == "" then request.(id := generated) else request
  }

  /** The checks of Submit, in their order. */
  function Verdict(s: State, request: Option<Job>): Outcome {
    if s.stopped then ManagerStopped
    else if request.None? then NilJob
    else if LaneOf(request.value.priority).None? then UnknownPriority
    else if |s.queues.Get(LaneOf(request.value.priority).value)| < s.capacity then Accepted
    else QueueFull
  }

  function Push(q: Queues, l: Lane, job: Job): Queues { q.Set(l, q.Get(l) + [job]) }

  function Pop(q: Queues, l: Lane): Queues
    requires q.Get(l) != []
  {
    q.Set(l, q.Get(l)[1..])
  }

  predicate Admits(s: State, request: Option<Job>) { Verdict(s, request).Accepted? && !s.closed }

  function Enqueued(s: State, job: Job, lane: Lane): State {
    s.(queues := Push(s.queues, lane, job), active := s.active[job.id := job], admitted := s.admitted + [job])
  }

  predicate CanTake(s: State, l: Lane) { s.queues.Get(l) != [] && s.idle.Get(l) > 0 }

  function Taken(s: State, l: Lane): State
    requires CanTake(s, l)
  {
    var job := s.queues.Get(l)[0];
    s.(queues := Pop(s.queues, l), idle := s.idle.Set(l, s.idle.Get(l) - 1),
       running := s.running + multiset{job}, started := s.started + [job])
  }

  predicate CanFinish(s: State, job: Job) { job in s.running && LaneOf(job.priority).Some? }

  function Finished(s: State, job: Job, failed: bool): State
    requires CanFinish(s, job)
  {
    var l := LaneOf(job.priority).value;
    s.(running := s.running - multiset{job}, idle := s.idle.Set(l, s.idle.Get(l) + 1),
       processed := s.processed + 1, failed := if failed then s.failed + 1 else s.failed,
       active := s.active - {job.id}, done := s.done + [job])
  }

  /** An event that is not possible changes nothing; a send on a closed queue panics. */
  function Step(s: State, e: Event): State {
    match e
    case Start(n) =>
      s.(idle := s.idle.Add(n), waiting := s.waiting + n.Total())
    case Submit(request, generated) =>
      if !Verdict(s, request).Accepted? then s
      else if s.closed then s.(crashed := true)
      else Enqueued(s, Named(request.value, generated), LaneOf(request.value.priority).value)
    case Take(lane) => if CanTake(s, lane) then Taken(s, lane) else s
    case Finish(job, failed) => if CanFinish(s, job) then Finished(s, job, failed) else s
    case Leave(lane) =>
      if s.idle.Get(lane) > 0 && s.waiting > 0 && (s.cancelled || (s.closed && s.queues.Get(lane) == []))
      then s.(idle := s.idle.Set(lane, s.idle.Get(lane) - 1), waiting := s.waiting - 1)
      else s
    case Cancel => s.(cancelled := true)
    case Stop =>
      if s.stopped then s
      else s.(stopped := true, cancelled := true, closed := true, crashed := s.crashed || s.closed)
  }

  function Run(s: State, es: seq<Event>): State
    decreases |es|
  {
    if es == [] then s else Run(Step(s, es[0]), es[1..])
  }

  function Fresh(capacity: nat): State {
    State(capacity, Queues([], [], [], []), false, false, false, false, Pool(0, 0, 0, 0), 0,
          multiset{}, map[], 0, 0, [], [], [])
  }

  /* ---------- Every accepted job is processed, running or queued ---------- */

  /** The jobs of each priority, in order. */
  function ByLane(js: seq<Job>): Queues {
    if js == [] then Queues([], [], [], [])
    else
      var job := js[|js| - 1];
      if LaneOf(job.priority).None? then ByLane(js[..|js| - 1])
      else Push(ByLane(js[..|js| - 1]), LaneOf(job.priority).value, job)
  }

  predicate Known(js: seq<Job>) { forall i :: 0 <= i < |js| ==> LaneOf(js[i].priority).Some? }

  /** One lane after the other, pairwise. */
  function Join(a: Queues, b: Queues): Queues {
    Queues(a.critical + b.critical, a.live + b.live, a.background + b.background, a.analytics + b.analytics)
  }

  function Queued(q: Queues): multiset<Job> {
    multiset(q.critical) + multiset(q.live) + multiset(q.background) + multiset(q.analytics)
  }

  function Pending(s: State): multiset<Job> { Queued(s.queues) + s.running }

  predicate Bounded(q: Queues, capacity: nat) {
    |q.critical| <= capacity && |q.live| <= capacity && |q.background| <= capacity && |q.analytics| <= capacity
  }

  predicate Own(js: seq<Job>, l: Lane) { forall j :: j in js ==> LaneOf(j.priority) == Some(l) }

  /** The queues hold jobs of their own priority. */
  predicate Sorted(q: Queues) {
    Own(q.critical, Critical) && Own(q.live, Live) && Own(q.background, Background) && Own(q.analytics, Analytics)
  }

  predicate Fifo(s: State) { ByLane(s.admitted) == Join(ByLane(s.started), s.queues) }

  predicate Placed(s: State) {
    Known(s.admitted) && Known(s.started) && Sorted(s.queues) && Bounded(s.queues, s.capacity)
  }

  predicate Guarded(s: State) {
    && s.closed == s.stopped && (s.stopped ==> s.cancelled) && !s.crashed
    && s.waiting == s.idle.Total() + |s.running|
    && s.processed == |s.done| && s.failed <= s.processed
  }

  predicate Executed(s: State) { multiset(s.started) == s.running + multiset(s.done) }

  lemma ByLaneSnoc(js: seq<Job>, job: Job)
    requires LaneOf(job.priority).Some?
    ensures ByLane(js + [job]) == Push(ByLane(js), LaneOf(job.priority).value, job)
  {
    assert (js + [job])[..|js|] == js;
  }

  lemma JoinPush(a: Queues, b: Queues, l: Lane, job: Job)
    ensures Push(Join(a, b), l, job) == Join(a, Push(b, l, job))
  {
    assert a.Get(l) + b.Get(l) + [job] == a.Get(l) + (b.Get(l) + [job]);
  }

  lemma JoinPop(a: Queues, b: Queues, l: Lane)
    requires b.Get(l) != []
    ensures Join(a, b) == Join(Push(a, l, b.Get(l)[0]), Pop(b, l))
  {
    assert a.Get(l) + b.Get(l) == a.Get(l) + [b.Get(l)[0]] + b.Get(l)[1..];
  }

  lemma QueuedPush(q: Queues, l: Lane, job: Job)
    ensures Queued(Push(q, l, job)) == Queued(q) + multiset{job}
  {
    assert multiset(q.Get(l) + [job]) == multiset(q.Get(l)) + multiset{job};
  }

  lemma PlacedPush(q: Queues, l: Lane, job: Job, capacity: nat)
    requires Sorted(q) && Bounded(q, capacity) && |q.Get(l)| < capacity && LaneOf(job.priority) == Some(l)
    ensures Sorted(Push(q, l, job)) && Bounded(Push(q, l, job), capacity)
  {
    assert Own(q.Get(l) + [job], l);
  }

  lemma PlacedPop(q: Queues, l: Lane, capacity: nat)
    requires Sorted(q) && Bounded(q, capacity) && q.Get(l) != []
    ensures Sorted(Pop(q, l)) && Bounded(Pop(q, l), capacity) && LaneOf(q.Get(l)[0].priority) == Some(l)
  {
    assert q.Get(l)[0] in q.Get(l);
    assert Own(q.Get(l)[1..], l);
  }

  lemma EnqueuedInv(s: State, job: Job, l: Lane)
    requires Fifo(s) && Placed(s) && LaneOf(job.priority) == Some(l) && |s.queues.Get(l)| < s.capacity
    ensures Fifo(Enqueued(s, job, l)) && Placed(Enqueued(s, job, l))
  {
    ByLaneSnoc(s.admitted, job);
    JoinPush(ByLane(s.started), s.queues, l, job);
    PlacedPush(s.queues, l, job, s.capacity);
  }

  lemma TakenInv(s: State, l: Lane)
    requires Fifo(s) && Placed(s) && CanTake(s, l)
    ensures Fifo(Taken(s, l)) && Placed(Taken(s, l))
  {
    PlacedPop(s.queues, l, s.capacity);
    ByLaneSnoc(s.started, s.queues.Get(l)[0]);
    JoinPop(ByLane(s.started), s.queues, l);
  }

  lemma {:induction false} StepOrdered(s: State, e: Event)
    requires Fifo(s) && Placed(s)
    ensures Fifo(Step(s, e)) && Placed(Step(s, e))
  {
    if e.Submit? {
      if Admits(s, e.request) {
        EnqueuedInv(s, Named(e.request.value, e.generated), LaneOf(e.request.value.priority).value);
      }
    } else if e.Take? {
      if CanTake(s, e.lane) { TakenInv(s, e.lane); }
    }
  }

  lemma SetTotal(n: Pool, l: Lane, x: nat)
    ensures n.Set(l, x).Total() == n.Total() - n.Get(l) + x
  {
  }

  lemma StepGuarded(s: State, e: Event)
    requires Guarded(s)
    ensures Guarded(Step(s, e))
  {
    if e.Take? {
      SetTotal(s.idle, e.lane, if s.idle.Get(e.lane) > 0 then s.idle.Get(e.lane) - 1 else 0);
    } else if e.Leave? {
      SetTotal(s.idle, e.lane, if s.idle.Get(e.lane) > 0 then s.idle.Get(e.lane) - 1 else 0);
    } else if e.Finish? {
      if CanFinish(s, e.job) {
        var l := LaneOf(e.job.priority).value;
        SetTotal(s.idle, l, s.idle.Get(l) + 1);
      }
    }
  }

  lemma StepExecuted(s: State, e: Event)
    requires Executed(s)
    ensures Executed(Step(s, e))
  {
    if e.Finish? {
      if CanFinish(s, e.job) { assert multiset(s.done + [e.job]) == multiset(s.done) + multiset{e.job}; }
    } else if e.Take? {
      if CanTake(s, e.lane) {
        var job := s.queues.Get(e.lane)[0];
        assert multiset(s.started + [job]) == multiset(s.started) + multiset{job};
      }
    }
  }

  lemma {:induction false} RunOrdered(s: State, es: seq<Event>)
    requires Fifo(s) && Placed(s)
    ensures Fifo(Run(s, es)) && Placed(Run(s, es))
    decreases |es|
  {
    if es != [] {
      StepOrdered(s, es[0]);
      RunOrdered(Step(s, es[0]), es[1..]);
    }
  }

  lemma {:induction false} RunGuarded(s: State, es: seq<Event>)
    requires Guarded(s) && Executed(s)
    ensures Guarded(Run(s, es)) && Executed(Run(s, es))
    decreases |es|
  {
    if es != [] {
      StepGuarded(s, es[0]);
      StepExecuted(s, es[0]);
      RunGuarded(Step(s, es[0]), es[1..]);
    }
  }

  /** What every reachable state keeps. */
  lemma ReachableKeeps(capacity: nat, es: seq<Event>)
    ensures var s := Run(Fresh(capacity), es);
            Fifo(s) && Placed(s) && Guarded(s) && Executed(s)
  {
    var none: seq<Job> := [];
    assert none + none == none;
    RunOrdered(Fresh(capacity), es);
    RunGuarded(Fresh(capacity), es);
  }

  lemma {:induction false} LanesCover(js: seq<Job>)
    requires Known(js)
    ensures multiset(js) == Queued(ByLane(js))
  {
    if js != [] {
      var rest, job := js[..|js| - 1], js[|js| - 1];
      LanesCover(rest);
      assert js == rest + [job];
      ByLaneSnoc(rest, job);
      QueuedPush(ByLane(rest), LaneOf(job.priority).value, job);
    }
  }

  lemma QueuedJoin(a: Queues, b: Queues)
    ensures Queued(Join(a, b)) == Queued(a) + Queued(b)
  {
    assert multiset(a.critical + b.critical) == multiset(a.critical) + multiset(b.critical);
    assert multiset(a.live + b.live) == multiset(a.live) + multiset(b.live);
    assert multiset(a.background + b.background) == multiset(a.background) + multiset(b.background);
    assert multiset(a.analytics + b.analytics) == multiset(a.analytics) + multiset(b.analytics);
  }

  lemma Admitted(s: State)
    requires Known(s.admitted) && Known(s.started) && Fifo(s) && Executed(s)
    ensures multiset(s.admitted) == multiset(s.done) + Pending(s)
  {
    LanesCover(s.admitted);
    LanesCover(s.started);
    QueuedJoin(ByLane(s.started), s.queues);
  }

  /**
    After any run: nothing was sent on a closed queue, no queue is over its bound, each
    priority starts its jobs in the order of their acceptance, and the accepted jobs are the
    processed, the running and the queued ones.
   */
  lemma Conservation(capacity: nat, es: seq<Event>)
    ensures var s := Run(Fresh(capacity), es);
            && !s.crashed
            && multiset(s.admitted) == multiset(s.done) + s.running + Queued(s.queues)
            && |s.admitted| == s.processed + |s.running| + |Queued(s.queues)|
            && ByLane(s.admitted) == Join(ByLane(s.started), s.queues)
            && Bounded(s.queues, capacity)
  {
    ReachableKeeps(capacity, es);
    var s := Run(Fresh(capacity), es);
    Admitted(s);
    RunCapacity(Fresh(capacity), es);
    assert |s.admitted| == |multiset(s.admitted)|;
  }

  lemma {:induction false} RunCapacity(s: State, es: seq<Event>)
    ensures Run(s, es).capacity == s.capacity
    decreases |es|
  {
    if es != [] { RunCapacity(Step(s, es[0]), es[1..]); }
  }

  /* ---------- The table of active jobs ---------- */

  predicate Reuses(s: State, e: Event) {
    e.Submit? && Admits(s, e.request) && Named(e.request.value, e.generated).id in s.active
  }

  predicate FinishesUnlisted(s: State, e: Event) {
    e.Finish? && CanFinish(s, e.job) && e.job.id !in s.active
  }

  /** Accepted submissions under the id of a job that is still active. */
  function ReuseCount(s: State, es: seq<Event>): nat
    decreases |es|
  {
    if es == [] then 0 else (if Reuses(s, es[0]) then 1 else 0) + ReuseCount(Step(s, es[0]), es[1..])
  }

  /** Jobs that end after their entry is gone. */
  function UnlistedCount(s: State, es: seq<Event>): nat
    decreases |es|
  {
    if es == [] then 0 else (if FinishesUnlisted(s, es[0]) then 1 else 0) + UnlistedCount(Step(s, es[0]), es[1..])
  }

  lemma RemovedKey(m: map<string, Job>, id: string)
    ensures |m - {id}| == |m| - if id in m then 1 else 0
  {
    var r := m - {id};
    assert |m| == |m.Keys| && |r| == |r.Keys|;
    if id in m { assert m.Keys == r.Keys + {id}; } else { assert m.Keys == r.Keys; }
  }

  lemma AddedKey(m: map<string, Job>, job: Job)
    ensures |m[job.id := job]| == |m| + if job.id in m then 0 else 1
  {
    var r := m[job.id := job];
    assert |m| == |m.Keys| && |r| == |r.Keys|;
    assert r.Keys == m.Keys + {job.id};
  }

  lemma TakenPending(s: State, l: Lane)
    requires CanTake(s, l)
    ensures Pending(Taken(s, l)) == Pending(s)
  {
    var q := s.queues.Get(l);
    assert q == [q[0]] + q[1..];
    assert multiset(q) == multiset{q[0]} + multiset(q[1..]);
  }

  lemma EnqueuedPending(s: State, job: Job, l: Lane)
    ensures Pending(Enqueued(s, job, l)) == Pending(s) + multiset{job}
  {
    QueuedPush(s.queues, l, job);
  }

  lemma FinishedPending(s: State, job: Job, failed: bool)
    requires CanFinish(s, job)
    ensures job in Pending(s) && Pending(Finished(s, job, failed)) == Pending(s) - multiset{job}
  {
  }

  predicate Changes(s: State, e: Event) {
    match e
    case Submit(request, _) => Admits(s, request)
    case Take(lane) => CanTake(s, lane)
    case Finish(job, _) => CanFinish(s, job)
    case _ => false
  }

  lemma NothingMoves(s: State, e: Event)
    requires !Changes(s, e)
    ensures var t := Step(s, e); t.queues == s.queues && t.running == s.running && t.active == s.active
  {
  }

  lemma EnqueuedListed(s: State, job: Job, l: Lane)
    ensures |Enqueued(s, job, l).active| - |Pending(Enqueued(s, job, l))| + (if job.id in s.active then 1 else 0) ==
            |s.active| - |Pending(s)|
  {
    EnqueuedPending(s, job, l);
    AddedKey(s.active, job);
  }

  lemma {:induction false} StepListed(s: State, e: Event)
    ensures |Step(s, e).active| - |Pending(Step(s, e))| + (if Reuses(s, e) then 1 else 0) ==
            |s.active| - |Pending(s)| + if FinishesUnlisted(s, e) then 1 else 0
  {
    if !Changes(s, e) {
      NothingMoves(s, e);
    } else {
      match e {
        case Submit(request, generated) =>
          EnqueuedListed(s, Named(request.value, generated), LaneOf(request.value.priority).value);
        case Take(lane) => TakenPending(s, lane);
        case Finish(job, failed) =>
          FinishedPending(s, job, failed);
          RemovedKey(s.active, job.id);
        case _ =>
      }
    }
  }

  lemma {:induction false} RunListed(s: State, es: seq<Event>)
    ensures |Run(s, es).active| - |Pending(Run(s, es))| + ReuseCount(s, es) ==
            |s.active| - |Pending(s)| + UnlistedCount(s, es)
    decreases |es|
  {
    if es != [] {
      StepListed(s, es[0]);
      RunListed(Step(s, es[0]), es[1..]);
    }
  }

  /**
    The reported number of active jobs over any run: it is the number queued or running
    exactly when as many jobs ended without an entry as were submitted under an active id.
   */
  lemma ActiveCount(capacity: nat, es: seq<Event>)
    ensures var s := Run(Fresh(capacity), es);
            && |s.active| + ReuseCount(Fresh(capacity), es) == |Pending(s)| + UnlistedCount(Fresh(capacity), es)
            && (|s.active| == |Pending(s)| <==>
                ReuseCount(Fresh(capacity), es) == UnlistedCount(Fresh(capacity), es))
  {
    RunListed(Fresh(capacity), es);
    assert |Pending(Fresh(capacity))| == 0;
  }

  /** The table lists exactly these jobs, each under its id. */
  ghost predicate Lists(active: map<string, Job>, jobs: multiset<Job>) {
    && (forall j :: j in jobs ==> j.id in active && active[j.id] == j && jobs[j] == 1)
    && forall id :: id in active ==> active[id].id == id && active[id] in jobs
  }

  ghost predicate Listed(s: State) { Lists(s.active, Pending(s)) }

  lemma ListsAdded(active: map<string, Job>, jobs: multiset<Job>, job: Job)
    requires Lists(active, jobs) && job.id !in active
    ensures Lists(active[job.id := job], jobs + multiset{job})
  {
    assert job !in jobs;
  }

  lemma ListsRemoved(active: map<string, Job>, jobs: multiset<Job>, job: Job)
    requires Lists(active, jobs) && job in jobs
    ensures Lists(active - {job.id}, jobs - multiset{job})
  {
    assert (jobs - multiset{job})[job] == 0;
  }

  lemma {:induction false} StepKeepsListed(s: State, e: Event)
    requires Listed(s) && !Reuses(s, e)
    ensures Listed(Step(s, e))
  {
    if !Changes(s, e) {
      NothingMoves(s, e);
    } else {
      match e {
        case Submit(request, generated) =>
          var job := Named(request.value, generated);
          EnqueuedPending(s, job, LaneOf(request.value.priority).value);
          ListsAdded(s.active, Pending(s), job);
        case Take(lane) => TakenPending(s, lane);
        case Finish(job, failed) =>
          FinishedPending(s, job, failed);
          ListsRemoved(s.active, Pending(s), job);
        case _ =>
      }
    }
  }

  lemma {:induction false} RunListedExactly(s: State, es: seq<Event>)
    requires Listed(s) && ReuseCount(s, es) == 0
    ensures Listed(Run(s, es))
    decreases |es|
  {
    if es != [] {
      StepKeepsListed(s, es[0]);
      RunListedExactly(Step(s, es[0]), es[1..]);
    }
  }

  /** A submission under an active id breaks the list at once. */
  lemma {:induction false} ReuseUnlists(s: State, e: Event)
    requires Listed(s) && Reuses(s, e)
    ensures !Listed(Step(s, e))
  {
    var job := Named(e.request.value, e.generated);
    var earlier := s.active[job.id];
    EnqueuedPending(s, job, LaneOf(e.request.value.priority).value);
    assert earlier in Pending(s) && earlier.id == job.id;
    if earlier == job {
      assert Pending(Step(s, e))[job] == Pending(s)[job] + 1;
    } else {
      assert earlier in Pending(Step(s, e)) && Step(s, e).active[earlier.id] == job;
    }
  }

  ghost predicate AlwaysListed(s: State, es: seq<Event>)
    decreases |es|
  {
    Listed(s) && (es == [] || AlwaysListed(Step(s, es[0]), es[1..]))
  }

  lemma {:induction false} RunAlwaysListed(s: State, es: seq<Event>)
    requires Listed(s)
    ensures AlwaysListed(s, es) <==> ReuseCount(s, es) == 0
    decreases |es|
  {
    if es != [] {
      if Reuses(s, es[0]) {
        ReuseUnlists(s, es[0]);
      } else {
        StepKeepsListed(s, es[0]);
        RunAlwaysListed(Step(s, es[0]), es[1..]);
      }
    }
  }

  /**
    The table is exactly the queued and running jobs in every state of a run exactly when no
    submission of it is accepted under the id of an active job.
   */
  lemma ActiveIsPendingExactlyWhen(capacity: nat, es: seq<Event>)
    ensures AlwaysListed(Fresh(capacity), es) <==> ReuseCount(Fresh(capacity), es) == 0
  {
    assert Pending(Fresh(capacity)) == multiset{};
    RunAlwaysListed(Fresh(capacity), es);
  }

  /** Every entry is a pending job under its own id, reused or not. */
  ghost predicate Entries(active: map<string, Job>, jobs: multiset<Job>) {
    forall id :: id in active ==> active[id].id == id && active[id] in jobs
  }

  lemma EntriesMoved(active: map<string, Job>, jobs: multiset<Job>, job: Job)
    requires Entries(active, jobs)
    ensures Entries(active[job.id := job], jobs + multiset{job})
    ensures Entries(active - {job.id}, jobs - multiset{job})
  {
  }

  lemma {:induction false} StepEntries(s: State, e: Event)
    requires Entries(s.active, Pending(s))
    ensures Entries(Step(s, e).active, Pending(Step(s, e)))
  {
    if !Changes(s, e) {
      NothingMoves(s, e);
    } else {
      match e {
        case Submit(request, generated) =>
          var job := Named(request.value, generated);
          EnqueuedPending(s, job, LaneOf(request.value.priority).value);
          EntriesMoved(s.active, Pending(s), job);
        case Take(lane) => TakenPending(s, lane);
        case Finish(job, failed) =>
          FinishedPending(s, job, failed);
          EntriesMoved(s.active, Pending(s), job);
        case _ =>
      }
    }
  }

  lemma {:induction false} RunEntries(s: State, es: seq<Event>)
    requires Entries(s.active, Pending(s))
    ensures Entries(Run(s, es).active, Pending(Run(s, es)))
    decreases |es|
  {
    if es != [] {
      StepEntries(s, es[0]);
      RunEntries(Step(s, es[0]), es[1..]);
    }
  }

  lemma {:induction false} EntriesCounted(active: map<string, Job>, jobs: multiset<Job>)
    requires Entries(active, jobs)
    ensures |active| <= |jobs|
    ensures |active| == |jobs| ==> Lists(active, jobs)
    decreases |active|
  {
    if active == map[] {
      assert |jobs| == 0 ==> jobs == multiset{};
    } else {
      var id :| id in active;
      var job, rest := active[id], active - {id};
      RemovedKey(active, id);
      EntriesCounted(rest, jobs - multiset{job});
      if |active| == |jobs| {
        assert active == rest[id := job] && jobs == jobs - multiset{job} + multiset{job};
        ListsAdded(rest, jobs - multiset{job}, job);
      }
    }
  }

  lemma {:induction false} ListsCounted(active: map<string, Job>, jobs: multiset<Job>)
    requires Lists(active, jobs)
    ensures |active| == |jobs|
    decreases |active|
  {
    if active == map[] {
      assert forall j :: j !in jobs;
      assert jobs == multiset{};
    } else {
      var id :| id in active;
      var job := active[id];
      RemovedKey(active, id);
      ListsRemoved(active, jobs, job);
      ListsCounted(active - {id}, jobs - multiset{job});
    }
  }

  /** In any reachable state the reported number tells: it lists the pending jobs exactly when it equals their number. */
  lemma ListedExactlyWhen(capacity: nat, es: seq<Event>)
    ensures var s := Run(Fresh(capacity), es);
            Listed(s) <==> |s.active| == |Pending(s)|
  {
    var s := Run(Fresh(capacity), es);
    RunEntries(Fresh(capacity), es);
    EntriesCounted(s.active, Pending(s));
    if Listed(s) { ListsCounted(s.active, Pending(s)); }
  }

  /**
    When the wait in Stop is over, no job is running: what was accepted and not processed is
    left in the queues, and is still listed exactly when the table has as many entries. That
    is so if no id was reused.
   */
  lemma AfterStop(capacity: nat, es: seq<Event>)
    requires var s := Run(Fresh(capacity), es); s.stopped && s.waiting == 0
    ensures var s := Run(Fresh(capacity), es);
            && s.running == multiset{}
            && multiset(s.admitted) == multiset(s.done) + Queued(s.queues)
            && (Lists(s.active, Queued(s.queues)) <==> |s.active| == |Queued(s.queues)|)
            && (ReuseCount(Fresh(capacity), es) == 0 ==> Lists(s.active, Queued(s.queues)))
  {
    var s := Run(Fresh(capacity), es);
    ReachableKeeps(capacity, es);
    Admitted(s);
    assert |s.running| == 0;
    assert s.running == multiset{};
    assert Pending(s) == Queued(s.queues);
    ListedExactlyWhen(capacity, es);
    if ReuseCount(Fresh(capacity), es) == 0 {
      assert Pending(Fresh(capacity)) == multiset{};
      RunListedExactly(Fresh(capacity), es);
    }
  }

  /** After Stop no submission is accepted, whatever else happens. */
  lemma {:induction false} NothingAcceptedAfterStop(s: State, es: seq<Event>)
    requires s.stopped
    ensures Run(s, es).stopped && Run(s, es).admitted == s.admitted
    decreases |es|
  {
    if es != [] { NothingAcceptedAfterStop(Step(s, es[0]), es[1..]); }
  }

  lemma RunCons(s: State, e: Event, rest: seq<Event>)
    ensures Run(s, [e] + rest) == Run(Step(s, e), rest)
  {
    assert ([e] + rest)[1..] == rest;
  }

  lemma ReusedIdFirstHalf()
    ensures var job := Job("a", 0);
            Run(Fresh(2), [Start(Pool(1, 0, 0, 0)), Submit(Some(job), "")] + [Submit(Some(job), ""), Take(Critical)]) ==
            Fresh(2).(waiting := 1, queues := Queues([job], [], [], []), running := multiset{job},
                      active := map["a" := job], admitted := [job, job], started := [job])
  {
    var job := Job("a", 0);
    var a, b, c := Start(Pool(1, 0, 0, 0)), Submit(Some(job), ""), Take(Critical);
    var s0 := Fresh(2);
    var s1 := s0.(idle := Pool(1, 0, 0, 0), waiting := 1);
    assert Step(s0, a) == s1;
    var s2 := s1.(queues := Queues([job], [], [], []), active := map["a" := job], admitted := [job]);
    assert Step(s1, b) == s2;
    Twice(s0, a, b);
    var s3 := s2.(queues := Queues([job, job], [], [], []), admitted := [job, job]);
    assert Step(s2, b) == s3;
    Twice(s2, b, c);
    RunConcat(s0, [a, b], [b, c]);
  }

  /** Two jobs under one id: the end of the first removes the entry of the second, which Stop then leaves unlisted. */
  lemma ReusedIdIsForgotten()
    ensures var job := Job("a", 0);
            var es := [Start(Pool(1, 0, 0, 0)), Submit(Some(job), "")] + [Submit(Some(job), ""), Take(Critical)]
                      + [Finish(job, false), Stop] + [Leave(Critical)];
            var s := Run(Fresh(2), es);
            s.stopped && s.waiting == 0 && s.queues.critical == [job] && s.active == map[] && s.done == [job]
  {
    var job := Job("a", 0);
    var first := [Start(Pool(1, 0, 0, 0)), Submit(Some(job), "")] + [Submit(Some(job), ""), Take(Critical)];
    ReusedIdFirstHalf();
    var s4 := Run(Fresh(2), first);
    var s5 := s4.(running := multiset{}, idle := Pool(1, 0, 0, 0), processed := 1, active := map[], done := [job]);
    assert Step(s4, Finish(job, false)) == s5 by { assert s4.active - {"a"} == map[]; }
    var s6 := s5.(stopped := true, cancelled := true, closed := true);
    Twice(s4, Finish(job, false), Stop);
    RunCons(s6, Leave(Critical), []);
    assert [Leave(Critical)] == [Leave(Critical)] + [];
    RunConcat(Fresh(2), first, [Finish(job, false), Stop]);
    RunConcat(Fresh(2), first + [Finish(job, false), Stop], [Leave(Critical)]);
  }

  lemma Twice(s: State, a: Event, b: Event)
    ensures Run(s, [a, b]) == Step(Step(s, a), b)
  {
    assert [a, b] == [a] + [b] && [b] == [b] + [];
    RunCons(s, a, [b]);
    RunCons(Step(s, a), b, []);
  }

  lemma {:induction false} RunConcat(s: State, a: seq<Event>, b: seq<Event>)
    ensures Run(s, a + b) == Run(Run(s, a), b)
    decreases |a|
  {
    if a == [] {
      assert a + b == b;
    } else {
      assert (a + b)[0] == a[0] && (a + b)[1..] == a[1..] + b;
      RunConcat(Step(s, a[0]), a[1..], b);
    }
  }

  /* ---------- The manager ---------- */

  class Manager {
    const capacity: nat
    var criticalQueue: seq<Job>
    var liveQueue: seq<Job>
    var backgroundQueue: seq<Job>
    var analyticsQueue: seq<Job>
    var closed: bool
    var cancelled: bool
    var stopped: bool
    var idle: Pool
    var waiting: nat
    var activeJobs: map<string, Job>
    var processed: nat
    var failed: nat
    ghost var running: multiset<Job>
    ghost var admitted: seq<Job>
    ghost var started: seq<Job>
    ghost var done: seq<Job>

    ghost function Current(): State
      reads this
    {
      State(capacity, Queues(criticalQueue, liveQueue, backgroundQueue, analyticsQueue), closed, cancelled, stopped,
            false, idle, waiting, running, activeJobs, processed, failed, admitted, started, done)
    }

    constructor (capacity: nat)
      ensures Current() == Fresh(capacity)
    {
      this.capacity := capacity;
      criticalQueue, liveQueue, backgroundQueue, analyticsQueue := [], [], [], [];
      closed, cancelled, stopped := false, false, false;
      idle, waiting, activeJobs, processed, failed := Pool(0, 0, 0, 0), 0, map[], 0, 0;
      running, admitted, started, done := multiset{}, [], [], [];
    }

    method Submit(request: Option<Job>, generated: string) returns (r: Outcome)
      requires Guarded(Current())
      modifies this
      ensures r == Verdict(old(Current()), request)
      ensures Current() == Step(old(Current()), Event.Submit(request, generated))
    {
      if stopped { return ManagerStopped; }
      if request.None? { return NilJob; }
      var job := Named(request.value, generated);
      match LaneOf(job.priority) {
        case None => return UnknownPriority;
        case Some(lane) =>
          if |Queue(lane)| >= capacity { return QueueFull; }
          match lane {
            case Critical => criticalQueue := criticalQueue + [job];
            case Live => liveQueue := liveQueue + [job];
            case Background => backgroundQueue := backgroundQueue + [job];
            case Analytics => analyticsQueue := analyticsQueue + [job];
          }
      }
      activeJobs := activeJobs[job.id := job];
      admitted := admitted + [job];
      return Accepted;
    }

    function Queue(lane: Lane): seq<Job>
      reads this
    {
      Queues(criticalQueue, liveQueue, backgroundQueue, analyticsQueue).Get(lane)
    }

    method SetQueue(lane: Lane, q: seq<Job>)
      modifies this`criticalQueue, this`liveQueue, this`backgroundQueue, this`analyticsQueue
      ensures Queues(criticalQueue, liveQueue, backgroundQueue, analyticsQueue) ==
              old(Queues(criticalQueue, liveQueue, backgroundQueue, analyticsQueue)).Set(lane, q)
    {
      match lane {
        case Critical => criticalQueue := q;
        case Live => liveQueue := q;
        case Background => backgroundQueue := q;
        case Analytics => analyticsQueue := q;
      }
    }

    method Dequeue(lane: Lane) returns (job: Job)
      requires Queue(lane) != []
      modifies this`criticalQueue, this`liveQueue, this`backgroundQueue, this`analyticsQueue
      ensures job == old(Queue(lane))[0]
      ensures Queues(criticalQueue, liveQueue, backgroundQueue, analyticsQueue) ==
              Pop(old(Queues(criticalQueue, liveQueue, backgroundQueue, analyticsQueue)), lane)
    {
      var q := Queue(lane);
      job := q[0];
      SetQueue(lane, q[1..]);
    }

    /** An idle worker of the pool receives the oldest job of its queue. */
    method Receive(lane: Lane) returns (job: Job)
      requires CanTake(Current(), lane)
      modifies this
      ensures job == old(Queue(lane))[0]
      ensures Current() == Taken(old(Current()), lane)
    {
      job := Dequeue(lane);
      Occupy(lane);
      running := running + multiset{job};
      started := started + [job];
    }

    method Count(ok: bool)
      modifies this`processed, this`failed
      ensures processed == old(processed) + 1 && failed == if ok then old(failed) else old(failed) + 1
    {
      processed := processed + 1;
      if !ok { failed := failed + 1; }
    }

    /** What follows the job's function, which returned, failed or panicked. */
    method ExecuteJob(job: Job, ok: bool)
      requires CanFinish(Current(), job)
      modifies this
      ensures Current() == Finished(old(Current()), job, !ok)
    {
      Count(ok);
      Forget(job);
      Release(LaneOf(job.priority).value);
    }

    method Forget(job: Job)
      modifies this`activeJobs, this`done, this`running
      ensures activeJobs == old(activeJobs) - {job.id}
      ensures done == old(done) + [job] && running == old(running) - multiset{job}
    {
      activeJobs := activeJobs - {job.id};
      done := done + [job];
      running := running - multiset{job};
    }

    method Occupy(lane: Lane)
      requires idle.Get(lane) > 0
      modifies this`idle
      ensures idle == old(idle).Set(lane, old(idle).Get(lane) - 1)
    {
      idle := idle.Set(lane, idle.Get(lane) - 1);
    }

    method Release(lane: Lane)
      modifies this`idle
      ensures idle == old(idle).Set(lane, old(idle).Get(lane) + 1)
    {
      idle := idle.Set(lane, idle.Get(lane) + 1);
    }

    /** Stop up to the wait for the workers; a second call does nothing. */
    method Stop()
      requires Guarded(Current())
      modifies this
      ensures Current() == Step(old(Current()), Event.Stop) && stopped && closed && Guarded(Current())
    {
      if stopped { return; }
      stopped := true;
      cancelled := true;
      closed := true;
    }
  }
}
