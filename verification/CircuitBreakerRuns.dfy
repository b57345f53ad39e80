/**
  Runs of the circuit breaker: `World` adds what the breaker cannot see, the calls
  themselves, so that a run is any interleaving of calls that begin, end or are abandoned.
*/
module CircuitBreakerRuns {
  import opened CircuitBreakers

  datatype Fate = InFlight | Won | Lost | Stale | Abandoned

  datatype Call = Call(generation: nat, fate: Fate)

  /** `calls` remembers every call ever admitted; its keys are 0, 1, 2, … in order of admission. */
  datatype World = World(core: Core, clock: int, calls: seq<Call>)

  /** `dt` is the time since the previous event, so the clock never goes backwards. */
  datatype Event =
    | Start(dt: nat)
    | Finish(call: nat, success: bool, dt: nat)
    | Abandon(call: nat)
    | Observe(dt: nat)

  function Admits(c: Settings, w: World, dt: nat): Verdict {
    Admission(c, Advance(c, w.core, w.clock + dt))
  }

  function Step(c: Settings, w: World, e: Event): World {
    match e
    case Start(dt) =>
      var now := w.clock + dt;
      var core := Begin(c, w.core, now);
      World(core, now, if Admits(c, w, dt) == Admitted then w.calls + [Call(core.generation, InFlight)] else w.calls)
    case Finish(call, success, dt) =>
      if call < |w.calls| && w.calls[call].fate == InFlight then
        var now := w.clock + dt;
        var gen := w.calls[call].generation;
        var fate := if Advance(c, w.core, now).generation != gen then Stale else if success then Won else Lost;
        World(End(c, w.core, gen, success, now), now, w.calls[call := Call(gen, fate)])
      else w
    case Abandon(call) =>
      if call < |w.calls| && w.calls[call].fate == InFlight then
        w.(calls := w.calls[call := w.calls[call].(fate := Abandoned)])
      else w
    case Observe(dt) => World(Advance(c, w.core, w.clock + dt), w.clock + dt, w.calls)
  }

  function Run(c: Settings, w: World, es: seq<Event>): World
    decreases |es|
  {
    if es == [] then w else Run(c, Step(c, w, es[0]), es[1..])
  }

  function Fresh(c: Settings, now: int): World {
    World(NextGeneration(c, Core(Closed, 0, NO_COUNTS, Never, 0), now), now, [])
  }

  /** How many calls of generation `g` met the fate `f`. */
  function Tally(calls: seq<Call>, g: nat, f: Fate): nat {
    if calls == [] then 0
    else Tally(calls[..|calls| - 1], g, f) + if calls[|calls| - 1] == Call(g, f) then 1 else 0
  }

  function Members(calls: seq<Call>, g: nat): nat {
    Tally(calls, g, InFlight) + Tally(calls, g, Won) + Tally(calls, g, Lost) + Tally(calls, g, Abandoned)
  }

  lemma {:induction false} TallyUpdate(calls: seq<Call>, i: nat, call: Call, g: nat, f: Fate)
    requires i < |calls|
    ensures Tally(calls[i := call], g, f) ==
            Tally(calls, g, f) - (if calls[i] == Call(g, f) then 1 else 0) + (if call == Call(g, f) then 1 else 0)
  {
    var n := |calls| - 1;
    if i == n {
      assert calls[i := call][..n] == calls[..n];
    } else {
      assert calls[i := call][..n] == calls[..n][i := call];
      TallyUpdate(calls[..n], i, call, g, f);
    }
  }

  lemma {:induction false} TallyAbsent(calls: seq<Call>, g: nat, f: Fate)
    ensures Tally(calls, g, f) == 0 <==> Call(g, f) !in calls
  {
    if calls != [] {
      var n := |calls| - 1;
      TallyAbsent(calls[..n], g, f);
      assert calls == calls[..n] + [calls[n]];
    }
  }

  lemma TallyAppend(calls: seq<Call>, call: Call, g: nat, f: Fate)
    ensures Tally(calls + [call], g, f) == Tally(calls, g, f) + if call == Call(g, f) then 1 else 0
  {
    assert (calls + [call])[..|calls|] == calls;
  }

  /** A counter that has been incremented `n` times. */
  function Wrapped(n: nat): Uint32 { if n == 0 then 0 else Inc(Wrapped(n - 1)) }

  lemma {:induction false} WrappedIsModulo(n: nat)
    ensures Wrapped(n) == n % WORD
  {
    if n != 0 { WrappedIsModulo(n - 1); }
  }

  /** The books: what the counters say about the calls of the current generation. */
  ghost predicate Inv(c: Settings, w: World) {
    var g := w.core.generation;
    && c.Filled()
    && (forall i :: 0 <= i < |w.calls| ==> w.calls[i].generation <= g)
    && Tally(w.calls, g, Stale) == 0
    && w.core.counts.requests == Wrapped(Members(w.calls, g))
    && w.core.counts.successes == Wrapped(Tally(w.calls, g, Won))
    && w.core.counts.failures == Wrapped(Tally(w.calls, g, Lost))
    && (w.core.mode == Open ==> Members(w.calls, g) == 0)
    && (w.core.mode == Open ==> w.core.expiry.At?)
    && (w.core.mode == HalfOpen ==>
          && w.core.counts.requests == Members(w.calls, g) <= c.maxRequests
          && w.core.halfOpenSuccess == Tally(w.calls, g, Won) < c.maxRequests
          && Tally(w.calls, g, Lost) == 0)
  }

  lemma NoCallsYet(w: World, g: nat)
    requires forall i :: 0 <= i < |w.calls| ==> w.calls[i].generation < g
    ensures Members(w.calls, g) == 0 && forall f :: Tally(w.calls, g, f) == 0
  {
    forall f ensures Tally(w.calls, g, f) == 0 { TallyAbsent(w.calls, g, f); }
  }

  lemma AdvanceInv(c: Settings, w: World, now: int)
    requires Inv(c, w)
    ensures Inv(c, World(Advance(c, w.core, now), now, w.calls))
  {
    NoCallsYet(w, w.core.generation + 1);
  }

  function Admit(w: World): World {
    World(w.core.(counts := w.core.counts.(requests := Inc(w.core.counts.requests))), w.clock,
          w.calls + [Call(w.core.generation, InFlight)])
  }

  lemma AdmitInv(c: Settings, w: World)
    requires Inv(c, w) && Admission(c, w.core) == Admitted
    ensures Inv(c, Admit(w))
  {
    var g := w.core.generation;
    var call := Call(g, InFlight);
    forall f ensures Tally(w.calls + [call], g, f) == Tally(w.calls, g, f) + if f == InFlight then 1 else 0
    { TallyAppend(w.calls, call, g, f); }
    assert Members(w.calls + [call], g) == Members(w.calls, g) + 1;
  }

  /** Every step first lets the clock advance the core. */
  function Ticked(c: Settings, w: World, dt: nat): World {
    World(Advance(c, w.core, w.clock + dt), w.clock + dt, w.calls)
  }

  lemma StartStep(c: Settings, w: World, dt: nat)
    ensures var t := Ticked(c, w, dt);
            Step(c, w, Start(dt)) == if Admission(c, t.core) == Admitted then Admit(t) else t
  {}

  /** A call that leaves the InFlight fate while the core stays put, or moves on past its generation. */
  lemma SettleTallies(w: World, i: nat, fate: Fate)
    requires i < |w.calls| && w.calls[i].fate == InFlight != fate
    ensures var g := w.calls[i].generation;
            var calls := w.calls[i := Call(g, fate)];
            && Tally(calls, g, InFlight) == Tally(w.calls, g, InFlight) - 1
            && Tally(calls, g, fate) == Tally(w.calls, g, fate) + 1
            && (forall h, f :: h != g || (f != InFlight && f != fate) ==> Tally(calls, h, f) == Tally(w.calls, h, f))
  {
    var g := w.calls[i].generation;
    forall h, f ensures Tally(w.calls[i := Call(g, fate)], h, f) ==
                        Tally(w.calls, h, f) - (if w.calls[i] == Call(h, f) then 1 else 0) + (if Call(g, fate) == Call(h, f) then 1 else 0)
    { TallyUpdate(w.calls, i, Call(g, fate), h, f); }
  }

  lemma SucceedInv(c: Settings, w: World, call: nat, now: int)
    requires Inv(c, w) && call < |w.calls| && w.calls[call] == Call(w.core.generation, InFlight)
    ensures Inv(c, World(Succeed(c, w.core, now), now, w.calls[call := Call(w.core.generation, Won)]))
  {
    var g := w.core.generation;
    var w' := World(Succeed(c, w.core, now), now, w.calls[call := Call(g, Won)]);
    SettleTallies(w, call, Won);
    if w'.core.generation != g { NoCallsYet(w', g + 1); }
    CallInOpen(c, w, call);
  }

  lemma FailInv(c: Settings, w: World, call: nat, now: int)
    requires Inv(c, w) && call < |w.calls| && w.calls[call] == Call(w.core.generation, InFlight)
    ensures Inv(c, World(Fail(c, w.core, now), now, w.calls[call := Call(w.core.generation, Lost)]))
  {
    var g := w.core.generation;
    var w' := World(Fail(c, w.core, now), now, w.calls[call := Call(g, Lost)]);
    SettleTallies(w, call, Lost);
    if w'.core.generation != g { NoCallsYet(w', g + 1); }
    CallInOpen(c, w, call);
  }

  /** An open generation has no calls at all. */
  lemma CallInOpen(c: Settings, w: World, call: nat)
    requires Inv(c, w) && call < |w.calls| && w.calls[call] == Call(w.core.generation, InFlight)
    ensures w.core.mode != Open
  {
    TallyAbsent(w.calls, w.core.generation, InFlight);
  }

  lemma StaleInv(c: Settings, w: World, call: nat)
    requires Inv(c, w) && call < |w.calls| && w.calls[call].fate == InFlight
    requires w.calls[call].generation != w.core.generation
    ensures Inv(c, w.(calls := w.calls[call := Call(w.calls[call].generation, Stale)]))
  {
    SettleTallies(w, call, Stale);
  }

  lemma FinishStep(c: Settings, w: World, call: nat, success: bool, dt: nat)
    requires call < |w.calls| && w.calls[call].fate == InFlight
    ensures var t, gen := Ticked(c, w, dt), w.calls[call].generation;
            Step(c, w, Finish(call, success, dt)) ==
            if gen != t.core.generation then t.(calls := t.calls[call := Call(gen, Stale)])
            else if success then World(Succeed(c, t.core, t.clock), t.clock, t.calls[call := Call(gen, Won)])
            else World(Fail(c, t.core, t.clock), t.clock, t.calls[call := Call(gen, Lost)])
  {}

  lemma AbandonInv(c: Settings, w: World, call: nat)
    requires Inv(c, w)
    ensures Inv(c, Step(c, w, Event.Abandon(call)))
  {
    if call < |w.calls| && w.calls[call].fate == InFlight {
      SettleTallies(w, call, Abandoned);
    }
  }

  lemma StepInv(c: Settings, w: World, e: Event)
    requires Inv(c, w)
    ensures Inv(c, Step(c, w, e))
  {
    if e.Abandon? {
      AbandonInv(c, w, e.call);
    } else {
      var t := Ticked(c, w, e.dt);
      assert Inv(c, t) by { AdvanceInv(c, w, t.clock); }
      if e.Start? {
        StartStep(c, w, e.dt);
        if Admission(c, t.core) == Admitted { AdmitInv(c, t); }
      } else if e.Finish? && e.call < |w.calls| && w.calls[e.call].fate == InFlight {
        FinishStep(c, w, e.call, e.success, e.dt);
        if w.calls[e.call].generation != t.core.generation { StaleInv(c, t, e.call); }
        else if e.success { SucceedInv(c, t, e.call, t.clock); }
        else { FailInv(c, t, e.call, t.clock); }
      }
    }
  }

  lemma {:induction false} RunInv(c: Settings, w: World, es: seq<Event>)
    requires Inv(c, w)
    ensures Inv(c, Run(c, w, es))
    decreases |es|
  {
    if es != [] {
      StepInv(c, w, es[0]);
      RunInv(c, Step(c, w, es[0]), es[1..]);
    }
  }

  /* ---------- What holds of every run ---------- */

  ghost predicate ReachedBy(c: Settings, w: World, now: int, es: seq<Event>) { w == Run(c, Fresh(c, now), es) }

  ghost predicate Reachable(c: Settings, w: World) { c.Filled() && exists now, es :: ReachedBy(c, w, now, es) }

  lemma ReachableInv(c: Settings, w: World)
    requires Reachable(c, w)
    ensures Inv(c, w)
  {
    var now, es :| ReachedBy(c, w, now, es);
    assert Inv(c, Fresh(c, now));
    RunInv(c, Fresh(c, now), es);
  }

  /** Every admission of the current generation is accounted for, modulo the counters' width. */
  lemma Accounting(c: Settings, w: World)
    requires Reachable(c, w)
    ensures var g := w.core.generation;
            && w.core.counts.requests == (Tally(w.calls, g, Won) + Tally(w.calls, g, Lost)
                                          + Tally(w.calls, g, InFlight) + Tally(w.calls, g, Abandoned)) % WORD
            && w.core.counts.successes == Tally(w.calls, g, Won) % WORD
            && w.core.counts.failures == Tally(w.calls, g, Lost) % WORD
  {
    ReachableInv(c, w);
    WrappedIsModulo(Members(w.calls, w.core.generation));
    WrappedIsModulo(Tally(w.calls, w.core.generation, Won));
    WrappedIsModulo(Tally(w.calls, w.core.generation, Lost));
  }

  /** A result from an earlier generation leaves the breaker exactly as a look at the clock would. */
  lemma StaleResultIgnored(c: Settings, w: World, call: nat, success: bool, dt: nat)
    requires call < |w.calls| && w.calls[call].fate == InFlight
    requires w.calls[call].generation != Step(c, w, Observe(dt)).core.generation
    ensures Step(c, w, Finish(call, success, dt)).core == Step(c, w, Observe(dt)).core
    ensures Step(c, w, Finish(call, success, dt)).calls[call].fate == Stale
  {}

  /** A half-open generation admits at most `maxRequests` calls and has seen no failure. */
  lemma HalfOpenBounded(c: Settings, w: World)
    requires Reachable(c, w) && w.core.mode == HalfOpen
    ensures var g := w.core.generation;
            && Members(w.calls, g) == w.core.counts.requests <= c.maxRequests
            && Tally(w.calls, g, Lost) == 0
            && Tally(w.calls, g, Won) < c.maxRequests
  {
    ReachableInv(c, w);
  }

  /** The step that closes a half-open breaker ends a generation of `maxRequests` calls, all won. */
  lemma ClosesOnlyOnFullSuccess(c: Settings, w: World, e: Event)
    requires Reachable(c, w) && w.core.mode == HalfOpen && Step(c, w, e).core.mode == Closed
    ensures var g, calls := w.core.generation, Step(c, w, e).calls;
            && Tally(calls, g, Won) == c.maxRequests
            && Tally(calls, g, Lost) == Tally(calls, g, InFlight) == Tally(calls, g, Abandoned) == Tally(calls, g, Stale) == 0
  {
    ReachableInv(c, w);
    SettleTallies(w, e.call, Won);
  }

  /** A single failure, while half-open, reopens the breaker for a full timeout. */
  lemma ProbeFailureReopens(c: Settings, w: World, call: nat, dt: nat)
    requires Reachable(c, w) && w.core.mode == HalfOpen
    requires call < |w.calls| && w.calls[call] == Call(w.core.generation, InFlight)
    ensures var w' := Step(c, w, Finish(call, false, dt));
            w'.core.mode == Open && w'.core.expiry == At(w'.clock + c.timeout) && w'.core.generation == w.core.generation + 1
  {}

  /* ---------- Losses in a row ---------- */

  /** How many of the latest ended calls of generation `g` met the fate `f`, without another in between. */
  function Streak(ended: seq<Call>, g: nat, f: Fate): nat {
    if ended == [] then 0
    else
      var front, last := ended[..|ended| - 1], ended[|ended| - 1];
      if last.generation != g then Streak(front, g, f)
      else if last.fate == f then Streak(front, g, f) + 1
      else 0
  }

  /** The call that a step ends while its generation lasts, if there is one. */
  function EndedBy(c: Settings, w: World, e: Event): seq<Call> {
    if e.Finish? && e.call < |w.calls| && w.calls[e.call] == Call(Ticked(c, w, e.dt).core.generation, InFlight)
    then [Call(w.calls[e.call].generation, if e.success then Won else Lost)] else []
  }

  /** The calls that end while their generation lasts, in the order in which they end. */
  function Ended(c: Settings, w: World, es: seq<Event>): seq<Call>
    decreases |es|
  {
    if es == [] then [] else EndedBy(c, w, es[0]) + Ended(c, Step(c, w, es[0]), es[1..])
  }

  /** The consecutive counts are the lengths of the streaks; an open or a half-open breaker has seen no loss. */
  ghost predicate Streaks(c: Settings, w: World, ended: seq<Call>) {
    var g := w.core.generation;
    && (forall i :: 0 <= i < |ended| ==> ended[i].generation <= g)
    && w.core.counts.consecutiveSuccesses == Wrapped(Streak(ended, g, Won))
    && w.core.counts.consecutiveFailures == Wrapped(Streak(ended, g, Lost))
  }

  lemma {:induction false} NoStreakYet(ended: seq<Call>, g: nat, f: Fate)
    requires forall i :: 0 <= i < |ended| ==> ended[i].generation < g
    ensures Streak(ended, g, f) == 0
  {
    if ended != [] { NoStreakYet(ended[..|ended| - 1], g, f); }
  }

  lemma StreakSnoc(ended: seq<Call>, g: nat, fate: Fate, f: Fate)
    ensures Streak(ended + [Call(g, fate)], g, f) == if fate == f then Streak(ended, g, f) + 1 else 0
  {
    assert (ended + [Call(g, fate)])[..|ended|] == ended;
  }

  lemma FreshStreaks(c: Settings, w: World, t: World, ended: seq<Call>)
    requires forall i :: 0 <= i < |ended| ==> ended[i].generation <= w.core.generation
    requires t.core.generation > w.core.generation && t.core.counts == NO_COUNTS
    ensures Streaks(c, t, ended)
  {
    NoStreakYet(ended, t.core.generation, Won);
    NoStreakYet(ended, t.core.generation, Lost);
  }

  lemma TickedStreaks(c: Settings, w: World, dt: nat, ended: seq<Call>)
    requires Streaks(c, w, ended)
    ensures Streaks(c, Ticked(c, w, dt), ended)
  {
    if Ticked(c, w, dt).core != w.core { FreshStreaks(c, w, Ticked(c, w, dt), ended); }
  }

  lemma EndStreaks(c: Settings, w: World, t: World, success: bool, ended: seq<Call>)
    requires Streaks(c, w, ended) && w.core.mode != Open
    requires t.core == if success then Succeed(c, w.core, t.clock) else Fail(c, w.core, t.clock)
    ensures Streaks(c, t, ended + [Call(w.core.generation, if success then Won else Lost)])
  {
    var g, fate := w.core.generation, if success then Won else Lost;
    StreakSnoc(ended, g, fate, Won);
    StreakSnoc(ended, g, fate, Lost);
    if t.core.generation != g { FreshStreaks(c, w, t, ended + [Call(g, fate)]); }
  }

  lemma FinishStreaks(c: Settings, w: World, e: Event, ended: seq<Call>)
    requires Inv(c, w) && Streaks(c, w, ended)
    requires e.Finish? && e.call < |w.calls| && w.calls[e.call].fate == InFlight
    ensures Streaks(c, Step(c, w, e), ended + EndedBy(c, w, e))
  {
    var t := Ticked(c, w, e.dt);
    assert ended + [] == ended;
    TickedStreaks(c, w, e.dt, ended);
    FinishStep(c, w, e.call, e.success, e.dt);
    if w.calls[e.call].generation == t.core.generation {
      assert Inv(c, t) by { AdvanceInv(c, w, t.clock); }
      CallInOpen(c, t, e.call);
      EndStreaks(c, t, Step(c, w, e), e.success, ended);
    }
  }

  lemma StepStreaks(c: Settings, w: World, e: Event, ended: seq<Call>)
    requires Inv(c, w) && Streaks(c, w, ended)
    ensures Streaks(c, Step(c, w, e), ended + EndedBy(c, w, e))
  {
    assert ended + [] == ended;
    if e.Start? {
      TickedStreaks(c, w, e.dt, ended);
      StartStep(c, w, e.dt);
    } else if e.Observe? {
      TickedStreaks(c, w, e.dt, ended);
    } else if e.Finish? && e.call < |w.calls| && w.calls[e.call].fate == InFlight {
      FinishStreaks(c, w, e, ended);
    }
  }

  lemma EndedCons(c: Settings, w: World, es: seq<Event>, ended: seq<Call>)
    requires es != []
    ensures ended + Ended(c, w, es) == ended + EndedBy(c, w, es[0]) + Ended(c, Step(c, w, es[0]), es[1..])
  {
  }

  lemma {:induction false} RunStreaks(c: Settings, w: World, es: seq<Event>, ended: seq<Call>)
    requires Inv(c, w) && Streaks(c, w, ended)
    ensures Streaks(c, Run(c, w, es), ended + Ended(c, w, es))
    decreases |es|
  {
    if es == [] {
      assert ended + [] == ended;
    } else {
      var t, more := Step(c, w, es[0]), EndedBy(c, w, es[0]);
      StepInv(c, w, es[0]);
      StepStreaks(c, w, es[0], ended);
      RunStreaks(c, t, es[1..], ended + more);
      EndedCons(c, w, es, ended);
    }
  }

  /**
    In every run the consecutive counts are the numbers of successes since the last failure,
    and of failures since the last success, among the calls that ended in the current
    generation, modulo the width of the counters.
   */
  lemma ConsecutiveCounts(c: Settings, now: int, es: seq<Event>)
    requires c.Filled()
    ensures var w, ended := Run(c, Fresh(c, now), es), Ended(c, Fresh(c, now), es);
            && w.core.counts.consecutiveSuccesses == Streak(ended, w.core.generation, Won) % WORD
            && w.core.counts.consecutiveFailures == Streak(ended, w.core.generation, Lost) % WORD
  {
    var w, ended := Run(c, Fresh(c, now), es), Ended(c, Fresh(c, now), es);
    assert Inv(c, Fresh(c, now));
    RunStreaks(c, Fresh(c, now), es, []);
    assert [] + ended == ended;
    WrappedIsModulo(Streak(ended, w.core.generation, Won));
    WrappedIsModulo(Streak(ended, w.core.generation, Lost));
  }

  /** The rule trips at more than `n` failures in a row; the default is 5. */
  ghost predicate TripsAbove(c: Settings, n: nat) {
    c.Filled() && n < WORD - 1 && forall counts: Counts :: c.readyToTrip(counts) <==> counts.consecutiveFailures > n
  }

  /** While closed, no more than `n` failures in a row. */
  ghost predicate Calm(w: World, ended: seq<Call>, n: nat) {
    w.core.mode == Closed ==> Streak(ended, w.core.generation, Lost) <= n
  }

  lemma StepCalm(c: Settings, w: World, e: Event, ended: seq<Call>, n: nat)
    requires TripsAbove(c, n) && Inv(c, w) && Streaks(c, w, ended) && Calm(w, ended, n)
    ensures Calm(Step(c, w, e), ended + EndedBy(c, w, e), n)
    ensures w.core.mode == Closed ==> (Step(c, w, e).core.mode == Open <==> Trips(c, w, e, ended, n))
  {
    var x, all := Step(c, w, e), ended + EndedBy(c, w, e);
    assert ended + [] == ended;
    if e.Start? {
      StartStep(c, w, e.dt);
      if x.core.generation != w.core.generation { NoStreakYet(ended, x.core.generation, Lost); }
    } else if e.Observe? {
      if x.core.generation != w.core.generation { NoStreakYet(ended, x.core.generation, Lost); }
    } else if e.Finish? && e.call < |w.calls| && w.calls[e.call].fate == InFlight {
      FinishCalm(c, w, e, ended, n);
    }
  }

  /** The step that trips a closed breaker: a failure of the current generation after `n` others in a row. */
  predicate Trips(c: Settings, w: World, e: Event, ended: seq<Call>, n: nat) {
    && e.Finish? && !e.success && e.call < |w.calls|
    && w.calls[e.call] == Call(Ticked(c, w, e.dt).core.generation, InFlight)
    && Streak(ended, w.calls[e.call].generation, Lost) == n
  }

  lemma FinishCalm(c: Settings, w: World, e: Event, ended: seq<Call>, n: nat)
    requires TripsAbove(c, n) && Inv(c, w) && Streaks(c, w, ended) && Calm(w, ended, n)
    requires e.Finish? && e.call < |w.calls| && w.calls[e.call].fate == InFlight
    ensures Calm(Step(c, w, e), ended + EndedBy(c, w, e), n)
    ensures w.core.mode == Closed ==> (Step(c, w, e).core.mode == Open <==> Trips(c, w, e, ended, n))
  {
    var x, t, g := Step(c, w, e), Ticked(c, w, e.dt), w.core.generation;
    var more := EndedBy(c, w, e);
    assert ended + [] == ended;
    FinishStep(c, w, e.call, e.success, e.dt);
    if t.core.generation != g {
      NoStreakYet(ended, t.core.generation, Lost);
    } else if w.calls[e.call].generation == g {
      assert t.core == w.core;
      StreakSnoc(ended, g, if e.success then Won else Lost, Lost);
      WrappedIsModulo(Streak(ended, g, Lost) + 1);
      if x.core.generation != g { NoStreakYet(ended + more, x.core.generation, Lost); }
    }
  }

  lemma {:induction false} RunCalm(c: Settings, w: World, es: seq<Event>, ended: seq<Call>, n: nat)
    requires TripsAbove(c, n) && Inv(c, w) && Streaks(c, w, ended) && Calm(w, ended, n)
    ensures Calm(Run(c, w, es), ended + Ended(c, w, es), n)
    decreases |es|
  {
    if es == [] {
      assert ended + [] == ended;
    } else {
      var t, more := Step(c, w, es[0]), EndedBy(c, w, es[0]);
      StepInv(c, w, es[0]);
      StepStreaks(c, w, es[0], ended);
      StepCalm(c, w, es[0], ended, n);
      RunCalm(c, t, es[1..], ended + more, n);
      EndedCons(c, w, es, ended);
    }
  }

  /**
    With the rule "more than n failures in a row", a closed breaker opens exactly in the step
    in which the (n+1)-th call in a row fails, counting the calls that end in the current
    generation.
   */
  lemma TripsExactlyWhen(c: Settings, now: int, es: seq<Event>, e: Event, n: nat)
    requires TripsAbove(c, n) && Run(c, Fresh(c, now), es).core.mode == Closed
    ensures var w, ended := Run(c, Fresh(c, now), es), Ended(c, Fresh(c, now), es);
            && Streak(ended, w.core.generation, Lost) <= n
            && (Step(c, w, e).core.mode == Open <==> Trips(c, w, e, ended, n))
  {
    var f := Fresh(c, now);
    var w, ended := Run(c, f, es), Ended(c, f, es);
    assert Inv(c, f) && [] + ended == ended;
    RunInv(c, f, es);
    RunStreaks(c, f, es, []);
    RunCalm(c, f, es, [], n);
    StepCalm(c, w, e, ended, n);
  }

  /* ---------- How long a generation lasts ---------- */

  /** When the current generation began, `t` being when the generation of `w` did. */
  function Began(c: Settings, w: World, es: seq<Event>, t: int): int
    decreases |es|
  {
    if es == [] then t
    else
      var x := Step(c, w, es[0]);
      Began(c, x, es[1..], if x.core.generation != w.core.generation then x.clock else t)
  }

  /** A closed generation expires an interval after it began, an open one a timeout, a half-open one never. */
  ghost predicate Timely(c: Settings, w: World, t: int) {
    w.core.expiry ==
    match w.core.mode
    case Closed => At(t + c.interval)
    case Open => At(t + c.timeout)
    case HalfOpen => Never
  }

  lemma StepTimely(c: Settings, w: World, e: Event, t: int)
    requires c.Filled() && Timely(c, w, t)
    ensures var x := Step(c, w, e);
            Timely(c, x, if x.core.generation != w.core.generation then x.clock else t)
  {
  }

  lemma {:induction false} RunTimely(c: Settings, w: World, es: seq<Event>, t: int)
    requires c.Filled() && Timely(c, w, t)
    ensures Timely(c, Run(c, w, es), Began(c, w, es, t))
    decreases |es|
  {
    if es != [] {
      var x := Step(c, w, es[0]);
      StepTimely(c, w, es[0], t);
      RunTimely(c, x, es[1..], if x.core.generation != w.core.generation then x.clock else t);
    }
  }

  /**
    In every run the clock alone ends a closed generation exactly when more than the interval
    has passed since it began - the breaker stays closed and counts from nothing - and lets an
    open breaker probe exactly when more than the timeout has; it never moves a half-open one.
   */
  lemma ClockMovesExactlyWhen(c: Settings, now: int, es: seq<Event>, dt: nat)
    requires c.Filled()
    ensures var w := Run(c, Fresh(c, now), es);
            var t, x := Began(c, Fresh(c, now), es, now), Step(c, w, Observe(dt));
            && (x.core != w.core <==>
                  || (w.core.mode == Closed && x.clock > t + c.interval)
                  || (w.core.mode == Open && x.clock > t + c.timeout))
            && (x.core != w.core ==>
                  && x.core.mode == (if w.core.mode == Closed then Closed else HalfOpen)
                  && x.core.generation == w.core.generation + 1
                  && x.core.counts == Counts(0, 0, 0, 0, 0) && x.core.halfOpenSuccess == 0)
  {
    RunTimely(c, Fresh(c, now), es, now);
  }

  ghost predicate Cooling(c: Settings, w: World, tripped: int) {
    (w.core.mode == Open && w.core.expiry == At(tripped + c.timeout)) || w.clock > tripped + c.timeout
  }

  lemma {:induction false} CoolingRun(c: Settings, w: World, tripped: int, es: seq<Event>)
    requires Cooling(c, w, tripped)
    ensures Cooling(c, Run(c, w, es), tripped)
    decreases |es|
  {
    if es != [] {
      CoolingRun(c, Step(c, w, es[0]), tripped, es[1..]);
    }
  }

  /** Whatever happens after a trip, nothing is admitted until more than `timeout` has passed. */
  lemma NothingAdmittedWithinTimeout(c: Settings, w: World, trip: Event, es: seq<Event>, dt: nat)
    requires w.core.mode != Open && Step(c, w, trip).core.mode == Open
    requires Admits(c, Run(c, Step(c, w, trip), es), dt) == Admitted
    ensures Run(c, Step(c, w, trip), es).clock + dt > Step(c, w, trip).clock + c.timeout
  {
    CoolingRun(c, Step(c, w, trip), Step(c, w, trip).clock, es);
  }

  ghost predicate Full(c: Settings, w: World) {
    w.core.mode == HalfOpen && w.core.counts.requests >= c.maxRequests
  }

  /** A full half-open generation has a call in flight, unless one was abandoned. */
  lemma FullHasCallInFlight(c: Settings, w: World)
    requires Reachable(c, w) && Full(c, w)
    ensures Tally(w.calls, w.core.generation, InFlight) > 0 || Tally(w.calls, w.core.generation, Abandoned) > 0
  {
    ReachableInv(c, w);
  }

  lemma WedgedStep(c: Settings, w: World, e: Event)
    requires Full(c, w) && Tally(w.calls, w.core.generation, InFlight) == 0
    ensures var w' := Step(c, w, e);
            w'.core == w.core && Tally(w'.calls, w'.core.generation, InFlight) == 0
  {
    TallyAbsent(w.calls, w.core.generation, InFlight);
    if (e.Finish? || e.Abandon?) && e.call < |w.calls| && w.calls[e.call].fate == InFlight {
      assert w.calls[e.call] in w.calls;
      SettleTallies(w, e.call, Step(c, w, e).calls[e.call].fate);
    }
  }

  lemma {:induction false} WedgedRun(c: Settings, w: World, es: seq<Event>)
    requires Full(c, w) && Tally(w.calls, w.core.generation, InFlight) == 0
    ensures Run(c, w, es).core == w.core
    decreases |es|
  {
    if es != [] {
      WedgedStep(c, w, es[0]);
      WedgedRun(c, Step(c, w, es[0]), es[1..]);
    }
  }

  /** A call that is still in flight can fail; a timeout later the breaker probes again. */
  lemma WayOut(c: Settings, w: World) returns (es: seq<Event>, dt: nat)
    requires c.Filled() && w.core.mode == HalfOpen && Tally(w.calls, w.core.generation, InFlight) > 0
    ensures Admits(c, Run(c, w, es), dt) == Admitted
  {
    TallyAbsent(w.calls, w.core.generation, InFlight);
    var i :| 0 <= i < |w.calls| && w.calls[i] == Call(w.core.generation, InFlight);
    es := [Finish(i, false, 0)];
    var w' := Step(c, w, es[0]);
    assert w'.core.mode == Open && w'.core.expiry == At(w'.clock + c.timeout);
    assert Run(c, w, es) == Run(c, w', []) == w';
    dt := if c.timeout < 0 then 0 else c.timeout + 1;
  }

  /**
    A full half-open breaker refuses every call for ever exactly when none of its calls
    is still in flight: abandoned calls are never given back.
   */
  lemma WedgedExactlyWhenNothingInFlight(c: Settings, w: World)
    requires Reachable(c, w) && Full(c, w)
    ensures (forall es, dt :: Admits(c, Run(c, w, es), dt) != Admitted)
            <==> Tally(w.calls, w.core.generation, InFlight) == 0
  {
    var g := w.core.generation;
    if Tally(w.calls, g, InFlight) == 0 {
      forall es, dt ensures Admits(c, Run(c, w, es), dt) != Admitted { WedgedRun(c, w, es); }
    } else {
      var es, dt := WayOut(c, w);
    }
  }

  /** The wedge is reachable: one cancelled probe is enough when `maxRequests` is 1. */
  lemma AbandonedProbeWedges(trip: Counts -> bool)
    requires trip(Counts(1, 0, 1, 0, 1))
    ensures var c := Settings(1, 60, 60, trip);
            var w := Run(c, Fresh(c, 0), [Start(0), Finish(0, false, 0), Start(61), Event.Abandon(1)]);
            Full(c, w) && forall es, dt :: Admits(c, Run(c, w, es), dt) == TooManyRequests
  {
    var c := Settings(1, 60, 60, trip);
    var w0 := Fresh(c, 0);
    var w1 := Step(c, w0, Start(0));
    var w2 := Step(c, w1, Finish(0, false, 0));
    var w3 := Step(c, w2, Start(61));
    var w4 := Step(c, w3, Event.Abandon(1));
    assert w4.calls == [Call(1, Lost), Call(3, Abandoned)];
    var es := [Start(0), Finish(0, false, 0), Start(61), Event.Abandon(1)];
    assert es[1..][1..] == [Start(61), Event.Abandon(1)];
    assert Run(c, w0, es) == Run(c, w1, es[1..]) == Run(c, w2, es[1..][1..]) == Run(c, w3, [Event.Abandon(1)]) == Run(c, w4, []);
    TallyAbsent(w4.calls, 3, InFlight);
    forall more, dt ensures Admits(c, Run(c, w4, more), dt) == TooManyRequests { WedgedRun(c, w4, more); }
  }
}
