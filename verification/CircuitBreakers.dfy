/**
  The circuit breaker: closed, open and half-open states, request counts that are
  reset with every generation, and calls that may end late, end in another
  generation, or never end at all.

  `Core` and the functions on it specify one critical section each; the class
  `CircuitBreaker` is the mutable object proved against them.
*/
module CircuitBreakers {

  const WORD := 0x1_0000_0000

  type Uint32 = n: int | 0 <= n < WORD

  datatype Mode = Closed | Open | HalfOpen

  /** Go's zero time is `Never`; it lies before every clock reading. */
  datatype Expiry = Never | At(time: int) {
    predicate Before(now: int) { Never? || time < now }
  }

  datatype Counts = Counts(
    requests: Uint32,
    successes: Uint32,
    failures: Uint32,
    consecutiveSuccesses: Uint32,
    consecutiveFailures: Uint32)

  const NO_COUNTS := Counts(0, 0, 0, 0, 0)

  /** A configuration after defaults have been filled in: no field is zero any more. */
  datatype Settings = Settings(maxRequests: Uint32, interval: int, timeout: int, readyToTrip: Counts -> bool) {
    predicate Filled() { maxRequests != 0 && interval != 0 && timeout != 0 }
  }

  datatype Core = Core(
    mode: Mode,
    generation: nat,
    counts: Counts,
    expiry: Expiry,
    halfOpenSuccess: Uint32)

  datatype Verdict = Admitted | CircuitOpen | TooManyRequests

  /** How an admitted call goes on: its context has already ended, or its function panics or returns. */
  datatype Conduct = Cancelled | Panicked | Returned(success: bool)

  /** A counter's increment wraps around. */
  function Inc(n: Uint32): Uint32 { if n == WORD - 1 then 0 else n + 1 }

  /* ---------- One critical section at a time ---------- */

  function NextGeneration(c: Settings, s: Core, now: int): Core {
    Core(s.mode, s.generation + 1, NO_COUNTS,
         match s.mode
         case Closed => if c.interval == 0 then Never else At(now + c.interval)
         case Open => At(now + c.timeout)
         case HalfOpen => Never,
         0)
  }

  function Enter(c: Settings, s: Core, mode: Mode, now: int): Core {
    if s.mode == mode then s else NextGeneration(c, s.(mode := mode), now)
  }

  /** The clock alone may start a new closed generation, or let an open breaker probe. */
  function Advance(c: Settings, s: Core, now: int): Core {
    match s.mode
    case Closed => if s.expiry.At? && s.expiry.Before(now) then NextGeneration(c, s, now) else s
    case Open => if s.expiry.Before(now) then Enter(c, s, HalfOpen, now) else s
    case HalfOpen => s
  }

  function Admission(c: Settings, s: Core): Verdict {
    if s.mode == Open then CircuitOpen
    else if s.mode == HalfOpen && s.counts.requests >= c.maxRequests then TooManyRequests
    else Admitted
  }

  function Begin(c: Settings, s: Core, now: int): Core {
    var t := Advance(c, s, now);
    if Admission(c, t) == Admitted then t.(counts := t.counts.(requests := Inc(t.counts.requests))) else t
  }

  function Succeed(c: Settings, s: Core, now: int): Core {
    var counts := s.counts.(successes := Inc(s.counts.successes),
                            consecutiveSuccesses := Inc(s.counts.consecutiveSuccesses),
                            consecutiveFailures := 0);
    match s.mode
    case Closed => s.(counts := counts)
    case HalfOpen =>
      var t := s.(counts := counts, halfOpenSuccess := Inc(s.halfOpenSuccess));
      if t.halfOpenSuccess >= c.maxRequests then Enter(c, t, Closed, now) else t
    case Open => s
  }

  function Fail(c: Settings, s: Core, now: int): Core {
    match s.mode
    case Closed =>
      var t := s.(counts := s.counts.(failures := Inc(s.counts.failures),
                                      consecutiveFailures := Inc(s.counts.consecutiveFailures),
                                      consecutiveSuccesses := 0));
      if c.readyToTrip(t.counts) then Enter(c, t, Open, now) else t
    case HalfOpen => Enter(c, s, Open, now)
    case Open => s
  }

  function End(c: Settings, s: Core, before: nat, success: bool, now: int): Core {
    var t := Advance(c, s, now);
    if t.generation != before then t
    else if success then Succeed(c, t, now)
    else Fail(c, t, now)
  }

  /* ---------- The mutable breaker ---------- */

  class CircuitBreaker {
    const maxRequests: Uint32
    const interval: int
    const timeout: int
    const readyToTrip: Counts -> bool

    var state: Mode
    var generation: nat
    var counts: Counts
    var expiry: Expiry
    var halfOpenSuccess: Uint32

    ghost function Config(): Settings { Settings(maxRequests, interval, timeout, readyToTrip) }

    ghost function Value(): Core
      reads this
    {
      Core(state, generation, counts, expiry, halfOpenSuccess)
    }

    constructor (maxRequests: Uint32, interval: int, timeout: int, readyToTrip: Counts -> bool, now: int)
      ensures Config().Filled()
      ensures Config() == Settings(if maxRequests == 0 then 1 else maxRequests,
                                   if interval == 0 then 60_000_000_000 else interval,
                                   if timeout == 0 then 60_000_000_000 else timeout,
                                   readyToTrip)
      ensures Value() == Core(Closed, 1, NO_COUNTS, At(now + Config().interval), 0)
    {
      this.maxRequests := if maxRequests == 0 then 1 else maxRequests;
      this.interval := if interval == 0 then 60_000_000_000 else interval;
      this.timeout := if timeout == 0 then 60_000_000_000 else timeout;
      this.readyToTrip := readyToTrip;
      state, generation, halfOpenSuccess := Closed, 0, 0;
      counts, expiry := NO_COUNTS, Never;
      new;
      ToNewGeneration(now);
    }

    method BeforeRequest(now: int) returns (gen: nat, verdict: Verdict)
      modifies this
      ensures Value() == Begin(Config(), old(Value()), now)
      ensures gen == Advance(Config(), old(Value()), now).generation == generation
      ensures verdict == Admission(Config(), Advance(Config(), old(Value()), now))
    {
      var current: Mode;
      current, gen := CurrentState(now);
      if current == Open {
        return gen, CircuitOpen;
      } else if current == HalfOpen && counts.requests >= maxRequests {
        return gen, TooManyRequests;
      }
      counts := counts.(requests := Inc(counts.requests));
      return gen, Admitted;
    }

    method AfterRequest(before: nat, success: bool, now: int)
      modifies this
      ensures Value() == End(Config(), old(Value()), before, success, now)
    {
      var current, gen := CurrentState(now);
      if gen != before { return; }
      if success {
        OnSuccess(current, now);
      } else {
        OnFailure(current, now);
      }
    }

    /** A whole call; a cancelled one, and one whose function panics, is admitted and never ended. */
    method Execute(conduct: Conduct, startedAt: int, endedAt: int) returns (verdict: Verdict)
      modifies this
      ensures verdict == Admission(Config(), Advance(Config(), old(Value()), startedAt))
      ensures Value() ==
              var began := Begin(Config(), old(Value()), startedAt);
              if verdict != Admitted || !conduct.Returned? then began
              else End(Config(), began, began.generation, conduct.success, endedAt)
    {
      var gen: nat;
      gen, verdict := BeforeRequest(startedAt);
      if verdict != Admitted { return; }
      if conduct.Cancelled? { return; }
      if conduct.Panicked? { return; }
      AfterRequest(gen, conduct.success, endedAt);
    }

    method OnSuccess(current: Mode, now: int)
      requires current == state
      modifies this
      ensures Value() == Succeed(Config(), old(Value()), now)
    {
      match current
      case Closed =>
        counts := counts.(successes := Inc(counts.successes),
                          consecutiveSuccesses := Inc(counts.consecutiveSuccesses),
                          consecutiveFailures := 0);
      case HalfOpen =>
        counts := counts.(successes := Inc(counts.successes),
                          consecutiveSuccesses := Inc(counts.consecutiveSuccesses),
                          consecutiveFailures := 0);
        halfOpenSuccess := Inc(halfOpenSuccess);
        if halfOpenSuccess >= maxRequests {
          SetState(Closed, now);
        }
      case Open =>
    }

    method OnFailure(current: Mode, now: int)
      requires current == state
      modifies this
      ensures Value() == Fail(Config(), old(Value()), now)
    {
      match current
      case Closed =>
        counts := counts.(failures := Inc(counts.failures),
                          consecutiveFailures := Inc(counts.consecutiveFailures),
                          consecutiveSuccesses := 0);
        if readyToTrip(counts) {
          SetState(Open, now);
        }
      case HalfOpen => SetState(Open, now);
      case Open =>
    }

    method CurrentState(now: int) returns (current: Mode, gen: nat)
      modifies this
      ensures Value() == Advance(Config(), old(Value()), now)
      ensures current == state && gen == generation
    {
      match state {
        case Closed => if expiry.At? && expiry.Before(now) { ToNewGeneration(now); }
        case Open => if expiry.Before(now) { SetState(HalfOpen, now); }
        case HalfOpen =>
      }
      return state, generation;
    }

    method SetState(mode: Mode, now: int)
      modifies this
      ensures Value() == Enter(Config(), old(Value()), mode, now)
    {
      if state == mode { return; }
      state := mode;
      ToNewGeneration(now);
    }

    method ToNewGeneration(now: int)
      modifies this
      ensures Value() == NextGeneration(Config(), old(Value()), now)
    {
      generation := generation + 1;
      counts := NO_COUNTS;
      halfOpenSuccess := 0;
      match state
      case Closed => expiry := if interval == 0 then Never else At(now + interval);
      case Open => expiry := At(now + timeout);
      case HalfOpen => expiry := Never;
    }
  }
}
