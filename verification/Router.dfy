/**
  The order router's in-flight journal: a slot per client order id is reserved under the
  lock, the venue is called without it, and the slot is settled under the lock again.
  Confirmations and timeouts may free a slot at any moment in between.
*/
module Router {
  import opened Entities

  /** `timeout` is in the clock's unit. */
  datatype Config = Config(maxInFlight: int, idempotent: bool, timeout: int)

  datatype InFlightOrder = InFlightOrder(submittedAt: int, exchangeOrderId: string)

  datatype Outcome = Outstanding | Placed(exchangeOrderId: string) | Failed

  /** A call to the venue, made for a client order id. */
  datatype Call = Call(clientOrderId: string, outcome: Outcome)

  datatype Reply = LimitReached | Duplicate(exchangeOrderId: string) | Reserved

  /** `calls` remembers every venue call ever made, in order. */
  datatype World = World(inFlight: map<string, InFlightOrder>, calls: seq<Call>)

  /** A settlement's result is the venue's order id, or None for an error. */
  datatype Event =
    | Submit(clientOrderId: string, at: int)
    | Settle(call: nat, result: Option<string>)
    | Confirm(clientOrderId: string)
    | Cleanup(now: int)

  /* ---------- Steps ---------- */

  function Answer(c: Config, w: World, id: string): Reply {
    if |w.inFlight| >= c.maxInFlight then LimitReached
    else if c.idempotent && id in w.inFlight then Duplicate(w.inFlight[id].exchangeOrderId)
    else Reserved
  }

  predicate TimedOut(c: Config, o: InFlightOrder, now: int) { now - o.submittedAt > c.timeout }

  function Kept(c: Config, inFlight: map<string, InFlightOrder>, now: int): map<string, InFlightOrder> {
    map id | id in inFlight && !TimedOut(c, inFlight[id], now) :: inFlight[id]
  }

  predicate Settles(w: World, e: Event) {
    e.Settle? && e.call < |w.calls| && w.calls[e.call].outcome == Outstanding
  }

  function Step(c: Config, w: World, e: Event): World {
    match e
    case Submit(id, at) =>
      if Answer(c, w, id) == Reserved
      then World(w.inFlight[id := InFlightOrder(at, "")], w.calls + [Call(id, Outstanding)])
      else w
    case Settle(call, result) =>
      if Settles(w, e) then
        var id := w.calls[call].clientOrderId;
        match result
        case None => World(w.inFlight - {id}, w.calls[call := Call(id, Failed)])
        case Some(x) =>
          World(if id in w.inFlight then w.inFlight[id := w.inFlight[id].(exchangeOrderId := x)] else w.inFlight,
                w.calls[call := Call(id, Placed(x))])
      else w
    case Confirm(id) => w.(inFlight := w.inFlight - {id})
    case Cleanup(now) => w.(inFlight := Kept(c, w.inFlight, now))
  }

  function Run(c: Config, w: World, es: seq<Event>): World
    decreases |es|
  {
    if es == [] then w else Run(c, Step(c, w, es[0]), es[1..])
  }

  const EMPTY := World(map[], [])

  /* ---------- The mutable router ---------- */

  class OrderRouter {
    const config: Config
    var inFlight: map<string, InFlightOrder>

    /** Venue calls made so far; the venue itself is an oracle. */
    ghost var calls: seq<Call>

    ghost function Value(): World
      reads this
    {
      World(inFlight, calls)
    }

    constructor (config: Config)
      ensures this.config == config && Value() == EMPTY
    {
      this.config := config;
      inFlight, calls := map[], [];
    }

    /** SubmitOrder up to the venue call, once the trading gate has let the order pass. */
    method Reserve(clientOrderId: string, now: int) returns (reply: Reply)
      modifies this
      ensures reply == Answer(config, old(Value()), clientOrderId)
      ensures Value() == Step(config, old(Value()), Submit(clientOrderId, now))
    {
      if |inFlight| >= config.maxInFlight { return LimitReached; }
      if config.idempotent && clientOrderId in inFlight {
        return Duplicate(inFlight[clientOrderId].exchangeOrderId);
      }
      inFlight := inFlight[clientOrderId := InFlightOrder(now, "")];
      calls := calls + [Call(clientOrderId, Outstanding)];
      return Reserved;
    }

    /** SubmitOrder after the venue call has returned. */
    method Settle(ghost call: nat, clientOrderId: string, result: Option<string>)
      requires call < |calls| && calls[call] == Call(clientOrderId, Outstanding)
      modifies this
      ensures Value() == Step(config, old(Value()), Event.Settle(call, result))
    {
      if result.None? {
        inFlight := inFlight - {clientOrderId};
        calls := calls[call := Call(clientOrderId, Failed)];
        return;
      }
      if clientOrderId in inFlight {
        inFlight := inFlight[clientOrderId := inFlight[clientOrderId].(exchangeOrderId := result.value)];
      }
      calls := calls[call := Call(clientOrderId, Placed(result.value))];
    }

    method ConfirmOrder(clientOrderId: string)
      modifies this
      ensures Value() == Step(config, old(Value()), Confirm(clientOrderId))
    {
      inFlight := inFlight - {clientOrderId};
    }

    method CleanupTimedOutOrders(now: int) returns (cleaned: nat)
      modifies this
      ensures Value() == Step(config, old(Value()), Cleanup(now))
      ensures cleaned == |old(inFlight)| - |inFlight|
    {
      cleaned := 0;
      var ids := inFlight.Keys;
      while ids != {}
        invariant ids <= inFlight.Keys <= old(inFlight).Keys
        invariant calls == old(calls)
        invariant forall id :: id in inFlight ==> inFlight[id] == old(inFlight)[id]
        invariant forall id :: id in old(inFlight) && id !in ids ==>
                    (id in inFlight <==> !TimedOut(config, old(inFlight)[id], now))
        invariant cleaned == |old(inFlight)| - |inFlight|
        decreases ids
      {
        var id :| id in ids;
        ids := ids - {id};
        if now - inFlight[id].submittedAt > config.timeout {
          assert inFlight.Keys - {id} == (inFlight - {id}).Keys;
          inFlight := inFlight - {id};
          cleaned := cleaned + 1;
        }
      }
      assert inFlight == Kept(config, old(inFlight), now);
    }
  }

  /* ---------- The limit ---------- */

  lemma StepBounded(c: Config, w: World, e: Event)
    ensures |Step(c, w, e).inFlight| <= |w.inFlight| || |Step(c, w, e).inFlight| <= c.maxInFlight
  {
    var t := Step(c, w, e);
    if e.Submit? && Answer(c, w, e.clientOrderId) == Reserved {
      assert t.inFlight.Keys == w.inFlight.Keys + {e.clientOrderId};
    } else {
      Smaller(t.inFlight.Keys, w.inFlight.Keys);
      assert |t.inFlight.Keys| == |t.inFlight| && |w.inFlight.Keys| == |w.inFlight|;
    }
  }

  lemma {:induction false} Smaller<T>(a: set<T>, b: set<T>)
    requires a <= b
    ensures |a| <= |b|
  {
    if a != {} {
      var x :| x in a;
      Smaller(a - {x}, b - {x});
    }
  }

  /** Through every interleaving the journal stays within the configured limit. */
  lemma {:induction false} InFlightBounded(c: Config, w: World, es: seq<Event>)
    requires |w.inFlight| <= c.maxInFlight || w.inFlight == map[]
    ensures |Run(c, w, es).inFlight| <= c.maxInFlight || Run(c, w, es).inFlight == map[]
    decreases |es|
  {
    if es != [] {
      StepBounded(c, w, es[0]);
      InFlightBounded(c, Step(c, w, es[0]), es[1..]);
    }
  }

  /* ---------- One outstanding venue call per client order id ---------- */

  function Pending(calls: seq<Call>, id: string): nat {
    if calls == [] then 0
    else Pending(calls[..|calls| - 1], id) + if calls[|calls| - 1] == Call(id, Outstanding) then 1 else 0
  }

  lemma {:induction false} PendingUpdate(calls: seq<Call>, i: nat, call: Call, id: string)
    requires i < |calls|
    ensures Pending(calls[i := call], id) == Pending(calls, id)
            - (if calls[i] == Call(id, Outstanding) then 1 else 0) + (if call == Call(id, Outstanding) then 1 else 0)
  {
    var n := |calls| - 1;
    if i == n {
      assert calls[i := call][..n] == calls[..n];
    } else {
      assert calls[i := call][..n] == calls[..n][i := call];
      PendingUpdate(calls[..n], i, call, id);
    }
  }

  /** `e` frees the slot of `id` by confirmation or timeout while a venue call for it is still out. */
  predicate Premature(c: Config, w: World, e: Event, id: string) {
    (e.Confirm? || e.Cleanup?) && id in w.inFlight && id !in Step(c, w, e).inFlight && Pending(w.calls, id) > 0
  }

  function PrematureCount(c: Config, w: World, es: seq<Event>, id: string): nat
    decreases |es|
  {
    if es == [] then 0
    else (if Premature(c, w, es[0], id) then 1 else 0) + PrematureCount(c, Step(c, w, es[0]), es[1..], id)
  }

  /** Calls that no slot stands for any more. */
  function Strays(w: World, id: string): int {
    Pending(w.calls, id) - if id in w.inFlight then 1 else 0
  }

  lemma StepStrays(c: Config, w: World, e: Event, id: string)
    requires c.idempotent
    ensures var more := if Premature(c, w, e, id) then 1 else 0;
            Strays(Step(c, w, e), id) <= Strays(w, id) + more || Strays(Step(c, w, e), id) <= 0
  {
    if Settles(w, e) {
      PendingUpdate(w.calls, e.call, Step(c, w, e).calls[e.call], id);
    } else if e.Submit? {
      assert (w.calls + [Call(e.clientOrderId, Outstanding)])[..|w.calls|] == w.calls;
    }
  }

  lemma {:induction false} RunStrays(c: Config, w: World, es: seq<Event>, id: string, k: nat)
    requires c.idempotent && Strays(w, id) <= k
    ensures Strays(Run(c, w, es), id) <= k + PrematureCount(c, w, es, id)
    decreases |es|
  {
    if es != [] {
      StepStrays(c, w, es[0], id);
      RunStrays(c, Step(c, w, es[0]), es[1..], id, if Premature(c, w, es[0], id) then k + 1 else k);
    }
  }

  /**
    With idempotency on, the venue calls outstanding at once for one client order id
    exceed one by at most the number of times its slot was freed too early.
   */
  lemma OutstandingBounded(c: Config, es: seq<Event>, id: string)
    requires c.idempotent
    ensures Pending(Run(c, EMPTY, es).calls, id) <= 1 + PrematureCount(c, EMPTY, es, id)
  {
    RunStrays(c, EMPTY, es, id, 0);
  }

  /** So no slot freed too early, no second outstanding call. */
  lemma AtMostOneOutstanding(c: Config, es: seq<Event>, id: string)
    requires c.idempotent && PrematureCount(c, EMPTY, es, id) == 0
    ensures Pending(Run(c, EMPTY, es).calls, id) <= 1
    ensures Pending(Run(c, EMPTY, es).calls, id) == 1 ==> id in Run(c, EMPTY, es).inFlight
  {
    RunStrays(c, EMPTY, es, id, 0);
  }

  /** The bound is met: a slow venue call, a timeout, and the resend is out as well. */
  lemma EarlyCleanupResends(id: string)
    ensures var c := Config(10, true, 30);
            var es := [Submit(id, 0), Cleanup(31), Submit(id, 31)];
            Pending(Run(c, EMPTY, es).calls, id) == 2 && PrematureCount(c, EMPTY, es, id) == 1
  {
    var c := Config(10, true, 30);
    var es := [Submit(id, 0), Cleanup(31), Submit(id, 31)];
    var w1 := World(map[id := InFlightOrder(0, "")], [Call(id, Outstanding)]);
    var w2 := World(map[], [Call(id, Outstanding)]);
    var w3 := World(map[id := InFlightOrder(31, "")], [Call(id, Outstanding), Call(id, Outstanding)]);
    assert es[1..][1..] == [Submit(id, 31)];
    assert Step(c, EMPTY, es[0]) == w1;
    assert Step(c, w1, Cleanup(31)) == w2;
    assert Step(c, w2, Submit(id, 31)) == w3;
    assert Run(c, EMPTY, es) == Run(c, w1, es[1..]) == Run(c, w2, es[1..][1..]) == Run(c, w3, []);
    assert w3.calls[..1] == w1.calls && w1.calls[..0] == [];
    assert Pending(w1.calls, id) == 1;
    assert PrematureCount(c, w3, [], id) == 0;
    assert PrematureCount(c, w2, es[1..][1..], id) == 0;
    assert PrematureCount(c, w1, es[1..], id) == 1;
  }

  /* ---------- Resending ---------- */

  /** The three ways in which the slot of `id` can become free. */
  predicate Releases(c: Config, w: World, e: Event, id: string) {
    match e
    case Submit(_, _) => false
    case Settle(call, result) => Settles(w, e) && w.calls[call].clientOrderId == id && result.None?
    case Confirm(other) => other == id
    case Cleanup(now) => id in w.inFlight && TimedOut(c, w.inFlight[id], now)
  }

  ghost predicate NeverReleases(c: Config, w: World, es: seq<Event>, id: string)
    decreases |es|
  {
    es == [] || (!Releases(c, w, es[0], id) && NeverReleases(c, Step(c, w, es[0]), es[1..], id))
  }

  function CallsFor(calls: seq<Call>, id: string): nat {
    if calls == [] then 0
    else CallsFor(calls[..|calls| - 1], id) + if calls[|calls| - 1].clientOrderId == id then 1 else 0
  }

  lemma {:induction false} CallsForUpdate(calls: seq<Call>, i: nat, call: Call, id: string)
    requires i < |calls| && calls[i].clientOrderId == call.clientOrderId
    ensures CallsFor(calls[i := call], id) == CallsFor(calls, id)
  {
    var n := |calls| - 1;
    if i == n {
      assert calls[i := call][..n] == calls[..n];
    } else {
      assert calls[i := call][..n] == calls[..n][i := call];
      CallsForUpdate(calls[..n], i, call, id);
    }
  }

  /**
    Once sent, an order is not sent again until a call for it has failed, or it has been
    confirmed, or its slot has timed out.
   */
  lemma {:induction false} ResendNeedsRelease(c: Config, w: World, es: seq<Event>, id: string)
    requires c.idempotent && id in w.inFlight && NeverReleases(c, w, es, id)
    ensures id in Run(c, w, es).inFlight
    ensures CallsFor(Run(c, w, es).calls, id) == CallsFor(w.calls, id)
    decreases |es|
  {
    if es != [] {
      var t := Step(c, w, es[0]);
      if Settles(w, es[0]) {
        CallsForUpdate(w.calls, es[0].call, t.calls[es[0].call], id);
      } else if es[0].Submit? {
        assert (w.calls + [Call(es[0].clientOrderId, Outstanding)])[..|w.calls|] == w.calls;
      }
      ResendNeedsRelease(c, t, es[1..], id);
    }
  }

  /* ---------- Exactly when an order goes out again ---------- */

  lemma RunOne(c: Config, w: World, e: Event)
    ensures Run(c, w, [e]) == Step(c, w, e)
  {
    assert [e][1..] == [];
  }

  lemma {:induction false} RunConcat(c: Config, w: World, a: seq<Event>, b: seq<Event>)
    ensures Run(c, w, a + b) == Run(c, Run(c, w, a), b)
    decreases |a|
  {
    if a == [] {
      assert a + b == b;
    } else {
      assert (a + b)[0] == a[0] && (a + b)[1..] == a[1..] + b;
      RunConcat(c, Step(c, w, a[0]), a[1..], b);
    }
  }

  lemma RunThenSubmit(c: Config, w: World, es: seq<Event>, id: string, at: int)
    ensures Run(c, w, es + [Submit(id, at)]) == Step(c, Run(c, w, es), Submit(id, at))
  {
    RunConcat(c, w, es, [Submit(id, at)]);
    RunOne(c, Run(c, w, es), Submit(id, at));
  }

  /** A submission goes out exactly when there is room and, with idempotency, no slot for its id. */
  lemma SubmitSends(c: Config, w: World, id: string, at: int)
    ensures var calls := Step(c, w, Submit(id, at)).calls;
            if Answer(c, w, id) == Reserved
            then Pending(calls, id) == Pending(w.calls, id) + 1 && CallsFor(calls, id) == CallsFor(w.calls, id) + 1
            else calls == w.calls
  {
    assert (w.calls + [Call(id, Outstanding)])[..|w.calls|] == w.calls;
  }

  /** Freeing a slot within the limit leaves room. */
  lemma FreedHasRoom(c: Config, w: World, e: Event, id: string)
    requires id in w.inFlight && |w.inFlight| <= c.maxInFlight && id !in Step(c, w, e).inFlight
    ensures |Step(c, w, e).inFlight| < c.maxInFlight
  {
    var t := Step(c, w, e);
    assert !e.Submit?;
    assert t.inFlight.Keys <= w.inFlight.Keys - {id};
    Smaller(t.inFlight.Keys, w.inFlight.Keys - {id});
    assert |t.inFlight.Keys| == |t.inFlight| && |w.inFlight.Keys| == |w.inFlight|;
  }

  lemma ReleasesIsGone(c: Config, w: World, e: Event, id: string)
    requires id in w.inFlight
    ensures Releases(c, w, e, id) <==> id !in Step(c, w, e).inFlight
    ensures CallsFor(Step(c, w, e).calls, id) == CallsFor(w.calls, id) || (e.Submit? && e.clientOrderId == id)
  {
    if Settles(w, e) {
      CallsForUpdate(w.calls, e.call, Step(c, w, e).calls[e.call], id);
    } else if e.Submit? {
      assert (w.calls + [Call(e.clientOrderId, Outstanding)])[..|w.calls|] == w.calls;
    }
  }

  /**
    While a call for an id is out and its slot is held, a confirmation or a cleanup lets the
    next submission make one more outstanding call exactly when it frees that slot.
   */
  lemma SecondCallExactlyWhen(c: Config, w: World, e: Event, id: string, at: int)
    requires c.idempotent && |w.inFlight| <= c.maxInFlight && id in w.inFlight && Pending(w.calls, id) > 0
    requires e.Confirm? || e.Cleanup?
    ensures Premature(c, w, e, id) <==>
            Pending(Run(c, w, [e, Submit(id, at)]).calls, id) == Pending(w.calls, id) + 1
  {
    var t := Step(c, w, e);
    assert [e, Submit(id, at)] == [e] + [Submit(id, at)];
    RunOne(c, w, e);
    RunThenSubmit(c, w, [e], id, at);
    SubmitSends(c, t, id, at);
    if id !in t.inFlight { FreedHasRoom(c, w, e, id); }
  }

  /**
    One more submission of an order that holds a slot, put in at some moment of a run, goes
    out again exactly when the run frees the slot: by a failed call, a confirmation or a timeout.
   */
  lemma ResentExactlyWhen(c: Config, w: World, es: seq<Event>, id: string, at: int)
    requires c.idempotent && |w.inFlight| <= c.maxInFlight && id in w.inFlight
    ensures (exists k: nat :: k <= |es| && ResentAt(c, w, es, id, at, k)) <==> !NeverReleases(c, w, es, id)
  {
    if NeverReleases(c, w, es, id) {
      forall k: nat | k <= |es| ensures !ResentAt(c, w, es, id, at, k) {
        NeverReleasesPrefix(c, w, es, id, k);
        ResendNeedsRelease(c, w, es[..k], id);
        RunThenSubmit(c, w, es[..k], id, at);
      }
    } else {
      var k := ReleasedResends(c, w, es, id, at);
    }
  }

  ghost predicate ResentAt(c: Config, w: World, es: seq<Event>, id: string, at: int, k: nat)
    requires k <= |es|
  {
    CallsFor(Run(c, w, es[..k] + [Submit(id, at)]).calls, id) > CallsFor(w.calls, id)
  }

  lemma {:induction false} NeverReleasesPrefix(c: Config, w: World, es: seq<Event>, id: string, k: nat)
    requires NeverReleases(c, w, es, id) && k <= |es|
    ensures NeverReleases(c, w, es[..k], id)
    decreases |es|
  {
    if k > 0 {
      NeverReleasesPrefix(c, Step(c, w, es[0]), es[1..], id, k - 1);
      assert es[..k][1..] == es[1..][..k - 1];
    }
  }

  lemma {:induction false} ReleasedResends(c: Config, w: World, es: seq<Event>, id: string, at: int) returns (k: nat)
    requires c.idempotent && |w.inFlight| <= c.maxInFlight && id in w.inFlight && !NeverReleases(c, w, es, id)
    ensures k <= |es| && ResentAt(c, w, es, id, at, k)
    decreases |es|
  {
    var t := Step(c, w, es[0]);
    ReleasesIsGone(c, w, es[0], id);
    if Releases(c, w, es[0], id) {
      k := 1;
      FreedHasRoom(c, w, es[0], id);
      assert es[..1] == [es[0]];
      RunOne(c, w, es[0]);
      RunThenSubmit(c, w, [es[0]], id, at);
      SubmitSends(c, t, id, at);
    } else {
      StepBounded(c, w, es[0]);
      if es[0].Submit? { SubmitSends(c, w, es[0].clientOrderId, es[0].at); }
      var j := ReleasedResends(c, t, es[1..], id, at);
      k := j + 1;
      assert es[..k] + [Submit(id, at)] == [es[0]] + (es[1..][..j] + [Submit(id, at)]);
      RunConcat(c, w, [es[0]], es[1..][..j] + [Submit(id, at)]);
      RunOne(c, w, es[0]);
    }
  }

  /* ---------- Exactly when two calls can be out at once ---------- */

  ghost predicate TwiceOutAt(c: Config, es: seq<Event>, id: string, at: int, k: nat)
    requires k <= |es|
  {
    Pending(Run(c, EMPTY, es[..k] + [Submit(id, at)]).calls, id) >= 2
  }

  /**
    One more submission, put in at some moment of a run from an empty journal, makes two calls
    outstanding for one id exactly when the run frees a slot of that id while its call is out.
   */
  lemma TwiceOutExactlyWhen(c: Config, es: seq<Event>, id: string, at: int)
    requires c.idempotent
    ensures (exists k: nat :: k <= |es| && TwiceOutAt(c, es, id, at, k)) <==> PrematureCount(c, EMPTY, es, id) > 0
  {
    if PrematureCount(c, EMPTY, es, id) > 0 {
      var k := PrematureTwiceOut(c, EMPTY, es, id, at);
      assert TwiceOutAt(c, es, id, at, k);
    } else {
      forall k: nat | k <= |es| ensures !TwiceOutAt(c, es, id, at, k) {
        PrematurePrefix(c, EMPTY, es, id, at, k);
        OutstandingBounded(c, es[..k] + [Submit(id, at)], id);
      }
    }
  }

  lemma {:induction false} PrematurePrefix(c: Config, w: World, es: seq<Event>, id: string, at: int, k: nat)
    requires k <= |es|
    ensures PrematureCount(c, w, es[..k] + [Submit(id, at)], id) <= PrematureCount(c, w, es, id)
    decreases |es|
  {
    var some := es[..k] + [Submit(id, at)];
    if k > 0 {
      PrematurePrefix(c, Step(c, w, es[0]), es[1..], id, at, k - 1);
      assert some[1..] == es[1..][..k - 1] + [Submit(id, at)];
    } else {
      assert some[1..] == [];
    }
  }

  lemma {:induction false} PrematureTwiceOut(c: Config, w: World, es: seq<Event>, id: string, at: int) returns (k: nat)
    requires c.idempotent && PrematureCount(c, w, es, id) > 0
    requires |w.inFlight| <= c.maxInFlight || w.inFlight == map[]
    ensures k <= |es| && Pending(Run(c, w, es[..k] + [Submit(id, at)]).calls, id) >= 2
    decreases |es|
  {
    var t := Step(c, w, es[0]);
    if Premature(c, w, es[0], id) {
      k := 1;
      FreedHasRoom(c, w, es[0], id);
      assert es[..1] == [es[0]];
      RunOne(c, w, es[0]);
      RunThenSubmit(c, w, [es[0]], id, at);
      SubmitSends(c, t, id, at);
    } else {
      StepBounded(c, w, es[0]);
      var j := PrematureTwiceOut(c, t, es[1..], id, at);
      k := j + 1;
      assert es[..k] + [Submit(id, at)] == [es[0]] + (es[1..][..j] + [Submit(id, at)]);
      RunConcat(c, w, [es[0]], es[1..][..j] + [Submit(id, at)]);
      RunOne(c, w, es[0]);
    }
  }

  /** A duplicate is answered with an id the venue itself gave for that client order id, or with none yet. */
  ghost predicate Genuine(w: World) {
    forall id :: id in w.inFlight ==>
      w.inFlight[id].exchangeOrderId == "" || Call(id, Placed(w.inFlight[id].exchangeOrderId)) in w.calls
  }

  lemma StepGenuine(c: Config, w: World, e: Event)
    requires Genuine(w)
    ensures Genuine(Step(c, w, e))
  {
    var t := Step(c, w, e);
    forall id | id in t.inFlight
      ensures t.inFlight[id].exchangeOrderId == "" || Call(id, Placed(t.inFlight[id].exchangeOrderId)) in t.calls
    {
      if id in w.inFlight && t.inFlight[id] == w.inFlight[id] && w.inFlight[id].exchangeOrderId != "" {
        var i :| 0 <= i < |w.calls| && w.calls[i] == Call(id, Placed(w.inFlight[id].exchangeOrderId));
        assert t.calls[i] == w.calls[i];
      } else if Settles(w, e) {
        assert t.calls[e.call] in t.calls;
      }
    }
  }

  lemma {:induction false} RunGenuine(c: Config, w: World, es: seq<Event>)
    requires Genuine(w)
    ensures Genuine(Run(c, w, es))
    decreases |es|
  {
    if es != [] {
      StepGenuine(c, w, es[0]);
      RunGenuine(c, Step(c, w, es[0]), es[1..]);
    }
  }

  lemma DuplicateAnswersVenueId(c: Config, es: seq<Event>, id: string)
    ensures match Answer(c, Run(c, EMPTY, es), id)
            case Duplicate(x) => x == "" || Call(id, Placed(x)) in Run(c, EMPTY, es).calls
            case _ => true
  {
    RunGenuine(c, EMPTY, es);
  }

  /* ---------- What a slot says ---------- */

  lemma RunSnoc(c: Config, w: World, es: seq<Event>)
    requires es != []
    ensures Run(c, w, es) == Step(c, Run(c, w, es[..|es| - 1]), es[|es| - 1])
  {
    var n := |es| - 1;
    assert es == es[..n] + [es[n]];
    RunConcat(c, w, es[..n], [es[n]]);
    RunOne(c, Run(c, w, es[..n]), es[n]);
  }

  /** A submission reserves a slot: there is room, and no slot stands in the way. */
  predicate Reserves(c: Config, w: World, e: Event, id: string) {
    e.Submit? && e.clientOrderId == id && |w.inFlight| < c.maxInFlight && (c.idempotent ==> id !in w.inFlight)
  }

  /** The venue's answer to a call made for this id. */
  predicate Answers(w: World, e: Event, id: string) {
    e.Settle? && e.call < |w.calls| && w.calls[e.call] == Call(id, Outstanding)
  }

  /** A slot taken at time `at` is freed: an error, a confirmation or the timeout. */
  predicate Frees(c: Config, w: World, e: Event, id: string, at: int) {
    || (Answers(w, e, id) && e.result.None?)
    || e == Confirm(id)
    || (e.Cleanup? && e.now > at + c.timeout)
  }

  ghost predicate ReservedAt(c: Config, es: seq<Event>, k: nat, id: string) {
    k < |es| && Reserves(c, Run(c, EMPTY, es[..k]), es[k], id)
  }

  ghost predicate AnsweredAt(c: Config, es: seq<Event>, k: nat, id: string) {
    k < |es| && Answers(Run(c, EMPTY, es[..k]), es[k], id)
  }

  ghost predicate FreedAt(c: Config, es: seq<Event>, k: nat, id: string, at: int) {
    k < |es| && Frees(c, Run(c, EMPTY, es[..k]), es[k], id, at)
  }

  /** The slot was reserved by event `r`, and neither freed nor reserved again. */
  ghost predicate HeldSince(c: Config, es: seq<Event>, r: nat, id: string) {
    && ReservedAt(c, es, r, id)
    && forall k :: r < k < |es| ==> !ReservedAt(c, es, k, id) && !FreedAt(c, es, k, id, es[r].at)
  }

  /** The first acceptance since event `r` has not been followed by another. */
  ghost predicate LastAnswer(c: Config, es: seq<Event>, r: nat, k: nat, id: string) {
    && r < k && AnsweredAt(c, es, k, id) && es[k].result.Some?
    && forall l :: k < l < |es| ==> !(AnsweredAt(c, es, l, id) && es[l].result.Some?)
  }

  ghost predicate SlotTold(c: Config, es: seq<Event>, r: nat, id: string, slot: InFlightOrder) {
    && r < |es| && es[r].Submit? && slot.submittedAt == es[r].at
    && (forall k: nat :: LastAnswer(c, es, r, k, id) ==> slot.exchangeOrderId == es[k].result.value)
    && ((forall k :: r < k < |es| ==> !(AnsweredAt(c, es, k, id) && es[k].result.Some?)) ==> slot.exchangeOrderId == "")
  }

  ghost predicate SlotExplained(c: Config, es: seq<Event>, id: string) {
    var slots := Run(c, EMPTY, es).inFlight;
    if id in slots then exists r: nat :: HeldSince(c, es, r, id) && SlotTold(c, es, r, id, slots[id])
    else forall r: nat :: !HeldSince(c, es, r, id)
  }

  lemma AtFront(c: Config, es: seq<Event>, k: nat, id: string)
    requires es != [] && k < |es| - 1
    ensures var front := es[..|es| - 1];
            && (ReservedAt(c, es, k, id) <==> ReservedAt(c, front, k, id))
            && (AnsweredAt(c, es, k, id) <==> AnsweredAt(c, front, k, id))
            && forall at :: FreedAt(c, es, k, id, at) <==> FreedAt(c, front, k, id, at)
  {
    assert es[..|es| - 1][..k] == es[..k];
  }

  /** What one step does to the slot of one id. */
  lemma StepSlot(c: Config, w: World, e: Event, id: string)
    ensures var before, after := w.inFlight, Step(c, w, e).inFlight;
            && (Reserves(c, w, e, id) ==> id in after && after[id] == InFlightOrder(e.at, ""))
            && (!Reserves(c, w, e, id) ==>
                  && (id in after <==> id in before && !Frees(c, w, e, id, before[id].submittedAt))
                  && (id in after ==>
                        after[id] == if Answers(w, e, id) && e.result.Some?
                                     then before[id].(exchangeOrderId := e.result.value) else before[id]))
  {
  }

  lemma HeldFront(c: Config, es: seq<Event>, r: nat, id: string)
    requires es != [] && r < |es| - 1 && es[r].Submit?
    ensures HeldSince(c, es, r, id) <==>
            && HeldSince(c, es[..|es| - 1], r, id)
            && !ReservedAt(c, es, |es| - 1, id) && !FreedAt(c, es, |es| - 1, id, es[r].at)
  {
    var n := |es| - 1;
    AtFront(c, es, r, id);
    forall k: nat | r < k < n
      ensures ReservedAt(c, es, k, id) <==> ReservedAt(c, es[..n], k, id)
      ensures FreedAt(c, es, k, id, es[r].at) <==> FreedAt(c, es[..n], k, id, es[r].at)
    { AtFront(c, es, k, id); }
    if HeldSince(c, es, r, id) {
      assert !ReservedAt(c, es, n, id) && !FreedAt(c, es, n, id, es[r].at);
    }
  }

  lemma ToldFront(c: Config, es: seq<Event>, r: nat, id: string, slot: InFlightOrder)
    requires es != [] && r < |es| - 1 && SlotTold(c, es[..|es| - 1], r, id, slot)
    ensures var n := |es| - 1;
            SlotTold(c, es, r, id, if AnsweredAt(c, es, n, id) && es[n].result.Some?
                                   then slot.(exchangeOrderId := es[n].result.value) else slot)
  {
    var n := |es| - 1;
    forall k: nat | k < n ensures AnsweredAt(c, es, k, id) <==> AnsweredAt(c, es[..n], k, id) { AtFront(c, es, k, id); }
    if AnsweredAt(c, es, n, id) && es[n].result.Some? {
      forall k: nat | LastAnswer(c, es, r, k, id) ensures k == n {}
    } else {
      forall k: nat | LastAnswer(c, es, r, k, id) ensures LastAnswer(c, es[..n], r, k, id) {}
    }
  }

  lemma HoldersFront(c: Config, es: seq<Event>, id: string)
    requires es != []
    ensures var n := |es| - 1;
            forall r: nat :: r < n ==>
              (HeldSince(c, es, r, id) <==>
               HeldSince(c, es[..n], r, id) && !ReservedAt(c, es, n, id) && !FreedAt(c, es, n, id, es[r].at))
  {
    var n := |es| - 1;
    forall r: nat | r < n
      ensures HeldSince(c, es, r, id) <==>
              HeldSince(c, es[..n], r, id) && !ReservedAt(c, es, n, id) && !FreedAt(c, es, n, id, es[r].at)
    {
      if es[r].Submit? { HeldFront(c, es, r, id); } else { AtFront(c, es, r, id); }
    }
  }

  lemma {:induction false} SlotsExplained(c: Config, es: seq<Event>, id: string)
    ensures SlotExplained(c, es, id)
    decreases |es|
  {
    if es != [] {
      var n := |es| - 1;
      var w := Run(c, EMPTY, es[..n]);
      SlotsExplained(c, es[..n], id);
      RunSnoc(c, EMPTY, es);
      StepSlot(c, w, es[n], id);
      HoldersFront(c, es, id);
      if ReservedAt(c, es, n, id) {
        assert HeldSince(c, es, n, id);
      } else if id in w.inFlight {
        var r: nat :| HeldSince(c, es[..n], r, id) && SlotTold(c, es[..n], r, id, w.inFlight[id]);
        ToldFront(c, es, r, id, w.inFlight[id]);
        OneHolder(c, es[..n], r, id);
      }
    }
  }

  lemma OneHolder(c: Config, es: seq<Event>, r: nat, id: string)
    requires HeldSince(c, es, r, id)
    ensures forall q: nat :: HeldSince(c, es, q, id) ==> q == r
  {
  }

  /**
    After any run, an id has a slot exactly when some submission reserved it and neither an
    error, a confirmation nor the timeout has freed it since; the slot holds the time of that
    submission, and the id of the venue's last acceptance since, or none if there was none.
   */
  lemma SlotTellsTheEvents(c: Config, es: seq<Event>, id: string)
    ensures var slots := Run(c, EMPTY, es).inFlight;
            && (id in slots <==> exists r: nat :: HeldSince(c, es, r, id))
            && forall r: nat :: HeldSince(c, es, r, id) ==> id in slots && SlotTold(c, es, r, id, slots[id])
  {
    SlotsExplained(c, es, id);
    var slots := Run(c, EMPTY, es).inFlight;
    if id in slots {
      var r: nat :| HeldSince(c, es, r, id) && SlotTold(c, es, r, id, slots[id]);
      OneHolder(c, es, r, id);
    }
  }
}
