/**
  The analytics stream of the two dual writers: a bounded queue, one worker, and a Close
  that races with callers. `guarded` is the writer that checks its closed flag before
  queueing and whose worker drains; the other one checks nothing and drains in Close.
*/
module AnalyticsQueue {

  type Item = string

  /** An item that has left the queue for good, and whether its write succeeded. */
  datatype Record = Record(item: Item, ok: bool)

  datatype Worker = Idle | Writing(item: Item) | Draining | DrainWriting(item: Item) | Exited

  /** The effective call of Close, stage by stage. */
  datatype Closer = NotYet | Flagged | Joining | Emptying | EmptyingItem(item: Item) | Returned

  datatype State = State(
    guarded: bool,
    capacity: nat,
    queue: seq<Item>,
    closed: bool,
    stopped: bool,
    worker: Worker,
    closer: Closer,
    offered: nat,
    dropped: nat,
    writes: nat,
    accepted: seq<Item>,
    done: seq<Record>)

  datatype Event =
    | Offer(item: Item)
    | Take
    | Finish(ok: bool)
    | SeeStop
    | DrainEnd
    | CloseFlag
    | CloseStop
    | CloseJoin
    | CloseTake
    | CloseFinish(ok: bool)
    | CloseEnd

  predicate Accepts(s: State) { !(s.guarded && s.closed) && |s.queue| < s.capacity }

  /** The end of a write. The guarded writer counts the writes that succeed, the other one those it queues. */
  function Recorded(s: State, item: Item, ok: bool): State {
    s.(done := s.done + [Record(item, ok)], writes := if s.guarded && ok then s.writes + 1 else s.writes)
  }

  /** An event whose turn it is not changes nothing. */
  function Step(s: State, e: Event): State {
    match e
    case Offer(item) =>
      if Accepts(s)
      then s.(offered := s.offered + 1, queue := s.queue + [item], accepted := s.accepted + [item],
              writes := if s.guarded then s.writes else s.writes + 1)
      else s.(offered := s.offered + 1, dropped := s.dropped + 1)
    case Take =>
      if s.queue == [] then s
      else if s.worker.Idle? then s.(queue := s.queue[1..], worker := Writing(s.queue[0]))
      else if s.worker.Draining? then s.(queue := s.queue[1..], worker := DrainWriting(s.queue[0]))
      else s
    case Finish(ok) =>
      if s.worker.Writing? then Recorded(s, s.worker.item, ok).(worker := Idle)
      else if s.worker.DrainWriting? then Recorded(s, s.worker.item, ok).(worker := Draining)
      else s
    case SeeStop =>
      if s.worker.Idle? && s.stopped then s.(worker := if s.guarded then Draining else Exited) else s
    case DrainEnd => if s.worker.Draining? && s.queue == [] then s.(worker := Exited) else s
    case CloseFlag => if s.closed then s else s.(closed := true, closer := Flagged)
    case CloseStop => if s.closer.Flagged? then s.(stopped := true, closer := Joining) else s
    case CloseJoin =>
      if s.closer.Joining? && s.worker.Exited? then s.(closer := if s.guarded then Returned else Emptying) else s
    case CloseTake =>
      if s.closer.Emptying? && s.queue != [] then s.(queue := s.queue[1..], closer := EmptyingItem(s.queue[0])) else s
    case CloseFinish(ok) =>
      if s.closer.EmptyingItem? then Recorded(s, s.closer.item, ok).(closer := Emptying) else s
    case CloseEnd => if s.closer.Emptying? && s.queue == [] then s.(closer := Returned) else s
  }

  function Run(s: State, es: seq<Event>): State
    decreases |es|
  {
    if es == [] then s else Run(Step(s, es[0]), es[1..])
  }

  function Opened(guarded: bool, capacity: nat): State {
    State(guarded, capacity, [], false, false, Idle, NotYet, 0, 0, 0, [], [])
  }

  /* ---------- Nothing is lost or reordered ---------- */

  function Items(rs: seq<Record>): seq<Item> {
    if rs == [] then [] else Items(rs[..|rs| - 1]) + [rs[|rs| - 1].item]
  }

  function Successes(rs: seq<Record>): nat {
    if rs == [] then 0 else Successes(rs[..|rs| - 1]) + if rs[|rs| - 1].ok then 1 else 0
  }

  function Failures(rs: seq<Record>): nat {
    if rs == [] then 0 else Failures(rs[..|rs| - 1]) + if rs[|rs| - 1].ok then 0 else 1
  }

  /** The item being written, if any. */
  function InHand(s: State): seq<Item> {
    if s.worker.Writing? || s.worker.DrainWriting? then [s.worker.item]
    else if s.closer.EmptyingItem? then [s.closer.item]
    else []
  }

  /** Where the two goroutines can stand. */
  predicate Staged(s: State) {
    && (s.closed <==> !s.closer.NotYet?)
    && (s.stopped <==> !s.closer.NotYet? && !s.closer.Flagged?)
    && (s.worker.Draining? || s.worker.DrainWriting? ==> s.guarded && s.stopped)
    && (s.worker.Exited? ==> s.stopped && (s.guarded ==> s.queue == []))
    && (s.closer.Emptying? || s.closer.EmptyingItem? || s.closer.Returned? ==> s.worker.Exited?)
    && (s.closer.Emptying? || s.closer.EmptyingItem? ==> !s.guarded)
  }

  /** Every accepted item is written, in hand or queued, in the order of acceptance. */
  ghost predicate Ordered(s: State) {
    s.accepted == Items(s.done) + InHand(s) + s.queue
  }

  ghost predicate Counted(s: State) {
    && s.offered == s.dropped + |s.accepted|
    && |s.queue| <= s.capacity
    && s.writes == if s.guarded then Successes(s.done) else |s.accepted|
  }

  ghost predicate Inv(s: State) { Staged(s) && Ordered(s) && Counted(s) }

  lemma RecordAdds(rs: seq<Record>, r: Record)
    ensures Items(rs + [r]) == Items(rs) + [r.item]
    ensures Successes(rs + [r]) == Successes(rs) + if r.ok then 1 else 0
    ensures Failures(rs + [r]) == Failures(rs) + if r.ok then 0 else 1
  {
    assert (rs + [r])[..|rs|] == rs;
  }

  lemma Regroup(a: seq<Item>, x: Item, q: seq<Item>)
    ensures a + [x] + q == a + ([x] + q) == a + [x] + [] + q
    ensures a + [] + ([x] + q) == a + [x] + q
  {
  }

  lemma TakeOrdered(s: State, e: Event)
    requires Staged(s) && Ordered(s) && (e.Take? || e.CloseTake?)
    ensures Ordered(Step(s, e))
  {
    if s.queue != [] {
      assert s.queue == [s.queue[0]] + s.queue[1..];
      Regroup(Items(s.done), s.queue[0], s.queue[1..]);
    }
  }

  lemma FinishOrdered(s: State, e: Event)
    requires Staged(s) && Ordered(s) && (e.Finish? || e.CloseFinish?)
    ensures Ordered(Step(s, e))
  {
    if e.Finish? && (s.worker.Writing? || s.worker.DrainWriting?) {
      RecordAdds(s.done, Record(s.worker.item, e.ok));
      Regroup(Items(s.done), s.worker.item, s.queue);
    } else if e.CloseFinish? && s.closer.EmptyingItem? {
      RecordAdds(s.done, Record(s.closer.item, e.ok));
      Regroup(Items(s.done), s.closer.item, s.queue);
    }
  }

  lemma {:induction false} StepOrdered(s: State, e: Event)
    requires Staged(s) && Ordered(s)
    ensures Ordered(Step(s, e))
  {
    if e.Take? || e.CloseTake? {
      TakeOrdered(s, e);
    } else if e.Finish? || e.CloseFinish? {
      FinishOrdered(s, e);
    } else if e.Offer? {
      assert Items(s.done) + InHand(s) + (s.queue + [e.item]) == Items(s.done) + InHand(s) + s.queue + [e.item];
    }
  }

  lemma RecordedCounted(s: State, item: Item, ok: bool)
    requires Counted(s)
    ensures Counted(Recorded(s, item, ok))
  {
    RecordAdds(s.done, Record(item, ok));
  }

  lemma {:induction false} StepCounted(s: State, e: Event)
    requires Counted(s)
    ensures Counted(Step(s, e))
  {
    if e.Finish? {
      if s.worker.Writing? || s.worker.DrainWriting? { RecordedCounted(s, s.worker.item, e.ok); }
    } else if e.CloseFinish? {
      if s.closer.EmptyingItem? { RecordedCounted(s, s.closer.item, e.ok); }
    }
  }

  lemma {:induction false} StepInv(s: State, e: Event)
    requires Inv(s)
    ensures Inv(Step(s, e))
  {
    assert Staged(Step(s, e));
    StepOrdered(s, e);
    StepCounted(s, e);
  }

  lemma {:induction false} RunInv(s: State, es: seq<Event>)
    requires Inv(s)
    ensures Inv(Run(s, es))
    decreases |es|
  {
    if es != [] {
      StepInv(s, es[0]);
      RunInv(Step(s, es[0]), es[1..]);
    }
  }

  lemma {:induction false} RecordsCounted(rs: seq<Record>)
    ensures Successes(rs) + Failures(rs) == |rs| == |Items(rs)|
  {
    if rs != [] { RecordsCounted(rs[..|rs| - 1]); }
  }

  /**
    In every reachable state of either writer, each call is dropped, written, failed, being
    written or queued, and what is written is a prefix, in order, of what was accepted.
   */
  lemma Conservation(guarded: bool, capacity: nat, es: seq<Event>)
    ensures var s := Run(Opened(guarded, capacity), es);
            && s.offered == s.dropped + Successes(s.done) + Failures(s.done) + |InHand(s)| + |s.queue|
            && Items(s.done) + InHand(s) + s.queue == s.accepted
            && |s.queue| <= capacity
            && s.writes == if guarded then Successes(s.done) else |s.accepted|
  {
    RunInv(Opened(guarded, capacity), es);
    RunKeepsKind(Opened(guarded, capacity), es);
    RecordsCounted(Run(Opened(guarded, capacity), es).done);
  }

  lemma {:induction false} RunKeepsKind(s: State, es: seq<Event>)
    ensures Run(s, es).guarded == s.guarded && Run(s, es).capacity == s.capacity
    decreases |es|
  {
    if es != [] { RunKeepsKind(Step(s, es[0]), es[1..]); }
  }

  lemma {:induction false} RunConcat(s: State, a: seq<Event>, b: seq<Event>)
    ensures Run(s, a + b) == Run(Run(s, a), b)
    decreases |a|
  {
    if a == [] {
      assert a + b == b;
    } else {
      assert (a + b)[0] == a[0] && (a + b)[1..] == a[1..] + b;
      RunConcat(Step(s, a[0]), a[1..], b);
    }
  }

  /* ---------- Which calls are accepted ---------- */

  lemma RunSnoc(s: State, es: seq<Event>)
    requires es != []
    ensures Run(s, es) == Step(Run(s, es[..|es| - 1]), es[|es| - 1])
  {
    var n := |es| - 1;
    assert es == es[..n] + [es[n]];
    RunConcat(s, es[..n], [es[n]]);
    assert Run(Run(s, es[..n]), [es[n]]) == Run(Step(Run(s, es[..n]), es[n]), []);
  }

  /** The call finds room, and the guarded writer not flagged by an earlier Close. */
  ghost predicate AcceptedAt(guarded: bool, capacity: nat, es: seq<Event>, k: nat) {
    && k < |es| && es[k].Offer? && |Run(Opened(guarded, capacity), es[..k]).queue| < capacity
    && (guarded ==> CloseFlag !in es[..k])
  }

  /** The items of the accepted calls, in order. */
  ghost function AcceptedItems(guarded: bool, capacity: nat, es: seq<Event>): seq<Item> {
    if es == [] then []
    else
      var n := |es| - 1;
      AcceptedItems(guarded, capacity, es[..n]) + if AcceptedAt(guarded, capacity, es, n) then [es[n].item] else []
  }

  /** The answers of the writes, in order. */
  ghost function Answers(guarded: bool, capacity: nat, es: seq<Event>): seq<bool> {
    if es == [] then []
    else
      var n := |es| - 1;
      var s := Run(Opened(guarded, capacity), es[..n]);
      Answers(guarded, capacity, es[..n]) +
      if (es[n].Finish? && (s.worker.Writing? || s.worker.DrainWriting?)) || (es[n].CloseFinish? && s.closer.EmptyingItem?)
      then [es[n].ok] else []
  }

  function Oks(rs: seq<Record>): seq<bool> { if rs == [] then [] else Oks(rs[..|rs| - 1]) + [rs[|rs| - 1].ok] }

  lemma StepTells(s: State, e: Event)
    ensures Step(s, e).closed == (s.closed || e == CloseFlag)
    ensures Step(s, e).accepted ==
            if e.Offer? && |s.queue| < s.capacity && !(s.guarded && s.closed) then s.accepted + [e.item] else s.accepted
  {
  }

  lemma StepRecords(s: State, e: Event)
    ensures Oks(Step(s, e).done) ==
            Oks(s.done) + if (e.Finish? && (s.worker.Writing? || s.worker.DrainWriting?)) || (e.CloseFinish? && s.closer.EmptyingItem?)
                          then [e.ok] else []
  {
    if e.Finish? && (s.worker.Writing? || s.worker.DrainWriting?) {
      assert (s.done + [Record(s.worker.item, e.ok)])[..|s.done|] == s.done;
    } else if e.CloseFinish? && s.closer.EmptyingItem? {
      assert (s.done + [Record(s.closer.item, e.ok)])[..|s.done|] == s.done;
    } else {
      assert Oks(s.done) + [] == Oks(s.done);
    }
  }

  lemma {:induction false} LastCall(guarded: bool, capacity: nat, es: seq<Event>)
    requires es != []
    requires var s := Run(Opened(guarded, capacity), es[..|es| - 1]);
             s.accepted == AcceptedItems(guarded, capacity, es[..|es| - 1]) && (s.closed <==> CloseFlag in es[..|es| - 1])
    ensures var s := Step(Run(Opened(guarded, capacity), es[..|es| - 1]), es[|es| - 1]);
            s.accepted == AcceptedItems(guarded, capacity, es) && (s.closed <==> CloseFlag in es)
  {
    var front, e := es[..|es| - 1], es[|es| - 1];
    RunKeepsKind(Opened(guarded, capacity), front);
    StepTells(Run(Opened(guarded, capacity), front), e);
    assert es == front + [e];
    assert AcceptedItems(guarded, capacity, front) + [] == AcceptedItems(guarded, capacity, front);
  }

  lemma {:induction false} LastAnswer(guarded: bool, capacity: nat, es: seq<Event>)
    requires es != []
    requires Oks(Run(Opened(guarded, capacity), es[..|es| - 1]).done) == Answers(guarded, capacity, es[..|es| - 1])
    ensures Oks(Step(Run(Opened(guarded, capacity), es[..|es| - 1]), es[|es| - 1]).done) == Answers(guarded, capacity, es)
  {
    StepRecords(Run(Opened(guarded, capacity), es[..|es| - 1]), es[|es| - 1]);
  }

  /**
    In every run of either writer what was accepted are the calls that found room - and, with the
    guard, no Close before them - in order, and each write is recorded with its own answer.
   */
  lemma {:induction false} QueueTellsTheCalls(guarded: bool, capacity: nat, es: seq<Event>)
    ensures var s := Run(Opened(guarded, capacity), es);
            && s.accepted == AcceptedItems(guarded, capacity, es)
            && Oks(s.done) == Answers(guarded, capacity, es)
            && (s.closed <==> CloseFlag in es)
  {
    if es != [] {
      RunSnoc(Opened(guarded, capacity), es);
      QueueTellsTheCalls(guarded, capacity, es[..|es| - 1]);
      LastCall(guarded, capacity, es);
      LastAnswer(guarded, capacity, es);
    }
  }

  /* ---------- What Close promises ---------- */

  lemma {:induction false} ReturnedForGood(s: State, more: seq<Event>)
    requires Inv(s) && s.closer.Returned?
    ensures Run(s, more).closer.Returned? && Run(s, more).done == s.done && Run(s, more).worker.Exited?
    ensures s.queue <= Run(s, more).queue
    decreases |more|
  {
    if more != [] {
      StepInv(s, more[0]);
      ReturnedForGood(Step(s, more[0]), more[1..]);
    }
  }

  lemma {:induction false} GuardedStaysEmpty(s: State, more: seq<Event>)
    requires Inv(s) && s.guarded && s.closer.Returned?
    ensures Run(s, more).queue == [] && Run(s, more).accepted == s.accepted
    decreases |more|
  {
    if more != [] {
      StepInv(s, more[0]);
      GuardedStaysEmpty(Step(s, more[0]), more[1..]);
    }
  }

  /**
    When the guarded writer's Close has returned, all that was accepted is done, and whatever
    is called afterwards, the queue stays empty and nothing more is accepted or written.
   */
  lemma GuardedCloseLosesNothing(capacity: nat, es: seq<Event>, more: seq<Event>)
    requires Run(Opened(true, capacity), es).closer.Returned?
    ensures var s := Run(Opened(true, capacity), es);
            var t := Run(s, more);
            && s.queue == [] && InHand(s) == [] && Items(s.done) == s.accepted
            && t.queue == [] && t.done == s.done && t.accepted == s.accepted
  {
    RunInv(Opened(true, capacity), es);
    RunKeepsKind(Opened(true, capacity), es);
    ReturnedForGood(Run(Opened(true, capacity), es), more);
    GuardedStaysEmpty(Run(Opened(true, capacity), es), more);
  }

  ghost predicate SomeCall(es: seq<Event>) { exists i :: 0 <= i < |es| && es[i].Offer? }

  lemma SomeCallFirst(es: seq<Event>)
    requires es != []
    ensures SomeCall(es) <==> es[0].Offer? || SomeCall(es[1..])
  {
    if SomeCall(es[1..]) {
      var i :| 0 <= i < |es[1..]| && es[1..][i].Offer?;
      assert es[i + 1].Offer?;
    }
    if SomeCall(es) && !es[0].Offer? {
      var i :| 0 <= i < |es| && es[i].Offer?;
      assert es[1..][i - 1].Offer?;
    }
  }

  lemma {:induction false} QueueGrows(s: State, more: seq<Event>)
    requires Inv(s) && s.closer.Returned? && !s.guarded
    ensures Run(s, more).queue != [] <==> s.queue != [] || (s.capacity > 0 && SomeCall(more))
    decreases |more|
  {
    if more != [] {
      SomeCallFirst(more);
      StepInv(s, more[0]);
      QueueGrows(Step(s, more[0]), more[1..]);
    }
  }

  /** What is queued after the return is the rest of what was accepted, and is never written. */
  lemma AfterReturn(s: State, more: seq<Event>)
    requires Inv(s) && s.closer.Returned? && !s.guarded && s.queue == []
    ensures var t := Run(s, more);
            && t.done == s.done && t.accepted == s.accepted + t.queue
            && (t.queue != [] <==> s.capacity > 0 && SomeCall(more))
  {
    ReturnedForGood(s, more);
    QueueGrows(s, more);
    RunInv(s, more);
  }

  /**
    The unguarded writer's Close also returns on an empty queue. What is queued after that
    is never written, and there is some exactly when anything is called at all - unless the
    queue has no room for one item.
   */
  lemma UnguardedCloseLosesLaterCalls(capacity: nat, es: seq<Event>, more: seq<Event>)
    requires Run(Opened(false, capacity), es).closer.Emptying? && Run(Opened(false, capacity), es).queue == []
    ensures var s := Run(Opened(false, capacity), es + [CloseEnd]);
            var t := Run(s, more);
            && s.closer.Returned? && s.queue == [] && Items(s.done) == s.accepted
            && t.done == s.done && t.accepted == s.accepted + t.queue
            && (t.queue != [] <==> capacity > 0 && SomeCall(more))
  {
    var r := Run(Opened(false, capacity), es);
    var s := Step(r, CloseEnd);
    RunKeepsKind(Opened(false, capacity), es);
    RunInv(Opened(false, capacity), es);
    StepInv(r, CloseEnd);
    RunConcat(Opened(false, capacity), es, [CloseEnd]);
    assert Run(r, [CloseEnd]) == Run(s, []) == s;
    AfterReturn(s, more);
  }

  lemma RunCons(s: State, e: Event, rest: seq<Event>)
    ensures Run(s, [e] + rest) == Run(Step(s, e), rest)
  {
    assert ([e] + rest)[1..] == rest;
  }

  const CLOSE_IDLE: seq<Event> := [CloseFlag, CloseStop, SeeStop, DrainEnd, CloseJoin, CloseEnd]

  lemma CloseIdle(guarded: bool, capacity: nat)
    ensures Run(Opened(guarded, capacity), CLOSE_IDLE) ==
            Opened(guarded, capacity).(closed := true, stopped := true, worker := Exited, closer := Returned)
  {
    var s0 := Opened(guarded, capacity);
    var s2 := s0.(closed := true, stopped := true, closer := Joining);
    assert Run(s0, [CloseFlag, CloseStop]) == s2 by {
      assert [CloseFlag, CloseStop] == [CloseFlag] + ([CloseStop] + []);
      RunCons(s0, CloseFlag, [CloseStop]);
    }
    var s4 := s2.(worker := Exited);
    assert Run(s2, [SeeStop, DrainEnd]) == s4 by {
      assert [SeeStop, DrainEnd] == [SeeStop] + ([DrainEnd] + []);
      RunCons(s2, SeeStop, [DrainEnd]);
    }
    assert Run(s4, [CloseJoin, CloseEnd]) == s4.(closer := Returned) by {
      assert [CloseJoin, CloseEnd] == [CloseJoin] + ([CloseEnd] + []);
      RunCons(s4, CloseJoin, [CloseEnd]);
    }
    RunConcat(s0, [CloseFlag, CloseStop], [SeeStop, DrainEnd]);
    RunConcat(s0, [CloseFlag, CloseStop] + [SeeStop, DrainEnd], [CloseJoin, CloseEnd]);
    assert CLOSE_IDLE == [CloseFlag, CloseStop] + [SeeStop, DrainEnd] + [CloseJoin, CloseEnd];
  }

  /** One call after Close shows it; the guarded writer drops, and counts, the same call. */
  lemma CallAfterClose(item: Item)
    ensures Run(Opened(false, 1), CLOSE_IDLE + [Offer(item)]).queue == [item]
    ensures Run(Opened(false, 1), CLOSE_IDLE + [Offer(item)]).closer.Returned?
    ensures Run(Opened(true, 1), CLOSE_IDLE + [Offer(item)]).queue == []
    ensures Run(Opened(true, 1), CLOSE_IDLE + [Offer(item)]).dropped == 1
  {
    forall guarded: bool
      ensures Run(Opened(guarded, 1), CLOSE_IDLE + [Offer(item)]) ==
              Step(Run(Opened(guarded, 1), CLOSE_IDLE), Offer(item))
    {
      RunConcat(Opened(guarded, 1), CLOSE_IDLE, [Offer(item)]);
      RunCons(Run(Opened(guarded, 1), CLOSE_IDLE), Offer(item), []);
      assert [Offer(item)] == [Offer(item)] + [];
    }
    CloseIdle(false, 1);
    CloseIdle(true, 1);
  }

  /* ---------- The writer itself ---------- */

  /** The steps that write `n` queued items and find the queue empty; `ok(i)` is the outcome of the i-th write. */
  function DrainSteps(n: nat, ok: nat -> bool): seq<Event> {
    if n == 0 then [] else DrainSteps(n - 1, ok) + [Take, Finish(ok(n - 1))]
  }

  class Writer {
    const guarded: bool
    const capacity: nat
    var queue: seq<Item>
    var closed: bool
    var stopped: bool
    var writes: nat
    var dropped: nat
    var worker: Worker
    var closer: Closer
    ghost var offered: nat
    ghost var accepted: seq<Item>
    ghost var done: seq<Record>

    ghost function Current(): State
      reads this
    {
      State(guarded, capacity, queue, closed, stopped, worker, closer, offered, dropped, writes, accepted, done)
    }

    constructor (guarded: bool, capacity: nat)
      ensures Current() == Opened(guarded, capacity)
    {
      this.guarded, this.capacity := guarded, capacity;
      queue, closed, stopped, writes, dropped, worker, closer := [], false, false, 0, 0, Idle, NotYet;
      offered, accepted, done := 0, [], [];
    }

    method WriteAnalytics(item: Item)
      modifies this
      ensures Current() == Step(old(Current()), Offer(item))
    {
      offered := offered + 1;
      if guarded && closed {
        dropped := dropped + 1;
        return;
      }
      if |queue| < capacity {
        queue := queue + [item];
        accepted := accepted + [item];
        if !guarded { writes := writes + 1; }
      } else {
        dropped := dropped + 1;
      }
    }

    /** `marshalled` and `stored` are the answers of the encoder and of the database. */
    method WriteAnalyticsEvent(item: Item, marshalled: bool, stored: bool)
      modifies this`writes, this`done
      ensures Current() == Recorded(old(Current()), item, marshalled && stored)
    {
      done := done + [Record(item, marshalled && stored)];
      if !marshalled { return; }
      if !stored { return; }
      if guarded { writes := writes + 1; }
    }

    /** One turn of the worker's loop; with both an item and the stop signal ready, either may be served. */
    method ServeOne(preferStop: bool, marshalled: bool, stored: bool)
      requires worker.Idle?
      modifies this
      ensures queue == old(queue) || old(queue) != []
      ensures Current() ==
              if old(queue) != [] && !(old(stopped) && preferStop)
              then Step(Step(old(Current()), Take), Finish(marshalled && stored))
              else Step(old(Current()), SeeStop)
    {
      if queue != [] && !(stopped && preferStop) {
        var item := queue[0];
        queue := queue[1..];
        WriteAnalyticsEvent(item, marshalled, stored);
      } else if stopped {
        worker := if guarded then Draining else Exited;
      }
    }

    method DrainOne(ok: bool)
      requires worker.Draining? && queue != []
      modifies this`queue, this`writes, this`done
      ensures Current() == Step(Step(old(Current()), Take), Finish(ok))
    {
      var item := queue[0];
      queue := queue[1..];
      WriteAnalyticsEvent(item, true, ok);
    }

    /** The drain loop, as one stretch of the worker's steps: every queued item is written, in order. */
    method DrainAnalytics(ok: nat -> bool)
      requires worker.Draining?
      modifies this
      ensures Current() == Run(old(Current()), DrainSteps(|old(queue)|, ok) + [DrainEnd])
      ensures queue == [] && worker.Exited?
      ensures Items(done) == Items(old(done)) + old(queue)
    {
      ghost var before := Current();
      var n := 0;
      Drained(before, 0, ok);
      while queue != []
        invariant n <= |before.queue|
        invariant Current() == Run(before, DrainSteps(n, ok))
        invariant worker.Draining? && queue == before.queue[n..]
        decreases |queue|
      {
        DrainOne(ok(n));
        DrainTurn(before, n, ok);
        n := n + 1;
        Drained(before, n, ok);
      }
      Drained(before, n, ok);
      assert before.queue[..n] == before.queue;
      DrainLast(before, n, ok);
      worker := Exited;
    }

    /** Close up to the stop signal; it then waits for the worker. A second call does nothing. */
    method Close()
      requires Staged(Current())
      modifies this
      ensures Current() == if old(closed) then old(Current()) else Step(Step(old(Current()), CloseFlag), CloseStop)
      ensures closed && Staged(Current())
    {
      if closed { return; }
      closed := true;
      closer := Flagged;
      stopped := true;
      closer := Joining;
    }
  }

  lemma DrainTurn(s: State, n: nat, ok: nat -> bool)
    ensures Run(s, DrainSteps(n + 1, ok)) == Step(Step(Run(s, DrainSteps(n, ok)), Take), Finish(ok(n)))
  {
    var t := Run(s, DrainSteps(n, ok));
    RunConcat(s, DrainSteps(n, ok), [Take, Finish(ok(n))]);
    assert [Take, Finish(ok(n))] == [Take] + [Finish(ok(n))] && [Finish(ok(n))] == [Finish(ok(n))] + [];
    RunCons(t, Take, [Finish(ok(n))]);
    RunCons(Step(t, Take), Finish(ok(n)), []);
  }

  /** One turn of the drain loop takes the oldest item and records it. */
  lemma TurnTakesOldest(s: State, n: nat, ok: nat -> bool)
    requires var t := Run(s, DrainSteps(n, ok)); t.worker.Draining? && t.queue != []
    ensures var t, u := Run(s, DrainSteps(n, ok)), Run(s, DrainSteps(n + 1, ok));
            u.worker.Draining? && u.queue == t.queue[1..] && Items(u.done) == Items(t.done) + [t.queue[0]]
  {
    var t := Run(s, DrainSteps(n, ok));
    DrainTurn(s, n, ok);
    RecordAdds(t.done, Record(t.queue[0], ok(n)));
  }

  lemma OneFurther<T>(done: seq<T>, queue: seq<T>, n: nat)
    requires 0 < n <= |queue|
    ensures done + queue[..n] == (done + queue[..n - 1]) + [queue[n - 1]] && queue[n - 1..][1..] == queue[n..]
  {
    assert queue[..n] == queue[..n - 1] + [queue[n - 1]];
  }

  lemma {:induction false} Drained(s: State, n: nat, ok: nat -> bool)
    requires s.worker.Draining? && n <= |s.queue|
    ensures var t := Run(s, DrainSteps(n, ok));
            t.worker.Draining? && t.queue == s.queue[n..] && Items(t.done) == Items(s.done) + s.queue[..n]
  {
    if n == 0 {
      assert s.queue[..0] == [] && Items(s.done) + [] == Items(s.done);
    } else {
      Drained(s, n - 1, ok);
      TurnTakesOldest(s, n - 1, ok);
      OneFurther(Items(s.done), s.queue, n);
    }
  }

  lemma DrainLast(s: State, n: nat, ok: nat -> bool)
    ensures Run(s, DrainSteps(n, ok) + [DrainEnd]) == Step(Run(s, DrainSteps(n, ok)), DrainEnd)
  {
    RunConcat(s, DrainSteps(n, ok), [DrainEnd]);
    assert [DrainEnd] == [DrainEnd] + [];
    RunCons(Run(s, DrainSteps(n, ok)), DrainEnd, []);
  }

  lemma {:induction false} LateOfferCommutes(s: State, item: Item, e: Event)
    requires s.guarded && s.closed
    ensures Step(Step(s, Offer(item)), e) == Step(Step(s, e), Offer(item)) && Step(s, e).guarded && Step(s, e).closed
  {
    assert Step(s, Offer(item)) == s.(offered := s.offered + 1, dropped := s.dropped + 1);
  }

  /** Once the guarded writer is flagged, a call in between a stretch of steps might as well come after it. */
  lemma {:induction false} CallsDoNotDisturb(s: State, item: Item, es: seq<Event>)
    requires s.guarded && s.closed
    ensures Run(s, [Offer(item)] + es) == Run(s, es + [Offer(item)])
    decreases |es|
  {
    RunCons(s, Offer(item), es);
    if es == [] {
      assert es + [Offer(item)] == [Offer(item)] + es;
    } else {
      LateOfferCommutes(s, item, es[0]);
      CallsDoNotDisturb(Step(s, es[0]), item, es[1..]);
      RunCons(Step(s, es[0]), Offer(item), es[1..]);
      assert es + [Offer(item)] == [es[0]] + (es[1..] + [Offer(item)]);
      RunCons(s, es[0], es[1..] + [Offer(item)]);
    }
  }
}
