/**
  The event bus. Publishers copy the list of subscriptions under the lock and send without
  it; one goroutine per subscription delivers; Unsubscribe and Shutdown cancel a
  subscription and then close its channel. Every lock section that others can see through
  and every channel operation is one step, in any interleaving.
*/
module EventBus {

  datatype Event = Event(kind: string, body: int)

  datatype Phase = Listening | Handling(event: Event) | Draining | DrainHandling(event: Event) | Exited

  /**
    A subscription. `sent` is all that entered its channel, `late` what entered after its
    goroutine had exited; `addressed` counts the copies of the list it was on, `abandoned`
    those given up when the bus ended.
   */
  datatype Sub = Sub(
    kind: string,
    guaranteed: bool,
    registered: bool,
    cancelled: bool,
    closed: bool,
    phase: Phase,
    buffer: seq<Event>,
    sent: seq<Event>,
    delivered: seq<Event>,
    late: seq<Event>,
    dropped: nat,
    addressed: nat,
    abandoned: nat)

  function Capacity(guaranteed: bool): nat { if guaranteed then 1000 else 10 }

  datatype Publisher = Checked(event: Event) | Sending(event: Event, rest: seq<nat>) | Gone

  /** Who holds the write lock across a step: Unsubscribe or Shutdown between cancel and close, or Shutdown. */
  datatype Lock = Free | Closing(i: nat) | Sweeping | SweepClosing(i: nat)

  datatype State = State(
    subs: seq<Sub>,
    publishers: seq<Publisher>,
    closed: bool,
    ended: bool,
    lock: Lock,
    swept: bool,
    dropped: nat,
    crashed: bool)

  datatype Move =
    | Subscribe(kind: string, guaranteed: bool)
    | UnsubscribeCancel(kind: string, i: nat)
    | CloseChannel
    | ShutdownFlag
    | SweepBegin
    | SweepCancel(i: nat)
    | SweepEnd
    | EndContext
    | Begin(event: Event)
    | Snapshot(p: nat, targets: seq<nat>)
    | Send(p: nat)
    | Abandon(p: nat)
    | Receive(i: nat)
    | Handled(i: nat)
    | SeeDone(i: nat)
    | Exit(i: nat)

  /* ---------- One subscription ---------- */

  function NewSub(kind: string, guaranteed: bool): Sub {
    Sub(kind, guaranteed, true, false, false, Listening, [], [], [], [], 0, 0, 0)
  }

  predicate HasRoom(x: Sub) { |x.buffer| < Capacity(x.guaranteed) }

  function Sent(x: Sub, e: Event): Sub {
    x.(buffer := x.buffer + [e], sent := x.sent + [e], late := if x.phase.Exited? then x.late + [e] else x.late)
  }

  function Dropped(x: Sub): Sub { x.(dropped := x.dropped + 1) }

  function Received(x: Sub): Sub {
    if x.buffer == [] then x
    else if x.phase.Listening? then x.(phase := Handling(x.buffer[0]), buffer := x.buffer[1..])
    else if x.phase.Draining? then x.(phase := DrainHandling(x.buffer[0]), buffer := x.buffer[1..])
    else x
  }

  /** The handler returned, or panicked and was recovered. */
  function Finished(x: Sub): Sub {
    if x.phase.Handling? then x.(phase := Listening, delivered := x.delivered + [x.phase.event])
    else if x.phase.DrainHandling? then x.(phase := Draining, delivered := x.delivered + [x.phase.event])
    else x
  }

  function SawDone(x: Sub, ended: bool): Sub {
    if x.phase.Listening? && (x.cancelled || ended) then x.(phase := Draining) else x
  }

  function Left(x: Sub): Sub {
    if x.buffer == [] && (x.phase.Draining? || (x.phase.Listening? && x.closed)) then x.(phase := Exited) else x
  }

  /* ---------- The bus ---------- */

  predicate Distinct(ids: seq<nat>) { forall a, b :: 0 <= a < b < |ids| ==> ids[a] != ids[b] }

  predicate OnList(s: State, kind: string, i: nat) {
    i < |s.subs| && s.subs[i].registered && s.subs[i].kind == kind
  }

  /** A copy of the list for one kind of event, in whatever order the map yields it. */
  predicate Copies(s: State, kind: string, targets: seq<nat>) {
    && Distinct(targets)
    && (forall a :: 0 <= a < |targets| ==> OnList(s, kind, targets[a]))
    && forall i :: 0 <= i < |s.subs| && OnList(s, kind, i) ==> i in targets
  }

  function Addressed(subs: seq<Sub>, targets: seq<nat>): seq<Sub> {
    seq(|subs|, i requires 0 <= i < |subs| =>
      if i in targets then subs[i].(addressed := subs[i].addressed + 1) else subs[i])
  }

  function GivenUp(subs: seq<Sub>, targets: seq<nat>): seq<Sub> {
    seq(|subs|, i requires 0 <= i < |subs| =>
      if i in targets then subs[i].(abandoned := subs[i].abandoned + 1) else subs[i])
  }

  predicate CanSend(s: State, p: nat) {
    && p < |s.publishers| && s.publishers[p].Sending? && s.publishers[p].rest != []
    && s.publishers[p].rest[0] < |s.subs|
  }

  /** The next target of a publisher; a full channel drops for best effort and blocks otherwise. */
  function SendNext(s: State, p: nat): State
    requires CanSend(s, p)
  {
    var e, i, rest := s.publishers[p].event, s.publishers[p].rest[0], s.publishers[p].rest[1..];
    var x := s.subs[i];
    if x.closed then s.(crashed := true)
    else if HasRoom(x) then s.(subs := s.subs[i := Sent(x, e)], publishers := s.publishers[p := Sending(e, rest)])
    else if x.guaranteed then s
    else s.(subs := s.subs[i := Dropped(x)], publishers := s.publishers[p := Sending(e, rest)], dropped := s.dropped + 1)
  }

  function Snapped(s: State, p: nat, targets: seq<nat>): State
    requires p < |s.publishers| && s.publishers[p].Checked?
  {
    s.(subs := Addressed(s.subs, targets), publishers := s.publishers[p := Sending(s.publishers[p].event, targets)])
  }

  function Abandoned(s: State, p: nat): State
    requires p < |s.publishers| && s.publishers[p].Sending?
  {
    s.(subs := GivenUp(s.subs, s.publishers[p].rest), publishers := s.publishers[p := Gone])
  }

  function CloseHeld(s: State): State {
    if (s.lock.Closing? || s.lock.SweepClosing?) && s.lock.i < |s.subs|
    then s.(subs := s.subs[s.lock.i := s.subs[s.lock.i].(closed := true, registered := false)],
            lock := if s.lock.Closing? then Free else Sweeping)
    else s
  }

  /** A move that is not possible changes nothing, and a crash ends the process. */
  function Step(s: State, m: Move): State {
    if s.crashed then s else
    match m
    case Subscribe(kind, guaranteed) =>
      if s.lock.Free? && !s.closed && !s.ended then s.(subs := s.subs + [NewSub(kind, guaranteed)]) else s
    case UnsubscribeCancel(kind, i) =>
      if s.lock.Free? && OnList(s, kind, i)
      then s.(subs := s.subs[i := s.subs[i].(cancelled := true)], lock := Closing(i)) else s
    case CloseChannel => CloseHeld(s)
    case ShutdownFlag => s.(closed := true)
    case SweepBegin => if s.closed && s.lock.Free? && !s.swept then s.(lock := Sweeping) else s
    case SweepCancel(i) =>
      if s.lock.Sweeping? && i < |s.subs| && s.subs[i].registered
      then s.(subs := s.subs[i := s.subs[i].(cancelled := true)], lock := SweepClosing(i)) else s
    case SweepEnd =>
      if s.lock.Sweeping? && (forall i :: 0 <= i < |s.subs| ==> !s.subs[i].registered)
      then s.(lock := Free, swept := true) else s
    case EndContext => s.(ended := true)
    case Begin(event) =>
      if s.closed || s.ended then s else s.(publishers := s.publishers + [Checked(event)])
    case Snapshot(p, targets) =>
      if p < |s.publishers| && s.publishers[p].Checked? && s.lock.Free? && Copies(s, s.publishers[p].event.kind, targets)
      then Snapped(s, p, targets) else s
    case Send(p) => if CanSend(s, p) then SendNext(s, p) else s
    case Abandon(p) =>
      if CanSend(s, p) && s.ended && s.subs[s.publishers[p].rest[0]].guaranteed
      then Abandoned(s, p) else s
    case Receive(i) => if i < |s.subs| then s.(subs := s.subs[i := Received(s.subs[i])]) else s
    case Handled(i) => if i < |s.subs| then s.(subs := s.subs[i := Finished(s.subs[i])]) else s
    case SeeDone(i) => if i < |s.subs| then s.(subs := s.subs[i := SawDone(s.subs[i], s.ended)]) else s
    case Exit(i) => if i < |s.subs| then s.(subs := s.subs[i := Left(s.subs[i])]) else s
  }

  function Run(s: State, ms: seq<Move>): State
    decreases |ms|
  {
    if ms == [] then s else Run(Step(s, ms[0]), ms[1..])
  }

  const OPENED := State([], [], false, false, Free, false, 0, false)

  /* ---------- Order and loss, one subscription at a time ---------- */

  function InHand(x: Sub): seq<Event> {
    if x.phase.Handling? || x.phase.DrainHandling? then [x.phase.event] else []
  }

  /** What was sent was delivered, is being handled, or waits, in the order of sending. */
  predicate Kept(x: Sub) {
    && x.sent == x.delivered + InHand(x) + x.buffer
    && |x.buffer| <= Capacity(x.guaranteed)
    && (x.guaranteed ==> x.dropped == 0)
    && (if x.phase.Exited? then x.buffer == x.late else x.late == [])
    && (x.closed ==> x.cancelled) && x.registered == !x.closed
  }

  lemma ReceivedKept(x: Sub)
    requires Kept(x)
    ensures Kept(Received(x))
  {
    if x.buffer != [] && (x.phase.Listening? || x.phase.Draining?) {
      assert x.buffer == [x.buffer[0]] + x.buffer[1..];
      assert x.delivered + [] + x.buffer == x.delivered + [x.buffer[0]] + x.buffer[1..];
    }
  }

  lemma FinishedKept(x: Sub)
    requires Kept(x)
    ensures Kept(Finished(x))
  {
    if x.phase.Handling? || x.phase.DrainHandling? {
      assert x.delivered + [x.phase.event] + x.buffer == (x.delivered + [x.phase.event]) + [] + x.buffer;
    }
  }

  predicate Holds(l: Lock, i: nat) { (l.Closing? || l.SweepClosing?) && l.i == i }

  /** A subscription that is cancelled but not yet closed is the one the lock is held for. */
  ghost predicate LockKept(subs: seq<Sub>, lock: Lock) {
    && (lock.Closing? || lock.SweepClosing? ==> lock.i < |subs| && subs[lock.i].cancelled)
    && forall i :: 0 <= i < |subs| && subs[i].cancelled && !subs[i].closed ==> Holds(lock, i)
  }

  ghost predicate SubsKept(subs: seq<Sub>, lock: Lock) {
    LockKept(subs, lock) && forall i :: 0 <= i < |subs| ==> Kept(subs[i])
  }

  ghost predicate AllKept(s: State) { SubsKept(s.subs, s.lock) }

  lemma ReplacedKept(subs: seq<Sub>, lock: Lock, i: nat, x: Sub)
    requires SubsKept(subs, lock) && i < |subs|
    requires Kept(x) && x.cancelled == subs[i].cancelled && x.closed == subs[i].closed
    ensures SubsKept(subs[i := x], lock)
  {
  }

  lemma {:induction false} SendKept(s: State, p: nat)
    requires AllKept(s) && CanSend(s, p)
    ensures AllKept(SendNext(s, p))
  {
    var i := s.publishers[p].rest[0];
    var x := s.subs[i];
    if x.closed {
    } else if HasRoom(x) {
      var e := s.publishers[p].event;
      assert x.delivered + InHand(x) + x.buffer + [e] == x.delivered + InHand(x) + (x.buffer + [e]);
      ReplacedKept(s.subs, s.lock, i, Sent(x, s.publishers[p].event));
    } else if !x.guaranteed {
      ReplacedKept(s.subs, s.lock, i, Dropped(x));
    }
  }

  function Moved(x: Sub, m: Move, ended: bool): Sub {
    match m
    case Receive(_) => Received(x)
    case Handled(_) => Finished(x)
    case SeeDone(_) => SawDone(x, ended)
    case Exit(_) => Left(x)
    case _ => x
  }

  lemma MovedKept(x: Sub, m: Move, ended: bool)
    requires Kept(x)
    ensures Kept(Moved(x, m, ended))
    ensures Moved(x, m, ended).cancelled == x.cancelled && Moved(x, m, ended).closed == x.closed
  {
    if m.Receive? { ReceivedKept(x); } else if m.Handled? { FinishedKept(x); }
  }

  lemma {:induction false} DeliveryKept(s: State, m: Move)
    requires AllKept(s) && !s.crashed && (m.Receive? || m.Handled? || m.SeeDone? || m.Exit?)
    ensures AllKept(Step(s, m))
  {
    if m.i < |s.subs| {
      var x := Moved(s.subs[m.i], m, s.ended);
      MovedKept(s.subs[m.i], m, s.ended);
      ReplacedKept(s.subs, s.lock, m.i, x);
      assert Step(s, m) == s.(subs := s.subs[m.i := x]);
    }
  }

  lemma AddedKept(subs: seq<Sub>, lock: Lock, kind: string, guaranteed: bool)
    requires SubsKept(subs, lock)
    ensures SubsKept(subs + [NewSub(kind, guaranteed)], lock)
  {
    var none: seq<Event> := [];
    assert none + none + none == none;
  }

  lemma CancelledKept(subs: seq<Sub>, lock: Lock, i: nat, held: Lock)
    requires SubsKept(subs, lock) && (lock.Free? || lock.Sweeping?) && i < |subs|
    requires Holds(held, i)
    ensures SubsKept(subs[i := subs[i].(cancelled := true)], held)
  {
  }

  lemma ClosedKept(subs: seq<Sub>, lock: Lock, i: nat, after: Lock)
    requires SubsKept(subs, lock) && Holds(lock, i) && (after.Free? || after.Sweeping?)
    ensures i < |subs| && SubsKept(subs[i := subs[i].(closed := true, registered := false)], after)
  {
  }

  lemma ClosingKept(s: State, m: Move)
    requires AllKept(s) && !s.crashed
    requires m.Subscribe? || m.UnsubscribeCancel? || m.CloseChannel? || m.SweepBegin? || m.SweepCancel? || m.SweepEnd?
    ensures AllKept(Step(s, m))
  {
    match m {
      case Subscribe(kind, guaranteed) => AddedKept(s.subs, s.lock, kind, guaranteed);
      case UnsubscribeCancel(kind, i) =>
        if s.lock.Free? && OnList(s, kind, i) { CancelledKept(s.subs, s.lock, i, Closing(i)); }
      case SweepCancel(i) =>
        if s.lock.Sweeping? && i < |s.subs| { CancelledKept(s.subs, s.lock, i, SweepClosing(i)); }
      case CloseChannel =>
        if s.lock.Closing? { ClosedKept(s.subs, s.lock, s.lock.i, Free); }
        if s.lock.SweepClosing? { ClosedKept(s.subs, s.lock, s.lock.i, Sweeping); }
      case _ =>
    }
  }

  predicate SameButMarks(x: Sub, y: Sub) { x.(addressed := y.addressed, abandoned := y.abandoned) == y }

  lemma MarkedKept(subs: seq<Sub>, marked: seq<Sub>, lock: Lock)
    requires SubsKept(subs, lock) && |marked| == |subs|
    requires forall i :: 0 <= i < |subs| ==> SameButMarks(subs[i], marked[i])
    ensures SubsKept(marked, lock)
  {
    forall i | 0 <= i < |marked| ensures Kept(marked[i]) {
      assert SameButMarks(subs[i], marked[i]) && Kept(subs[i]);
    }
    forall i | 0 <= i < |marked| && marked[i].cancelled && !marked[i].closed ensures Holds(lock, i) {
      assert SameButMarks(subs[i], marked[i]);
    }
    if lock.Closing? || lock.SweepClosing? { assert SameButMarks(subs[lock.i], marked[lock.i]); }
  }

  lemma {:induction false} StepKept(s: State, m: Move)
    requires AllKept(s)
    ensures AllKept(Step(s, m))
  {
    if s.crashed {
    } else if m.Send? {
      if CanSend(s, m.p) { SendKept(s, m.p); }
    } else if m.Receive? || m.Handled? || m.SeeDone? || m.Exit? {
      DeliveryKept(s, m);
    } else if m.Snapshot? {
      MarkedKept(s.subs, Addressed(s.subs, m.targets), s.lock);
    } else if m.Abandon? {
      if CanSend(s, m.p) { MarkedKept(s.subs, GivenUp(s.subs, s.publishers[m.p].rest), s.lock); }
    } else if !m.ShutdownFlag? && !m.EndContext? && !m.Begin? {
      ClosingKept(s, m);
    }
  }

  lemma {:induction false} RunKept(s: State, ms: seq<Move>)
    requires AllKept(s)
    ensures AllKept(Run(s, ms))
    decreases |ms|
  {
    if ms != [] {
      StepKept(s, ms[0]);
      RunKept(Step(s, ms[0]), ms[1..]);
    }
  }

  /**
    In every reachable state and for every subscription: delivered, in hand and buffered make
    up what was sent, in order; the buffer is within its bound; guaranteed delivery drops
    nothing; and once the goroutine is gone all but the late sends was delivered.
   */
  lemma DeliveredInOrder(ms: seq<Move>, i: nat)
    requires i < |Run(OPENED, ms).subs|
    ensures var x := Run(OPENED, ms).subs[i];
            && x.sent == x.delivered + InHand(x) + x.buffer
            && |x.buffer| <= Capacity(x.guaranteed)
            && (x.guaranteed ==> x.dropped == 0)
            && (x.phase.Exited? ==> x.sent == x.delivered + x.late && x.buffer == x.late)
  {
    RunKept(OPENED, ms);
    var x := Run(OPENED, ms).subs[i];
    assert Kept(x);
    assert x.delivered + [] + x.buffer == x.delivered + x.buffer;
  }

  /* ---------- Every addressee is accounted for ---------- */

  /** How many publishers still have subscription `i` ahead of them. */
  function Outstanding(ps: seq<Publisher>, i: nat): nat {
    if ps == [] then 0
    else Outstanding(ps[..|ps| - 1], i) + if ps[|ps| - 1].Sending? && i in ps[|ps| - 1].rest then 1 else 0
  }

  function Ahead(p: Publisher, i: nat): nat { if p.Sending? && i in p.rest then 1 else 0 }

  lemma OutstandingSnoc(ps: seq<Publisher>, p: Publisher, i: nat)
    ensures Outstanding(ps + [p], i) == Outstanding(ps, i) + Ahead(p, i)
  {
    assert (ps + [p])[..|ps|] == ps;
  }

  lemma {:induction false} OutstandingUpdate(ps: seq<Publisher>, p: nat, q: Publisher, i: nat)
    requires p < |ps|
    ensures Outstanding(ps[p := q], i) == Outstanding(ps, i) - Ahead(ps[p], i) + Ahead(q, i)
  {
    var n := |ps| - 1;
    if p == n {
      assert ps[p := q][..n] == ps[..n];
    } else {
      assert ps[p := q][..n] == ps[..n][p := q];
      OutstandingUpdate(ps[..n], p, q, i);
    }
  }

  lemma {:induction false} OutstandingPositive(ps: seq<Publisher>, p: nat, i: nat)
    requires p < |ps| && Ahead(ps[p], i) == 1
    ensures Outstanding(ps, i) > 0
  {
    OutstandingUpdate(ps, p, Gone, i);
  }

  function TotalDropped(subs: seq<Sub>): nat {
    if subs == [] then 0 else TotalDropped(subs[..|subs| - 1]) + subs[|subs| - 1].dropped
  }

  lemma {:induction false} TotalUpdate(subs: seq<Sub>, i: nat, x: Sub)
    requires i < |subs|
    ensures TotalDropped(subs[i := x]) == TotalDropped(subs) - subs[i].dropped + x.dropped
  {
    var n := |subs| - 1;
    if i == n {
      assert subs[i := x][..n] == subs[..n];
    } else {
      assert subs[i := x][..n] == subs[..n][i := x];
      TotalUpdate(subs[..n], i, x);
    }
  }

  lemma {:induction false} TotalSame(a: seq<Sub>, b: seq<Sub>)
    requires |a| == |b| && forall i :: 0 <= i < |a| ==> a[i].dropped == b[i].dropped
    ensures TotalDropped(a) == TotalDropped(b)
  {
    if a != [] { TotalSame(a[..|a| - 1], b[..|b| - 1]); }
  }

  predicate Booked(x: Sub, outstanding: nat) {
    x.addressed == |x.sent| + x.dropped + outstanding + x.abandoned
  }

  ghost predicate AllBooked(s: State) {
    && (forall i :: 0 <= i < |s.subs| ==> Booked(s.subs[i], Outstanding(s.publishers, i)))
    && s.dropped == TotalDropped(s.subs)
  }

  predicate ListKnown(p: Publisher, n: nat) {
    p.Sending? ==> Distinct(p.rest) && forall a :: 0 <= a < |p.rest| ==> p.rest[a] < n
  }

  /** Publishers hold lists of known subscriptions without repetition. */
  ghost predicate Listed(publishers: seq<Publisher>, n: nat) {
    forall p :: 0 <= p < |publishers| ==> ListKnown(publishers[p], n)
  }

  ghost predicate AllListed(s: State) { Listed(s.publishers, |s.subs|) }

  lemma ListedUpdate(publishers: seq<Publisher>, n: nat, p: nat, q: Publisher)
    requires Listed(publishers, n) && p < |publishers| && ListKnown(q, n)
    ensures Listed(publishers[p := q], n)
  {
  }

  lemma StepListed(s: State, m: Move)
    requires AllListed(s)
    ensures AllListed(Step(s, m))
  {
    if s.crashed {
    } else if IsQuiet(m) {
      if IsDelivery(m) { DeliveryStep(s, m); } else { ClosingStep(s, m); }
    } else if m.Send? {
      if CanSend(s, m.p) {
        assert ListKnown(s.publishers[m.p], |s.subs|);
        ListedUpdate(s.publishers, |s.subs|, m.p, Sending(s.publishers[m.p].event, s.publishers[m.p].rest[1..]));
      }
    } else if m.Snapshot? {
      if m.p < |s.publishers| && s.publishers[m.p].Checked? && Copies(s, s.publishers[m.p].event.kind, m.targets) {
        ListedUpdate(s.publishers, |s.subs|, m.p, Sending(s.publishers[m.p].event, m.targets));
      }
    } else if m.Abandon? {
      if CanSend(s, m.p) { ListedUpdate(s.publishers, |s.subs|, m.p, Gone); }
    } else if m.Subscribe? {
      assert forall p :: 0 <= p < |s.publishers| ==> ListKnown(s.publishers[p], |s.subs|) && ListKnown(s.publishers[p], |s.subs| + 1);
    }
  }

  lemma HeadOnly(rest: seq<nat>, i: nat)
    requires rest != [] && Distinct(rest)
    ensures (i in rest) == (i == rest[0] || i in rest[1..])
    ensures rest[0] !in rest[1..]
  {
    assert rest == [rest[0]] + rest[1..];
  }

  lemma MovedOnBooked(s: State, p: nat, x: Sub, dropped: nat)
    requires AllListed(s) && AllBooked(s) && CanSend(s, p)
    requires var y := s.subs[s.publishers[p].rest[0]];
             && x.addressed == y.addressed && x.abandoned == y.abandoned
             && |x.sent| + x.dropped == |y.sent| + y.dropped + 1
             && dropped == s.dropped + x.dropped - y.dropped
    ensures var q := Sending(s.publishers[p].event, s.publishers[p].rest[1..]);
            AllBooked(s.(subs := s.subs[s.publishers[p].rest[0] := x], publishers := s.publishers[p := q], dropped := dropped))
  {
    var rest := s.publishers[p].rest;
    var q := Sending(s.publishers[p].event, rest[1..]);
    var subs := s.subs[rest[0] := x];
    forall i | 0 <= i < |s.subs| ensures Booked(subs[i], Outstanding(s.publishers[p := q], i)) {
      assert Booked(s.subs[i], Outstanding(s.publishers, i));
      HeadOnly(rest, i);
      OutstandingUpdate(s.publishers, p, q, i);
    }
    TotalUpdate(s.subs, rest[0], x);
  }

  lemma SendBooked(s: State, p: nat)
    requires AllListed(s) && AllBooked(s) && CanSend(s, p)
    ensures AllBooked(SendNext(s, p))
  {
    var x := s.subs[s.publishers[p].rest[0]];
    if x.closed {
    } else if HasRoom(x) {
      MovedOnBooked(s, p, Sent(x, s.publishers[p].event), s.dropped);
    } else if !x.guaranteed {
      MovedOnBooked(s, p, Dropped(x), s.dropped + 1);
    }
  }

  lemma {:induction false} SnapshotBooked(s: State, p: nat, targets: seq<nat>)
    requires AllBooked(s) && p < |s.publishers| && s.publishers[p].Checked?
    ensures AllBooked(Snapped(s, p, targets))
  {
    var q := Sending(s.publishers[p].event, targets);
    var subs := Addressed(s.subs, targets);
    forall i | 0 <= i < |s.subs| ensures Booked(subs[i], Outstanding(s.publishers[p := q], i)) {
      assert Booked(s.subs[i], Outstanding(s.publishers, i));
      OutstandingUpdate(s.publishers, p, q, i);
    }
    TotalSame(subs, s.subs);
  }

  lemma {:induction false} AbandonBooked(s: State, p: nat)
    requires AllBooked(s) && p < |s.publishers| && s.publishers[p].Sending?
    ensures AllBooked(Abandoned(s, p))
  {
    var subs := GivenUp(s.subs, s.publishers[p].rest);
    forall i | 0 <= i < |s.subs| ensures Booked(subs[i], Outstanding(s.publishers[p := Gone], i)) {
      assert Booked(s.subs[i], Outstanding(s.publishers, i));
      OutstandingUpdate(s.publishers, p, Gone, i);
    }
    TotalSame(subs, s.subs);
  }

  lemma {:induction false} BeginBooked(s: State, e: Event)
    requires AllBooked(s)
    ensures AllBooked(s.(publishers := s.publishers + [Checked(e)]))
  {
    forall i | 0 <= i < |s.subs| ensures Booked(s.subs[i], Outstanding(s.publishers + [Checked(e)], i)) {
      assert Booked(s.subs[i], Outstanding(s.publishers, i));
      OutstandingSnoc(s.publishers, Checked(e), i);
    }
  }

  lemma {:induction false} NobodyAhead(ps: seq<Publisher>, n: nat)
    requires Listed(ps, n)
    ensures Outstanding(ps, n) == 0
  {
    if ps != [] {
      assert ListKnown(ps[|ps| - 1], n);
      NobodyAhead(ps[..|ps| - 1], n);
    }
  }

  lemma SubscribeBooked(s: State, x: Sub)
    requires AllListed(s) && AllBooked(s) && x.addressed == 0 && x.sent == [] && x.dropped == 0 && x.abandoned == 0
    ensures AllBooked(s.(subs := s.subs + [x]))
  {
    NobodyAhead(s.publishers, |s.subs|);
    assert (s.subs + [x])[..|s.subs|] == s.subs;
    forall i | 0 <= i < |s.subs + [x]| ensures Booked((s.subs + [x])[i], Outstanding(s.publishers, i)) {
      if i < |s.subs| { assert Booked(s.subs[i], Outstanding(s.publishers, i)); }
    }
  }

  predicate SameBooks(x: Sub, y: Sub) {
    x.addressed == y.addressed && x.sent == y.sent && x.dropped == y.dropped && x.abandoned == y.abandoned
  }

  lemma QuietBooked(s: State, t: State)
    requires AllBooked(s) && t.publishers == s.publishers && t.dropped == s.dropped && |t.subs| == |s.subs|
    requires forall i :: 0 <= i < |s.subs| ==> SameBooks(t.subs[i], s.subs[i])
    ensures AllBooked(t)
  {
    forall i | 0 <= i < |t.subs| ensures Booked(t.subs[i], Outstanding(t.publishers, i)) {
      assert SameBooks(t.subs[i], s.subs[i]);
      assert Booked(s.subs[i], Outstanding(s.publishers, i));
    }
    forall i | 0 <= i < |s.subs| ensures s.subs[i].dropped == t.subs[i].dropped {
      assert SameBooks(t.subs[i], s.subs[i]);
    }
    TotalSame(s.subs, t.subs);
  }

  predicate IsQuiet(m: Move) { !m.Send? && !m.Snapshot? && !m.Abandon? && !m.Begin? && !m.Subscribe? }

  predicate IsDelivery(m: Move) { m.Receive? || m.Handled? || m.SeeDone? || m.Exit? }

  /** What a goroutine does keeps the books of its subscription. */
  lemma MovedBooks(x: Sub, m: Move, ended: bool)
    ensures SameBooks(Moved(x, m, ended), x)
    ensures Moved(x, m, ended).late == x.late && Moved(x, m, ended).registered == x.registered
  {
  }

  lemma DeliveryStep(s: State, m: Move)
    requires IsDelivery(m) && !s.crashed
    ensures m.i < |s.subs| ==> Step(s, m) == s.(subs := s.subs[m.i := Moved(s.subs[m.i], m, s.ended)])
    ensures m.i >= |s.subs| ==> Step(s, m) == s
  {
  }

  lemma ClosingStep(s: State, m: Move)
    requires IsQuiet(m) && !IsDelivery(m)
    ensures var t := Step(s, m);
            && t.publishers == s.publishers && t.dropped == s.dropped && |t.subs| == |s.subs|
            && forall i :: 0 <= i < |s.subs| ==>
                 && SameBooks(t.subs[i], s.subs[i]) && t.subs[i].late == s.subs[i].late
                 && t.subs[i].phase == s.subs[i].phase && t.subs[i].kind == s.subs[i].kind
                 && (t.subs[i].registered ==> s.subs[i].registered)
                 && (s.subs[i].cancelled ==> t.subs[i].cancelled)
  {
  }

  lemma QuietMoveBooked(s: State, m: Move)
    requires AllBooked(s) && IsQuiet(m) && !s.crashed
    ensures AllBooked(Step(s, m))
  {
    if IsDelivery(m) {
      DeliveryStep(s, m);
      if m.i < |s.subs| { MovedBooks(s.subs[m.i], m, s.ended); }
    } else {
      ClosingStep(s, m);
    }
    QuietBooked(s, Step(s, m));
  }

  lemma AbandonMoveBooked(s: State, m: Move)
    requires AllBooked(s) && m.Abandon? && !s.crashed
    ensures AllBooked(Step(s, m))
  {
    if Step(s, m) != s { AbandonBooked(s, m.p); }
  }

  lemma BeginMoveBooked(s: State, m: Move)
    requires AllBooked(s) && m.Begin? && !s.crashed
    ensures AllBooked(Step(s, m))
  {
    if Step(s, m) != s { BeginBooked(s, m.event); }
  }

  lemma SnapshotMoveBooked(s: State, m: Move)
    requires AllBooked(s) && m.Snapshot? && !s.crashed
    ensures AllBooked(Step(s, m))
  {
    if m.p < |s.publishers| && s.publishers[m.p].Checked? { SnapshotBooked(s, m.p, m.targets); }
  }

  lemma {:induction false} StepBooked(s: State, m: Move)
    requires AllListed(s) && AllBooked(s)
    ensures AllBooked(Step(s, m))
  {
    if s.crashed {
    } else if IsQuiet(m) {
      QuietMoveBooked(s, m);
    } else if m.Send? {
      if CanSend(s, m.p) { SendBooked(s, m.p); }
    } else if m.Subscribe? {
      SubscribeBooked(s, NewSub(m.kind, m.guaranteed));
    } else if m.Snapshot? {
      SnapshotMoveBooked(s, m);
    } else if m.Abandon? {
      AbandonMoveBooked(s, m);
    } else {
      BeginMoveBooked(s, m);
    }
  }

  lemma {:induction false} RunBooked(s: State, ms: seq<Move>)
    requires AllListed(s) && AllBooked(s)
    ensures AllListed(Run(s, ms)) && AllBooked(Run(s, ms))
    decreases |ms|
  {
    if ms != [] {
      StepListed(s, ms[0]);
      StepBooked(s, ms[0]);
      RunBooked(Step(s, ms[0]), ms[1..]);
    }
  }

  /**
    Every time a subscription was on a publisher's copy, the event was sent to it, dropped
    (best effort only, and counted), is still to be sent, or was given up at the end of the bus.
   */
  lemma NoSilentLoss(ms: seq<Move>)
    ensures var s := Run(OPENED, ms);
            && (forall i :: 0 <= i < |s.subs| ==>
                 s.subs[i].addressed ==
                 |s.subs[i].sent| + s.subs[i].dropped + Outstanding(s.publishers, i) + s.subs[i].abandoned)
            && s.dropped == TotalDropped(s.subs)
  {
    RunBooked(OPENED, ms);
    var s := Run(OPENED, ms);
    forall i | 0 <= i < |s.subs|
      ensures s.subs[i].addressed ==
              |s.subs[i].sent| + s.subs[i].dropped + Outstanding(s.publishers, i) + s.subs[i].abandoned
    {
      assert Booked(s.subs[i], Outstanding(s.publishers, i));
    }
  }

  /* ---------- Running step by step ---------- */

  function Drained(x: Sub): Sub { x.(phase := Exited, buffer := [], delivered := x.delivered + x.buffer) }

  /** The drain loop of `n` buffered events, and the exit. */
  function DrainMoves(i: nat, n: nat): seq<Move> {
    if n == 0 then [Exit(i)] else [Receive(i), Handled(i)] + DrainMoves(i, n - 1)
  }

  lemma RunCons(s: State, m: Move, rest: seq<Move>)
    ensures Run(s, [m] + rest) == Run(Step(s, m), rest)
  {
    assert ([m] + rest)[1..] == rest;
  }

  lemma RunOne(s: State, m: Move)
    ensures Run(s, [m]) == Step(s, m)
  {
    assert [m] + [] == [m];
    RunCons(s, m, []);
  }

  lemma {:induction false} RunConcat(s: State, a: seq<Move>, b: seq<Move>)
    ensures Run(s, a + b) == Run(Run(s, a), b)
    decreases |a|
  {
    if a == [] {
      assert a + b == b;
    } else {
      assert (a + b)[0] == a[0] && (a + b)[1..] == a[1..] + b;
      RunConcat(Step(s, a[0]), a[1..], b);
    }
  }

  function DrainedOnce(x: Sub): Sub
    requires x.buffer != []
  {
    x.(buffer := x.buffer[1..], delivered := x.delivered + [x.buffer[0]])
  }

  lemma DrainTurn(s: State, i: nat)
    requires !s.crashed && i < |s.subs| && s.subs[i].phase.Draining? && s.subs[i].buffer != []
    ensures Run(s, [Receive(i), Handled(i)]) == s.(subs := s.subs[i := DrainedOnce(s.subs[i])])
  {
    var x := s.subs[i];
    var s1 := s.(subs := s.subs[i := Received(x)]);
    DeliveryStep(s, Receive(i));
    DeliveryStep(s1, Handled(i));
    assert Moved(Moved(x, Receive(i), s.ended), Handled(i), s.ended) == DrainedOnce(x);
    assert s1.subs[i := DrainedOnce(x)] == s.subs[i := DrainedOnce(x)];
    assert [Receive(i), Handled(i)] == [Receive(i)] + [Handled(i)];
    RunCons(s, Receive(i), [Handled(i)]);
    RunOne(s1, Handled(i));
  }

  lemma {:induction false} DrainRun(s: State, i: nat)
    requires !s.crashed && i < |s.subs| && s.subs[i].phase.Draining?
    ensures Run(s, DrainMoves(i, |s.subs[i].buffer|)) == s.(subs := s.subs[i := Drained(s.subs[i])])
    decreases |s.subs[i].buffer|
  {
    var x := s.subs[i];
    var n := |x.buffer|;
    if n == 0 {
      assert x.delivered + x.buffer == x.delivered;
      RunOne(s, Exit(i));
    } else {
      DrainTurn(s, i);
      var t := s.(subs := s.subs[i := DrainedOnce(x)]);
      DrainRun(t, i);
      RunConcat(s, [Receive(i), Handled(i)], DrainMoves(i, n - 1));
      assert x.delivered + [x.buffer[0]] + x.buffer[1..] == x.delivered + x.buffer;
      assert t.subs[i := Drained(t.subs[i])] == s.subs[i := Drained(x)];
    }
  }

  /* ---------- The bus itself ---------- */

  function Members(subscribers: map<string, set<nat>>, kind: string): set<nat> {
    if kind in subscribers then subscribers[kind] else {}
  }

  predicate Registered(subs: seq<Sub>, kind: string, i: nat) {
    i < |subs| && subs[i].registered && subs[i].kind == kind
  }

  /** The map of maps lists, by kind, exactly the registered subscriptions, and has no empty entry. */
  ghost predicate Linked(subscribers: map<string, set<nat>>, subs: seq<Sub>) {
    && (forall k :: k in subscribers ==> subscribers[k] != {})
    && forall k, i :: i in Members(subscribers, k) <==> Registered(subs, k, i)
  }

  lemma LinkedAdd(subscribers: map<string, set<nat>>, subs: seq<Sub>, x: Sub)
    requires Linked(subscribers, subs) && x.registered
    ensures Linked(subscribers[x.kind := Members(subscribers, x.kind) + {|subs|}], subs + [x])
  {
    var m, t := subscribers[x.kind := Members(subscribers, x.kind) + {|subs|}], subs + [x];
    forall k, i: nat ensures i in Members(m, k) <==> Registered(t, k, i) {
      assert i in Members(subscribers, k) <==> Registered(subs, k, i);
    }
  }

  lemma LinkedRemove(subscribers: map<string, set<nat>>, subs: seq<Sub>, i: nat, m: map<string, set<nat>>)
    requires Linked(subscribers, subs) && i < |subs| && subs[i].registered
    requires var rest := Members(subscribers, subs[i].kind) - {i};
             m == if rest == {} then subscribers - {subs[i].kind} else subscribers[subs[i].kind := rest]
    ensures Linked(m, subs[i := ClosedSub(subs[i])])
  {
    var t := subs[i := ClosedSub(subs[i])];
    forall k, j: nat ensures j in Members(m, k) <==> Registered(t, k, j) {
      assert j in Members(subscribers, k) <==> Registered(subs, k, j);
      assert i in Members(subscribers, subs[i].kind) <==> Registered(subs, subs[i].kind, i);
    }
  }

  lemma LinkedCopies(subscribers: map<string, set<nat>>, s: State, kind: string, targets: seq<nat>)
    requires Linked(subscribers, s.subs)
    requires Distinct(targets) && forall i :: i in targets <==> i in Members(subscribers, kind)
    ensures Copies(s, kind, targets)
  {
    forall a | 0 <= a < |targets| ensures OnList(s, kind, targets[a]) {
      assert targets[a] in Members(subscribers, kind) <==> Registered(s.subs, kind, targets[a]);
    }
    forall i | 0 <= i < |s.subs| && OnList(s, kind, i) ensures i in targets {
      assert i in Members(subscribers, kind) <==> Registered(s.subs, kind, i);
    }
  }

  /** The sweep of Shutdown: the registered among the first `n` are cancelled and closed, one by one. */
  function SweepMoves(subs: seq<Sub>, n: nat): seq<Move>
    requires n <= |subs|
  {
    if n == 0 then []
    else SweepMoves(subs, n - 1) + if subs[n - 1].registered then [SweepCancel(n - 1), CloseChannel] else []
  }

  function ShutdownMoves(subs: seq<Sub>): seq<Move> {
    [ShutdownFlag, SweepBegin] + SweepMoves(subs, |subs|) + [SweepEnd, EndContext]
  }

  lemma RunTwo(s: State, a: Move, b: Move)
    ensures Run(s, [a, b]) == Step(Step(s, a), b)
  {
    assert [a, b] == [a] + [b];
    RunCons(s, a, [b]);
    RunOne(Step(s, a), b);
  }

  lemma SweepOne(s: State, i: nat)
    requires !s.crashed && s.lock.Sweeping? && i < |s.subs| && s.subs[i].registered
    ensures Run(s, [SweepCancel(i), CloseChannel]) == s.(subs := s.subs[i := ClosedSub(s.subs[i])])
  {
    var t := s.(subs := s.subs[i := s.subs[i].(cancelled := true)], lock := SweepClosing(i));
    RunTwo(s, SweepCancel(i), CloseChannel);
    assert Step(s, SweepCancel(i)) == t;
    assert t.subs[i := ClosedSub(s.subs[i])] == s.subs[i := ClosedSub(s.subs[i])];
  }

  /** All registered subscriptions closed, and no other changed. */
  ghost predicate SweptTo(before: seq<Sub>, after: seq<Sub>, n: nat) {
    && |after| == |before|
    && forall i :: 0 <= i < |before| ==> after[i] == if i < n && before[i].registered then ClosedSub(before[i]) else before[i]
  }

  lemma {:induction false} SweepRun(s: State, n: nat)
    requires !s.crashed && s.lock.Sweeping? && n <= |s.subs|
    ensures var t := Run(s, SweepMoves(s.subs, n));
            t == s.(subs := t.subs) && SweptTo(s.subs, t.subs, n)
  {
    if n > 0 {
      SweepRun(s, n - 1);
      var t := Run(s, SweepMoves(s.subs, n - 1));
      if s.subs[n - 1].registered {
        SweepOne(t, n - 1);
        RunConcat(s, SweepMoves(s.subs, n - 1), [SweepCancel(n - 1), CloseChannel]);
      } else {
        assert SweepMoves(s.subs, n) == SweepMoves(s.subs, n - 1);
      }
    }
  }

  /** Shutdown, once its goroutine holds the lock: the flag, the sweep of every registered subscription, and the end of the context. */
  lemma ShutdownRun(s: State)
    requires !s.crashed && s.lock.Free? && !s.closed && !s.swept
    ensures var t := Run(s, ShutdownMoves(s.subs));
            && t == s.(subs := t.subs, closed := true, swept := true, ended := true)
            && SweptTo(s.subs, t.subs, |s.subs|)
  {
    var head, sweep, tail := [ShutdownFlag, SweepBegin], SweepMoves(s.subs, |s.subs|), [SweepEnd, EndContext];
    var flagged := s.(closed := true, lock := Sweeping);
    RunTwo(s, ShutdownFlag, SweepBegin);
    assert Run(s, head) == flagged;
    SweepRun(flagged, |s.subs|);
    var closed := Run(flagged, sweep);
    assert forall i :: 0 <= i < |closed.subs| ==> !closed.subs[i].registered;
    RunTwo(closed, SweepEnd, EndContext);
    RunConcat(s, head, sweep);
    RunConcat(s, head + sweep, tail);
  }

  function ClosedSub(x: Sub): Sub { x.(cancelled := true, closed := true, registered := false) }

  class Bus {
    var subscribers: map<string, set<nat>>
    var subs: seq<Sub>
    var publishers: seq<Publisher>
    var closed: bool
    var ended: bool
    var lock: Lock
    var swept: bool
    var droppedEvents: nat
    var crashed: bool

    ghost function Current(): State
      reads this
    {
      State(subs, publishers, closed, ended, lock, swept, droppedEvents, crashed)
    }

    ghost predicate Valid()
      reads this
    {
      Linked(subscribers, subs) && !crashed && (swept ==> closed)
    }

    constructor ()
      ensures Current() == OPENED && Valid()
    {
      subscribers, subs, publishers := map[], [], [];
      closed, ended, lock, swept, droppedEvents, crashed := false, false, Free, false, 0, false;
    }

    method Subscribe(kind: string, guaranteed: bool) returns (id: nat)
      requires Valid() && lock.Free?
      modifies this
      ensures Valid() && Current() == Step(old(Current()), Move.Subscribe(kind, guaranteed))
      ensures id == if old(closed) || old(ended) then 0 else |old(subs)| + 2
    {
      if closed || ended { return 0; }
      var i := |subs|;
      LinkedAdd(subscribers, subs, NewSub(kind, guaranteed));
      if kind !in subscribers { subscribers := subscribers[kind := {}]; }
      subscribers := subscribers[kind := subscribers[kind] + {i}];
      assert subscribers == old(subscribers)[kind := Members(old(subscribers), kind) + {i}];
      subs := subs + [NewSub(kind, guaranteed)];
      return i + 2;
    }

    method Unregister(i: nat)
      requires Valid() && i < |subs| && subs[i].registered
      modifies this`subscribers, this`subs
      ensures Valid() && subs == old(subs)[i := ClosedSub(old(subs)[i])]
    {
      var kind := subs[i].kind;
      subs := subs[i := subs[i].(cancelled := true)];
      subs := subs[i := subs[i].(closed := true, registered := false)];
      assert i in Members(subscribers, kind) by { assert Registered(old(subs), kind, i); }
      subscribers := subscribers[kind := subscribers[kind] - {i}];
      if subscribers[kind] == {} {
        subscribers := subscribers - {kind};
        assert subscribers == old(subscribers) - {kind};
      }
      LinkedRemove(old(subscribers), old(subs), i, subscribers);
    }

    /** Unknown kinds and ids are ignored; no subscription has the ids 0 and 1. */
    method Unsubscribe(kind: string, id: nat)
      requires Valid() && lock.Free?
      modifies this`subscribers, this`subs
      ensures Valid()
      ensures Current() ==
              if id < 2 then old(Current())
              else Step(Step(old(Current()), UnsubscribeCancel(kind, id - 2)), CloseChannel)
    {
      if kind !in subscribers || id < 2 {
        assert id >= 2 ==> !Registered(subs, kind, id - 2) by {
          assert id >= 2 ==> (id - 2 in Members(subscribers, kind) <==> Registered(subs, kind, id - 2));
        }
        return;
      }
      assert id - 2 in Members(subscribers, kind) <==> Registered(subs, kind, id - 2);
      if id - 2 !in subscribers[kind] { return; }
      ghost var before := Current();
      ghost var cancelled := subs[id - 2].(cancelled := true);
      Unregister(id - 2);
      assert before.subs[id - 2 := cancelled][id - 2 := ClosedSub(before.subs[id - 2])] == subs;
    }

    /** Ranging over a map: each key once, in any order. */
    method Enumerate(ids: set<nat>) returns (targets: seq<nat>)
      ensures Distinct(targets) && forall i :: i in targets <==> i in ids
    {
      targets := [];
      var todo := ids;
      while todo != {}
        invariant todo <= ids && Distinct(targets)
        invariant forall i :: i in ids <==> i in todo || i in targets
        invariant forall i :: i in targets ==> i !in todo
        decreases todo
      {
        var i :| i in todo;
        todo := todo - {i};
        targets := targets + [i];
      }
    }

    /** The copy made under the read lock: the ids of one kind, in the order the map gives them. */
    method CopyList(p: nat) returns (targets: seq<nat>)
      requires Valid() && lock.Free? && p < |publishers| && publishers[p].Checked?
      modifies this`publishers, this`subs
      ensures Copies(old(Current()), old(publishers)[p].event.kind, targets)
      ensures Current() == Snapped(old(Current()), p, targets)
    {
      ghost var before := Current();
      var event := publishers[p].event;
      targets := [];
      if event.kind in subscribers { targets := Enumerate(subscribers[event.kind]); }
      assert forall i :: i in targets <==> i in Members(subscribers, event.kind);
      LinkedCopies(subscribers, before, event.kind, targets);
      subs := Addressed(subs, targets);
      publishers := publishers[p := Sending(event, targets)];
    }

    /** One turn of the loop in Publish; a guaranteed send on a full channel waits. */
    method SendTo(p: nat)
      requires Valid() && CanSend(Current(), p)
      modifies this`subs, this`publishers, this`droppedEvents, this`crashed
      ensures Current() == SendNext(old(Current()), p)
    {
      var event, i, rest := publishers[p].event, publishers[p].rest[0], publishers[p].rest[1..];
      if subs[i].closed {
        crashed := true;
      } else if HasRoom(subs[i]) {
        subs := subs[i := Sent(subs[i], event)];
        publishers := publishers[p := Sending(event, rest)];
      } else if !subs[i].guaranteed {
        subs := subs[i := Dropped(subs[i])];
        publishers := publishers[p := Sending(event, rest)];
        droppedEvents := droppedEvents + 1;
      }
    }

    /** The drain loop of the delivery goroutine, undisturbed: the buffer is delivered in order. */
    method DrainRemaining(i: nat)
      requires Valid() && i < |subs| && subs[i].phase.Draining?
      modifies this`subs
      ensures Current() == Run(old(Current()), DrainMoves(i, |old(subs)[i].buffer|))
      ensures subs == old(subs)[i := Drained(old(subs)[i])]
    {
      ghost var before := subs;
      while subs[i].buffer != []
        invariant |subs| == |before| && subs == before[i := subs[i]]
        invariant subs[i].phase.Draining? && Drained(subs[i]) == Drained(before[i])
        decreases |subs[i].buffer|
      {
        var x := subs[i];
        assert x.delivered + [x.buffer[0]] + x.buffer[1..] == x.delivered + x.buffer;
        subs := subs[i := x.(buffer := x.buffer[1..], phase := DrainHandling(x.buffer[0]))];
        subs := subs[i := Finished(subs[i])];
      }
      assert subs[i].delivered + [] == subs[i].delivered;
      subs := subs[i := subs[i].(phase := Exited)];
      DrainRun(old(Current()), i);
    }

    /** Shutdown up to the wait: the second call does nothing; every channel is closed once. */
    method Shutdown()
      requires Valid() && lock.Free? && AllKept(Current())
      modifies this
      ensures Valid() && lock.Free? && publishers == old(publishers)
      ensures old(closed) ==> Current() == old(Current())
      ensures !old(closed) ==> Current() == Run(old(Current()), ShutdownMoves(old(subs)))
      ensures !old(closed) ==> |subs| == |old(subs)| && forall i :: 0 <= i < |subs| ==> subs[i] == ClosedSub(old(subs)[i])
    {
      if closed { return; }
      ShutdownRun(Current());
      ghost var goal := Run(Current(), ShutdownMoves(subs));
      closed := true;
      ghost var before := subs;
      var i := 0;
      while i < |subs|
        invariant closed && i <= |subs| == |before| && Valid() && lock.Free? && publishers == old(publishers)
        invariant ended == old(ended) && swept == old(swept) && droppedEvents == old(droppedEvents)
        invariant forall k :: 0 <= k < i ==> subs[k] == ClosedSub(before[k])
        invariant forall k :: i <= k < |subs| ==> subs[k] == before[k]
      {
        assert Kept(before[i]);
        if subs[i].registered { Unregister(i); }
        i := i + 1;
      }
      swept := true;
      ended := true;
      assert forall k :: 0 <= k < |subs| ==> Kept(before[k]) && subs[k] == goal.subs[k];
      assert Current().subs == goal.subs;
    }
  }
}
