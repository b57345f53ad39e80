/**
  What the event bus can lose: exactly when an event for a subscription is sent after its
  goroutine has left, or never because a send to a closed channel crashes the process.
*/
module EventBusLosses {
  import opened EventBus

  /* ---------- What ending a subscription can lose ---------- */

  /** A publisher of this kind of event is past its check and has yet to copy the list. */
  ghost predicate SomeChecked(ps: seq<Publisher>, kind: string) {
    exists p :: 0 <= p < |ps| && ps[p].Checked? && ps[p].event.kind == kind
  }

  /**
    A copy of the list with this subscription on it can still be made: nothing has cancelled
    it or is sweeping the bus, and a publisher is about to copy, or can still begin.
   */
  ghost predicate Copyable(s: State, i: nat)
    requires i < |s.subs|
  {
    && !s.subs[i].cancelled && (s.lock.Free? || s.lock.Closing?)
    && (SomeChecked(s.publishers, s.subs[i].kind) || (!s.closed && !s.ended))
  }

  /** On no copy, and on none that can still be made. */
  ghost predicate Cut(s: State, i: nat) {
    i < |s.subs| && Outstanding(s.publishers, i) == 0 && !Copyable(s, i)
  }

  lemma NoNewChecked(ps: seq<Publisher>, p: nat, q: Publisher, kind: string)
    requires p < |ps| && !q.Checked?
    ensures SomeChecked(ps[p := q], kind) ==> SomeChecked(ps, kind)
  {
    if SomeChecked(ps[p := q], kind) {
      var k :| 0 <= k < |ps| && ps[p := q][k].Checked? && ps[p := q][k].event.kind == kind;
      assert ps[k].Checked?;
    }
  }

  predicate SameStream(x: Sub, y: Sub) { x.sent == y.sent && x.late == y.late }

  lemma SendCut(s: State, p: nat, i: nat)
    requires AllListed(s) && Cut(s, i) && CanSend(s, p)
    ensures Cut(SendNext(s, p), i) && SameStream(SendNext(s, p).subs[i], s.subs[i])
  {
    var rest := s.publishers[p].rest;
    var q := Sending(s.publishers[p].event, rest[1..]);
    if i in rest { OutstandingPositive(s.publishers, p, i); }
    assert i != rest[0];
    OutstandingUpdate(s.publishers, p, q, i);
    NoNewChecked(s.publishers, p, q, s.subs[i].kind);
  }

  lemma SnapshotCut(s: State, p: nat, targets: seq<nat>, i: nat)
    requires AllKept(s) && Cut(s, i) && !s.crashed
    ensures Cut(Step(s, Snapshot(p, targets)), i) && SameStream(Step(s, Snapshot(p, targets)).subs[i], s.subs[i])
  {
    if p < |s.publishers| && s.publishers[p].Checked? && s.lock.Free? && Copies(s, s.publishers[p].event.kind, targets) {
      var q := Sending(s.publishers[p].event, targets);
      assert Kept(s.subs[i]);
      assert s.publishers[p].event.kind == s.subs[i].kind ==> SomeChecked(s.publishers, s.subs[i].kind);
      assert i !in targets;
      OutstandingUpdate(s.publishers, p, q, i);
      NoNewChecked(s.publishers, p, q, s.subs[i].kind);
    }
  }

  lemma AbandonCut(s: State, p: nat, i: nat)
    requires Cut(s, i) && !s.crashed
    ensures Cut(Step(s, Abandon(p)), i) && SameStream(Step(s, Abandon(p)).subs[i], s.subs[i])
  {
    if CanSend(s, p) {
      OutstandingUpdate(s.publishers, p, Gone, i);
      NoNewChecked(s.publishers, p, Gone, s.subs[i].kind);
    }
  }

  lemma BeginCut(s: State, e: Event, i: nat)
    requires Cut(s, i) && !s.crashed
    ensures Cut(Step(s, Begin(e)), i) && SameStream(Step(s, Begin(e)).subs[i], s.subs[i])
  {
    OutstandingSnoc(s.publishers, Checked(e), i);
  }

  lemma DeliveryCut(s: State, m: Move, i: nat)
    requires AllKept(s) && Cut(s, i) && IsDelivery(m) && !s.crashed
    ensures Cut(Step(s, m), i) && SameStream(Step(s, m).subs[i], s.subs[i])
  {
    DeliveryStep(s, m);
    if m.i == i {
      MovedBooks(s.subs[i], m, s.ended);
      MovedKept(s.subs[i], m, s.ended);
    }
  }

  /** A sweep ends only when everything is cancelled. */
  lemma ClosingCut(s: State, m: Move, i: nat)
    requires AllKept(s) && Cut(s, i) && IsQuiet(m) && !IsDelivery(m) && !s.crashed
    ensures Cut(Step(s, m), i)
  {
    ClosingStep(s, m);
    assert Kept(s.subs[i]);
  }

  lemma StepCut(s: State, m: Move, i: nat)
    requires AllKept(s) && AllListed(s) && Cut(s, i)
    ensures Cut(Step(s, m), i) && SameStream(Step(s, m).subs[i], s.subs[i])
  {
    if s.crashed {
    } else if m.Send? {
      if CanSend(s, m.p) { SendCut(s, m.p, i); }
    } else if m.Snapshot? {
      SnapshotCut(s, m.p, m.targets, i);
    } else if m.Abandon? {
      AbandonCut(s, m.p, i);
    } else if m.Begin? {
      BeginCut(s, m.event, i);
    } else if IsDelivery(m) {
      DeliveryCut(s, m, i);
    } else if m.Subscribe? {
    } else {
      ClosingStep(s, m);
      ClosingCut(s, m, i);
      assert SameBooks(Step(s, m).subs[i], s.subs[i]);
    }
  }

  /** No publisher holds a copy with a subscription being ended, or can still make one when the context ends. */
  ghost predicate Quietly(s: State, m: Move) {
    match m
    case UnsubscribeCancel(_, i) => Outstanding(s.publishers, i) == 0
    case SweepCancel(i) => Outstanding(s.publishers, i) == 0
    case EndContext => forall i :: 0 <= i < |s.subs| ==>
        Outstanding(s.publishers, i) == 0 && !Copyable(s.(ended := true), i)
    case _ => true
  }

  ghost predicate QuietRun(s: State, ms: seq<Move>)
    decreases |ms|
  {
    ms == [] || (Quietly(s, ms[0]) && QuietRun(Step(s, ms[0]), ms[1..]))
  }

  predicate Ending(x: Sub, ended: bool) { x.cancelled || ended }

  predicate Stopping(p: Phase) { p.Draining? || p.DrainHandling? || p.Exited? }

  ghost predicate SettledSub(s: State, i: nat)
    requires i < |s.subs|
  {
    && (Ending(s.subs[i], s.ended) ==> Cut(s, i))
    && s.subs[i].late == []
    && (Stopping(s.subs[i].phase) ==> Ending(s.subs[i], s.ended))
  }

  ghost predicate Settled(s: State) {
    AllKept(s) && AllListed(s) && !s.crashed && forall i :: 0 <= i < |s.subs| ==> SettledSub(s, i)
  }

  lemma SendSettled(s: State, p: nat)
    requires Settled(s) && CanSend(s, p)
    ensures !SendNext(s, p).crashed
    ensures forall i :: 0 <= i < |s.subs| ==> SettledSub(SendNext(s, p), i)
  {
    var k := s.publishers[p].rest[0];
    assert SettledSub(s, k) && Kept(s.subs[k]);
    OutstandingPositive(s.publishers, p, k);
    forall i | 0 <= i < |s.subs| ensures SettledSub(SendNext(s, p), i) {
      assert SettledSub(s, i);
      if Ending(s.subs[i], s.ended) { SendCut(s, p, i); }
    }
  }

  lemma DeliverySettled(s: State, m: Move, i: nat)
    requires Settled(s) && IsDelivery(m) && i < |s.subs|
    ensures i < |Step(s, m).subs| && SettledSub(Step(s, m), i)
  {
    DeliveryStep(s, m);
    assert SettledSub(s, i) && Kept(s.subs[i]);
    if m.i == i {
      MovedBooks(s.subs[i], m, s.ended);
      MovedKept(s.subs[i], m, s.ended);
    }
  }

  lemma ClosingSettled(s: State, m: Move, i: nat)
    requires Settled(s) && IsQuiet(m) && !IsDelivery(m) && Quietly(s, m) && i < |s.subs|
    ensures |Step(s, m).subs| == |s.subs| && SettledSub(Step(s, m), i)
  {
    assert SettledSub(s, i) && Kept(s.subs[i]);
    ClosingStep(s, m);
    assert SameBooks(Step(s, m).subs[i], s.subs[i]);
    if Ending(s.subs[i], s.ended) { StepCut(s, m, i); }
  }

  lemma QuietMoveSettled(s: State, m: Move)
    requires Settled(s) && IsQuiet(m) && Quietly(s, m)
    ensures forall i :: 0 <= i < |Step(s, m).subs| ==> SettledSub(Step(s, m), i)
  {
    if IsDelivery(m) { DeliveryStep(s, m); } else { ClosingStep(s, m); }
    forall i | 0 <= i < |s.subs| ensures SettledSub(Step(s, m), i) {
      if IsDelivery(m) { DeliverySettled(s, m, i); } else { ClosingSettled(s, m, i); }
    }
  }

  lemma PublisherSettled(s: State, m: Move)
    requires Settled(s) && (m.Snapshot? || m.Abandon? || m.Begin?)
    ensures forall i :: 0 <= i < |Step(s, m).subs| ==> SettledSub(Step(s, m), i)
  {
    forall i | 0 <= i < |s.subs| ensures SettledSub(Step(s, m), i) {
      assert SettledSub(s, i);
      if Ending(s.subs[i], s.ended) { StepCut(s, m, i); }
    }
  }

  lemma SubscribeSettled(s: State, m: Move)
    requires Settled(s) && m.Subscribe?
    ensures forall i :: 0 <= i < |Step(s, m).subs| ==> SettledSub(Step(s, m), i)
  {
    forall i | 0 <= i < |s.subs| ensures SettledSub(Step(s, m), i) { assert SettledSub(s, i); }
  }

  lemma StepSettled(s: State, m: Move)
    requires Settled(s) && Quietly(s, m)
    ensures Settled(Step(s, m))
  {
    StepKept(s, m);
    StepListed(s, m);
    if m.Send? {
      if CanSend(s, m.p) { SendSettled(s, m.p); }
    } else if m.Subscribe? {
      SubscribeSettled(s, m);
    } else if IsQuiet(m) {
      QuietMoveSettled(s, m);
    } else {
      PublisherSettled(s, m);
    }
  }

  lemma {:induction false} RunSettled(s: State, ms: seq<Move>)
    requires Settled(s) && QuietRun(s, ms)
    ensures Settled(Run(s, ms))
    decreases |ms|
  {
    if ms != [] {
      StepSettled(s, ms[0]);
      RunSettled(Step(s, ms[0]), ms[1..]);
    }
  }

  /**
    If no publisher holds a copy of the list whenever a subscription or the context is ended,
    no send hits a closed channel, and a goroutine that is gone has delivered all that was
    ever sent to it.
   */
  lemma {:induction false} NothingLost(ms: seq<Move>)
    requires QuietRun(OPENED, ms)
    ensures var s := Run(OPENED, ms);
            && !s.crashed
            && forall i :: 0 <= i < |s.subs| && s.subs[i].phase.Exited? ==>
                 s.subs[i].delivered == s.subs[i].sent && s.subs[i].buffer == []
  {
    RunSettled(OPENED, ms);
    var s := Run(OPENED, ms);
    forall i | 0 <= i < |s.subs| && s.subs[i].phase.Exited?
      ensures s.subs[i].delivered == s.subs[i].sent && s.subs[i].buffer == []
    {
      assert SettledSub(s, i);
      DeliveredInOrder(ms, i);
    }
  }

  /* ---------- A copy held too long does lose an event ---------- */

  lemma DeliveryRun(s: State, m: Move)
    requires IsDelivery(m) && !s.crashed && m.i < |s.subs|
    ensures Run(s, [m]) == s.(subs := s.subs[m.i := Moved(s.subs[m.i], m, s.ended)])
  {
    RunOne(s, m);
    DeliveryStep(s, m);
  }

  lemma HandlingEnds(s: State, i: nat) returns (ms: seq<Move>, y: Sub)
    requires !s.crashed && i < |s.subs| && !s.subs[i].phase.Exited?
    ensures Run(s, ms) == s.(subs := s.subs[i := y])
    ensures (y.phase.Listening? || y.phase.Draining?) && y.closed == s.subs[i].closed && y.cancelled == s.subs[i].cancelled
    ensures y.buffer == s.subs[i].buffer && y.guaranteed == s.subs[i].guaranteed
  {
    var x := s.subs[i];
    if x.phase.Handling? || x.phase.DrainHandling? {
      ms, y := [Handled(i)], Finished(x);
      DeliveryRun(s, Handled(i));
    } else {
      ms, y := [], x;
      assert s.subs[i := x] == s.subs;
    }
  }

  /** From any phase but Exited, a subscription that may stop comes to drain. */
  lemma ComesToDrain(s: State, i: nat) returns (ms: seq<Move>, y: Sub)
    requires !s.crashed && i < |s.subs| && Ending(s.subs[i], s.ended) && !s.subs[i].phase.Exited?
    ensures Run(s, ms) == s.(subs := s.subs[i := y])
    ensures y.phase.Draining? && y.closed == s.subs[i].closed
  {
    ms, y := HandlingEnds(s, i);
    if y.phase.Listening? {
      var t := Run(s, ms);
      DeliveryRun(t, SeeDone(i));
      RunConcat(s, ms, [SeeDone(i)]);
      ms := ms + [SeeDone(i)];
      assert t.subs[i := SawDone(y, s.ended)] == s.subs[i := SawDone(y, s.ended)];
      y := SawDone(y, s.ended);
    }
  }

  /** An event for the subscription is lost: sent after its goroutine had left, or still unsent when the process crashes. */
  predicate Lost(s: State, i: nat) {
    i < |s.subs| && (s.subs[i].late != [] || (s.crashed && Outstanding(s.publishers, i) > 0))
  }

  predicate LostAfter(s: State, more: seq<Move>, i: nat) { Lost(Run(s, more), i) }

  lemma ClosedSendLoses(s: State, p: nat, i: nat)
    requires CanSend(s, p) && !s.crashed && s.subs[s.publishers[p].rest[0]].closed
    requires i < |s.subs| && i in s.publishers[p].rest
    ensures Lost(Run(s, [Send(p)]), i)
  {
    RunOne(s, Send(p));
    OutstandingPositive(s.publishers, p, i);
  }

  lemma LateSend(s: State, p: nat, i: nat)
    requires AllKept(s) && CanSend(s, p) && s.publishers[p].rest[0] == i && !s.crashed
    requires s.subs[i].phase.Exited? || s.subs[i].closed
    ensures Lost(Run(s, [Send(p)]), i)
  {
    assert Kept(s.subs[i]);
    if s.subs[i].closed { ClosedSendLoses(s, p, i); } else { RunOne(s, Send(p)); }
  }

  /** A publisher about to send to an ending subscription: the goroutine can leave first, and the event is lost. */
  lemma NextSendLoses(s: State, p: nat, i: nat) returns (more: seq<Move>)
    requires AllKept(s) && !s.crashed && CanSend(s, p) && s.publishers[p].rest[0] == i
    requires Ending(s.subs[i], s.ended)
    ensures Lost(Run(s, more), i)
  {
    if s.subs[i].closed || s.subs[i].phase.Exited? {
      more := [Send(p)];
      LateSend(s, p, i);
    } else {
      var first, y := ComesToDrain(s, i);
      var t := Run(s, first);
      DrainRun(t, i);
      var drain := DrainMoves(i, |y.buffer|);
      more := first + drain + [Send(p)];
      RunConcat(s, first, drain);
      RunConcat(s, first + drain, [Send(p)]);
      RunKept(s, first + drain);
      LateSend(Run(s, first + drain), p, i);
    }
  }

  /** A full channel with a live goroutine can make room. */
  lemma MakesRoom(s: State, k: nat) returns (ms: seq<Move>, y: Sub)
    requires AllKept(s) && !s.crashed && k < |s.subs| && !s.subs[k].phase.Exited? && !HasRoom(s.subs[k])
    ensures Run(s, ms) == s.(subs := s.subs[k := y])
    ensures HasRoom(y) && y.closed == s.subs[k].closed
  {
    assert Kept(s.subs[k]);
    ms, y := HandlingEnds(s, k);
    var t := Run(s, ms);
    DeliveryRun(t, Receive(k));
    RunConcat(s, ms, [Receive(k)]);
    assert t.subs[k := Received(y)] == s.subs[k := Received(y)];
    ms := ms + [Receive(k)];
    y := Received(y);
  }

  /** What ending an unrelated subscription leaves as it is. */
  ghost predicate SamePublishers(s: State, t: State) {
    t.publishers == s.publishers && |t.subs| == |s.subs| && !t.crashed
  }

  lemma ClosesWithLockFree(s: State, k: nat) returns (ms: seq<Move>)
    requires AllKept(s) && !s.crashed && k < |s.subs| && !s.subs[k].closed && (s.lock.Free? || s.lock.Sweeping?)
    ensures SamePublishers(s, Run(s, ms)) && Run(s, ms).subs[k].closed
  {
    assert Kept(s.subs[k]);
    var m := if s.lock.Free? then UnsubscribeCancel(s.subs[k].kind, k) else SweepCancel(k);
    ms := [m] + [CloseChannel];
    var t := s.(subs := s.subs[k := s.subs[k].(cancelled := true)], lock := if s.lock.Free? then Closing(k) else SweepClosing(k));
    assert Step(s, m) == t;
    RunCons(s, m, [CloseChannel]);
    RunOne(t, CloseChannel);
  }

  /** Any open channel can come to be closed. */
  lemma ComesToClose(s: State, k: nat) returns (ms: seq<Move>)
    requires AllKept(s) && !s.crashed && k < |s.subs| && !s.subs[k].closed
    ensures SamePublishers(s, Run(s, ms)) && Run(s, ms).subs[k].closed
  {
    if s.lock.Free? || s.lock.Sweeping? {
      ms := ClosesWithLockFree(s, k);
    } else {
      var t := Step(s, CloseChannel);
      RunOne(s, CloseChannel);
      if s.lock.i == k {
        ms := [CloseChannel];
      } else {
        StepKept(s, CloseChannel);
        var rest := ClosesWithLockFree(t, k);
        ms := [CloseChannel] + rest;
        RunCons(s, CloseChannel, rest);
      }
    }
  }

  /**
    A copy that holds an ending subscription anywhere: what is ahead of it is closed and
    crashes the send, or lets it advance, or makes room, or can be closed.
   */
  lemma {:induction false} HeldCopyLoses(s: State, p: nat, i: nat) returns (more: seq<Move>)
    requires AllKept(s) && AllListed(s) && !s.crashed && i < |s.subs| && Ending(s.subs[i], s.ended)
    requires p < |s.publishers| && s.publishers[p].Sending? && i in s.publishers[p].rest
    ensures Lost(Run(s, more), i)
    decreases if p < |s.publishers| && s.publishers[p].Sending? then |s.publishers[p].rest| else 0, 1
  {
    assert ListKnown(s.publishers[p], |s.subs|);
    var rest := s.publishers[p].rest;
    var k := rest[0];
    HeadOnly(rest, i);
    if k == i {
      more := NextSendLoses(s, p, i);
    } else if s.subs[k].closed {
      more := [Send(p)];
      ClosedSendLoses(s, p, i);
    } else if HasRoom(s.subs[k]) || !s.subs[k].guaranteed {
      more := AdvanceThenLoses(s, p, i);
    } else if !s.subs[k].phase.Exited? {
      var first, y := MakesRoom(s, k);
      var t := Run(s, first);
      RunKept(s, first);
      assert AllListed(t);
      var later := AdvanceThenLoses(t, p, i);
      more := first + later;
      RunConcat(s, first, later);
    } else {
      var first := ComesToClose(s, k);
      var t := Run(s, first);
      more := first + [Send(p)];
      RunConcat(s, first, [Send(p)]);
      ClosedSendLoses(t, p, i);
    }
  }

  lemma {:induction false} AdvanceThenLoses(s: State, p: nat, i: nat) returns (more: seq<Move>)
    requires AllKept(s) && AllListed(s) && !s.crashed && i < |s.subs| && Ending(s.subs[i], s.ended)
    requires CanSend(s, p) && i in s.publishers[p].rest && i != s.publishers[p].rest[0]
    requires var x := s.subs[s.publishers[p].rest[0]]; !x.closed && (HasRoom(x) || !x.guaranteed)
    ensures Lost(Run(s, more), i)
    decreases |s.publishers[p].rest|, 0
  {
    var t := Step(s, Send(p));
    assert ListKnown(s.publishers[p], |s.subs|);
    HeadOnly(s.publishers[p].rest, i);
    StepKept(s, Send(p));
    StepListed(s, Send(p));
    var later := HeldCopyLoses(t, p, i);
    more := [Send(p)] + later;
    RunCons(s, Send(p), later);
  }

  /** Once ending and on no copy, a subscription is on no copy for ever and never sent anything more. */
  lemma {:induction false} NoCopyNoLoss(s: State, more: seq<Move>, i: nat)
    requires AllKept(s) && AllListed(s) && Cut(s, i)
    ensures Cut(Run(s, more), i) && SameStream(Run(s, more).subs[i], s.subs[i])
    decreases |more|
  {
    if more != [] {
      StepCut(s, more[0], i);
      StepKept(s, more[0]);
      StepListed(s, more[0]);
      NoCopyNoLoss(Step(s, more[0]), more[1..], i);
    }
  }

  lemma {:induction false} CrashedForGood(s: State, more: seq<Move>)
    requires s.crashed
    ensures Run(s, more) == s
    decreases |more|
  {
    if more != [] { CrashedForGood(s, more[1..]); }
  }

  lemma {:induction false} RunListed(s: State, ms: seq<Move>)
    requires AllListed(s)
    ensures AllListed(Run(s, ms))
    decreases |ms|
  {
    if ms != [] {
      StepListed(s, ms[0]);
      RunListed(Step(s, ms[0]), ms[1..]);
    }
  }

  lemma {:induction false} FindAhead(ps: seq<Publisher>, i: nat) returns (p: nat)
    requires Outstanding(ps, i) > 0
    ensures p < |ps| && Ahead(ps[p], i) == 1
  {
    if Ahead(ps[|ps| - 1], i) == 1 { p := |ps| - 1; } else { p := FindAhead(ps[..|ps| - 1], i); }
  }

  /** The list of subscriptions for one kind, among the first `n`. */
  function Listing(s: State, kind: string, n: nat): seq<nat> {
    if n == 0 then [] else Listing(s, kind, n - 1) + if OnList(s, kind, n - 1) then [n - 1] else []
  }

  lemma {:induction false} ListingCopies(s: State, kind: string, n: nat)
    ensures Distinct(Listing(s, kind, n))
    ensures forall i: nat :: i in Listing(s, kind, n) <==> i < n && OnList(s, kind, i)
  {
    if n > 0 { ListingCopies(s, kind, n - 1); }
  }

  lemma CopyOf(s: State, kind: string) returns (targets: seq<nat>)
    ensures Copies(s, kind, targets)
  {
    targets := Listing(s, kind, |s.subs|);
    ListingCopies(s, kind, |s.subs|);
  }

  lemma SnapshotStep(s: State, p: nat, targets: seq<nat>)
    requires !s.crashed && s.lock.Free? && p < |s.publishers| && s.publishers[p].Checked?
    requires Copies(s, s.publishers[p].event.kind, targets)
    ensures Step(s, Snapshot(p, targets)) == Snapped(s, p, targets)
  {
  }

  lemma CopyIsMade(s: State, p: nat, i: nat) returns (m: Move)
    requires AllKept(s) && !s.crashed && i < |s.subs| && !s.subs[i].cancelled && s.lock.Free?
    requires p < |s.publishers| && s.publishers[p].Checked? && s.publishers[p].event.kind == s.subs[i].kind
    ensures var t := Step(s, m); !t.crashed && i < |t.subs| && Outstanding(t.publishers, i) > 0
  {
    assert Kept(s.subs[i]);
    var targets := CopyOf(s, s.subs[i].kind);
    m := Snapshot(p, targets);
    SnapshotStep(s, p, targets);
    OutstandingPositive(Step(s, m).publishers, p, i);
  }

  /** A copy that can be made is made, once the lock is free and somebody is about to copy. */
  lemma CopyableIsCopied(s: State, i: nat) returns (ms: seq<Move>)
    requires AllKept(s) && !s.crashed && i < |s.subs| && Copyable(s, i)
    ensures var t := Run(s, ms); !t.crashed && i < |t.subs| && Outstanding(t.publishers, i) > 0
  {
    var t := s;
    ms := [];
    if s.lock.Closing? {
      assert s.lock.i != i;
      t, ms := Step(s, CloseChannel), [CloseChannel];
      RunOne(s, CloseChannel);
      StepKept(s, CloseChannel);
    }
    assert t.lock.Free? && t.publishers == s.publishers && t.subs[i] == s.subs[i];
    var m: Move;
    if SomeChecked(s.publishers, s.subs[i].kind) {
      var p :| 0 <= p < |s.publishers| && s.publishers[p].Checked? && s.publishers[p].event.kind == s.subs[i].kind;
      m := CopyIsMade(t, p, i);
    } else {
      var begin := Begin(Event(s.subs[i].kind, 0));
      RunOne(t, begin);
      StepKept(t, begin);
      RunConcat(s, ms, [begin]);
      t, ms := Step(t, begin), ms + [begin];
      m := CopyIsMade(t, |s.publishers|, i);
    }
    RunOne(t, m);
    RunConcat(s, ms, [m]);
    ms := ms + [m];
  }

  /** An event on some copy is lost in some continuation: by then the bus may have ended. */
  lemma OutstandingLoses(s: State, i: nat) returns (more: seq<Move>)
    requires AllKept(s) && AllListed(s) && i < |s.subs| && Outstanding(s.publishers, i) > 0
    ensures Lost(Run(s, more), i)
  {
    if s.crashed { return []; }
    var t := Step(s, EndContext);
    StepKept(s, EndContext);
    StepListed(s, EndContext);
    var p := FindAhead(s.publishers, i);
    var rest := HeldCopyLoses(t, p, i);
    RunCons(s, EndContext, rest);
    more := [EndContext] + rest;
  }

  /** An event was lost, is on a copy, or can still get on one. */
  ghost predicate CanLose(s: State, i: nat)
    requires i < |s.subs|
  {
    s.subs[i].late != [] || Outstanding(s.publishers, i) > 0 || (!s.crashed && Copyable(s, i))
  }

  lemma CanLoseIsLost(s: State, i: nat) returns (more: seq<Move>)
    requires AllKept(s) && AllListed(s) && i < |s.subs| && CanLose(s, i)
    ensures Lost(Run(s, more), i)
  {
    if s.subs[i].late != [] {
      more := [];
    } else if Outstanding(s.publishers, i) > 0 {
      more := OutstandingLoses(s, i);
    } else {
      var first := CopyableIsCopied(s, i);
      RunKept(s, first);
      RunListed(s, first);
      var rest := OutstandingLoses(Run(s, first), i);
      RunConcat(s, first, rest);
      more := first + rest;
    }
  }

  lemma LossExactlyWhen(s: State, i: nat)
    requires AllKept(s) && AllListed(s) && i < |s.subs|
    ensures (exists more :: LostAfter(s, more, i)) <==> CanLose(s, i)
  {
    if CanLose(s, i) {
      var more := CanLoseIsLost(s, i);
      assert LostAfter(s, more, i);
    } else {
      forall more ensures !LostAfter(s, more, i) {
        if s.crashed { CrashedForGood(s, more); } else { NoCopyNoLoss(s, more, i); }
      }
    }
  }

  lemma ReachableKept(ms: seq<Move>)
    ensures AllKept(Run(OPENED, ms)) && AllListed(Run(OPENED, ms))
  {
    RunKept(OPENED, ms);
    RunBooked(OPENED, ms);
  }

  /**
    In any reachable state an event for a subscription is lost in some continuation exactly
    when one has been, or a publisher holds the subscription on a copy, or a copy with it can
    still be made.
   */
  lemma HeldCopyExactlyWhen(ms: seq<Move>, i: nat)
    requires i < |Run(OPENED, ms).subs|
    ensures (exists more :: LostAfter(Run(OPENED, ms), more, i)) <==> CanLose(Run(OPENED, ms), i)
  {
    ReachableKept(ms);
    LossExactlyWhen(Run(OPENED, ms), i);
  }

  /** Cancelling a subscription loses nothing in any continuation exactly when it is done quietly. */
  lemma CancelSafeExactlyWhen(ms: seq<Move>, m: Move, i: nat)
    requires m == SweepCancel(i) || (m.UnsubscribeCancel? && m.i == i)
    requires var s := Run(OPENED, ms);
             && !s.crashed && i < |s.subs| && s.subs[i].late == []
             && !s.subs[i].cancelled && Step(s, m).subs[i].cancelled
    ensures (forall more :: !LostAfter(Step(Run(OPENED, ms), m), more, i)) <==> Quietly(Run(OPENED, ms), m)
  {
    var s := Run(OPENED, ms);
    var t := Step(s, m);
    ReachableKept(ms);
    StepKept(s, m);
    StepListed(s, m);
    LossExactlyWhen(t, i);
  }
}
