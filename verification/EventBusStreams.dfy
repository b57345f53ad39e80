/**
  What enters the channels of the event bus, told from the moves alone: which event a
  publisher carries, whom it offers the event to and in which order, and what each
  subscription has been sent.
*/
module EventBusStreams {
  import opened EventBus

  lemma RunSnoc(s: State, ms: seq<Move>)
    requires ms != []
    ensures Run(s, ms) == Step(Run(s, ms[..|ms| - 1]), ms[|ms| - 1])
  {
    var n := |ms| - 1;
    assert ms == ms[..n] + [ms[n]];
    RunConcat(s, ms[..n], [ms[n]]);
    RunOne(Run(s, ms[..n]), ms[n]);
  }

  /** Nothing has crashed, and neither the flag nor the context has ended the bus. */
  ghost predicate Running(ms: seq<Move>) {
    !Run(OPENED, ms).crashed && ShutdownFlag !in ms && EndContext !in ms
  }

  lemma StepFlags(s: State, m: Move)
    requires !Step(s, m).crashed
    ensures !s.crashed
    ensures Step(s, m).closed == (s.closed || m == ShutdownFlag)
    ensures Step(s, m).ended == (s.ended || m == EndContext)
  {
    if s.crashed {
    } else if IsDelivery(m) {
      DeliveryStep(s, m);
    }
  }

  lemma {:induction false} RunningFlags(ms: seq<Move>)
    requires !Run(OPENED, ms).crashed
    ensures Run(OPENED, ms).closed <==> ShutdownFlag in ms
    ensures Run(OPENED, ms).ended <==> EndContext in ms
  {
    if ms != [] {
      var n := |ms| - 1;
      RunSnoc(OPENED, ms);
      StepFlags(Run(OPENED, ms[..n]), ms[n]);
      RunningFlags(ms[..n]);
      assert ms == ms[..n] + [ms[n]];
    }
  }

  /** The events of the publishers, in order: the arguments of the calls that found the bus running. */
  ghost function Begun(ms: seq<Move>): seq<Event> {
    if ms == [] then []
    else
      var front, m := ms[..|ms| - 1], ms[|ms| - 1];
      Begun(front) + if m.Begin? && Running(front) then [m.event] else []
  }

  /** Kind and quality of the subscriptions, in order: the arguments of the calls that were not refused. */
  ghost function Subscribed(ms: seq<Move>): seq<(string, bool)> {
    if ms == [] then []
    else
      var front, m := ms[..|ms| - 1], ms[|ms| - 1];
      Subscribed(front) + if m.Subscribe? && Running(front) && Run(OPENED, front).lock.Free? then [(m.kind, m.guaranteed)] else []
  }

  lemma StepPublishers(s: State, m: Move)
    ensures var t := Step(s, m);
            if m.Begin? && !s.crashed && !s.closed && !s.ended then t.publishers == s.publishers + [Checked(m.event)]
            else |t.publishers| == |s.publishers|
                 && forall p :: 0 <= p < |s.publishers| ==>
                      t.publishers[p].Gone? || (!s.publishers[p].Gone? && t.publishers[p].event == s.publishers[p].event)
  {
    if !s.crashed {
      if IsQuiet(m) {
        if IsDelivery(m) { DeliveryStep(s, m); } else { ClosingStep(s, m); }
      }
    }
  }

  lemma {:induction false} PublishersCarry(ms: seq<Move>)
    ensures |Run(OPENED, ms).publishers| == |Begun(ms)|
    ensures forall p :: 0 <= p < |Begun(ms)| ==>
              var q := Run(OPENED, ms).publishers[p]; q.Gone? || q.event == Begun(ms)[p]
  {
    if ms != [] {
      var front := ms[..|ms| - 1];
      RunSnoc(OPENED, ms);
      PublishersCarry(front);
      StepPublishers(Run(OPENED, front), ms[|ms| - 1]);
      if !Run(OPENED, front).crashed { RunningFlags(front); }
    }
  }

  lemma {:induction false} SubscriptionsAre(ms: seq<Move>)
    ensures |Run(OPENED, ms).subs| == |Subscribed(ms)|
    ensures forall i :: 0 <= i < |Subscribed(ms)| ==>
              var x := Run(OPENED, ms).subs[i]; (x.kind, x.guaranteed) == Subscribed(ms)[i]
  {
    if ms != [] {
      var front := ms[..|ms| - 1];
      RunSnoc(OPENED, ms);
      SubscriptionsAre(front);
      if !Run(OPENED, front).crashed { RunningFlags(front); }
      KeepsKinds(Run(OPENED, front), ms[|ms| - 1]);
    }
  }

  predicate SameKinds(before: seq<Sub>, after: seq<Sub>) {
    && |before| <= |after|
    && forall i :: 0 <= i < |before| ==> after[i].kind == before[i].kind && after[i].guaranteed == before[i].guaranteed
  }

  lemma DeliveryKinds(s: State, m: Move)
    requires IsDelivery(m)
    ensures SameKinds(s.subs, Step(s, m).subs) && |Step(s, m).subs| == |s.subs|
  {
    if !s.crashed && m.i < |s.subs| {
      DeliveryStep(s, m);
      var x := Moved(s.subs[m.i], m, s.ended);
      assert x.kind == s.subs[m.i].kind && x.guaranteed == s.subs[m.i].guaranteed;
      assert Step(s, m).subs == s.subs[m.i := x];
    }
  }

  lemma ClosingKinds(s: State, m: Move)
    requires IsQuiet(m) && !IsDelivery(m)
    ensures SameKinds(s.subs, Step(s, m).subs) && |Step(s, m).subs| == |s.subs|
  {
  }

  lemma PublisherKinds(s: State, m: Move)
    requires !IsQuiet(m) && !m.Subscribe?
    ensures SameKinds(s.subs, Step(s, m).subs) && |Step(s, m).subs| == |s.subs|
  {
  }

  lemma KeepsKinds(s: State, m: Move)
    ensures SameKinds(s.subs, Step(s, m).subs)
    ensures !m.Subscribe? ==> |Step(s, m).subs| == |s.subs|
  {
    if IsDelivery(m) { DeliveryKinds(s, m); }
    else if IsQuiet(m) { ClosingKinds(s, m); }
    else if !m.Subscribe? { PublisherKinds(s, m); }
  }

  /* ---------- What a subscription is sent ---------- */

  /** The publisher's next target is this subscription, and it is open. */
  predicate Offers(s: State, m: Move, i: nat) {
    m.Send? && !s.crashed && CanSend(s, m.p) && s.publishers[m.p].rest[0] == i && !s.subs[i].closed
  }

  predicate Room(s: State, i: nat)
    requires i < |s.subs|
  {
    |s.subs[i].buffer| < if s.subs[i].guaranteed then 1000 else 10
  }

  /** The events of the publishers whose sends met this subscription open and with room, in the order of the sends. */
  ghost function Arrivals(ms: seq<Move>, i: nat): seq<Event> {
    if ms == [] then []
    else
      var front, m := ms[..|ms| - 1], ms[|ms| - 1];
      var s := Run(OPENED, front);
      Arrivals(front, i) + if Offers(s, m, i) && Room(s, i) && m.p < |Begun(front)| then [Begun(front)[m.p]] else []
  }

  lemma SentGrows(s: State, m: Move, i: nat)
    requires i < |s.subs|
    ensures i < |Step(s, m).subs|
    ensures Step(s, m).subs[i].sent ==
            s.subs[i].sent + if Offers(s, m, i) && Room(s, i) then [s.publishers[m.p].event] else []
  {
    assert s.subs[i].sent + [] == s.subs[i].sent;
    if s.crashed {
    } else if IsQuiet(m) {
      if IsDelivery(m) {
        DeliveryStep(s, m);
        MovedBooks(s.subs[i], m, s.ended);
      } else {
        ClosingStep(s, m);
        assert SameBooks(Step(s, m).subs[i], s.subs[i]);
      }
    } else if m.Send? {
    } else if m.Snapshot? {
    } else if m.Abandon? {
    }
  }

  lemma NewIsEmpty(s: State, m: Move, i: nat)
    requires |s.subs| <= i < |Step(s, m).subs|
    ensures i == |s.subs| && Step(s, m).subs[i].sent == []
  {
  }

  lemma {:induction false} NoArrivalsYet(ms: seq<Move>, i: nat)
    requires |Run(OPENED, ms).subs| <= i
    ensures Arrivals(ms, i) == []
  {
    if ms != [] {
      var front := ms[..|ms| - 1];
      RunSnoc(OPENED, ms);
      KeepsKinds(Run(OPENED, front), ms[|ms| - 1]);
      NoArrivalsYet(front, i);
    }
  }

  lemma {:induction false} SentIsArrivals(ms: seq<Move>, i: nat)
    requires i < |Run(OPENED, ms).subs|
    ensures Run(OPENED, ms).subs[i].sent == Arrivals(ms, i)
  {
    if ms != [] {
      var front, m := ms[..|ms| - 1], ms[|ms| - 1];
      var s := Run(OPENED, front);
      RunSnoc(OPENED, ms);
      PublishersCarry(front);
      if i < |s.subs| {
        SentIsArrivals(front, i);
        SentGrows(s, m, i);
      } else {
        NewIsEmpty(s, m, i);
        NoArrivalsYet(front, i);
      }
    }
  }

  /** What a publisher still has ahead of it are subscriptions of the kind of its event. */
  ghost predicate OfKind(s: State) {
    forall p, a :: 0 <= p < |s.publishers| && s.publishers[p].Sending? && 0 <= a < |s.publishers[p].rest| ==>
      s.publishers[p].rest[a] < |s.subs| && s.subs[s.publishers[p].rest[a]].kind == s.publishers[p].event.kind
  }

  lemma SendOfKind(s: State, m: Move)
    requires OfKind(s) && m.Send? && !s.crashed
    ensures OfKind(Step(s, m))
  {
    KeepsKinds(s, m);
    if CanSend(s, m.p) {
      var t, rest := Step(s, m), s.publishers[m.p].rest;
      if t.publishers != s.publishers {
        forall p, a | 0 <= p < |t.publishers| && t.publishers[p].Sending? && 0 <= a < |t.publishers[p].rest|
          ensures t.publishers[p].rest[a] < |t.subs| && t.subs[t.publishers[p].rest[a]].kind == t.publishers[p].event.kind
        {
          if p == m.p { assert t.publishers[p].rest[a] == rest[a + 1]; }
        }
      }
    }
  }

  lemma StepOfKind(s: State, m: Move)
    requires OfKind(s)
    ensures OfKind(Step(s, m))
  {
    KeepsKinds(s, m);
    if m.Send? { if !s.crashed { SendOfKind(s, m); } }
  }

  lemma {:induction false} RunOfKind(ms: seq<Move>)
    ensures OfKind(Run(OPENED, ms))
  {
    if ms != [] {
      RunSnoc(OPENED, ms);
      RunOfKind(ms[..|ms| - 1]);
      StepOfKind(Run(OPENED, ms[..|ms| - 1]), ms[|ms| - 1]);
    }
  }

  lemma {:induction false} SentOfKind(ms: seq<Move>, i: nat)
    requires i < |Run(OPENED, ms).subs|
    ensures forall e :: e in Run(OPENED, ms).subs[i].sent ==> e.kind == Run(OPENED, ms).subs[i].kind
  {
    if ms != [] {
      var front, m := ms[..|ms| - 1], ms[|ms| - 1];
      var s := Run(OPENED, front);
      RunSnoc(OPENED, ms);
      RunOfKind(front);
      KeepsKinds(s, m);
      if i < |s.subs| {
        SentOfKind(front, i);
        SentGrows(s, m, i);
      } else {
        NewIsEmpty(s, m, i);
      }
    }
  }

  /**
    In every reachable state, what a subscription has been sent is exactly the list of the
    events published by those whose sends met it open and with room - 1000 places if it is
    guaranteed, 10 otherwise - in the order of the sends, and all are of the kind it asked for.
   */
  lemma SentIsPublished(ms: seq<Move>, i: nat)
    requires i < |Run(OPENED, ms).subs|
    ensures var x := Run(OPENED, ms).subs[i];
            && x.sent == Arrivals(ms, i)
            && i < |Subscribed(ms)| && (x.kind, x.guaranteed) == Subscribed(ms)[i]
            && forall e :: e in x.sent ==> e.kind == Subscribed(ms)[i].0
  {
    SentIsArrivals(ms, i);
    SubscriptionsAre(ms);
    SentOfKind(ms, i);
  }

  /* ---------- Whom a publisher offers its event to ---------- */

  /** The publisher takes its copy of the list. */
  ghost predicate Copied(s: State, m: Move, p: nat) {
    && m.Snapshot? && m.p == p && !s.crashed && s.lock.Free?
    && p < |s.publishers| && s.publishers[p].Checked? && Copies(s, s.publishers[p].event.kind, m.targets)
  }

  /** The publisher's send goes through: the event enters the channel, or is dropped at a full best-effort one. */
  predicate Passes(s: State, m: Move, p: nat) {
    && m.Send? && m.p == p && CanSend(s, p) && Offers(s, m, s.publishers[p].rest[0])
    && (Room(s, s.publishers[p].rest[0]) || !s.subs[s.publishers[p].rest[0]].guaranteed)
  }

  /** The copies a publisher took: at most one. */
  ghost function Taken(ms: seq<Move>, p: nat): seq<nat> {
    if ms == [] then []
    else
      var front, m := ms[..|ms| - 1], ms[|ms| - 1];
      if Copied(Run(OPENED, front), m, p) then m.targets else Taken(front, p)
  }

  /** Those its event was offered to, in order. */
  ghost function Offered(ms: seq<Move>, p: nat): seq<nat> {
    if ms == [] then []
    else
      var front, m := ms[..|ms| - 1], ms[|ms| - 1];
      var s := Run(OPENED, front);
      Offered(front, p) + if Passes(s, m, p) then [s.publishers[p].rest[0]] else []
  }

  /** What publisher `p` has ahead of it, if it has taken its copy and not given up. */
  function Ahead(s: State, p: nat): Option {
    if p < |s.publishers| && s.publishers[p].Sending? then Some(s.publishers[p].rest) else None
  }

  datatype Option = None | Some(rest: seq<nat>)

  lemma AheadMoves(s: State, m: Move, p: nat)
    ensures Ahead(Step(s, m), p) ==
            if Copied(s, m, p) then Some(m.targets)
            else if Passes(s, m, p) then Some(s.publishers[p].rest[1..])
            else if m == Abandon(p) && Step(s, m) != s then None
            else Ahead(s, p)
  {
  }

  lemma CheckedBefore(s: State, m: Move, p: nat)
    requires var t := Step(s, m); p >= |t.publishers| || t.publishers[p].Checked?
    ensures p >= |s.publishers| || s.publishers[p].Checked?
  {
    StepPublishers(s, m);
    if p < |s.publishers| && !s.crashed {
      if IsQuiet(m) {
        if IsDelivery(m) { DeliveryStep(s, m); } else { ClosingStep(s, m); }
      } else if m.Send? {
      } else if m.Snapshot? {
      } else if m.Abandon? {
      }
    }
  }

  lemma {:induction false} NothingOffered(ms: seq<Move>, p: nat)
    requires var s := Run(OPENED, ms); p >= |s.publishers| || s.publishers[p].Checked?
    ensures Offered(ms, p) == []
  {
    if ms != [] {
      var front, m := ms[..|ms| - 1], ms[|ms| - 1];
      RunSnoc(OPENED, ms);
      var s := Run(OPENED, front);
      CheckedBefore(s, m, p);
      NothingOffered(front, p);
    }
  }

  /**
    Every publisher goes through its copy from the front: those it has offered its event to,
    followed by those ahead of it, are the list it copied.
   */
  lemma {:induction false} OffersInOrder(ms: seq<Move>, p: nat)
    requires Ahead(Run(OPENED, ms), p).Some?
    ensures Offered(ms, p) + Ahead(Run(OPENED, ms), p).rest == Taken(ms, p)
  {
    if ms != [] {
      var front, m := ms[..|ms| - 1], ms[|ms| - 1];
      var s := Run(OPENED, front);
      RunSnoc(OPENED, ms);
      AheadMoves(s, m, p);
      if Copied(s, m, p) {
        NothingOffered(front, p);
      } else {
        OffersInOrder(front, p);
        if Passes(s, m, p) {
          var rest := s.publishers[p].rest;
          assert Offered(front, p) + [rest[0]] + rest[1..] == Offered(front, p) + rest;
        }
      }
    }
  }
}
