/**
  The life of an order in the order service. No lock spans a call: each reads the row, asks
  the venue, and writes its own copy back, so calls on one order may overlap, and a write
  may fail after the venue has acted.
*/
module OrderService {
  import opened Entities

  /** A call under way, with its copy of the row. `placed`: the venue has just accepted this order. */
  datatype Task =
    | Submitting(order: Order)
    | Cancelling(order: Order)
    | Querying(order: Order)
    | Writing(order: Order, placed: bool)
    | Over

  /** `placements` are the orders the venue accepted, `unrecorded` those whose row could not be written then. */
  datatype World = World(rows: map<string, Order>, tasks: seq<Task>, placements: seq<string>, unrecorded: seq<string>)

  datatype Event =
    | BeginSubmit(id: string)
    | VenueSubmit(t: nat, answer: Option<string>)
    | BeginCancel(id: string)
    | VenueCancel(t: nat, ok: bool)
    | BeginQuery(id: string)
    | VenueQuery(t: nat, snapshot: Option<Order>)
    | Store(t: nat, ok: bool)

  predicate IsPending(o: Order) { o.status == OrderStatus.Pending }

  function Placed(o: Order, exchangeOrderId: string): Order {
    o.(exchangeOrderId := exchangeOrderId, status := OrderStatus.Submitted)
  }

  /** The fields a query takes over. */
  function Matched(o: Order, e: Order): Order {
    o.(status := e.status, filledQty := e.filledQty, remainingQty := e.remainingQty, avgFillPrice := e.avgFillPrice)
  }

  function AskedSubmit(o: Order, answer: Option<string>): Task {
    match answer
    case None => Writing(o.(status := Rejected), false)
    case Some(x) => Writing(Placed(o, x), true)
  }

  function AskedCancel(o: Order, ok: bool): Task { if ok then Writing(o.(status := Canceled), false) else Over }

  function AskedQuery(o: Order, answer: Option<Order>): Task {
    if answer.Some? then Writing(Matched(o, answer.value), false) else Over
  }

  predicate Live(w: World, t: nat) { t < |w.tasks| && !w.tasks[t].Over? }

  function Started(w: World, task: Task): World { w.(tasks := w.tasks + [task]) }

  function Stored(w: World, t: nat, ok: bool): World
    requires t < |w.tasks| && w.tasks[t].Writing?
  {
    var o := w.tasks[t].order;
    if ok then w.(rows := w.rows[o.id := o], tasks := w.tasks[t := Over])
    else w.(unrecorded := if w.tasks[t].placed then w.unrecorded + [o.id] else w.unrecorded, tasks := w.tasks[t := Over])
  }

  /** An event that is not possible changes nothing. */
  function Step(w: World, e: Event): World {
    match e
    case BeginSubmit(id) => if id in w.rows && IsPending(w.rows[id]) then Started(w, Submitting(w.rows[id])) else w
    case BeginCancel(id) => if id in w.rows && w.rows[id].IsActive() then Started(w, Cancelling(w.rows[id])) else w
    case BeginQuery(id) =>
      if id in w.rows && w.rows[id].IsActive() && w.rows[id].exchangeOrderId != ""
      then Started(w, Querying(w.rows[id])) else w
    case VenueSubmit(t, answer) =>
      if t < |w.tasks| && w.tasks[t].Submitting?
      then w.(tasks := w.tasks[t := AskedSubmit(w.tasks[t].order, answer)],
              placements := if answer.Some? then w.placements + [w.tasks[t].order.id] else w.placements)
      else w
    case VenueCancel(t, ok) =>
      if t < |w.tasks| && w.tasks[t].Cancelling?
      then w.(tasks := w.tasks[t := AskedCancel(w.tasks[t].order, ok)]) else w
    case VenueQuery(t, answer) =>
      if t < |w.tasks| && w.tasks[t].Querying?
      then w.(tasks := w.tasks[t := AskedQuery(w.tasks[t].order, answer)]) else w
    case Store(t, ok) => if t < |w.tasks| && w.tasks[t].Writing? then Stored(w, t, ok) else w
  }

  function Run(w: World, es: seq<Event>): World
    decreases |es|
  {
    if es == [] then w else Run(Step(w, es[0]), es[1..])
  }

  /** Rows carry their own key, and so do the copies that calls take of them. */
  ghost predicate Keyed(w: World) { forall id :: id in w.rows ==> w.rows[id].id == id }

  ghost predicate Fresh(w: World) { w.tasks == [] && w.placements == [] && w.unrecorded == [] && Keyed(w) }

  /* ---------- Running step by step ---------- */

  lemma RunCons(w: World, e: Event, rest: seq<Event>)
    ensures Run(w, [e] + rest) == Run(Step(w, e), rest)
  {
    assert ([e] + rest)[1..] == rest;
  }

  lemma ThreeSteps(w: World, a: Event, b: Event, c: Event)
    ensures Run(w, [a, b, c]) == Step(Step(Step(w, a), b), c)
  {
    assert [a, b, c] == [a] + ([b] + ([c] + []));
    RunCons(w, a, [b] + ([c] + []));
    RunCons(Step(w, a), b, [c] + []);
    RunCons(Step(Step(w, a), b), c, []);
  }

  lemma {:induction false} RunConcat(w: World, a: seq<Event>, b: seq<Event>)
    ensures Run(w, a + b) == Run(Run(w, a), b)
    decreases |a|
  {
    if a == [] {
      assert a + b == b;
    } else {
      assert (a + b)[0] == a[0] && (a + b)[1..] == a[1..] + b;
      RunConcat(Step(w, a[0]), a[1..], b);
    }
  }

  /* ---------- Exactly when a final row can change ---------- */

  /** Call `t` is under way and is on this order. */
  predicate At(w: World, t: nat, id: string) { Live(w, t) && w.tasks[t].order.id == id }

  /** The task can come to write something else over this final row. */
  predicate CanOverwrite(task: Task, row: Order) {
    match task
    case Submitting(_) => true
    case Querying(_) => true
    case Cancelling(o) => o.(status := Canceled) != row
    case Writing(o, _) => o != row
    case Over => false
  }

  ghost predicate Threatened(w: World, id: string)
    requires id in w.rows
  {
    exists t: nat :: At(w, t, id) && CanOverwrite(w.tasks[t], w.rows[id])
  }

  lemma UnthreatenedStep(w: World, e: Event, id: string)
    requires Keyed(w) && id in w.rows && w.rows[id].IsTerminal() && !Threatened(w, id)
    ensures var x := Step(w, e);
            Keyed(x) && id in x.rows && x.rows[id] == w.rows[id] && !Threatened(x, id)
  {
    var x := Step(w, e);
    var row := w.rows[id];
    if (e.VenueSubmit? || e.VenueCancel? || e.VenueQuery? || e.Store?) && e.t < |w.tasks| {
      assert At(w, e.t, id) ==> !CanOverwrite(w.tasks[e.t], row);
    }
    forall t: nat | At(x, t, id) ensures !CanOverwrite(x.tasks[t], row) {
      if t < |w.tasks| { assert At(w, t, id) ==> !CanOverwrite(w.tasks[t], row); }
    }
  }

  lemma {:induction false} UnthreatenedRun(w: World, es: seq<Event>, id: string)
    requires Keyed(w) && id in w.rows && w.rows[id].IsTerminal() && !Threatened(w, id)
    ensures id in Run(w, es).rows && Run(w, es).rows[id] == w.rows[id]
    decreases |es|
  {
    if es != [] {
      UnthreatenedStep(w, es[0], id);
      UnthreatenedRun(Step(w, es[0]), es[1..], id);
    }
  }

  ghost predicate ChangedBy(w: World, es: seq<Event>, id: string)
    requires id in w.rows
  {
    id !in Run(w, es).rows || Run(w, es).rows[id] != w.rows[id]
  }

  lemma WriteChanges(w: World, t: nat, id: string)
    requires id in w.rows && t < |w.tasks| && w.tasks[t].Writing? && w.tasks[t].order.id == id && w.tasks[t].order != w.rows[id]
    ensures ChangedBy(w, [Store(t, true)], id)
  {
    assert [Store(t, true)] == [Store(t, true)] + [];
    RunCons(w, Store(t, true), []);
  }

  lemma TurnThenWrite(w: World, e: Event, t: nat, id: string)
    requires id in w.rows && Step(w, e).rows == w.rows && t < |Step(w, e).tasks|
    requires var task := Step(w, e).tasks[t]; task.Writing? && task.order.id == id && task.order != w.rows[id]
    ensures ChangedBy(w, [e, Store(t, true)], id)
  {
    WriteChanges(Step(w, e), t, id);
    assert [e, Store(t, true)] == [e] + [Store(t, true)];
    RunCons(w, e, [Store(t, true)]);
  }

  lemma ThreatCarriedOut(w: World, id: string) returns (es: seq<Event>)
    requires id in w.rows && w.rows[id].IsTerminal() && Threatened(w, id)
    ensures ChangedBy(w, es, id)
  {
    var row := w.rows[id];
    var t: nat :| At(w, t, id) && CanOverwrite(w.tasks[t], row);
    match w.tasks[t] {
      case Submitting(o) =>
        es := [VenueSubmit(t, Some("x")), Store(t, true)];
        TurnThenWrite(w, VenueSubmit(t, Some("x")), t, id);
      case Cancelling(o) =>
        es := [VenueCancel(t, true), Store(t, true)];
        TurnThenWrite(w, VenueCancel(t, true), t, id);
      case Querying(o) =>
        var answer := Some(o.(status := OrderStatus.Submitted));
        es := [VenueQuery(t, answer), Store(t, true)];
        TurnThenWrite(w, VenueQuery(t, answer), t, id);
      case Writing(o, _) =>
        es := [Store(t, true)];
        WriteChanges(w, t, id);
    }
  }

  /**
    With calls overlapping in any way and any answers, a filled, cancelled or rejected row can
    change in some future exactly when a call under way still holds a copy that it can write
    over it.
   */
  lemma FinalRowChangesExactlyWhen(w: World, id: string)
    requires Keyed(w) && id in w.rows && w.rows[id].IsTerminal()
    ensures (exists es :: ChangedBy(w, es, id)) <==> Threatened(w, id)
  {
    if Threatened(w, id) {
      var es := ThreatCarriedOut(w, id);
    } else {
      forall es ensures !ChangedBy(w, es, id) { UnthreatenedRun(w, es, id); }
    }
  }

  /* ---------- One call on an order at a time ---------- */

  ghost predicate Busy(w: World, id: string) { exists t: nat :: At(w, t, id) }

  predicate Begins(e: Event, id: string) { (e.BeginSubmit? || e.BeginCancel? || e.BeginQuery?) && e.id == id }

  /** A call on this order begins only while no other call on it is under way. */
  ghost predicate Apart(w: World, es: seq<Event>, id: string)
    decreases |es|
  {
    es == [] || ((Begins(es[0], id) ==> !Busy(w, id)) && Apart(Step(w, es[0]), es[1..], id))
  }

  /** At most one call on the order is under way, and none once its row is final. */
  ghost predicate Alone(w: World, id: string) {
    && Keyed(w) && id in w.rows
    && (forall t: nat, u: nat :: At(w, t, id) && At(w, u, id) ==> t == u)
    && (Busy(w, id) ==> !w.rows[id].IsTerminal())
  }

  lemma TurnAlone(w: World, e: Event, id: string)
    requires Alone(w, id) && !e.BeginSubmit? && !e.BeginCancel? && !e.BeginQuery?
    ensures Alone(Step(w, e), id)
  {
    var x := Step(w, e);
    assert forall t: nat :: At(x, t, id) ==> At(w, t, id);
    if e.Store? && e.t < |w.tasks| && w.tasks[e.t].Writing? && w.tasks[e.t].order.id == id {
      assert At(w, e.t, id) && !At(x, e.t, id) && !Busy(x, id);
    }
  }

  lemma StepAlone(w: World, e: Event, id: string)
    requires Alone(w, id) && (Begins(e, id) ==> !Busy(w, id))
    ensures Alone(Step(w, e), id)
  {
    var x := Step(w, e);
    if e.BeginSubmit? || e.BeginCancel? || e.BeginQuery? {
      forall t: nat | At(x, t, id) ensures if t < |w.tasks| then At(w, t, id) else Begins(e, id) && t == |w.tasks| {}
    } else {
      TurnAlone(w, e, id);
    }
  }

  lemma {:induction false} RunAlone(w: World, es: seq<Event>, id: string)
    requires Alone(w, id) && Apart(w, es, id)
    ensures Alone(Run(w, es), id)
    decreases |es|
  {
    if es != [] {
      StepAlone(w, es[0], id);
      RunAlone(Step(w, es[0]), es[1..], id);
    }
  }

  /**
    If calls on an order have not overlapped until its row became filled, cancelled or
    rejected, the row never changes again, whatever overlaps and is answered from then on.
   */
  lemma TerminalForGood(w: World, es: seq<Event>, more: seq<Event>, id: string)
    requires Fresh(w) && id in w.rows && Apart(w, es, id)
    ensures id in Run(w, es).rows
    ensures Run(w, es).rows[id].IsTerminal() ==>
              id in Run(w, es + more).rows && Run(w, es + more).rows[id] == Run(w, es).rows[id]
  {
    var x := Run(w, es);
    RunAlone(w, es, id);
    RunConcat(w, es, more);
    if x.rows[id].IsTerminal() {
      assert forall t: nat :: !At(x, t, id);
      UnthreatenedRun(x, more, id);
    }
  }

  /* ---------- Exactly when an order can be placed ---------- */

  function Count(ids: seq<string>, id: string): nat {
    if ids == [] then 0 else Count(ids[..|ids| - 1], id) + if ids[|ids| - 1] == id then 1 else 0
  }

  lemma CountSnoc(ids: seq<string>, x: string, id: string)
    ensures Count(ids + [x], id) == Count(ids, id) + if x == id then 1 else 0
  {
    assert (ids + [x])[..|ids|] == ids;
  }

  /** With `trusted`, the venue never calls an order it was asked about pending. */
  ghost predicate Credible(es: seq<Event>, trusted: bool) {
    trusted ==> forall i :: 0 <= i < |es| && es[i].VenueQuery? && es[i].snapshot.Some? ==> !IsPending(es[i].snapshot.value)
  }

  /** The row can be submitted, or come to be. */
  predicate Submittable(o: Order, trusted: bool) {
    IsPending(o) || (!trusted && o.IsActive() && o.exchangeOrderId != "")
  }

  predicate CanPlace(task: Task, trusted: bool) {
    match task
    case Submitting(_) => true
    case Querying(_) => !trusted
    case Writing(o, _) => Submittable(o, trusted)
    case _ => false
  }

  ghost predicate Placeable(w: World, id: string, trusted: bool)
    requires id in w.rows
  {
    Submittable(w.rows[id], trusted) || exists t: nat :: At(w, t, id) && CanPlace(w.tasks[t], trusted)
  }

  lemma UnplaceableStep(w: World, e: Event, id: string, trusted: bool)
    requires Keyed(w) && id in w.rows && !Placeable(w, id, trusted) && Credible([e], trusted)
    ensures var x := Step(w, e);
            && Keyed(x) && id in x.rows && !Placeable(x, id, trusted)
            && Count(x.placements, id) == Count(w.placements, id)
  {
    var x := Step(w, e);
    if (e.VenueSubmit? || e.VenueCancel? || e.VenueQuery? || e.Store?) && At(w, e.t, id) {
      assert !CanPlace(w.tasks[e.t], trusted);
    }
    if e.VenueSubmit? && e.t < |w.tasks| && w.tasks[e.t].Submitting? {
      assert w.tasks[e.t].order.id != id;
      CountSnoc(w.placements, w.tasks[e.t].order.id, id);
    }
    assert e.VenueQuery? ==> e == [e][0];
    forall t: nat | At(x, t, id) ensures !CanPlace(x.tasks[t], trusted) {
      assert t < |w.tasks| ==> At(w, t, id);
    }
  }

  lemma {:induction false} UnplaceableRun(w: World, es: seq<Event>, id: string, trusted: bool)
    requires Keyed(w) && id in w.rows && !Placeable(w, id, trusted) && Credible(es, trusted)
    ensures Count(Run(w, es).placements, id) == Count(w.placements, id)
    decreases |es|
  {
    if es != [] {
      assert Credible([es[0]], trusted);
      UnplaceableStep(w, es[0], id, trusted);
      UnplaceableRun(Step(w, es[0]), es[1..], id, trusted);
    }
  }

  ghost predicate PlacedLater(w: World, es: seq<Event>, id: string, trusted: bool) {
    Credible(es, trusted) && Count(Run(w, es).placements, id) > Count(w.placements, id)
  }

  /** One step that places nothing, and the rest. */
  lemma PlacedAfter(w: World, e: Event, rest: seq<Event>, id: string, trusted: bool)
    requires Credible([e], trusted) && PlacedLater(Step(w, e), rest, id, trusted) && Step(w, e).placements == w.placements
    ensures PlacedLater(w, [e] + rest, id, trusted)
  {
    RunCons(w, e, rest);
    assert e == [e][0];
  }

  lemma SubmittingIsPlaced(w: World, t: nat, id: string, trusted: bool) returns (es: seq<Event>)
    requires At(w, t, id) && w.tasks[t].Submitting?
    ensures PlacedLater(w, es, id, trusted)
  {
    es := [VenueSubmit(t, Some("x"))];
    assert es == es + [];
    RunCons(w, es[0], []);
    CountSnoc(w.placements, id, id);
  }

  lemma PendingIsPlaced(w: World, id: string, trusted: bool) returns (es: seq<Event>)
    requires Keyed(w) && id in w.rows && IsPending(w.rows[id])
    ensures PlacedLater(w, es, id, trusted)
  {
    var rest := SubmittingIsPlaced(Step(w, BeginSubmit(id)), |w.tasks|, id, trusted);
    es := [BeginSubmit(id)] + rest;
    PlacedAfter(w, BeginSubmit(id), rest, id, trusted);
  }

  /** A venue that need not be trusted answers that the order is pending, and the row can be submitted. */
  lemma QueryingIsPlaced(w: World, t: nat, id: string) returns (es: seq<Event>)
    requires Keyed(w) && id in w.rows && At(w, t, id) && w.tasks[t].Querying?
    ensures PlacedLater(w, es, id, false)
  {
    var a := VenueQuery(t, Some(w.tasks[t].order.(status := OrderStatus.Pending)));
    var x := Step(w, a);
    var rest := PendingIsPlaced(Step(x, Store(t, true)), id, false);
    PlacedAfter(x, Store(t, true), rest, id, false);
    PlacedAfter(w, a, [Store(t, true)] + rest, id, false);
    es := [a] + ([Store(t, true)] + rest);
  }

  lemma SubmittableIsPlaced(w: World, id: string, trusted: bool) returns (es: seq<Event>)
    requires Keyed(w) && id in w.rows && Submittable(w.rows[id], trusted)
    ensures PlacedLater(w, es, id, trusted)
  {
    if IsPending(w.rows[id]) {
      es := PendingIsPlaced(w, id, trusted);
    } else {
      var rest := QueryingIsPlaced(Step(w, BeginQuery(id)), |w.tasks|, id);
      PlacedAfter(w, BeginQuery(id), rest, id, false);
      es := [BeginQuery(id)] + rest;
    }
  }

  lemma PlaceableIsPlaced(w: World, id: string, trusted: bool) returns (es: seq<Event>)
    requires Keyed(w) && id in w.rows && Placeable(w, id, trusted)
    ensures PlacedLater(w, es, id, trusted)
  {
    if Submittable(w.rows[id], trusted) {
      es := SubmittableIsPlaced(w, id, trusted);
    } else {
      var t: nat :| At(w, t, id) && CanPlace(w.tasks[t], trusted);
      match w.tasks[t] {
        case Submitting(_) => es := SubmittingIsPlaced(w, t, id, trusted);
        case Querying(_) => es := QueryingIsPlaced(w, t, id);
        case Writing(_, _) =>
          var rest := SubmittableIsPlaced(Step(w, Store(t, true)), id, trusted);
          PlacedAfter(w, Store(t, true), rest, id, trusted);
          es := [Store(t, true)] + rest;
      }
    }
  }

  /**
    From any state, with calls overlapping in any way, the venue can come to accept an order
    once more - whether or not it already has - exactly when its row is pending, or a call
    under way will submit it or write a pending copy; if the venue's answers to queries cannot
    be trusted, also when the row, or such a copy, is active under an exchange id.
   */
  lemma PlaceableExactlyWhen(w: World, id: string, trusted: bool)
    requires Keyed(w) && id in w.rows
    ensures (exists es :: PlacedLater(w, es, id, trusted)) <==> Placeable(w, id, trusted)
  {
    if Placeable(w, id, trusted) {
      var es := PlaceableIsPlaced(w, id, trusted);
    } else {
      forall es ensures !PlacedLater(w, es, id, trusted) {
        if Credible(es, trusted) { UnplaceableRun(w, es, id, trusted); }
      }
    }
  }

  /* ---------- How often an order is placed ---------- */

  /** A submission waiting for the venue, or one that the venue accepted and that is still to be recorded. */
  predicate IsSubmission(task: Task, id: string, accepted: bool) {
    if accepted then task.Writing? && task.placed && task.order.id == id else task.Submitting? && task.order.id == id
  }

  function Submissions(tasks: seq<Task>, id: string, accepted: bool): nat {
    if tasks == [] then 0
    else Submissions(tasks[..|tasks| - 1], id, accepted) + if IsSubmission(tasks[|tasks| - 1], id, accepted) then 1 else 0
  }

  lemma SubmissionsSnoc(tasks: seq<Task>, task: Task, id: string, accepted: bool)
    ensures Submissions(tasks + [task], id, accepted) ==
            Submissions(tasks, id, accepted) + if IsSubmission(task, id, accepted) then 1 else 0
  {
    assert (tasks + [task])[..|tasks|] == tasks;
  }

  lemma {:induction false} SubmissionsUpdate(tasks: seq<Task>, t: nat, task: Task, id: string, accepted: bool)
    requires t < |tasks|
    ensures Submissions(tasks[t := task], id, accepted) ==
            Submissions(tasks, id, accepted)
            - (if IsSubmission(tasks[t], id, accepted) then 1 else 0) + (if IsSubmission(task, id, accepted) then 1 else 0)
  {
    var n := |tasks| - 1;
    if t == n {
      assert tasks[t := task][..n] == tasks[..n];
    } else {
      assert tasks[t := task][..n] == tasks[..n][t := task];
      SubmissionsUpdate(tasks[..n], t, task, id, accepted);
    }
  }

  /** A submission begins while another of the same order is under way. */
  predicate Overlaps(w: World, e: Event, id: string) {
    && e == BeginSubmit(id) && id in w.rows && IsPending(w.rows[id])
    && Submissions(w.tasks, id, false) + Submissions(w.tasks, id, true) > 0
  }

  /** A copy that is pending is written back. */
  predicate Reopens(w: World, e: Event, id: string) {
    && e.Store? && e.ok && e.t < |w.tasks| && w.tasks[e.t].Writing?
    && w.tasks[e.t].order.id == id && IsPending(w.tasks[e.t].order)
  }

  function OverlapCount(w: World, es: seq<Event>, id: string): nat
    decreases |es|
  {
    if es == [] then 0 else (if Overlaps(w, es[0], id) then 1 else 0) + OverlapCount(Step(w, es[0]), es[1..], id)
  }

  function ReopenCount(w: World, es: seq<Event>, id: string): nat
    decreases |es|
  {
    if es == [] then 0 else (if Reopens(w, es[0], id) then 1 else 0) + ReopenCount(Step(w, es[0]), es[1..], id)
  }

  /** With `extra` overlaps and reopenings so far. */
  ghost predicate Accounted(w: World, id: string, extra: nat) {
    && Keyed(w) && id in w.rows
    && Count(w.placements, id) + Submissions(w.tasks, id, false) <= 1 + Count(w.unrecorded, id) + extra
    && (IsPending(w.rows[id]) ==>
          Count(w.placements, id) <= Count(w.unrecorded, id) + Submissions(w.tasks, id, true) + extra)
  }

  lemma StartAccounted(w: World, task: Task, id: string, extra: nat)
    requires Accounted(w, id, extra) && !task.Writing?
    requires IsSubmission(task, id, false) ==> IsPending(w.rows[id])
    ensures var begun := IsSubmission(task, id, false) && Submissions(w.tasks, id, false) + Submissions(w.tasks, id, true) > 0;
            Accounted(Started(w, task), id, extra + if begun then 1 else 0)
  {
    SubmissionsSnoc(w.tasks, task, id, false);
    SubmissionsSnoc(w.tasks, task, id, true);
  }

  lemma BeginAccounted(w: World, e: Event, id: string, extra: nat)
    requires Accounted(w, id, extra) && (e.BeginSubmit? || e.BeginCancel? || e.BeginQuery?)
    ensures Accounted(Step(w, e), id, extra + if Overlaps(w, e, id) then 1 else 0)
  {
    if e.id in w.rows && Step(w, e) != w {
      var o := w.rows[e.id];
      if e.BeginSubmit? { StartAccounted(w, Submitting(o), id, extra); }
      else if e.BeginCancel? { StartAccounted(w, Cancelling(o), id, extra); }
      else { StartAccounted(w, Querying(o), id, extra); }
    }
  }

  lemma VenueAccounted(w: World, e: Event, id: string, extra: nat)
    requires Accounted(w, id, extra) && (e.VenueSubmit? || e.VenueCancel? || e.VenueQuery?)
    ensures Accounted(Step(w, e), id, extra)
  {
    var x := Step(w, e);
    if e.t < |w.tasks| {
      SubmissionsUpdate(w.tasks, e.t, x.tasks[e.t], id, false);
      SubmissionsUpdate(w.tasks, e.t, x.tasks[e.t], id, true);
      if e.VenueSubmit? && w.tasks[e.t].Submitting? { CountSnoc(w.placements, w.tasks[e.t].order.id, id); }
      assert x.tasks == w.tasks[e.t := x.tasks[e.t]];
    }
  }

  lemma StoreAccounted(w: World, e: Event, id: string, extra: nat)
    requires Accounted(w, id, extra) && e.Store?
    ensures Accounted(Step(w, e), id, extra + if Reopens(w, e, id) then 1 else 0)
  {
    if e.t < |w.tasks| && w.tasks[e.t].Writing? {
      var x, o := Step(w, e), w.tasks[e.t].order;
      SubmissionsUpdate(w.tasks, e.t, Over, id, false);
      SubmissionsUpdate(w.tasks, e.t, Over, id, true);
      if e.ok {
        assert x.rows == w.rows[o.id := o] && x.unrecorded == w.unrecorded;
      } else {
        CountSnoc(w.unrecorded, o.id, id);
        assert x.rows == w.rows;
      }
    }
  }

  lemma {:induction false} RunAccounted(w: World, es: seq<Event>, id: string, extra: nat)
    requires Accounted(w, id, extra)
    ensures Accounted(Run(w, es), id, extra + OverlapCount(w, es, id) + ReopenCount(w, es, id))
    decreases |es|
  {
    if es != [] {
      var e := es[0];
      if e.Store? { StoreAccounted(w, e, id, extra); }
      else if e.VenueSubmit? || e.VenueCancel? || e.VenueQuery? { VenueAccounted(w, e, id, extra); }
      else { BeginAccounted(w, e, id, extra); }
      var more := (if Overlaps(w, e, id) then 1 else 0) + (if Reopens(w, e, id) then 1 else 0);
      RunAccounted(Step(w, e), es[1..], id, extra + more);
    }
  }

  /**
    In every run, with calls overlapping in any way and any answers, the venue accepts an
    order at most once more than its row could not be written after an acceptance, a
    submission of it began beside another, and a pending copy was written over its row.
   */
  lemma PlacementsBounded(w: World, es: seq<Event>, id: string)
    requires Fresh(w) && id in w.rows
    ensures Count(Run(w, es).placements, id)
            <= 1 + Count(Run(w, es).unrecorded, id) + OverlapCount(w, es, id) + ReopenCount(w, es, id)
  {
    RunAccounted(w, es, id, 0);
  }

  /** The row is written after an acceptance. */
  predicate Records(w: World, e: Event, id: string) {
    e.Store? && e.ok && e.t < |w.tasks| && IsSubmission(w.tasks[e.t], id, true)
  }

  function RecordCount(w: World, es: seq<Event>, id: string): nat
    decreases |es|
  {
    if es == [] then 0 else (if Records(w, es[0], id) then 1 else 0) + RecordCount(Step(w, es[0]), es[1..], id)
  }

  ghost predicate Conserved(w: World, id: string, recorded: nat) {
    Count(w.placements, id) == Count(w.unrecorded, id) + Submissions(w.tasks, id, true) + recorded
  }

  lemma SubmitConserved(w: World, t: nat, answer: Option<string>, id: string, recorded: nat)
    requires Conserved(w, id, recorded) && t < |w.tasks| && w.tasks[t].Submitting?
    ensures Conserved(Step(w, VenueSubmit(t, answer)), id, recorded)
  {
    SubmissionsUpdate(w.tasks, t, AskedSubmit(w.tasks[t].order, answer), id, true);
    CountSnoc(w.placements, w.tasks[t].order.id, id);
  }

  /** The answer to a cancellation or a query accepts nothing. */
  lemma TurnConserved(w: World, t: nat, task: Task, id: string, recorded: nat)
    requires Conserved(w, id, recorded) && t < |w.tasks| && !w.tasks[t].Writing? && (task.Writing? ==> !task.placed)
    ensures Conserved(w.(tasks := w.tasks[t := task]), id, recorded)
  {
    SubmissionsUpdate(w.tasks, t, task, id, true);
  }

  lemma VenueConserved(w: World, e: Event, id: string, recorded: nat)
    requires Conserved(w, id, recorded) && (e.VenueSubmit? || e.VenueCancel? || e.VenueQuery?)
    ensures Conserved(Step(w, e), id, recorded)
  {
    if e.t < |w.tasks| {
      if e.VenueSubmit? {
        if w.tasks[e.t].Submitting? { SubmitConserved(w, e.t, e.answer, id, recorded); }
      } else if e.VenueCancel? {
        if w.tasks[e.t].Cancelling? { TurnConserved(w, e.t, AskedCancel(w.tasks[e.t].order, e.ok), id, recorded); }
      } else if w.tasks[e.t].Querying? {
        TurnConserved(w, e.t, AskedQuery(w.tasks[e.t].order, e.snapshot), id, recorded);
      }
    }
  }

  lemma StepConserved(w: World, e: Event, id: string, recorded: nat)
    requires Conserved(w, id, recorded)
    ensures Conserved(Step(w, e), id, recorded + if Records(w, e, id) then 1 else 0)
  {
    if e.VenueSubmit? || e.VenueCancel? || e.VenueQuery? {
      VenueConserved(w, e, id, recorded);
    } else if e.Store? {
      if e.t < |w.tasks| && w.tasks[e.t].Writing? {
        SubmissionsUpdate(w.tasks, e.t, Over, id, true);
        CountSnoc(w.unrecorded, w.tasks[e.t].order.id, id);
      }
    } else if e.id in w.rows {
      var o := w.rows[e.id];
      SubmissionsSnoc(w.tasks, if e.BeginSubmit? then Submitting(o) else if e.BeginCancel? then Cancelling(o) else Querying(o), id, true);
    }
  }

  lemma {:induction false} RunConserved(w: World, es: seq<Event>, id: string, recorded: nat)
    requires Conserved(w, id, recorded)
    ensures Conserved(Run(w, es), id, recorded + RecordCount(w, es, id))
    decreases |es|
  {
    if es != [] {
      StepConserved(w, es[0], id, recorded);
      RunConserved(Step(w, es[0]), es[1..], id, recorded + if Records(w, es[0], id) then 1 else 0);
    }
  }

  /** In every run each acceptance has been recorded, went unrecorded, or is still to be written. */
  lemma PlacementsConserved(w: World, es: seq<Event>, id: string)
    requires Fresh(w)
    ensures var x := Run(w, es);
            Count(x.placements, id) == RecordCount(w, es, id) + Count(x.unrecorded, id) + Submissions(x.tasks, id, true)
  {
    RunConserved(w, es, id, 0);
  }

  /** No call holds a pending copy to write back. */
  ghost predicate NoPendingCopy(w: World) {
    forall t :: 0 <= t < |w.tasks| && w.tasks[t].Writing? ==> !IsPending(w.tasks[t].order)
  }

  lemma StepNoPendingCopy(w: World, e: Event, id: string)
    requires NoPendingCopy(w) && Credible([e], true)
    ensures NoPendingCopy(Step(w, e)) && !Reopens(w, e, id)
  {
    assert e == [e][0];
  }

  lemma {:induction false} CredibleNeverReopens(w: World, es: seq<Event>, id: string)
    requires NoPendingCopy(w) && Credible(es, true)
    ensures NoPendingCopy(Run(w, es)) && ReopenCount(w, es, id) == 0
    decreases |es|
  {
    if es != [] {
      assert Credible([es[0]], true);
      StepNoPendingCopy(w, es[0], id);
      CredibleNeverReopens(Step(w, es[0]), es[1..], id);
    }
  }

  lemma {:induction false} SubmissionAt(w: World, tasks: seq<Task>, id: string, accepted: bool)
    requires tasks <= w.tasks
    ensures Submissions(tasks, id, accepted) > 0 <==> exists t :: 0 <= t < |tasks| && IsSubmission(tasks[t], id, accepted)
    ensures Submissions(tasks, id, accepted) > 0 ==> Busy(w, id)
    decreases |tasks|
  {
    if tasks != [] {
      var n := |tasks| - 1;
      SubmissionAt(w, tasks[..n], id, accepted);
      if IsSubmission(tasks[n], id, accepted) { assert At(w, n, id); }
    }
  }

  lemma {:induction false} ApartNeverOverlaps(w: World, es: seq<Event>, id: string)
    requires Apart(w, es, id)
    ensures OverlapCount(w, es, id) == 0
    decreases |es|
  {
    if es != [] {
      SubmissionAt(w, w.tasks, id, false);
      SubmissionAt(w, w.tasks, id, true);
      ApartNeverOverlaps(Step(w, es[0]), es[1..], id);
    }
  }

  /** So while calls on the order do not overlap and the venue is trusted, it is once more than went unrecorded. */
  lemma PlacedOncePerRecord(w: World, es: seq<Event>, id: string)
    requires Fresh(w) && id in w.rows && Apart(w, es, id) && Credible(es, true)
    ensures Count(Run(w, es).placements, id) <= 1 + Count(Run(w, es).unrecorded, id)
  {
    PlacementsBounded(w, es, id);
    ApartNeverOverlaps(w, es, id);
    CredibleNeverReopens(w, es, id);
  }

  /**
    After any run with a trusted venue, the order can be placed again exactly when its row is
    pending or a submission waits for the venue; and if no acceptance is still to be recorded
    then, every acceptance so far went unrecorded or was of a submission beside another.
   */
  lemma PlaceableAgainOnlyUnrecorded(w: World, es: seq<Event>, id: string)
    requires Fresh(w) && id in w.rows && Credible(es, true)
    ensures id in Run(w, es).rows
    ensures var x := Run(w, es);
            (exists more :: PlacedLater(x, more, id, true)) <==>
            IsPending(x.rows[id]) || Submissions(x.tasks, id, false) > 0
    ensures var x := Run(w, es);
            (exists more :: PlacedLater(x, more, id, true)) && Submissions(x.tasks, id, true) == 0 ==>
            Count(x.placements, id) <= Count(x.unrecorded, id) + OverlapCount(w, es, id)
  {
    var x := Run(w, es);
    RunAccounted(w, es, id, 0);
    CredibleNeverReopens(w, es, id);
    PlaceableExactlyWhen(x, id, true);
    SubmissionAt(x, x.tasks, id, false);
    if Submissions(x.tasks, id, false) > 0 {
      var t :| 0 <= t < |x.tasks| && IsSubmission(x.tasks[t], id, false);
      assert At(x, t, id) && CanPlace(x.tasks[t], true);
    } else {
      forall t: nat | At(x, t, id) ensures !CanPlace(x.tasks[t], true) { assert !IsSubmission(x.tasks[t], id, false); }
    }
  }

  /* ---------- Runs that go wrong ---------- */

  /** One row that cannot be written after the venue accepted stays pending, and the order can be placed again. */
  lemma FailedRecordPlacesTwice(w: World, id: string, x: string, y: string)
    requires Fresh(w) && id in w.rows && IsPending(w.rows[id])
    ensures var es := [BeginSubmit(id), VenueSubmit(0, Some(x)), Store(0, false)]
                      + [BeginSubmit(id), VenueSubmit(1, Some(y)), Store(1, true)];
            Run(w, es).placements == [id, id] && Run(w, es).rows == w.rows[id := Placed(w.rows[id], y)]
  {
    var first := [BeginSubmit(id), VenueSubmit(0, Some(x)), Store(0, false)];
    ThreeSteps(w, BeginSubmit(id), VenueSubmit(0, Some(x)), Store(0, false));
    var t := w.(tasks := [Over], placements := [id], unrecorded := [id]);
    assert Run(w, first) == t;
    ThreeSteps(t, BeginSubmit(id), VenueSubmit(1, Some(y)), Store(1, true));
    RunConcat(w, first, [BeginSubmit(id), VenueSubmit(1, Some(y)), Store(1, true)]);
  }

  /** Nothing unrecorded, but two submissions side by side: both read the pending row, and the venue accepts both. */
  lemma OverlapPlacesTwice(w: World, id: string, x: string, y: string)
    requires Fresh(w) && id in w.rows && IsPending(w.rows[id])
    ensures var es := [BeginSubmit(id), BeginSubmit(id), VenueSubmit(0, Some(x))]
                      + [VenueSubmit(1, Some(y)), Store(0, true), Store(1, true)];
            && Run(w, es).placements == [id, id] && Run(w, es).unrecorded == []
            && Run(w, es).rows == w.rows[id := Placed(w.rows[id], y)]
  {
    var first := [BeginSubmit(id), BeginSubmit(id), VenueSubmit(0, Some(x))];
    var o := w.rows[id];
    ThreeSteps(w, BeginSubmit(id), BeginSubmit(id), VenueSubmit(0, Some(x)));
    assert Step(w, BeginSubmit(id)) == w.(tasks := [Submitting(o)]);
    assert Step(w.(tasks := [Submitting(o)]), BeginSubmit(id)) == w.(tasks := [Submitting(o), Submitting(o)]);
    var t := w.(tasks := [Writing(Placed(o, x), true), Submitting(o)], placements := [id]);
    assert Run(w, first) == t;
    ThreeSteps(t, VenueSubmit(1, Some(y)), Store(0, true), Store(1, true));
    var u := t.(tasks := [Writing(Placed(o, x), true), Writing(Placed(o, y), true)], placements := [id, id]);
    assert Step(t, VenueSubmit(1, Some(y))) == u;
    assert Step(u, Store(0, true)) == u.(rows := w.rows[id := Placed(o, x)], tasks := [Over, Writing(Placed(o, y), true)]);
    assert w.rows[id := Placed(o, x)][id := Placed(o, y)] == w.rows[id := Placed(o, y)];
    RunConcat(w, first, [VenueSubmit(1, Some(y)), Store(0, true), Store(1, true)]);
  }

  /** A cancel that overlaps a query writes its older copy over the fill: a filled row becomes cancelled. */
  lemma OverlapLosesFill(w: World, id: string, filled: Order)
    requires Fresh(w) && id in w.rows && w.rows[id].IsActive() && w.rows[id].exchangeOrderId != ""
    requires filled.status == OrderStatus.Filled
    ensures var es := [BeginCancel(id), BeginQuery(id), VenueQuery(1, Some(filled))];
            var more := [Store(1, true), VenueCancel(0, true), Store(0, true)];
            && Step(Run(w, es), Store(1, true)).rows == w.rows[id := Matched(w.rows[id], filled)]
            && Run(w, es + more).rows == w.rows[id := w.rows[id].(status := Canceled)]
  {
    var es := [BeginCancel(id), BeginQuery(id), VenueQuery(1, Some(filled))];
    var o := w.rows[id];
    ThreeSteps(w, BeginCancel(id), BeginQuery(id), VenueQuery(1, Some(filled)));
    var t := w.(tasks := [Cancelling(o), Writing(Matched(o, filled), false)]);
    assert Run(w, es) == t;
    ThreeSteps(t, Store(1, true), VenueCancel(0, true), Store(0, true));
    RunConcat(w, es, [Store(1, true), VenueCancel(0, true), Store(0, true)]);
  }

  /** Nor is a venue that calls an active order pending harmless: the row can then be submitted again. */
  lemma PendingAnswerReopens(w: World, id: string, answer: Order)
    requires Fresh(w) && id in w.rows && w.rows[id].IsActive() && w.rows[id].exchangeOrderId != "" && IsPending(answer)
    ensures Run(w, [BeginQuery(id), VenueQuery(0, Some(answer)), Store(0, true)]).rows == w.rows[id := Matched(w.rows[id], answer)]
    ensures IsPending(Matched(w.rows[id], answer))
  {
    ThreeSteps(w, BeginQuery(id), VenueQuery(0, Some(answer)), Store(0, true));
  }

  /* ---------- The service itself ---------- */

  datatype Reply = Done | Blocked | NotFound | WrongState(status: OrderStatus) | VenueFailed | StoreFailed

  class Service {
    var rows: map<string, Order>
    ghost var placements: seq<string>
    ghost var unrecorded: seq<string>

    /** No call is under way between two calls that do not overlap. */
    ghost function Current(): World
      reads this
    {
      World(rows, [], placements, unrecorded)
    }

    /** A whole undisturbed call: the row is read, the venue asked, the copy written. */
    method SubmitOrder(id: string, gate: bool, answer: Option<string>, stored: bool) returns (r: Reply)
      requires forall k :: k in rows ==> rows[k].id == k
      modifies this
      ensures forall k :: k in rows ==> rows[k].id == k
      ensures r == if !gate then Blocked else if id !in old(rows) then NotFound
                   else if !IsPending(old(rows)[id]) then WrongState(old(rows)[id].status)
                   else if answer.None? then VenueFailed else if !stored then StoreFailed else Done
      ensures var w := if gate then Run(old(Current()), [BeginSubmit(id), VenueSubmit(0, answer), Store(0, stored)])
                       else old(Current());
              w.rows == rows && w.placements == placements && w.unrecorded == unrecorded
    {
      ghost var before := Current();
      ThreeSteps(before, BeginSubmit(id), VenueSubmit(0, answer), Store(0, stored));
      if !gate { return Blocked; }
      if id !in rows { return NotFound; }
      var order := rows[id];
      if order.status != OrderStatus.Pending { return WrongState(order.status); }
      if answer.None? {
        order := order.(status := Rejected);
        if stored { rows := rows[id := order]; }
        return VenueFailed;
      }
      placements := placements + [id];
      order := order.(exchangeOrderId := answer.value);
      order := order.(status := OrderStatus.Submitted);
      if !stored {
        unrecorded := unrecorded + [id];
        return StoreFailed;
      }
      rows := rows[id := order];
      return Done;
    }

    method CancelOrder(id: string, accepted: bool, stored: bool) returns (r: Reply)
      requires forall k :: k in rows ==> rows[k].id == k
      modifies this
      ensures forall k :: k in rows ==> rows[k].id == k
      ensures r == if id !in old(rows) then NotFound
                   else if !old(rows)[id].IsActive() then WrongState(old(rows)[id].status)
                   else if !accepted then VenueFailed else if !stored then StoreFailed else Done
      ensures var w := Run(old(Current()), [BeginCancel(id), VenueCancel(0, accepted), Store(0, stored)]);
              w.rows == rows && w.placements == placements && w.unrecorded == unrecorded
    {
      ghost var before := Current();
      ThreeSteps(before, BeginCancel(id), VenueCancel(0, accepted), Store(0, stored));
      if id !in rows { return NotFound; }
      var order := rows[id];
      if !order.IsActive() { return WrongState(order.status); }
      if !accepted { return VenueFailed; }
      order := order.(status := Canceled);
      if !stored { return StoreFailed; }
      rows := rows[id := order];
      return Done;
    }
  }
}
