/**
  What the rows of the order service say, told from the calls and the venue's answers alone:
  every row is what some call read when it began, changed as the venue answered that call.
*/
module OrderAnswers {
  import opened Entities
  import opened OrderService

  lemma RunSnoc(w: World, es: seq<Event>)
    requires es != []
    ensures Run(w, es) == Step(Run(w, es[..|es| - 1]), es[|es| - 1])
  {
    var n := |es| - 1;
    assert es == es[..n] + [es[n]];
    RunConcat(w, es[..n], [es[n]]);
    assert [es[n]] == [es[n]] + [];
    RunCons(Run(w, es[..n]), es[n], []);
  }

  /** What the venue's answer makes of an order: it is refused, accepted, cancelled, or matched with the venue's state of it. */
  predicate Answered(begin: Event, answer: Event, read: Order, written: Order) {
    match answer
    case VenueSubmit(_, None) => begin.BeginSubmit? && written == read.(status := Rejected)
    case VenueSubmit(_, Some(x)) =>
      begin.BeginSubmit? && written == read.(exchangeOrderId := x, status := OrderStatus.Submitted)
    case VenueCancel(_, ok) => begin.BeginCancel? && ok && written == read.(status := Canceled)
    case VenueQuery(_, Some(e)) =>
      && begin.BeginQuery?
      && written == read.(status := e.status, filledQty := e.filledQty, remainingQty := e.remainingQty, avgFillPrice := e.avgFillPrice)
    case _ => false
  }

  /** Event `b` began call `t` on a row that could be submitted, or was active, or could be asked about. */
  ghost predicate Opens(w: World, es: seq<Event>, b: nat, t: nat, id: string) {
    && b < |es| && Begins(es[b], id)
    && var s := Run(w, es[..b]);
    && |s.tasks| == t && id in s.rows
    && (es[b].BeginSubmit? ==> s.rows[id].status == OrderStatus.Pending)
    && (!es[b].BeginSubmit? ==> s.rows[id].status == OrderStatus.Submitted || s.rows[id].status == Partial)
    && (es[b].BeginQuery? ==> s.rows[id].exchangeOrderId != "")
  }

  ghost function Read(w: World, es: seq<Event>, b: nat, id: string): Order
    requires b < |es| && id in Run(w, es[..b]).rows
  {
    Run(w, es[..b]).rows[id]
  }

  /** Call `t`, begun by event `b` and answered by event `a`, has `o` to write. */
  ghost predicate Told(w: World, es: seq<Event>, t: nat, b: nat, a: nat, o: Order) {
    && b < a < |es| && Opens(w, es, b, t, o.id)
    && (es[a].VenueSubmit? || es[a].VenueCancel? || es[a].VenueQuery?) && es[a].t == t
    && Answered(es[b], es[a], Read(w, es, b, o.id), o)
  }

  /** Call `t` was begun by event `b` and holds the row as it read it. */
  ghost predicate Held(w: World, es: seq<Event>, t: nat, b: nat, task: Task)
    requires !task.Over?
  {
    && Opens(w, es, b, t, task.order.id) && task.order == Read(w, es, b, task.order.id)
    && (task.Submitting? <==> es[b].BeginSubmit?) && (task.Cancelling? <==> es[b].BeginCancel?)
  }

  /** Call `t` has an answer to write; `placed` says that it is an acceptance. */
  ghost predicate Due(w: World, es: seq<Event>, t: nat, b: nat, a: nat, task: Task)
    requires task.Writing?
  {
    Told(w, es, t, b, a, task.order) && (task.placed <==> es[a].VenueSubmit? && es[a].answer.Some?)
  }

  ghost predicate Explained(w: World, es: seq<Event>, t: nat, task: Task) {
    && (!task.Over? ==> task.order.id in w.rows)
    && match task
       case Over => true
       case Writing(_, _) => exists b: nat, a: nat :: Due(w, es, t, b, a, task)
       case _ => exists b: nat :: Held(w, es, t, b, task)
  }

  /** Event `k` writes this row. */
  ghost predicate Stores(w: World, es: seq<Event>, k: nat, id: string) {
    && k < |es| && es[k].Store? && es[k].ok
    && var s := Run(w, es[..k]);
    es[k].t < |s.tasks| && s.tasks[es[k].t].Writing? && s.tasks[es[k].t].order.id == id
  }

  /** The row was written last by event `k`: what a call read, changed as it was answered. */
  ghost predicate LastWrite(w: World, es: seq<Event>, k: nat, id: string, o: Order) {
    && Stores(w, es, k, id) && o.id == id
    && (exists b: nat, a: nat :: a < k && Told(w, es, es[k].t, b, a, o))
    && forall j :: k < j < |es| ==> !Stores(w, es, j, id)
  }

  ghost predicate RowExplained(w: World, es: seq<Event>, id: string, row: Order)
    requires id in w.rows
  {
    || (row == w.rows[id] && forall k :: 0 <= k < |es| ==> !Stores(w, es, k, id))
    || exists k: nat :: LastWrite(w, es, k, id, row)
  }

  ghost predicate AllExplained(w: World, es: seq<Event>) {
    var s := Run(w, es);
    && Keyed(s) && s.rows.Keys == w.rows.Keys
    && (forall t :: 0 <= t < |s.tasks| ==> Explained(w, es, t, s.tasks[t]))
    && (forall id :: id in w.rows ==> RowExplained(w, es, id, s.rows[id]))
  }

  /* ---------- More events change no explanation ---------- */

  lemma OpensMore(w: World, es: seq<Event>, e: Event, b: nat, t: nat, id: string)
    requires Opens(w, es, b, t, id)
    ensures Opens(w, es + [e], b, t, id) && Read(w, es + [e], b, id) == Read(w, es, b, id)
  {
    assert (es + [e])[..b] == es[..b];
  }

  lemma ToldMore(w: World, es: seq<Event>, e: Event, t: nat, b: nat, a: nat, o: Order)
    requires Told(w, es, t, b, a, o)
    ensures Told(w, es + [e], t, b, a, o)
  {
    OpensMore(w, es, e, b, t, o.id);
  }

  lemma ExplainedMore(w: World, es: seq<Event>, e: Event, t: nat, task: Task)
    requires Explained(w, es, t, task)
    ensures Explained(w, es + [e], t, task)
  {
    if task.Writing? {
      var b: nat, a: nat :| Due(w, es, t, b, a, task);
      ToldMore(w, es, e, t, b, a, task.order);
      assert Due(w, es + [e], t, b, a, task);
    } else if !task.Over? {
      var b: nat :| Held(w, es, t, b, task);
      OpensMore(w, es, e, b, t, task.order.id);
      assert Held(w, es + [e], t, b, task);
    }
  }

  lemma StoresMore(w: World, es: seq<Event>, e: Event, k: nat, id: string)
    requires k < |es|
    ensures Stores(w, es + [e], k, id) <==> Stores(w, es, k, id)
  {
    assert (es + [e])[..k] == es[..k];
  }

  /** An event that does not write the row leaves it explained. */
  lemma RowMore(w: World, es: seq<Event>, e: Event, id: string, row: Order)
    requires id in w.rows && RowExplained(w, es, id, row) && !Stores(w, es + [e], |es|, id)
    ensures RowExplained(w, es + [e], id, row)
  {
    forall k: nat | k < |es| ensures Stores(w, es + [e], k, id) <==> Stores(w, es, k, id) { StoresMore(w, es, e, k, id); }
    if k: nat :| LastWrite(w, es, k, id, row) {
      var b: nat, a: nat :| a < k && Told(w, es, es[k].t, b, a, row);
      ToldMore(w, es, e, es[k].t, b, a, row);
      assert LastWrite(w, es + [e], k, id, row);
    }
  }

  /* ---------- One more event ---------- */

  lemma BeginExplained(w: World, es: seq<Event>, e: Event)
    requires AllExplained(w, es) && (e.BeginSubmit? || e.BeginCancel? || e.BeginQuery?)
    requires Step(Run(w, es), e) != Run(w, es)
    ensures var s, x := Run(w, es), Step(Run(w, es), e);
            && x.rows == s.rows && |x.tasks| == |s.tasks| + 1 && x.tasks[..|s.tasks|] == s.tasks
            && Explained(w, es + [e], |s.tasks|, x.tasks[|s.tasks|])
  {
    var s, x := Run(w, es), Step(Run(w, es), e);
    assert (es + [e])[..|es|] == es;
    assert Held(w, es + [e], |s.tasks|, |es|, x.tasks[|s.tasks|]);
  }

  lemma AnswerExplained(w: World, es: seq<Event>, e: Event)
    requires AllExplained(w, es) && (e.VenueSubmit? || e.VenueCancel? || e.VenueQuery?) && e.t < |Run(w, es).tasks|
    ensures Explained(w, es + [e], e.t, Step(Run(w, es), e).tasks[e.t])
  {
    var s, x := Run(w, es), Step(Run(w, es), e);
    var task := s.tasks[e.t];
    assert Explained(w, es, e.t, task);
    if x.tasks[e.t] == task {
      ExplainedMore(w, es, e, e.t, task);
    } else if x.tasks[e.t].Writing? {
      var b: nat :| Held(w, es, e.t, b, task);
      OpensMore(w, es, e, b, e.t, task.order.id);
      assert Due(w, es + [e], e.t, b, |es|, x.tasks[e.t]);
    }
  }

  lemma StoreExplained(w: World, es: seq<Event>, e: Event, task: Task)
    requires AllExplained(w, es) && e.Store? && e.ok && e.t < |Run(w, es).tasks|
    requires task == Run(w, es).tasks[e.t] && task.Writing?
    ensures LastWrite(w, es + [e], |es|, task.order.id, task.order)
  {
    assert (es + [e])[..|es|] == es;
    assert Explained(w, es, e.t, task);
    var b: nat, a: nat :| Due(w, es, e.t, b, a, task);
    ToldMore(w, es, e, e.t, b, a, task.order);
  }

  /** Which tasks an event touches. */
  lemma TasksTouched(s: World, e: Event, t: nat)
    requires t < |Step(s, e).tasks|
    ensures t >= |s.tasks| ==> t == |s.tasks| && (e.BeginSubmit? || e.BeginCancel? || e.BeginQuery?)
    ensures t < |s.tasks| && Step(s, e).tasks[t] != s.tasks[t] && !e.Store? ==>
              (e.VenueSubmit? || e.VenueCancel? || e.VenueQuery?) && e.t == t
    ensures e.Store? && Step(s, e).tasks[t] != s.tasks[t] ==> Step(s, e).tasks[t].Over?
  {
  }

  lemma TasksMore(w: World, es: seq<Event>, e: Event)
    requires AllExplained(w, es)
    ensures var x := Step(Run(w, es), e);
            forall t :: 0 <= t < |x.tasks| ==> Explained(w, es + [e], t, x.tasks[t])
  {
    var s, x := Run(w, es), Step(Run(w, es), e);
    forall t: nat | t < |x.tasks| ensures Explained(w, es + [e], t, x.tasks[t]) {
      TasksTouched(s, e, t);
      if t >= |s.tasks| {
        BeginExplained(w, es, e);
      } else if x.tasks[t] == s.tasks[t] {
        ExplainedMore(w, es, e, t, s.tasks[t]);
      } else if !e.Store? {
        AnswerExplained(w, es, e);
      }
    }
  }

  predicate WritesRow(s: World, e: Event) { e.Store? && e.ok && e.t < |s.tasks| && s.tasks[e.t].Writing? }

  lemma RowsTouched(s: World, e: Event)
    ensures Step(s, e).rows == if WritesRow(s, e) then s.rows[s.tasks[e.t].order.id := s.tasks[e.t].order] else s.rows
  {
  }

  lemma OneRowMore(w: World, es: seq<Event>, e: Event, id: string)
    requires AllExplained(w, es) && id in w.rows
    ensures id in Step(Run(w, es), e).rows && RowExplained(w, es + [e], id, Step(Run(w, es), e).rows[id])
  {
    var s := Run(w, es);
    assert (es + [e])[..|es|] == es;
    RowsTouched(s, e);
    assert RowExplained(w, es, id, s.rows[id]);
    if WritesRow(s, e) && s.tasks[e.t].order.id == id {
      StoreExplained(w, es, e, s.tasks[e.t]);
    } else {
      RowMore(w, es, e, id, s.rows[id]);
    }
  }

  lemma RowsMore(w: World, es: seq<Event>, e: Event)
    requires AllExplained(w, es)
    ensures var x := Step(Run(w, es), e);
            && Keyed(x) && x.rows.Keys == w.rows.Keys
            && forall id :: id in w.rows ==> RowExplained(w, es + [e], id, x.rows[id])
  {
    RowsTouched(Run(w, es), e);
    if WritesRow(Run(w, es), e) { assert Explained(w, es, e.t, Run(w, es).tasks[e.t]); }
    forall id | id in w.rows ensures RowExplained(w, es + [e], id, Step(Run(w, es), e).rows[id]) { OneRowMore(w, es, e, id); }
  }

  lemma {:induction false} RunExplained(w: World, es: seq<Event>)
    requires Keyed(w) && w.tasks == []
    ensures AllExplained(w, es)
    decreases |es|
  {
    if es != [] {
      var front, e := es[..|es| - 1], es[|es| - 1];
      RunExplained(w, front);
      RunSnoc(w, es);
      assert es == front + [e];
      TasksMore(w, front, e);
      RowsMore(w, front, e);
    }
  }

  /* ---------- What the rows say ---------- */

  /**
    After any run, with calls overlapping in any way, each row is the one that the call whose
    write came last had read when it began, changed as the venue answered that call: refused,
    submitted under the id the venue gave, cancelled, or as the venue described it. A row
    that no call has written is as it was.
   */
  lemma RowIsLastAnswer(w: World, es: seq<Event>, id: string)
    requires Fresh(w) && id in w.rows
    ensures id in Run(w, es).rows
    ensures var row := Run(w, es).rows[id];
            || (row == w.rows[id] && forall k :: 0 <= k < |es| ==> !Stores(w, es, k, id))
            || exists k: nat :: LastWrite(w, es, k, id, row)
  {
    RunExplained(w, es);
    assert RowExplained(w, es, id, Run(w, es).rows[id]);
  }

  /** An order whose queries are never answered with submitted is submitted only under an id the venue gave for it. */
  lemma SubmittedOnlyByTheVenue(w: World, es: seq<Event>, id: string)
    requires Fresh(w) && id in w.rows && w.rows[id].status != OrderStatus.Submitted
    requires forall k :: 0 <= k < |es| && es[k].VenueQuery? && es[k].snapshot.Some? ==> es[k].snapshot.value.status != OrderStatus.Submitted
    ensures id in Run(w, es).rows
    ensures var row := Run(w, es).rows[id];
            row.status == OrderStatus.Submitted ==>
              exists b: nat, a: nat :: b < a < |es| && es[b] == BeginSubmit(id) && es[a].VenueSubmit? && es[a].answer == Some(row.exchangeOrderId)
                        && Opens(w, es, b, es[a].t, id)
  {
    RowIsLastAnswer(w, es, id);
    var row := Run(w, es).rows[id];
    if row.status == OrderStatus.Submitted {
      var k: nat :| LastWrite(w, es, k, id, row);
      var b: nat, a: nat :| a < k && Told(w, es, es[k].t, b, a, row);
    }
  }

  /** An undisturbed call whose write succeeds leaves the row as the venue answered. */
  lemma AnswerIsStored(w: World, id: string, begin: Event, answer: Event)
    requires Keyed(w) && id in w.rows && Begins(begin, id)
    requires if begin.BeginSubmit? then w.rows[id].status == OrderStatus.Pending else w.rows[id].IsActive()
    requires begin.BeginQuery? ==> w.rows[id].exchangeOrderId != ""
    requires (begin.BeginSubmit? && answer.VenueSubmit?) || (begin.BeginCancel? && answer.VenueCancel?) || (begin.BeginQuery? && answer.VenueQuery?)
    requires answer.t == |w.tasks|
    ensures var x := Run(w, [begin, answer, Store(|w.tasks|, true)]);
            && x.rows.Keys == w.rows.Keys
            && (forall other :: other in w.rows && other != id ==> x.rows[other] == w.rows[other])
            && (if (answer.VenueCancel? && !answer.ok) || (answer.VenueQuery? && answer.snapshot.None?) then x.rows[id] == w.rows[id]
                else Answered(begin, answer, w.rows[id], x.rows[id]))
  {
    ThreeSteps(w, begin, answer, Store(|w.tasks|, true));
    var x := Step(w, begin);
    assert |x.tasks| == |w.tasks| + 1 && x.tasks[|w.tasks|].order == w.rows[id];
  }
}
