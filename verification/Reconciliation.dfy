/**
  Reconciliation of local rows with the exchange: in bulk against the list of open orders,
  one order at a time by query, and for positions. Repository failures are an oracle: the
  set of row ids whose update fails.
*/
module Reconciliation {
  import opened Entities

  type Orders = map<string, Order>

  predicate OrderStatesDiffer(local: Order, exchange: Order) {
    || local.status != exchange.status
    || local.filledQty != exchange.filledQty
    || local.remainingQty != exchange.remainingQty
    || local.avgFillPrice != exchange.avgFillPrice
  }

  /** Orders by exchange id; of two with the same id the later one counts. */
  function ByExchangeId(open: seq<Order>): Orders {
    if open == [] then map[]
    else ByExchangeId(open[..|open| - 1])[open[|open| - 1].exchangeOrderId := open[|open| - 1]]
  }

  /** The last order listed under this exchange id. */
  predicate LastUnder(open: seq<Order>, j: nat, x: string) {
    j < |open| && open[j].exchangeOrderId == x && forall k :: j < k < |open| ==> open[k].exchangeOrderId != x
  }

  predicate ListedUnder(open: seq<Order>, x: string) { exists j :: 0 <= j < |open| && open[j].exchangeOrderId == x }

  /** The map knows exactly the listed exchange ids, each with the last order listed under it. */
  lemma {:induction false} ByExchangeIdIs(open: seq<Order>, x: string)
    ensures x in ByExchangeId(open) <==> ListedUnder(open, x)
    ensures forall j: nat :: LastUnder(open, j, x) ==> x in ByExchangeId(open) && ByExchangeId(open)[x] == open[j]
    ensures ListedUnder(open, x) ==> exists j: nat :: LastUnder(open, j, x)
  {
    if open != [] {
      var n := |open| - 1;
      ByExchangeIdIs(open[..n], x);
      if open[n].exchangeOrderId == x {
        assert LastUnder(open, n, x);
      } else {
        if j: nat :| LastUnder(open[..n], j, x) { assert LastUnder(open, j, x); }
        forall j: nat | LastUnder(open, j, x) ensures LastUnder(open[..n], j, x) {}
      }
    }
  }

  /** The row takes over status and fills of the last order listed under its exchange id, or is cancelled if there is none. */
  ghost predicate Follows(before: Order, after: Order, open: seq<Order>) {
    && (forall j: nat :: LastUnder(open, j, before.exchangeOrderId) ==> TakesOver(before, after, open[j]))
    && (!ListedUnder(open, before.exchangeOrderId) ==> after == before.(status := Canceled))
  }

  /** Along with any of them, the time of the fill, if the exchange has one. */
  predicate TakesOver(before: Order, after: Order, e: Order) {
    var moved := before.(status := e.status, filledQty := e.filledQty, remainingQty := e.remainingQty, avgFillPrice := e.avgFillPrice);
    after == if moved != before && e.filledAt.Some? then moved.(filledAt := e.filledAt) else moved
  }

  lemma TargetFollows(local: Order, open: seq<Order>)
    requires local.exchangeOrderId != ""
    ensures Follows(local, Target(local, ByExchangeId(open)), open)
  {
    ByExchangeIdIs(open, local.exchangeOrderId);
  }

  /** What a pass makes of all rows: those active under an exchange id, and writable, follow the exchange. */
  ghost predicate RowsFollow(before: Orders, after: Orders, open: seq<Order>, failing: set<string>) {
    && after.Keys == before.Keys
    && forall id :: id in before ==>
         if before[id].IsActive() && before[id].exchangeOrderId != "" && id !in failing
         then Follows(before[id], after[id], open) else after[id] == before[id]
  }

  lemma PassFollows(rows: Orders, open: seq<Order>, failing: set<string>)
    ensures RowsFollow(rows, Reconciled(rows, ByExchangeId(open), failing), open, failing)
  {
    forall id | id in rows && rows[id].exchangeOrderId != ""
      ensures Follows(rows[id], Target(rows[id], ByExchangeId(open)), open)
    { TargetFollows(rows[id], open); }
  }

  /** What the bulk form makes of one active row. */
  function Target(local: Order, exchange: Orders): Order {
    if local.exchangeOrderId == "" then local
    else if local.exchangeOrderId !in exchange then local.(status := Canceled)
    else
      var e := exchange[local.exchangeOrderId];
      if !OrderStatesDiffer(local, e) then local
      else local.(status := e.status, filledQty := e.filledQty, remainingQty := e.remainingQty,
                  avgFillPrice := e.avgFillPrice,
                  filledAt := if e.filledAt.Some? then e.filledAt else local.filledAt)
  }

  predicate IsZombie(local: Order, exchange: Orders) {
    local.exchangeOrderId != "" && local.exchangeOrderId !in exchange
  }

  function Reconciled(rows: Orders, exchange: Orders, failing: set<string>): Orders {
    map id | id in rows :: if rows[id].IsActive() && id !in failing then Target(rows[id], exchange) else rows[id]
  }

  /** The repository's listing: a copy of every active row, each once, in any order. */
  ghost predicate Lists(rows: Orders, locals: seq<Order>) {
    && (forall i :: 0 <= i < |locals| ==> Holds(rows, locals[i]) && locals[i].IsActive())
    && (forall id :: id in rows && rows[id].IsActive() ==> id in Ids(locals))
    && (forall i, j :: 0 <= i < j < |locals| ==> locals[i].id != locals[j].id)
  }

  ghost predicate Holds(rows: Orders, o: Order) { o.id in rows && rows[o.id] == o }

  function Ids(locals: seq<Order>): set<string> {
    if locals == [] then {} else Ids(locals[..|locals| - 1]) + {locals[|locals| - 1].id}
  }

  datatype Report = Report(ordersUpdated: nat, zombieOrders: seq<string>, partialFills: seq<string>)

  predicate Written(o: Order, exchange: Orders, failing: set<string>) {
    Target(o, exchange) != o && o.id !in failing
  }

  function Updates(locals: seq<Order>, exchange: Orders, failing: set<string>): nat {
    if locals == [] then 0
    else Updates(locals[..|locals| - 1], exchange, failing) +
         if Written(locals[|locals| - 1], exchange, failing) then 1 else 0
  }

  function ZombieIds(locals: seq<Order>, exchange: Orders, failing: set<string>): seq<string> {
    if locals == [] then []
    else
      var o := locals[|locals| - 1];
      ZombieIds(locals[..|locals| - 1], exchange, failing) +
      if Written(o, exchange, failing) && IsZombie(o, exchange) then [o.id] else []
  }

  /** Taken from the mutated copies, whether or not they could be written. */
  function PartialIds(locals: seq<Order>, exchange: Orders): seq<string> {
    if locals == [] then []
    else
      var o := locals[|locals| - 1];
      PartialIds(locals[..|locals| - 1], exchange) + if Target(o, exchange).IsPartiallyFilled() then [o.id] else []
  }

  function Through(rows: Orders, locals: seq<Order>, exchange: Orders, failing: set<string>): Orders {
    if locals == [] then rows
    else
      var o := locals[|locals| - 1];
      var r := Through(rows, locals[..|locals| - 1], exchange, failing);
      if Written(o, exchange, failing) then r[o.id := Target(o, exchange)] else r
  }

  /** Zombies are the written rows that the exchange does not list; partial fills those it shows, or the row, partially filled. */
  ghost predicate Reports(locals: seq<Order>, open: seq<Order>, failing: set<string>, report: Report) {
    && (forall id :: id in report.zombieOrders <==>
          exists i :: && 0 <= i < |locals| && locals[i].id == id && id !in failing
                      && locals[i].exchangeOrderId != "" && !ListedUnder(open, locals[i].exchangeOrderId))
    && (forall id :: id in report.partialFills <==>
          exists i :: 0 <= i < |locals| && locals[i].id == id && ShownPartial(locals[i], open))
  }

  ghost predicate ShownPartial(o: Order, open: seq<Order>) {
    if o.exchangeOrderId == "" then o.status == Partial && o.filledQty > 0.0
    else exists j: nat :: LastUnder(open, j, o.exchangeOrderId) && open[j].status == Partial && open[j].filledQty > 0.0
  }

  lemma {:induction false} ZombiesAre(locals: seq<Order>, open: seq<Order>, failing: set<string>)
    requires forall i :: 0 <= i < |locals| ==> locals[i].IsActive()
    ensures forall id :: id in ZombieIds(locals, ByExchangeId(open), failing) <==>
              exists i :: && 0 <= i < |locals| && locals[i].id == id && id !in failing
                          && locals[i].exchangeOrderId != "" && !ListedUnder(open, locals[i].exchangeOrderId)
  {
    if locals != [] {
      var n := |locals| - 1;
      ZombiesAre(locals[..n], open, failing);
      ByExchangeIdIs(open, locals[n].exchangeOrderId);
      assert forall i :: 0 <= i < n ==> locals[..n][i] == locals[i];
    }
  }

  lemma {:induction false} PartialsAre(locals: seq<Order>, open: seq<Order>)
    ensures forall id :: id in PartialIds(locals, ByExchangeId(open)) <==>
              exists i :: 0 <= i < |locals| && locals[i].id == id && ShownPartial(locals[i], open)
  {
    if locals != [] {
      var n := |locals| - 1;
      PartialsAre(locals[..n], open);
      ByExchangeIdIs(open, locals[n].exchangeOrderId);
      assert forall i :: 0 <= i < n ==> locals[..n][i] == locals[i];
    }
  }

  lemma ReportTells(rows: Orders, locals: seq<Order>, open: seq<Order>, failing: set<string>)
    requires Lists(rows, locals)
    ensures var exchange := ByExchangeId(open);
            Reports(locals, open, failing,
                    Report(Updates(locals, exchange, failing), ZombieIds(locals, exchange, failing), PartialIds(locals, exchange)))
  {
    ZombiesAre(locals, open, failing);
    PartialsAre(locals, open);
  }

  class Reconciler {
    var rows: Orders

    /** None for a listing that failed: nothing is written then. */
    method ReconcileOrders(listed: Option<seq<Order>>, open: Option<seq<Order>>, failing: set<string>)
      returns (report: Option<Report>)
      requires listed.Some? ==> Lists(rows, listed.value)
      modifies this
      ensures report.None? ==> rows == old(rows) && (listed.None? || open.None?)
      ensures report.Some? ==> listed.Some? && open.Some?
      ensures report.Some? ==> rows == Reconciled(old(rows), ByExchangeId(open.value), failing)
      ensures report.Some? ==> RowsFollow(old(rows), rows, open.value, failing)
      ensures report.Some? ==> Reports(listed.value, open.value, failing, report.value)
      ensures report.Some? ==>
                var exchange := ByExchangeId(open.value);
                report.value == Report(Updates(listed.value, exchange, failing),
                                       ZombieIds(listed.value, exchange, failing),
                                       PartialIds(listed.value, exchange))
    {
      if listed.None? || open.None? { return None; }
      var locals := listed.value;
      var exchange := Index(open.value);
      var updated, zombies := 0, [];
      var mutated: seq<Order> := [];
      for i := 0 to |locals|
        invariant rows == Through(old(rows), locals[..i], exchange, failing)
        invariant updated == Updates(locals[..i], exchange, failing)
        invariant zombies == ZombieIds(locals[..i], exchange, failing)
        invariant |mutated| == i && forall j :: 0 <= j < i ==>
                    mutated[j] == Target(locals[j], exchange) && mutated[j].id == locals[j].id
      {
        assert locals[..i + 1][..i] == locals[..i];
        var local, wrote, zombie := ReconcileOne(locals[i], exchange, failing);
        mutated := mutated + [local];
        if wrote { updated := updated + 1; }
        if zombie { zombies := zombies + [local.id]; }
      }
      assert locals[..|locals|] == locals;
      ThroughAllIsReconciled(old(rows), locals, exchange, failing);
      var partials := FindPartials(locals, mutated, exchange);
      PassFollows(old(rows), open.value, failing);
      ReportTells(old(rows), locals, open.value, failing);
      return Some(Report(updated, zombies, partials));
    }

    static method FindPartials(ghost locals: seq<Order>, mutated: seq<Order>, ghost exchange: Orders)
      returns (partials: seq<string>)
      requires |mutated| == |locals|
      requires forall j :: 0 <= j < |locals| ==> mutated[j] == Target(locals[j], exchange) && mutated[j].id == locals[j].id
      ensures partials == PartialIds(locals, exchange)
    {
      partials := [];
      for i := 0 to |mutated|
        invariant partials == PartialIds(locals[..i], exchange)
      {
        assert locals[..i + 1][..i] == locals[..i];
        if mutated[i].IsPartiallyFilled() { partials := partials + [mutated[i].id]; }
      }
      assert locals[..|locals|] == locals;
    }

    static method Index(open: seq<Order>) returns (exchange: Orders)
      ensures exchange == ByExchangeId(open)
    {
      exchange := map[];
      for i := 0 to |open|
        invariant exchange == ByExchangeId(open[..i])
      {
        assert open[..i + 1][..i] == open[..i];
        exchange := exchange[open[i].exchangeOrderId := open[i]];
      }
      assert open[..|open|] == open;
    }

    /** The body of the loop over the local orders: `local` is the copy, changed even if the write fails. */
    method ReconcileOne(order: Order, exchange: Orders, failing: set<string>)
      returns (local: Order, wrote: bool, zombie: bool)
      requires order.IsActive()
      modifies this
      ensures local == Target(order, exchange) && local.id == order.id
      ensures wrote <==> Written(order, exchange, failing)
      ensures zombie <==> wrote && IsZombie(order, exchange)
      ensures rows == if wrote then old(rows)[order.id := local] else old(rows)
    {
      local, wrote, zombie := order, false, false;
      if local.exchangeOrderId == "" { return; }
      if local.exchangeOrderId !in exchange {
        local := local.(status := Canceled);
        if local.id in failing { return; }
        rows := rows[local.id := local];
        return local, true, true;
      }
      var e := exchange[local.exchangeOrderId];
      if OrderStatesDiffer(local, e) {
        local := local.(status := e.status, filledQty := e.filledQty, remainingQty := e.remainingQty,
                        avgFillPrice := e.avgFillPrice);
        if e.filledAt.Some? { local := local.(filledAt := e.filledAt); }
        if local.id in failing { return; }
        rows := rows[local.id := local];
        wrote := true;
      }
    }

    /** The order service's form: query each order; the first failed write ends the pass. */
    method ReconcileByQuery(locals: seq<Order>, venue: Orders, failing: set<string>) returns (done: nat)
      requires Lists(rows, locals)
      modifies this
      ensures done <= |locals|
      ensures forall i :: 0 <= i < done ==> !(Answered(locals[i], venue) && locals[i].id in failing)
      ensures done < |locals| ==> Answered(locals[done], venue) && locals[done].id in failing
      ensures rows == Queried(old(rows), venue, Ids(locals[..done]))
    {
      done := 0;
      while done < |locals|
        invariant done <= |locals|
        invariant forall i :: 0 <= i < done ==> !(Answered(locals[i], venue) && locals[i].id in failing)
        invariant rows == Queried(old(rows), venue, Ids(locals[..done]))
      {
        var order := locals[done];
        assert locals[..done + 1][..done] == locals[..done];
        assert Holds(old(rows), order);
        if order.exchangeOrderId != "" && order.exchangeOrderId in venue {
          var e := venue[order.exchangeOrderId];
          order := order.(status := e.status, filledQty := e.filledQty, remainingQty := e.remainingQty,
                          avgFillPrice := e.avgFillPrice);
          if order.id in failing { return; }
          rows := rows[order.id := order];
        }
        done := done + 1;
      }
    }
  }

  lemma {:induction false} ThroughRows(rows: Orders, locals: seq<Order>, exchange: Orders, failing: set<string>)
    requires forall i :: 0 <= i < |locals| ==> Holds(rows, locals[i])
    ensures Through(rows, locals, exchange, failing).Keys == rows.Keys
    ensures forall id :: id in rows ==>
              Through(rows, locals, exchange, failing)[id] ==
              if id in Ids(locals) && id !in failing then Target(rows[id], exchange) else rows[id]
  {
    if locals != [] { ThroughRows(rows, locals[..|locals| - 1], exchange, failing); }
  }

  lemma {:induction false} IdsAreActive(rows: Orders, locals: seq<Order>)
    requires forall i :: 0 <= i < |locals| ==> Holds(rows, locals[i]) && locals[i].IsActive()
    ensures forall id :: id in Ids(locals) ==> id in rows && rows[id].IsActive()
  {
    if locals != [] { IdsAreActive(rows, locals[..|locals| - 1]); }
  }

  /** The loop over all active rows writes what the pass is to write. */
  lemma ThroughAllIsReconciled(rows: Orders, locals: seq<Order>, exchange: Orders, failing: set<string>)
    requires Lists(rows, locals)
    ensures Through(rows, locals, exchange, failing) == Reconciled(rows, exchange, failing)
  {
    ThroughRows(rows, locals, exchange, failing);
    IdsAreActive(rows, locals);
  }

  /* ---------- One order at a time ---------- */

  predicate Answered(o: Order, venue: Orders) { o.exchangeOrderId != "" && o.exchangeOrderId in venue }

  function FromQuery(o: Order, venue: Orders): Order {
    if !Answered(o, venue) then o
    else
      var e := venue[o.exchangeOrderId];
      o.(status := e.status, filledQty := e.filledQty, remainingQty := e.remainingQty, avgFillPrice := e.avgFillPrice)
  }

  function Queried(rows: Orders, venue: Orders, done: set<string>): Orders {
    map id | id in rows :: if id in done then FromQuery(rows[id], venue) else rows[id]
  }

  /* ---------- What a pass achieves ---------- */

  predicate SameState(a: Order, b: Order) { !OrderStatesDiffer(a, b) }

  /** Every active order the venue knows by id ends as the venue shows it, or cancelled; no other row moves. */
  lemma PassResult(rows: Orders, exchange: Orders, id: string)
    requires id in rows
    ensures var o, t := rows[id], Reconciled(rows, exchange, {})[id];
            && (o.IsActive() && o.exchangeOrderId in exchange && o.exchangeOrderId != "" ==>
                  SameState(t, exchange[o.exchangeOrderId]))
            && (o.IsActive() && IsZombie(o, exchange) ==> t == o.(status := Canceled))
            && (!o.IsActive() || o.exchangeOrderId == "" ==> t == o)
            && t.id == o.id && t.exchangeOrderId == o.exchangeOrderId && t.symbol == o.symbol
            && t.side == o.side && t.quantity == o.quantity && t.price == o.price
  {}

  function WrittenIds(locals: seq<Order>, exchange: Orders, failing: set<string>): set<string> {
    if locals == [] then {}
    else
      var o := locals[|locals| - 1];
      WrittenIds(locals[..|locals| - 1], exchange, failing) + if Written(o, exchange, failing) then {o.id} else {}
  }

  lemma {:induction false} WrittenIdsCount(locals: seq<Order>, exchange: Orders, failing: set<string>)
    requires forall i, j :: 0 <= i < j < |locals| ==> locals[i].id != locals[j].id
    ensures Updates(locals, exchange, failing) == |WrittenIds(locals, exchange, failing)|
  {
    if locals != [] {
      var n := |locals| - 1;
      WrittenIdsCount(locals[..n], exchange, failing);
      NotWritten(locals[..n], exchange, failing, locals[n].id);
      var ids := WrittenIds(locals[..n], exchange, failing);
      assert |ids + {locals[n].id}| == |ids| + 1;
    }
  }

  lemma {:induction false} NotWritten(locals: seq<Order>, exchange: Orders, failing: set<string>, id: string)
    requires forall i :: 0 <= i < |locals| ==> locals[i].id != id
    ensures id !in WrittenIds(locals, exchange, failing)
  {
    if locals != [] { NotWritten(locals[..|locals| - 1], exchange, failing, id); }
  }

  lemma {:induction false} WrittenIdsAre(rows: Orders, locals: seq<Order>, exchange: Orders, failing: set<string>)
    requires forall i :: 0 <= i < |locals| ==> Holds(rows, locals[i])
    ensures forall id :: id in WrittenIds(locals, exchange, failing) <==>
                         id in Ids(locals) && id in rows && Written(rows[id], exchange, failing)
  {
    if locals != [] { WrittenIdsAre(rows, locals[..|locals| - 1], exchange, failing); }
  }

  /** Every row carries its own key. */
  ghost predicate Keyed(rows: Orders) { forall id :: id in rows ==> rows[id].id == id }

  /** The reported number is the number of rows that the pass has changed. */
  lemma UpdatesCountChangedRows(rows: Orders, locals: seq<Order>, exchange: Orders, failing: set<string>)
    requires Lists(rows, locals) && Keyed(rows)
    ensures Updates(locals, exchange, failing) ==
            |set id | id in rows && Reconciled(rows, exchange, failing)[id] != rows[id]|
  {
    WrittenIdsCount(locals, exchange, failing);
    WrittenIdsAre(rows, locals, exchange, failing);
    IdsAreActive(rows, locals);
    assert WrittenIds(locals, exchange, failing)
           == set id | id in rows && Reconciled(rows, exchange, failing)[id] != rows[id];
  }

  lemma TargetStable(o: Order, exchange: Orders)
    ensures Target(o, exchange).IsActive() ==> Target(Target(o, exchange), exchange) == Target(o, exchange)
  {}

  /** Writes that failed are made up for by the next pass, which then leaves nothing to do. */
  lemma RetryConverges(rows: Orders, exchange: Orders, failing: set<string>)
    ensures Reconciled(Reconciled(rows, exchange, failing), exchange, {}) == Reconciled(rows, exchange, {})
  {
    forall id | id in rows { TargetStable(rows[id], exchange); }
  }

  /** A second pass against the same exchange writes nothing. */
  lemma SecondPassWritesNothing(rows: Orders, exchange: Orders, locals: seq<Order>)
    requires Lists(Reconciled(rows, exchange, {}), locals) && Keyed(rows)
    ensures Reconciled(Reconciled(rows, exchange, {}), exchange, {}) == Reconciled(rows, exchange, {})
    ensures Updates(locals, exchange, {}) == 0
  {
    var after := Reconciled(rows, exchange, {});
    RetryConverges(rows, exchange, {});
    assert Keyed(after);
    UpdatesCountChangedRows(after, locals, exchange, {});
    assert (set id | id in after && Reconciled(after, exchange, {})[id] != after[id]) == {};
  }

  /* ---------- Bulk against per-order ---------- */

  /** `book` is everything the venue knows; `open` are the ids it lists as open. */
  function OpenOrders(book: Orders, open: set<string>): Orders { map x | x in book && x in open :: book[x] }

  predicate SameFills(a: Order, b: Order) {
    a.filledQty == b.filledQty && a.remainingQty == b.remainingQty && a.avgFillPrice == b.avgFillPrice
  }

  /** Still open at the venue, or cancelled there with the fills already known locally. */
  predicate StillOpenOrCancelled(o: Order, book: Orders, open: set<string>) {
    || o.exchangeOrderId in open
    || (&& o.exchangeOrderId in book
        && book[o.exchangeOrderId].status == Canceled
        && SameFills(book[o.exchangeOrderId], o))
  }

  /**
    The two forms leave an active order with the same status and fills exactly when it is
    still open at the venue, or was cancelled there with the fills already known locally.
   */
  lemma FormsAgreeExactlyWhen(o: Order, book: Orders, open: set<string>)
    requires o.IsActive() && o.exchangeOrderId != "" && open <= book.Keys
    ensures SameState(Target(o, OpenOrders(book, open)), FromQuery(o, book)) <==> StillOpenOrCancelled(o, book, open)
  {}

  /** Only the bulk form copies the time of the fill, and only along with another change. */
  predicate FillTimeMoves(o: Order, book: Orders, open: set<string>) {
    && o.exchangeOrderId in open && o.exchangeOrderId in book
    && OrderStatesDiffer(o, book[o.exchangeOrderId])
    && book[o.exchangeOrderId].filledAt.Some? && book[o.exchangeOrderId].filledAt != o.filledAt
  }

  /** And they leave the very same row exactly when, besides, the bulk form does not move the time of the fill. */
  lemma FormsEqualExactlyWhen(o: Order, book: Orders, open: set<string>)
    requires o.IsActive() && o.exchangeOrderId != "" && open <= book.Keys
    ensures Target(o, OpenOrders(book, open)) == FromQuery(o, book) <==>
            StillOpenOrCancelled(o, book, open) && !FillTimeMoves(o, book, open)
  {}

  ghost predicate ActiveIds(rows: Orders, ids: set<string>) { forall id :: id in ids <==> id in rows && rows[id].IsActive() }

  /** The active orders that the venue knows under an id. */
  predicate Queryable(o: Order) { o.IsActive() && o.exchangeOrderId != "" }

  /** A whole pass of either form, without failures, leaves the same states exactly when that holds of every active order. */
  lemma PassesAgreeExactlyWhen(rows: Orders, book: Orders, open: set<string>, ids: set<string>)
    requires open <= book.Keys && ActiveIds(rows, ids)
    ensures (forall id :: id in rows ==>
               SameState(Reconciled(rows, OpenOrders(book, open), {})[id], Queried(rows, book, ids)[id])) <==>
            (forall id :: id in rows && Queryable(rows[id]) ==> StillOpenOrCancelled(rows[id], book, open))
  {
    forall id | id in rows
      ensures SameState(Reconciled(rows, OpenOrders(book, open), {})[id], Queried(rows, book, ids)[id]) <==>
              (Queryable(rows[id]) ==> StillOpenOrCancelled(rows[id], book, open))
    {
      if Queryable(rows[id]) { FormsAgreeExactlyWhen(rows[id], book, open); }
    }
  }

  /** So an order that has filled since is booked as cancelled, its fill unseen. */
  lemma BulkCancelsFilledOrder(o: Order, book: Orders, open: set<string>)
    requires o.IsActive() && o.exchangeOrderId != "" && o.exchangeOrderId in book && o.exchangeOrderId !in open
    requires book[o.exchangeOrderId].status == Filled
    ensures Target(o, OpenOrders(book, open)) == o.(status := Canceled)
    ensures FromQuery(o, book).status == Filled && FromQuery(o, book).filledQty == book[o.exchangeOrderId].filledQty
  {}

  /* ---------- Positions ---------- */

  /** A stored position; `closed` once it has a closing time. */
  datatype Row = Row(symbol: string, position: Position, closed: bool)

  type Rows = map<string, Row>

  type Positions = map<string, Position>

  predicate PositionStatesDiffer(local: Position, exchange: Position) {
    local.quantity != exchange.quantity || local.currentPrice != exchange.currentPrice
  }

  function PositionTarget(r: Row, exchange: Positions): Row {
    if r.symbol !in exchange || exchange[r.symbol].IsFlat() then
      if r.position.IsFlat() then r else
      var p := r.position.(quantity := 0.0, side := Flat, unrealizedPnL := 0.0);
      Row(r.symbol,
          if r.symbol in exchange
          then p.(currentPrice := exchange[r.symbol].currentPrice, realizedPnL := exchange[r.symbol].realizedPnL) else p,
          true)
    else
      var e := exchange[r.symbol];
      if !PositionStatesDiffer(r.position, e) then r
      else r.(position := r.position.(quantity := e.quantity, currentPrice := e.currentPrice, unrealizedPnL := e.unrealizedPnL))
  }

  function ReconciledPositions(rows: Rows, exchange: Positions, failing: set<string>): Rows {
    map id | id in rows ::
      if !rows[id].closed && id !in failing then PositionTarget(rows[id], exchange) else rows[id]
  }

  /** The rows once those in `done` have been gone through. */
  function PositionsThrough(rows: Rows, exchange: Positions, failing: set<string>, done: seq<string>): Rows {
    map id | id in rows :: if id in done && id !in failing then PositionTarget(rows[id], exchange) else rows[id]
  }

  function ChangedRows(before: Rows, after: Rows): set<string> {
    set id | id in before && id in after && after[id] != before[id]
  }

  lemma NextPosition(rows: Rows, exchange: Positions, failing: set<string>, done: seq<string>, id: string)
    returns (t: Rows, u: Rows)
    requires id in rows && id !in done
    ensures t == PositionsThrough(rows, exchange, failing, done)
    ensures u == PositionsThrough(rows, exchange, failing, done + [id])
    ensures id in t && t[id] == rows[id]
    ensures id in failing || PositionTarget(rows[id], exchange) == rows[id] ==> u == t
    ensures id !in failing && PositionTarget(rows[id], exchange) != rows[id] ==>
              u == t[id := PositionTarget(rows[id], exchange)] && |ChangedRows(rows, u)| == |ChangedRows(rows, t)| + 1
  {
    t, u := PositionsThrough(rows, exchange, failing, done), PositionsThrough(rows, exchange, failing, done + [id]);
    assert u == if id in failing then t else t[id := PositionTarget(rows[id], exchange)];
    assert t[id := rows[id]] == t;
    if id !in failing && PositionTarget(rows[id], exchange) != rows[id] {
      assert ChangedRows(rows, u) == ChangedRows(rows, t) + {id};
    }
  }

  method ReconcilePosition(row: Row, exchange: Positions) returns (local: Row, changed: bool)
    ensures local == PositionTarget(row, exchange) && (!row.closed ==> (changed <==> local != row))
  {
    local := row;
    var p := row.position;
    if row.symbol !in exchange || exchange[row.symbol].IsFlat() {
      if p.IsFlat() { return local, false; }
      p := p.(quantity := 0.0, side := Flat, unrealizedPnL := 0.0);
      if row.symbol in exchange {
        p := p.(currentPrice := exchange[row.symbol].currentPrice, realizedPnL := exchange[row.symbol].realizedPnL);
      }
      return Row(row.symbol, p, true), true;
    }
    var e := exchange[row.symbol];
    if PositionStatesDiffer(p, e) {
      p := p.(quantity := e.quantity, currentPrice := e.currentPrice, unrealizedPnL := e.unrealizedPnL);
      return row.(position := p), true;
    }
    changed := false;
  }

  /** The repository's listing of the open rows, each once. */
  ghost predicate ListsOpen(rows: Rows, ids: seq<string>) {
    && (forall i :: 0 <= i < |ids| ==> ids[i] in rows && !rows[ids[i]].closed)
    && (forall i, j :: 0 <= i < j < |ids| ==> ids[i] != ids[j])
    && (forall id :: id in rows && !rows[id].closed ==> id in ids)
  }

  /** Positions by symbol; of two with the same symbol the later one counts. */
  function BySymbol(listed: seq<(string, Position)>): Positions {
    if listed == [] then map[]
    else BySymbol(listed[..|listed| - 1])[listed[|listed| - 1].0 := listed[|listed| - 1].1]
  }

  predicate LastOf(listed: seq<(string, Position)>, j: nat, symbol: string) {
    j < |listed| && listed[j].0 == symbol && forall k :: j < k < |listed| ==> listed[k].0 != symbol
  }

  predicate ListedAs(listed: seq<(string, Position)>, symbol: string) { exists j :: 0 <= j < |listed| && listed[j].0 == symbol }

  /** The map knows exactly the listed symbols, each with the last position listed under it. */
  lemma {:induction false} BySymbolIs(listed: seq<(string, Position)>, symbol: string)
    ensures symbol in BySymbol(listed) <==> ListedAs(listed, symbol)
    ensures forall j: nat :: LastOf(listed, j, symbol) ==> symbol in BySymbol(listed) && BySymbol(listed)[symbol] == listed[j].1
    ensures ListedAs(listed, symbol) ==> exists j: nat :: LastOf(listed, j, symbol)
  {
    if listed != [] {
      var n := |listed| - 1;
      BySymbolIs(listed[..n], symbol);
      if listed[n].0 == symbol {
        assert LastOf(listed, n, symbol);
      } else {
        if j: nat :| LastOf(listed[..n], j, symbol) { assert LastOf(listed, j, symbol); }
        forall j: nat | LastOf(listed, j, symbol) ensures LastOf(listed[..n], j, symbol) {}
      }
    }
  }

  /** A position that the exchange does not list is closed; of a flat one it takes price and realized profit along. */
  predicate Closes(before: Row, after: Row, listing: Option<Position>) {
    if before.position.side == Flat || before.position.quantity == 0.0 then after == before
    else
      && after.closed && after.symbol == before.symbol
      && after.position == Position(Flat, 0.0, before.position.entryPrice,
                                    if listing.Some? then listing.value.currentPrice else before.position.currentPrice,
                                    0.0,
                                    if listing.Some? then listing.value.realizedPnL else before.position.realizedPnL)
  }

  /** A position that it holds takes over quantity and price, and along with either the unrealized profit. */
  predicate StaysHeld(before: Row, after: Row, e: Position) {
    && after.position.quantity == e.quantity && after.position.currentPrice == e.currentPrice
    && after.position.unrealizedPnL ==
         (if before.position.quantity != e.quantity || before.position.currentPrice != e.currentPrice
          then e.unrealizedPnL else before.position.unrealizedPnL)
    && after.closed == before.closed && after.symbol == before.symbol && after.position.side == before.position.side
    && after.position.entryPrice == before.position.entryPrice && after.position.realizedPnL == before.position.realizedPnL
  }

  ghost predicate PositionFollows(before: Row, after: Row, listed: seq<(string, Position)>) {
    && (!ListedAs(listed, before.symbol) ==> Closes(before, after, None))
    && forall j: nat :: LastOf(listed, j, before.symbol) ==>
         var e := listed[j].1;
         if e.side == Flat || e.quantity == 0.0 then Closes(before, after, Some(e)) else StaysHeld(before, after, e)
  }

  ghost predicate PositionsFollow(before: Rows, after: Rows, listed: seq<(string, Position)>, failing: set<string>) {
    && after.Keys == before.Keys
    && forall id :: id in before ==>
         if !before[id].closed && id !in failing then PositionFollows(before[id], after[id], listed) else after[id] == before[id]
  }

  lemma PositionPassFollows(rows: Rows, listed: seq<(string, Position)>, failing: set<string>)
    ensures PositionsFollow(rows, ReconciledPositions(rows, BySymbol(listed), failing), listed, failing)
  {
    forall id | id in rows ensures PositionFollows(rows[id], PositionTarget(rows[id], BySymbol(listed)), listed) {
      BySymbolIs(listed, rows[id].symbol);
    }
  }

  method IndexPositions(listed: seq<(string, Position)>) returns (exchange: Positions)
    ensures exchange == BySymbol(listed)
  {
    exchange := map[];
    for i := 0 to |listed|
      invariant exchange == BySymbol(listed[..i])
    {
      assert listed[..i + 1][..i] == listed[..i];
      exchange := exchange[listed[i].0 := listed[i].1];
    }
    assert listed[..|listed|] == listed;
  }

  /** None for a listing that failed: nothing is written then. */
  method ReconcilePositions(rows0: Rows, ids: Option<seq<string>>, listed: Option<seq<(string, Position)>>, failing: set<string>)
    returns (rows: Rows, updated: Option<nat>)
    requires ids.Some? ==> ListsOpen(rows0, ids.value)
    ensures updated.None? <==> ids.None? || listed.None?
    ensures updated.None? ==> rows == rows0
    ensures updated.Some? ==> rows == ReconciledPositions(rows0, BySymbol(listed.value), failing)
    ensures updated.Some? ==> updated.value == |ChangedRows(rows0, rows)|
    ensures updated.Some? ==> PositionsFollow(rows0, rows, listed.value, failing)
  {
    if ids.None? { return rows0, None; }
    if listed.None? { return rows0, None; }
    var exchange := IndexPositions(listed.value);
    var count: nat;
    rows, count := ReconcileEach(rows0, ids.value, exchange, failing);
    PositionPassFollows(rows0, listed.value, failing);
    return rows, Some(count);
  }

  /** Once every open row is done, the pass is over. */
  lemma PassEnds(rows: Rows, exchange: Positions, failing: set<string>, ids: seq<string>)
    requires ListsOpen(rows, ids)
    ensures PositionsThrough(rows, exchange, failing, ids) == ReconciledPositions(rows, exchange, failing)
  {}

  /** The loop over the local positions. */
  method ReconcileEach(rows0: Rows, ids: seq<string>, exchange: Positions, failing: set<string>)
    returns (rows: Rows, updated: nat)
    requires ListsOpen(rows0, ids)
    ensures rows == ReconciledPositions(rows0, exchange, failing)
    ensures updated == |ChangedRows(rows0, rows)|
  {
    rows, updated := rows0, 0;
    assert ChangedRows(rows0, rows0) == {};
    for i := 0 to |ids|
      invariant rows == PositionsThrough(rows0, exchange, failing, ids[..i])
      invariant updated == |ChangedRows(rows0, rows)|
    {
      var id := ids[i];
      assert ids[..i + 1] == ids[..i] + [id];
      ghost var t, u := NextPosition(rows0, exchange, failing, ids[..i], id);
      var local, changed := ReconcilePosition(rows[id], exchange);
      if changed && id !in failing {
        rows := rows[id := local];
        updated := updated + 1;
      }
    }
    assert ids[..|ids|] == ids;
    PassEnds(rows0, exchange, failing, ids);
  }

  /** Positions converge too, in one pass without failures. */
  lemma PositionRetryConverges(rows: Rows, exchange: Positions, failing: set<string>)
    ensures ReconciledPositions(ReconciledPositions(rows, exchange, failing), exchange, {})
            == ReconciledPositions(rows, exchange, {})
  {}

  /** Quantity and price follow the exchange; the side never does, unless the position is closed. */
  lemma PositionPassResult(rows: Rows, exchange: Positions, id: string)
    requires id in rows && !rows[id].closed
    ensures var r, t := rows[id], ReconciledPositions(rows, exchange, {})[id];
            if r.symbol in exchange && !exchange[r.symbol].IsFlat() then
              && !PositionStatesDiffer(t.position, exchange[r.symbol]) && !t.closed
              && (t.position.side == exchange[r.symbol].side <==> r.position.side == exchange[r.symbol].side)
            else t.position.IsFlat() && (t.closed <==> !r.position.IsFlat())
  {}

  /** A pass: what the exchange lists, and the rows that cannot be written. */
  datatype Pass = Pass(exchange: Positions, failing: set<string>)

  function AfterPasses(rows: Rows, passes: seq<Pass>): Rows {
    if passes == [] then rows
    else
      var last := passes[|passes| - 1];
      ReconciledPositions(AfterPasses(rows, passes[..|passes| - 1]), last.exchange, last.failing)
  }

  /** Every pass finds the symbol held at the exchange. */
  predicate AlwaysHeld(symbol: string, passes: seq<Pass>) {
    forall i :: 0 <= i < |passes| ==> symbol in passes[i].exchange && !passes[i].exchange[symbol].IsFlat()
  }

  lemma {:induction false} HeldKeepsSide(rows: Rows, passes: seq<Pass>, id: string)
    requires id in rows && AlwaysHeld(rows[id].symbol, passes)
    ensures id in AfterPasses(rows, passes)
    ensures var r := AfterPasses(rows, passes)[id];
            r.symbol == rows[id].symbol && r.closed == rows[id].closed && r.position.side == rows[id].position.side
  {
    if passes != [] { HeldKeepsSide(rows, passes[..|passes| - 1], id); }
  }

  /**
    However many passes find a symbol held at the exchange: the local side differs from the
    exchange's afterwards exactly when it did to begin with, although quantity and price of
    an open row agree once it has been written.
   */
  lemma {:induction false} SideDiffersExactlyWhen(rows: Rows, passes: seq<Pass>, id: string)
    requires id in rows && passes != [] && AlwaysHeld(rows[id].symbol, passes)
    ensures id in AfterPasses(rows, passes)
    ensures var last, r := passes[|passes| - 1], AfterPasses(rows, passes)[id];
            var e := last.exchange[rows[id].symbol];
            && (r.position.side != e.side <==> rows[id].position.side != e.side)
            && (!rows[id].closed && id !in last.failing ==> !PositionStatesDiffer(r.position, e))
  {
    HeldKeepsSide(rows, passes[..|passes| - 1], id);
  }
}
