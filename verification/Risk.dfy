/**
  The risk engine's acceptance rules, and what they guarantee about the paper ledger when
  every order is validated against the current position and filled before the next one.
*/
module Risk {
  import opened Entities
  import opened PaperLedger

  /** `Crash`: a zero step or tick size divides by zero. */
  datatype Verdict =
    | Accepted
    | SymbolNotTrading
    | InvalidOrderQuantity
    | InvalidOrderPrice
    | InvalidNotional
    | DailyLossLimitExceeded
    | PositionLimitExceeded
    | InsufficientBalance
    | FlatPosition
    | WrongSide
    | ExceedsPosition
    | Crash

  predicate IsMultiple(a: real, step: real)
    requires step != 0.0
  {
    (a / step).Floor as real == a / step
  }

  /** Some(b): the check says b. None: it panics. */
  function OnGrid(a: real, low: real, high: real, step: real): Option<bool> {
    if a < low || a > high then Some(false)
    else if step == 0.0 then None
    else Some(IsMultiple(a, step))
  }

  function ValidateQuantity(s: Symbol, quantity: real): Option<bool> {
    OnGrid(quantity, s.minOrderQty, s.maxOrderQty, s.stepSize)
  }

  function ValidatePrice(s: Symbol, price: real): Option<bool> {
    OnGrid(price, s.minPrice, s.maxPrice, s.tickSize)
  }

  predicate ValidateNotional(s: Symbol, quantity: real, price: real) {
    Notional(quantity, price) >= s.minNotional
  }

  function ReferencePrice(o: Order, s: Symbol, position: Option<Position>): real {
    if o.kind == Market then
      if position.Some? && position.value.currentPrice != 0.0 then position.value.currentPrice else s.maxPrice
    else o.price
  }

  function NewPositionSize(o: Order, position: Option<Position>): real {
    if position.Some? && !position.value.IsFlat() && Extends(position.value, o.side)
    then position.value.quantity + o.quantity else o.quantity
  }

  function ValidateOrder(o: Order, strategy: Strategy, s: Symbol, available: Option<real>, position: Option<Position>): Verdict {
    if !s.trading then SymbolNotTrading
    else if ValidateQuantity(s, o.quantity).None? then Crash
    else if !ValidateQuantity(s, o.quantity).value then InvalidOrderQuantity
    else if o.kind == Limit && ValidatePrice(s, o.price).None? then Crash
    else if o.kind == Limit && !ValidatePrice(s, o.price).value then InvalidOrderPrice
    else if !ValidateNotional(s, o.quantity, ReferencePrice(o, s, position)) then InvalidNotional
    else if strategy.HasReachedDailyLossLimit() then DailyLossLimitExceeded
    else if strategy.maxPositionSize != 0.0 && NewPositionSize(o, position) > strategy.maxPositionSize then PositionLimitExceeded
    else if available.Some? && available.value < Notional(o.quantity, ReferencePrice(o, s, position)) then InsufficientBalance
    else Accepted
  }

  function ValidatePositionClose(o: Order, position: Position, s: Symbol): Verdict {
    if position.IsFlat() then FlatPosition
    else if (position.side == Long && o.side != Sell) || (position.side == Short && o.side != Buy) then WrongSide
    else if o.quantity > position.quantity then ExceedsPosition
    else if ValidateQuantity(s, o.quantity).None? then Crash
    else if !ValidateQuantity(s, o.quantity).value then InvalidOrderQuantity
    else Accepted
  }

  /* ---------- Multiples ---------- */

  lemma MultipleOf(a: real, step: real, k: int)
    requires step != 0.0 && a == k as real * step
    ensures IsMultiple(a, step)
  {
    assert a / step == k as real;
  }

  lemma Factor(a: real, step: real) returns (k: int)
    requires step != 0.0 && IsMultiple(a, step)
    ensures a == k as real * step
  {
    k := (a / step).Floor;
    assert (a / step) * step == a;
  }

  lemma MultiplesAdd(a: real, b: real, step: real)
    requires step != 0.0 && IsMultiple(a, step) && IsMultiple(b, step)
    ensures IsMultiple(a + b, step) && IsMultiple(a - b, step)
  {
    var j := Factor(a, step);
    var k := Factor(b, step);
    assert (j + k) as real == j as real + k as real && (j - k) as real == j as real - k as real;
    MultipleOf(a + b, step, j + k);
    MultipleOf(a - b, step, j - k);
  }

  /* ---------- Exactly when an order is accepted, and why not ---------- */

  function Times(k: int, step: real): real { k as real * step }

  ghost predicate Steps(a: real, step: real) { exists k: int :: a == Times(k, step) }

  lemma MultipleIsSteps(a: real, step: real)
    requires step != 0.0
    ensures IsMultiple(a, step) <==> Steps(a, step)
  {
    if IsMultiple(a, step) {
      var k := Factor(a, step);
      assert a == Times(k, step);
    }
    if k: int :| a == Times(k, step) { MultipleOf(a, step, k); }
  }

  /** What an order costs at: its own price, or for a market order the position's price if it has one, or the highest allowed. */
  ghost predicate CostsAt(o: Order, s: Symbol, position: Option<Position>, price: real) {
    match o.kind
    case Limit => price == o.price
    case Market =>
      if position == None || position.value.currentPrice == 0.0 then price == s.maxPrice else price == position.value.currentPrice
  }

  /** The open quantity that the order would add to: long for a purchase, short for a sale. */
  function AddsTo(o: Order, position: Option<Position>): real {
    if position.Some? && position.value.side == (if o.side == Buy then Long else Short) then position.value.quantity else 0.0
  }

  ghost predicate QuantityFits(o: Order, s: Symbol) {
    s.minOrderQty <= o.quantity <= s.maxOrderQty && Steps(o.quantity, s.stepSize)
  }

  ghost predicate PriceFits(o: Order, s: Symbol) {
    o.kind == Limit ==> s.minPrice <= o.price <= s.maxPrice && Steps(o.price, s.tickSize)
  }

  predicate LossFits(strategy: Strategy) { strategy.maxDailyLoss == 0.0 || strategy.dailyPnL > -strategy.maxDailyLoss }

  predicate SizeFits(o: Order, strategy: Strategy, position: Option<Position>) {
    strategy.maxPositionSize == 0.0 || AddsTo(o, position) + o.quantity <= strategy.maxPositionSize
  }

  lemma SizeIs(o: Order, position: Option<Position>)
    ensures NewPositionSize(o, position) == AddsTo(o, position) + o.quantity
  {
  }

  /**
    With a step and a tick that are not zero an order is refused for the first of these that
    it violates, and accepted when it violates none: the symbol trades, the quantity and the
    limit price fit, what it costs reaches the minimum, the day's loss and the position stay
    within their limits, and the balance, if known, covers the cost.
   */
  lemma VerdictExactlyWhen(o: Order, strategy: Strategy, s: Symbol, available: Option<real>, position: Option<Position>, price: real)
    requires s.stepSize != 0.0 && s.tickSize != 0.0 && CostsAt(o, s, position, price)
    ensures var v := ValidateOrder(o, strategy, s, available, position);
            var fits := s.trading && QuantityFits(o, s) && PriceFits(o, s);
            var costs := fits && o.quantity * price >= s.minNotional;
            var within := costs && LossFits(strategy) && SizeFits(o, strategy, position);
            && (v == SymbolNotTrading <==> !s.trading)
            && (v == InvalidOrderQuantity <==> s.trading && !QuantityFits(o, s))
            && (v == InvalidOrderPrice <==> s.trading && QuantityFits(o, s) && !PriceFits(o, s))
            && (v == InvalidNotional <==> fits && !costs)
            && (v == DailyLossLimitExceeded <==> costs && !LossFits(strategy))
            && (v == PositionLimitExceeded <==> costs && LossFits(strategy) && !within)
            && (v == InsufficientBalance <==> within && available.Some? && available.value < o.quantity * price)
            && (v == Accepted <==> within && (available.Some? ==> available.value >= o.quantity * price))
  {
    MultipleIsSteps(o.quantity, s.stepSize);
    MultipleIsSteps(o.price, s.tickSize);
    SizeIs(o, position);
  }

  /** A close is refused for the first it violates: something is open, on the other side of the order, at least as much, in whole steps. */
  lemma CloseVerdictExactlyWhen(o: Order, position: Position, s: Symbol)
    requires s.stepSize != 0.0
    ensures var v := ValidatePositionClose(o, position, s);
            var open := position.quantity != 0.0 && position.side != Flat;
            var opposite := open && position.side == (if o.side == Sell then Long else Short);
            && (v == FlatPosition <==> !open)
            && (v == WrongSide <==> open && !opposite)
            && (v == ExceedsPosition <==> opposite && o.quantity > position.quantity)
            && (v == InvalidOrderQuantity <==> opposite && o.quantity <= position.quantity && !QuantityFits(o, s))
            && (v == Accepted <==> opposite && o.quantity <= position.quantity && QuantityFits(o, s))
  {
    MultipleIsSteps(o.quantity, s.stepSize);
  }

  /** A step or a tick of zero crashes the check that divides by it. */
  lemma CrashesExactlyWhen(o: Order, strategy: Strategy, s: Symbol, available: Option<real>, position: Option<Position>)
    ensures ValidateOrder(o, strategy, s, available, position) == Crash <==>
            && s.trading && s.minOrderQty <= o.quantity <= s.maxOrderQty
            && (|| s.stepSize == 0.0
                || (Steps(o.quantity, s.stepSize) && o.kind == Limit && s.minPrice <= o.price <= s.maxPrice && s.tickSize == 0.0))
  {
    if s.stepSize != 0.0 { MultipleIsSteps(o.quantity, s.stepSize); }
  }

  /* ---------- Validated trading ---------- */

  datatype Rule = Rule(symbol: Symbol, maxPositionSize: real, maxDailyLoss: real)

  datatype Request =
    | Entry(id: string, order: Order, dailyPnL: real, available: Option<real>, at: int)
    | Close(id: string, order: Order, at: int)
    | Tick(name: string, price: real)

  predicate Accepts(rules: string -> Rule, s: Ledger, r: Request)
    requires !r.Tick?
  {
    var rule := rules(r.order.symbol);
    var position := PositionOf(s, r.order.symbol);
    match r
    case Entry(_, o, dailyPnL, available, _) =>
      ValidateOrder(o, Strategy(rule.maxPositionSize, rule.maxDailyLoss, dailyPnL), rule.symbol, available, position) == Accepted
    case Close(_, o, _) => position.Some? && ValidatePositionClose(o, position.value, rule.symbol) == Accepted
  }

  /** One request: validated on the current position, and if accepted filled before the next. */
  function Trade(rules: string -> Rule, s: Ledger, r: Request): Ledger {
    match r
    case Tick(name, price) => Step(s, Price(name, price))
    case _ =>
      if Enabled(s, Submit(r.id, r.order)) && Accepts(rules, s, r)
      then Step(Step(s, Submit(r.id, r.order)), FillDue(r.id, r.at))
      else s
  }

  function Session(rules: string -> Rule, s: Ledger, rs: seq<Request>): Ledger
    decreases |rs|
  {
    if rs == [] then s else Session(rules, Trade(rules, s, rs[0]), rs[1..])
  }

  ghost predicate WithinLimits(rule: Rule, p: Position) {
    && p.quantity >= 0.0
    && (p.quantity != 0.0 ==> rule.symbol.stepSize != 0.0)
    && (rule.symbol.stepSize != 0.0 ==> IsMultiple(p.quantity, rule.symbol.stepSize))
    && (rule.maxPositionSize != 0.0 && p.quantity != 0.0 ==> p.quantity <= rule.maxPositionSize)
  }

  ghost predicate AllWithinLimits(rules: string -> Rule, s: Ledger) {
    forall k :: k in s.positions ==> WithinLimits(rules(k), s.positions[k])
  }

  /** An accepted fill keeps a position within its limits exactly when it does not outgrow them. */
  lemma FillWithinLimitsExactlyWhen(rule: Rule, p: Option<Position>, o: Order, price: real)
    requires p.Some? ==> WithinLimits(rule, p.value)
    requires Apply(p, o, price).Some?
    requires ValidateQuantity(rule.symbol, o.quantity) == Some(true)
    requires (p.Some? && !Extends(p.value, o.side)) ||
             rule.maxPositionSize == 0.0 || NewPositionSize(o, p) <= rule.maxPositionSize
    ensures WithinLimits(rule, Apply(p, o, price).value) <==> !Outgrows(rule, p, o)
  {
    var step := rule.symbol.stepSize;
    MultipleOf(0.0, step, 0);
    if p.Some? { MultiplesAdd(p.value.quantity, o.quantity, step); }
  }

  /** A submission followed at once by its fill, seen as one settlement. */
  lemma SubmitThenFill(s: Ledger, id: string, o: Order, at: int)
    requires Enabled(s, Submit(id, o))
    ensures var t := s.(orders := s.orders[id := PaperLedger.Submitted(id, o)]);
            && Fillable(t, id)
            && t.(pending := s.pending + {id} - {id}) == t
            && Step(Step(s, Submit(id, o)), FillDue(id, at)) == Settle(t, id, at)
  {
    assert s.pending + {id} - {id} == s.pending;
  }

  /** Its fill leaves a negative quantity, or one above the limit. */
  predicate Outgrows(rule: Rule, p: Option<Position>, o: Order) {
    && o.quantity < 0.0
    && if p.None? then true
       else if Extends(p.value, o.side) then p.value.quantity + o.quantity < 0.0
       else rule.maxPositionSize != 0.0 && p.value.quantity - o.quantity > rule.maxPositionSize
  }

  /** The request is accepted, can be paid for, and its fill does not divide by zero. */
  predicate Trades(rules: string -> Rule, s: Ledger, r: Request) {
    && !r.Tick? && Enabled(s, Submit(r.id, r.order)) && Accepts(rules, s, r) && Affordable(s, r.order)
    && Apply(PositionOf(s, r.order.symbol), r.order, FillPrice(s, r.order)).Some?
  }

  predicate Outgrown(rules: string -> Rule, s: Ledger, r: Request) {
    Trades(rules, s, r) && Outgrows(rules(r.order.symbol), PositionOf(s, r.order.symbol), r.order)
  }

  lemma SettledPositions(s: Ledger, id: string, at: int)
    requires Fillable(s, id)
    ensures var o := s.orders[id];
            var q := Apply(PositionOf(s, o.symbol), o, FillPrice(s, o));
            Settle(s, id, at).positions == if Affordable(s, o) && q.Some? then s.positions[o.symbol := q.value] else s.positions
  {
  }

  /** Submission changes nothing that a fill looks at. */
  lemma SubmittedFillsAlike(s: Ledger, id: string, o: Order, p: Option<Position>)
    ensures var t, x := s.(orders := s.orders[id := PaperLedger.Submitted(id, o)]), PaperLedger.Submitted(id, o);
            && FillPrice(t, x) == FillPrice(s, o) && Affordable(t, x) == Affordable(s, o)
            && Apply(p, x, FillPrice(t, x)) == Apply(p, o, FillPrice(s, o))
  {
  }

  lemma {:induction false} TradedPositions(rules: string -> Rule, s: Ledger, r: Request)
    requires !r.Tick?
    ensures Trade(rules, s, r).positions ==
            if Trades(rules, s, r)
            then s.positions[r.order.symbol := Apply(PositionOf(s, r.order.symbol), r.order, FillPrice(s, r.order)).value]
            else s.positions
  {
    if Enabled(s, Submit(r.id, r.order)) && Accepts(rules, s, r) {
      var t := s.(orders := s.orders[r.id := PaperLedger.Submitted(r.id, r.order)]);
      SubmitThenFill(s, r.id, r.order, r.at);
      SettledPositions(t, r.id, r.at);
      SubmittedFillsAlike(s, r.id, r.order, PositionOf(s, r.order.symbol));
    }
  }

  lemma LimitsOfUpdate(rules: string -> Rule, s: Ledger, t: Ledger, k: string, p: Position)
    requires AllWithinLimits(rules, s) && t.positions == s.positions[k := p]
    ensures AllWithinLimits(rules, t) <==> WithinLimits(rules(k), p)
  {
    if AllWithinLimits(rules, t) { assert t.positions[k] == p; }
  }

  /** One validated request keeps every position within its limits exactly when its fill does not outgrow them. */
  lemma {:induction false} TradeWithinLimitsExactlyWhen(rules: string -> Rule, s: Ledger, r: Request)
    requires AllWithinLimits(rules, s)
    ensures AllWithinLimits(rules, Trade(rules, s, r)) <==> !Outgrown(rules, s, r)
  {
    if !r.Tick? {
      TradedPositions(rules, s, r);
      if Trades(rules, s, r) {
        var o, p := r.order, PositionOf(s, r.order.symbol);
        FillWithinLimitsExactlyWhen(rules(o.symbol), p, o, FillPrice(s, o));
        LimitsOfUpdate(rules, s, Trade(rules, s, r), o.symbol, Apply(p, o, FillPrice(s, o)).value);
      }
    }
  }

  /** Every state of the session is within limits. */
  ghost predicate StaysWithinLimits(rules: string -> Rule, s: Ledger, rs: seq<Request>)
    decreases |rs|
  {
    AllWithinLimits(rules, s) && (rs == [] || StaysWithinLimits(rules, Trade(rules, s, rs[0]), rs[1..]))
  }

  ghost predicate NoneOutgrown(rules: string -> Rule, s: Ledger, rs: seq<Request>)
    decreases |rs|
  {
    rs == [] || (!Outgrown(rules, s, rs[0]) && NoneOutgrown(rules, Trade(rules, s, rs[0]), rs[1..]))
  }

  /** Every state of a validated session is within limits exactly when no request of it outgrows them. */
  lemma {:induction false} WithinLimitsExactlyWhen(rules: string -> Rule, s: Ledger, rs: seq<Request>)
    requires AllWithinLimits(rules, s)
    ensures StaysWithinLimits(rules, s, rs) <==> NoneOutgrown(rules, s, rs)
    decreases |rs|
  {
    if rs != [] {
      var t := Trade(rules, s, rs[0]);
      TradeWithinLimitsExactlyWhen(rules, s, rs[0]);
      if AllWithinLimits(rules, t) { WithinLimitsExactlyWhen(rules, t, rs[1..]); }
    }
  }

  /** Minimum quantities that are not negative see to that. */
  lemma {:induction false} MinimumsSuffice(rules: string -> Rule, s: Ledger, rs: seq<Request>)
    requires forall i :: 0 <= i < |rs| && !rs[i].Tick? ==> rules(rs[i].order.symbol).symbol.minOrderQty >= 0.0
    ensures NoneOutgrown(rules, s, rs)
    decreases |rs|
  {
    if rs != [] { MinimumsSuffice(rules, Trade(rules, s, rs[0]), rs[1..]); }
  }

  lemma {:induction false} SessionWithinLimits(rules: string -> Rule, s: Ledger, rs: seq<Request>)
    requires StaysWithinLimits(rules, s, rs)
    ensures AllWithinLimits(rules, Session(rules, s, rs))
    decreases |rs|
  {
    if rs != [] { SessionWithinLimits(rules, Trade(rules, s, rs[0]), rs[1..]); }
  }

  /**
    Through every session of validated orders none of which outgrows its limits, each
    position's quantity stays on the symbol's step grid and never exceeds a non-zero
    position limit.
   */
  lemma ValidatedQuantityBounded(rules: string -> Rule, initial: real, rs: seq<Request>, k: string)
    requires NoneOutgrown(rules, Opened(initial, {}), rs)
    requires k in Session(rules, Opened(initial, {}), rs).positions
    ensures var q := Session(rules, Opened(initial, {}), rs).positions[k].quantity;
            && q >= 0.0
            && (rules(k).maxPositionSize != 0.0 && q != 0.0 ==> q <= rules(k).maxPositionSize)
            && (q != 0.0 ==> rules(k).symbol.stepSize != 0.0 && IsMultiple(q, rules(k).symbol.stepSize))
  {
    WithinLimitsExactlyWhen(rules, Opened(initial, {}), rs);
    SessionWithinLimits(rules, Opened(initial, {}), rs);
  }

  /** The minimum matters: a negative one lets a negative sale push a long past its limit. */
  lemma NegativeMinimumBreaksLimit(p: Position, o: Order, price: real, s: Symbol, strategy: Strategy)
    requires p.side == Long && p.quantity == 4.0 && strategy.maxPositionSize == 5.0 && strategy.maxDailyLoss == 0.0
    requires o.side == Sell && o.kind == Market && o.quantity == -3.0 && p.currentPrice == 1.0
    requires s.trading && s.minOrderQty == -10.0 && s.maxOrderQty == 10.0 && s.stepSize == 1.0 && s.minNotional == -10.0
    ensures ValidateOrder(o, strategy, s, None, Some(p)) == Accepted
    ensures Apply(Some(p), o, price).Some? && Apply(Some(p), o, price).value.quantity == 7.0
  {
    MultipleOf(-3.0, 1.0, -3);
  }

  /* ---------- Validated closes and the ledger identity ---------- */

  /** A close that was accepted on the position it fills against cannot over-close it. */
  lemma ValidatedCloseNeverExceeds(o: Order, p: Position, s: Symbol)
    requires p.side != Flat
    ensures ValidatePositionClose(o, p, s) == Accepted ==> !Exceeds(Some(p), o) && !Extends(p, o.side)
  {}

  /** The entry rules do not look at the open quantity on the other side: selling 3 against a long of 1 is accepted. */
  lemma EntryMayExceed(p: Position, o: Order, s: Symbol, strategy: Strategy)
    requires p.side == Long && p.quantity == 1.0 && p.currentPrice == 100.0
    requires o.side == Sell && o.kind == Market && o.quantity == 3.0
    requires s.trading && s.minOrderQty == 1.0 && s.maxOrderQty == 10.0 && s.stepSize == 1.0 && s.minNotional == 0.0
    requires strategy.maxPositionSize == 5.0 && strategy.maxDailyLoss == 0.0
    ensures ValidateOrder(o, strategy, s, None, Some(p)) == Accepted && Exceeds(Some(p), o)
  {
    MultipleOf(3.0, 1.0, 3);
  }

  /** An entry is filled that is for more than is open on the other side, at an entry price other than zero. */
  predicate EntryOverCloses(rules: string -> Rule, s: Ledger, r: Request) {
    && r.Entry? && Enabled(s, Submit(r.id, r.order)) && Accepts(rules, s, r) && Affordable(s, r.order)
    && Exceeds(PositionOf(s, r.order.symbol), r.order)
    && s.positions[r.order.symbol].entryPrice != 0.0
  }

  /** A validated request keeps the books exactly when it is not such an entry; closes see to that themselves. */
  lemma TradeConservesExactlyWhen(rules: string -> Rule, s: Ledger, r: Request)
    requires Sided(s) && !Trade(rules, s, r).crashed
    ensures Sided(Trade(rules, s, r))
    ensures Net(Trade(rules, s, r)) == Net(s) <==> !EntryOverCloses(rules, s, r)
  {
    match r
    case Tick(name, price) => StepConserves(s, Price(name, price));
    case _ =>
      if Enabled(s, Submit(r.id, r.order)) && Accepts(rules, s, r) {
        var t := Step(s, Submit(r.id, r.order));
        StepConserves(s, Submit(r.id, r.order));
        StepConserves(t, FillDue(r.id, r.at));
        BooksKeptExactlyWhen(t, FillDue(r.id, r.at));
      }
  }

  ghost predicate NoneOverCloses(rules: string -> Rule, s: Ledger, rs: seq<Request>)
    decreases |rs|
  {
    rs == [] || (!EntryOverCloses(rules, s, rs[0]) && NoneOverCloses(rules, Trade(rules, s, rs[0]), rs[1..]))
  }

  /** The books stay the same all the way through the session. */
  ghost predicate KeepsBooks(rules: string -> Rule, s: Ledger, rs: seq<Request>)
    decreases |rs|
  {
    rs == [] || (Net(Trade(rules, s, rs[0])) == Net(s) && KeepsBooks(rules, Trade(rules, s, rs[0]), rs[1..]))
  }

  lemma {:induction false} CrashedSession(rules: string -> Rule, s: Ledger, rs: seq<Request>)
    requires s.crashed
    ensures Session(rules, s, rs) == s
    decreases |rs|
  {
    if rs != [] { CrashedSession(rules, s, rs[1..]); }
  }

  /** The ledger identity holds all the way through a session, whatever the prices do, exactly when no entry over-closes. */
  lemma {:induction false} SessionConservesExactlyWhen(rules: string -> Rule, s: Ledger, rs: seq<Request>)
    requires Sided(s) && !Session(rules, s, rs).crashed
    ensures KeepsBooks(rules, s, rs) <==> NoneOverCloses(rules, s, rs)
    ensures KeepsBooks(rules, s, rs) ==> Net(Session(rules, s, rs)) == Net(s)
    decreases |rs|
  {
    if rs != [] {
      var t := Trade(rules, s, rs[0]);
      if t.crashed { CrashedSession(rules, t, rs[1..]); }
      TradeConservesExactlyWhen(rules, s, rs[0]);
      SessionConservesExactlyWhen(rules, t, rs[1..]);
    }
  }
}
