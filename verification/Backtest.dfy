/**
  The backtest engine: long positions bought and sold on candle closes, with slippage and
  commissions, a trade list, an equity curve and a summary.
*/
module Backtest {
  import opened Entities
  import opened Sums

  datatype Config = Config(initialBalance: real, commissionRate: real, slippageBps: real)

  datatype Holding = Holding(quantity: real, entryPrice: real)

  datatype Trade = Trade(symbol: string, quantity: real, entryPrice: real, exitPrice: real, pnl: real, commission: real)

  /** `bought` is the total notional ever bought; only the specification keeps it. */
  datatype State = State(
    balance: real,
    positions: map<string, Holding>,
    trades: seq<Trade>,
    equity: seq<real>,
    bought: real)

  datatype Signal = Failed | Hold | Buy(symbol: string, quantity: real) | Sell(symbol: string) | OtherAction

  datatype Candle = Candle(close: real, signal: Signal)

  function Fresh(c: Config): State { State(c.initialBalance, map[], [], [], 0.0) }

  /* ---------- Steps ---------- */

  function ApplySlippage(c: Config, price: real, isBuy: bool): real {
    var slippage := c.slippageBps / 10000.0;
    if isBuy then price * (1.0 + slippage) else price * (1.0 - slippage)
  }

  function Notional(quantity: real, price: real): real { quantity * price }

  function Commission(c: Config, notional: real): real { notional * c.commissionRate }

  function Gain(quantity: real, entry: real, exit: real): real { (exit - entry) * quantity }

  predicate CanOpen(c: Config, s: State, symbol: string, quantity: real, price: real) {
    var notional := Notional(quantity, ApplySlippage(c, price, true));
    symbol !in s.positions && s.balance >= notional + Commission(c, notional)
  }

  function Open(c: Config, s: State, symbol: string, quantity: real, price: real): State {
    var fill := ApplySlippage(c, price, true);
    var notional := Notional(quantity, fill);
    s.(balance := s.balance - (notional + Commission(c, notional)),
       positions := s.positions[symbol := Holding(quantity, fill)],
       bought := s.bought + notional)
  }

  /** The profit of a closed trade counts the exit commission only. */
  function Closing(c: Config, symbol: string, h: Holding, price: real): Trade {
    var fill := ApplySlippage(c, price, false);
    var commission := Commission(c, Notional(h.quantity, fill));
    Trade(symbol, h.quantity, h.entryPrice, fill, Gain(h.quantity, h.entryPrice, fill) - commission, commission)
  }

  function Close(c: Config, s: State, symbol: string, price: real): State
    requires symbol in s.positions
  {
    var t := Closing(c, symbol, s.positions[symbol], price);
    s.(balance := s.balance + (Notional(t.quantity, t.exitPrice) - t.commission),
       positions := s.positions - {symbol},
       trades := s.trades + [t])
  }

  /** Does the signal do anything, and succeed? */
  predicate Succeeds(c: Config, s: State, signal: Signal, price: real) {
    match signal
    case Buy(symbol, quantity) => CanOpen(c, s, symbol, quantity, price)
    case Sell(symbol) => symbol in s.positions
    case OtherAction => true
    case _ => false
  }

  function Execute(c: Config, s: State, signal: Signal, price: real): State {
    if !Succeeds(c, s, signal, price) then s else
    match signal
    case Buy(symbol, quantity) => Open(c, s, symbol, quantity, price)
    case Sell(symbol) => Close(c, s, symbol, price)
    case _ => s
  }

  function Cost(h: Holding): real { Notional(h.quantity, h.entryPrice) }

  /** Cash plus open positions at their entry price. */
  ghost function Equity(s: State): real { s.balance + Sum(s.positions, Cost) }

  ghost function Recorded(s: State): State { s.(equity := s.equity + [Equity(s)]) }

  ghost function AfterCandle(c: Config, s: State, i: nat, candle: Candle): State {
    var t := Execute(c, s, candle.signal, candle.close);
    if Succeeds(c, s, candle.signal, candle.close) && i % 100 == 0 then Recorded(t) else t
  }

  ghost function Through(c: Config, s: State, candles: seq<Candle>): State {
    if candles == [] then s
    else AfterCandle(c, Through(c, s, candles[..|candles| - 1]), |candles| - 1, candles[|candles| - 1])
  }

  function CloseEach(c: Config, s: State, order: seq<string>, price: real): State {
    if order == [] then s
    else
      var t := CloseEach(c, s, order[..|order| - 1], price);
      if order[|order| - 1] in t.positions then Close(c, t, order[|order| - 1], price) else t
  }

  datatype Result = Result(
    finalEquity: real, totalReturn: real, totalTrades: nat,
    winningTrades: nat, losingTrades: nat, winRate: real,
    totalProfit: real, totalLoss: real, profitFactor: real)

  /** `Interrupted`: the context ended. `Crashed`: no candles, or a return on a zero balance. */
  datatype Outcome = Done(result: Result) | Interrupted | Crashed

  function Profit(ts: seq<Trade>): real {
    if ts == [] then 0.0
    else Profit(ts[..|ts| - 1]) + if ts[|ts| - 1].pnl > 0.0 then ts[|ts| - 1].pnl else 0.0
  }

  function Loss(ts: seq<Trade>): real {
    if ts == [] then 0.0
    else Loss(ts[..|ts| - 1]) + if ts[|ts| - 1].pnl > 0.0 then 0.0 else -ts[|ts| - 1].pnl
  }

  function Wins(ts: seq<Trade>): nat {
    if ts == [] then 0 else Wins(ts[..|ts| - 1]) + if ts[|ts| - 1].pnl > 0.0 then 1 else 0
  }

  /* ---------- The mutable engine ---------- */

  class Engine {
    const config: Config
    var balance: real
    var positions: map<string, Holding>
    var trades: seq<Trade>
    var equity: seq<real>
    ghost var bought: real

    ghost function Value(): State
      reads this
    {
      State(balance, positions, trades, equity, bought)
    }

    constructor (config: Config)
      ensures this.config == config && Value() == Fresh(config)
    {
      this.config := config;
      balance, positions, trades, equity, bought := config.initialBalance, map[], [], [], 0.0;
    }

    method Reset()
      modifies this
      ensures Value() == Fresh(config)
    {
      balance, positions, trades, equity, bought := config.initialBalance, map[], [], [], 0.0;
    }

    method OpenPosition(symbol: string, quantity: real, price: real) returns (ok: bool)
      modifies this
      ensures ok == CanOpen(config, old(Value()), symbol, quantity, price)
      ensures Value() == if ok then Open(config, old(Value()), symbol, quantity, price) else old(Value())
    {
      if symbol in positions { return false; }
      var fillPrice := ApplySlippage(config, price, true);
      var notional := Notional(quantity, fillPrice);
      var commission := Commission(config, notional);
      var totalCost := notional + commission;
      if balance < totalCost { return false; }
      balance := balance - totalCost;
      positions := positions[symbol := Holding(quantity, fillPrice)];
      bought := bought + notional;
      return true;
    }

    method ClosePosition(symbol: string, price: real) returns (ok: bool)
      modifies this
      ensures ok == (symbol in old(positions))
      ensures Value() == if ok then Close(config, old(Value()), symbol, price) else old(Value())
    {
      if symbol !in positions { return false; }
      var position := positions[symbol];
      var fillPrice := ApplySlippage(config, price, false);
      var notional := Notional(position.quantity, fillPrice);
      var commission := Commission(config, notional);
      balance := balance + (notional - commission);
      var pnl := Gain(position.quantity, position.entryPrice, fillPrice) - commission;
      trades := trades + [Trade(symbol, position.quantity, position.entryPrice, fillPrice, pnl, commission)];
      positions := positions - {symbol};
      return true;
    }

    method ExecuteSignal(signal: Signal, price: real) returns (ok: bool)
      requires !signal.Failed? && !signal.Hold?
      modifies this
      ensures ok == Succeeds(config, old(Value()), signal, price)
      ensures Value() == Execute(config, old(Value()), signal, price)
    {
      match signal
      case Buy(symbol, quantity) => ok := OpenPosition(symbol, quantity, price);
      case Sell(symbol) => ok := ClosePosition(symbol, price);
      case OtherAction => ok := true;
    }

    /** Closes every position at one price, in whatever order the map gives. */
    method CloseAllPositions(price: real) returns (ghost order: seq<string>)
      modifies this
      ensures Value() == CloseEach(config, old(Value()), order, price)
      ensures positions == map[] && bought == old(bought) && equity == old(equity)
    {
      order := [];
      var symbols := positions.Keys;
      while symbols != {}
        invariant Value() == CloseEach(config, old(Value()), order, price)
        invariant positions.Keys == symbols && bought == old(bought) && equity == old(equity)
        decreases symbols
      {
        var symbol :| symbol in symbols;
        symbols := symbols - {symbol};
        assert (order + [symbol])[..|order|] == order;
        var ok := ClosePosition(symbol, price);
        order := order + [symbol];
      }
    }

    method RecordEquity()
      modifies this`equity
      ensures Value() == Recorded(old(Value()))
    {
      var total := AddPositions(balance);
      equity := equity + [total];
    }

    /** The loop over open positions, in whatever order the map gives. */
    method AddPositions(start: real) returns (total: real)
      ensures total == start + Sum(positions, Cost)
    {
      total := start;
      var symbols := positions.Keys;
      ghost var left := positions;
      while symbols != {}
        invariant left.Keys == symbols <= positions.Keys
        invariant forall k :: k in left ==> left[k] == positions[k]
        invariant total + Sum(left, Cost) == start + Sum(positions, Cost)
        decreases symbols
      {
        var symbol :| symbol in symbols;
        SumRemove(left, Cost, symbol);
        symbols := symbols - {symbol};
        left := left - {symbol};
        total := total + Notional(positions[symbol].quantity, positions[symbol].entryPrice);
      }
    }

    method CalculateResult() returns (r: Result)
      requires config.initialBalance != 0.0
      ensures r.finalEquity == Equity(Value())
      ensures r.totalReturn == (r.finalEquity - config.initialBalance) / config.initialBalance * 100.0
      ensures r.totalTrades == |trades| && r.winningTrades == Wins(trades) && r.losingTrades == |trades| - Wins(trades)
      ensures r.totalProfit == Profit(trades) && r.totalLoss == Loss(trades)
      ensures r.winRate == if trades == [] then 0.0 else Quotient(Wins(trades) as real, |trades| as real) * 100.0
      ensures r.profitFactor == if Loss(trades) == 0.0 then 0.0 else Quotient(Profit(trades), Loss(trades))
    {
      var finalEquity := AddPositions(balance);
      var wins, losses, profit, loss := 0, 0, 0.0, 0.0;
      for i := 0 to |trades|
        invariant wins == Wins(trades[..i]) && losses == i - wins
        invariant profit == Profit(trades[..i]) && loss == Loss(trades[..i])
      {
        assert trades[..i + 1][..i] == trades[..i];
        if trades[i].pnl > 0.0 {
          wins := wins + 1;
          profit := profit + trades[i].pnl;
        } else {
          losses := losses + 1;
          loss := loss - trades[i].pnl;
        }
      }
      assert trades[..|trades|] == trades;
      var winRate, profitFactor := 0.0, 0.0;
      if |trades| > 0 { winRate := Quotient(wins as real, |trades| as real) * 100.0; }
      if loss != 0.0 { profitFactor := Quotient(profit, loss); }
      r := Result(finalEquity, (finalEquity - config.initialBalance) / config.initialBalance * 100.0,
                  |trades|, wins, losses, winRate, profit, loss, profitFactor);
    }

    /** `cancelAt` is the candle before which the context is found to have ended. */
    method Run(candles: seq<Candle>, cancelAt: Option<nat>) returns (o: Outcome, ghost order: seq<string>)
      modifies this
      ensures o.Interrupted? <==> cancelAt.Some? && cancelAt.value < |candles|
      ensures o.Crashed? <==> !o.Interrupted? && (candles == [] || config.initialBalance == 0.0)
      ensures o.Interrupted? ==> Value() == Through(config, old(Value()), candles[..cancelAt.value])
      ensures o.Done? ==>
                && Value() == Recorded(CloseEach(config, Through(config, old(Value()), candles), order,
                                                              candles[|candles| - 1].close))
                && positions == map[]
                && o.result.finalEquity == Equity(Value())
                && o.result.totalProfit == Profit(trades) && o.result.totalLoss == Loss(trades)
    {
      order := [];
      for i := 0 to |candles|
        invariant Value() == Through(config, old(Value()), candles[..i])
        invariant cancelAt.Some? ==> i <= cancelAt.value || |candles| <= cancelAt.value
      {
        if cancelAt == Some(i) { return Interrupted, []; }
        assert candles[..i + 1][..i] == candles[..i];
        var signal := candles[i].signal;
        if signal.Failed? || signal.Hold? { continue; }
        var ok := ExecuteSignal(signal, candles[i].close);
        if !ok { continue; }
        if i % 100 == 0 { RecordEquity(); }
      }
      assert candles[..|candles|] == candles;
      if candles == [] { return Crashed, []; }
      order := CloseAllPositions(candles[|candles| - 1].close);
      RecordEquity();
      if config.initialBalance == 0.0 { return Crashed, order; }
      var r := CalculateResult();
      o := Done(r);
    }
  }

  /* ---------- The books ---------- */

  function SumPnL(ts: seq<Trade>): real {
    if ts == [] then 0.0 else SumPnL(ts[..|ts| - 1]) + ts[|ts| - 1].pnl
  }

  /**
    Balance plus open cost is the initial balance plus the profit of the closed trades,
    short of the commissions paid on every entry.
   */
  ghost predicate Books(c: Config, s: State) {
    Equity(s) == c.initialBalance + SumPnL(s.trades) - Commission(c, s.bought)
  }

  lemma CommissionAdds(c: Config, a: real, b: real)
    ensures Commission(c, a + b) == Commission(c, a) + Commission(c, b)
  {}

  lemma GainIsDifference(quantity: real, entry: real, exit: real)
    ensures Gain(quantity, entry, exit) == Notional(quantity, exit) - Notional(quantity, entry)
  {}

  lemma OpenBooks(c: Config, s: State, symbol: string, quantity: real, price: real)
    requires Books(c, s) && CanOpen(c, s, symbol, quantity, price)
    ensures Books(c, Open(c, s, symbol, quantity, price))
  {
    var fill := ApplySlippage(c, price, true);
    SumUpdate(s.positions, Cost, symbol, Holding(quantity, fill));
    CommissionAdds(c, s.bought, Notional(quantity, fill));
  }

  lemma CloseBooks(c: Config, s: State, symbol: string, price: real)
    requires Books(c, s) && symbol in s.positions
    ensures Books(c, Close(c, s, symbol, price))
  {
    var h := s.positions[symbol];
    var t := Closing(c, symbol, h, price);
    SumRemove(s.positions, Cost, symbol);
    GainIsDifference(h.quantity, h.entryPrice, t.exitPrice);
    assert (s.trades + [t])[..|s.trades|] == s.trades;
  }

  lemma ExecuteBooks(c: Config, s: State, signal: Signal, price: real)
    requires Books(c, s)
    ensures Books(c, Execute(c, s, signal, price))
  {
    if Succeeds(c, s, signal, price) {
      match signal
      case Buy(symbol, quantity) => OpenBooks(c, s, symbol, quantity, price);
      case Sell(symbol) => CloseBooks(c, s, symbol, price);
      case _ =>
    }
  }

  /** The books balance after every candle of every run. */
  lemma {:induction false} ThroughBooks(c: Config, s: State, candles: seq<Candle>)
    requires Books(c, s)
    ensures Books(c, Through(c, s, candles))
  {
    if candles != [] {
      var n := |candles| - 1;
      ThroughBooks(c, s, candles[..n]);
      ExecuteBooks(c, Through(c, s, candles[..n]), candles[n].signal, candles[n].close);
    }
  }

  lemma {:induction false} CloseEachBooks(c: Config, s: State, order: seq<string>, price: real)
    requires Books(c, s)
    ensures Books(c, CloseEach(c, s, order, price))
    ensures CloseEach(c, s, order, price).bought == s.bought
  {
    if order != [] {
      var n := |order| - 1;
      CloseEachBooks(c, s, order[..n], price);
      var t := CloseEach(c, s, order[..n], price);
      if order[n] in t.positions { CloseBooks(c, t, order[n], price); }
    }
  }

  /** What a run leaves behind, from an engine whose books balance. */
  ghost function Finished(c: Config, s: State, candles: seq<Candle>, order: seq<string>): State
    requires candles != []
  {
    Recorded(CloseEach(c, Through(c, s, candles), order, candles[|candles| - 1].close))
  }

  /**
    Once everything is closed, the final equity falls short of the initial balance plus the
    reported profits and losses by exactly the commissions on the entries.
   */
  lemma FinalEquity(c: Config, s: State, candles: seq<Candle>, order: seq<string>)
    requires Books(c, s) && candles != [] && Finished(c, s, candles, order).positions == map[]
    ensures var t := Finished(c, s, candles, order);
            && Books(c, t)
            && t.balance == c.initialBalance + (Profit(t.trades) - Loss(t.trades)) - Commission(c, t.bought)
            && t.equity[|t.equity| - 1] == t.balance
  {
    var t := Finished(c, s, candles, order);
    ThroughBooks(c, s, candles);
    CloseEachBooks(c, Through(c, s, candles), order, candles[|candles| - 1].close);
    ProfitLessLoss(t.trades);
  }

  lemma {:induction false} ProfitLessLoss(ts: seq<Trade>)
    ensures Profit(ts) - Loss(ts) == SumPnL(ts)
    ensures Profit(ts) >= 0.0 && Loss(ts) >= 0.0 && Wins(ts) <= |ts|
  {
    if ts != [] { ProfitLessLoss(ts[..|ts| - 1]); }
  }

  /** Every point of the equity curve is the initial balance plus profit so far, less the entry commissions. */
  lemma EquityPointsTellTheBooks(c: Config, s: State, i: nat, candle: Candle)
    requires Books(c, s)
    ensures var t := AfterCandle(c, s, i, candle);
            && s.equity <= t.equity
            && (t.equity != s.equity ==>
                  t.equity == s.equity + [c.initialBalance + SumPnL(t.trades) - Commission(c, t.bought)])
  {
    ExecuteBooks(c, s, candle.signal, candle.close);
    ExecuteKeepsCurve(c, s, candle.signal, candle.close);
  }

  lemma ExecuteKeepsCurve(c: Config, s: State, signal: Signal, price: real)
    ensures Execute(c, s, signal, price).equity == s.equity
  {
  }

  /* ---------- Solvency ---------- */

  /** What is left of each unit sold after slippage and commission. */
  function Kept(c: Config): real { (1.0 - c.slippageBps / 10000.0) * (1.0 - c.commissionRate) }

  ghost predicate Solvent(s: State) {
    s.balance >= 0.0 && forall k :: k in s.positions ==> s.positions[k].quantity >= 0.0
  }

  predicate SaneCandle(candle: Candle) {
    candle.close >= 0.0 && (candle.signal.Buy? ==> candle.signal.quantity >= 0.0)
  }

  ghost predicate AllSane(candles: seq<Candle>) { forall i :: 0 <= i < |candles| ==> SaneCandle(candles[i]) }

  lemma Regroup(q: real, p: real, a: real, r: real)
    ensures q * (p * a) - (q * (p * a)) * r == (q * p) * (a * (1.0 - r))
  {
    assert q * (p * a) == (q * p) * a;
    assert (q * p) * a - ((q * p) * a) * r == ((q * p) * a) * (1.0 - r);
    assert ((q * p) * a) * (1.0 - r) == (q * p) * (a * (1.0 - r));
  }

  /** Closing brings in the kept part of the quantity at the market price. */
  lemma ClosingBrings(c: Config, s: State, symbol: string, price: real)
    requires symbol in s.positions
    ensures Close(c, s, symbol, price).balance == s.balance + (s.positions[symbol].quantity * price) * Kept(c)
  {
    Regroup(s.positions[symbol].quantity, price, 1.0 - c.slippageBps / 10000.0, c.commissionRate);
  }

  lemma ProductNotNegative(x: real, y: real)
    requires x >= 0.0 && y >= 0.0
    ensures x * y >= 0.0
  {
  }

  lemma CloseSolvent(c: Config, s: State, symbol: string, price: real)
    requires Kept(c) >= 0.0 && Solvent(s) && price >= 0.0 && symbol in s.positions
    ensures Solvent(Close(c, s, symbol, price))
  {
    ClosingBrings(c, s, symbol, price);
    ProductNotNegative(s.positions[symbol].quantity, price);
    ProductNotNegative(s.positions[symbol].quantity * price, Kept(c));
  }

  /** As long as a sale brings nothing negative, neither does any run. */
  lemma {:induction false} NeverOverdrawn(c: Config, s: State, candles: seq<Candle>)
    requires Kept(c) >= 0.0 && Solvent(s) && AllSane(candles)
    ensures Solvent(Through(c, s, candles))
  {
    if candles != [] {
      var n := |candles| - 1;
      NeverOverdrawn(c, s, candles[..n]);
      var t := Through(c, s, candles[..n]);
      assert SaneCandle(candles[n]);
      if candles[n].signal.Sell? && candles[n].signal.symbol in t.positions {
        CloseSolvent(c, t, candles[n].signal.symbol, candles[n].close);
      }
    }
  }

  lemma {:induction false} NeverOverdrawnByClosing(c: Config, s: State, order: seq<string>, price: real)
    requires Kept(c) >= 0.0 && Solvent(s) && price >= 0.0
    ensures Solvent(CloseEach(c, s, order, price))
  {
    if order != [] {
      var n := |order| - 1;
      NeverOverdrawnByClosing(c, s, order[..n], price);
      var t := CloseEach(c, s, order[..n], price);
      if order[n] in t.positions { CloseSolvent(c, t, order[n], price); }
    }
  }

  lemma BuyForNothing(c: Config)
    requires c.initialBalance >= 0.0
    ensures CanOpen(c, Fresh(c), "s", 1.0, 0.0)
    ensures var t := Open(c, Fresh(c), "s", 1.0, 0.0);
            t.balance == c.initialBalance && t.positions == map["s" := Holding(1.0, 0.0)]
  {
    assert ApplySlippage(c, 0.0, true) == 0.0;
    assert Notional(1.0, 0.0) == 0.0;
    assert Commission(c, 0.0) == 0.0;
  }

  /** Otherwise a position bought for nothing and sold dear overdraws any balance. */
  lemma BuyThenSellOverdraws(c: Config) returns (candles: seq<Candle>)
    requires Kept(c) < 0.0 && c.initialBalance >= 0.0
    ensures AllSane(candles) && Through(c, Fresh(c), candles).balance < 0.0
  {
    var price := (c.initialBalance + 1.0) / -Kept(c);
    assert price * -Kept(c) == c.initialBalance + 1.0;
    assert price < 0.0 ==> price * -Kept(c) < 0.0;
    var buy, sell := Candle(0.0, Signal.Buy("s", 1.0)), Candle(price, Signal.Sell("s"));
    candles := [buy, sell];
    var one := [buy];
    var t := Through(c, Fresh(c), one);
    assert one[..0] == [] && candles[..1] == one;
    assert Through(c, Fresh(c), one[..0]) == Fresh(c);
    BuyForNothing(c);
    assert t == AfterCandle(c, Fresh(c), 0, buy);
    assert Execute(c, Fresh(c), buy.signal, buy.close) == Open(c, Fresh(c), "s", 1.0, 0.0);
    assert t.positions == map["s" := Holding(1.0, 0.0)] && t.balance == c.initialBalance;
    ClosingBrings(c, t, "s", price);
    assert (1.0 * price) * Kept(c) == -(price * -Kept(c));
  }

  /** No run of sane candles overdraws a fresh engine exactly when a sale never brings less than nothing. */
  lemma SolventExactlyWhen(c: Config)
    requires c.initialBalance >= 0.0
    ensures (forall candles :: AllSane(candles) ==> Through(c, Fresh(c), candles).balance >= 0.0) <==> Kept(c) >= 0.0
  {
    if Kept(c) >= 0.0 {
      forall candles | AllSane(candles) ensures Through(c, Fresh(c), candles).balance >= 0.0 {
        NeverOverdrawn(c, Fresh(c), candles);
      }
    } else {
      var candles := BuyThenSellOverdraws(c);
    }
  }

  /* ---------- What the positions and the trades say ---------- */

  /** Candle `i` bought the symbol: it was not held, and there was cash for it with slippage and commission on top. */
  ghost predicate BoughtAt(c: Config, candles: seq<Candle>, i: nat, symbol: string, quantity: real) {
    && i < |candles| && candles[i].signal == Signal.Buy(symbol, quantity)
    && var s := Through(c, Fresh(c), candles[..i]);
    symbol !in s.positions
    && s.balance >= quantity * EntryPrice(c, candles[i]) + quantity * EntryPrice(c, candles[i]) * c.commissionRate
  }

  function EntryPrice(c: Config, candle: Candle): real { candle.close * (1.0 + c.slippageBps / 10000.0) }

  function ExitPrice(c: Config, candle: Candle): real { candle.close * (1.0 - c.slippageBps / 10000.0) }

  /** Bought by candle `i`, and not sold since. */
  ghost predicate HeldSince(c: Config, candles: seq<Candle>, i: nat, symbol: string, h: Holding) {
    && BoughtAt(c, candles, i, symbol, h.quantity) && h.entryPrice == EntryPrice(c, candles[i])
    && forall k :: i < k < |candles| ==> candles[k].signal != Signal.Sell(symbol)
  }

  /** Bought by candle `i` and sold by candle `j`, at their closes with slippage; the profit counts the exit commission. */
  ghost predicate TradedAt(c: Config, candles: seq<Candle>, i: nat, j: nat, t: Trade) {
    && i < j < |candles| && HeldSince(c, candles[..j], i, t.symbol, Holding(t.quantity, t.entryPrice))
    && candles[j].signal == Signal.Sell(t.symbol)
    && t.exitPrice == ExitPrice(c, candles[j])
    && t.commission == t.quantity * t.exitPrice * c.commissionRate
    && t.pnl == (t.exitPrice - t.entryPrice) * t.quantity - t.commission
  }

  /** The symbol is held exactly when some candle bought it and none has sold it since, and the position is what that candle bought. */
  ghost predicate HoldingTold(c: Config, candles: seq<Candle>, symbol: string) {
    var s := Through(c, Fresh(c), candles);
    if symbol in s.positions then exists i: nat :: HeldSince(c, candles, i, symbol, s.positions[symbol])
    else forall i: nat, h: Holding :: !HeldSince(c, candles, i, symbol, h)
  }

  lemma BoughtFront(c: Config, candles: seq<Candle>, i: nat, symbol: string, quantity: real)
    requires candles != [] && i < |candles| - 1
    ensures BoughtAt(c, candles, i, symbol, quantity) <==> BoughtAt(c, candles[..|candles| - 1], i, symbol, quantity)
  {
    assert candles[..|candles| - 1][..i] == candles[..i];
  }

  lemma HeldFront(c: Config, candles: seq<Candle>, i: nat, symbol: string, h: Holding)
    requires candles != [] && i < |candles| - 1
    ensures HeldSince(c, candles, i, symbol, h) <==>
            HeldSince(c, candles[..|candles| - 1], i, symbol, h) && candles[|candles| - 1].signal != Signal.Sell(symbol)
  {
    var n := |candles| - 1;
    BoughtFront(c, candles, i, symbol, h.quantity);
    if HeldSince(c, candles, i, symbol, h) { assert candles[n].signal != Signal.Sell(symbol); }
  }

  lemma BuysExactlyWhen(c: Config, s: State, candle: Candle)
    requires candle.signal.Buy?
    ensures CanOpen(c, s, candle.signal.symbol, candle.signal.quantity, candle.close) <==> Buys(c, s, candle, candle.signal.symbol)
    ensures ApplySlippage(c, candle.close, true) == EntryPrice(c, candle)
  {
  }

  /** What one candle does to the position in one symbol. */
  lemma CandlePosition(c: Config, s: State, i: nat, candle: Candle, symbol: string)
    ensures var t := AfterCandle(c, s, i, candle);
            && (symbol in t.positions <==>
                  (symbol in s.positions && candle.signal != Signal.Sell(symbol)) || Buys(c, s, candle, symbol))
            && (symbol in t.positions ==>
                  t.positions[symbol] == if symbol in s.positions then s.positions[symbol]
                                         else Holding(candle.signal.quantity, EntryPrice(c, candle)))
  {
    if candle.signal.Buy? { BuysExactlyWhen(c, s, candle); }
  }

  predicate Buys(c: Config, s: State, candle: Candle, symbol: string) {
    && candle.signal.Buy? && candle.signal.symbol == symbol && symbol !in s.positions
    && s.balance >= candle.signal.quantity * EntryPrice(c, candle)
                    + candle.signal.quantity * EntryPrice(c, candle) * c.commissionRate
  }

  lemma HoldersFront(c: Config, candles: seq<Candle>, symbol: string)
    requires candles != []
    ensures var n := |candles| - 1;
            forall i: nat, h: Holding :: i < n ==>
              (HeldSince(c, candles, i, symbol, h) <==>
               HeldSince(c, candles[..n], i, symbol, h) && candles[n].signal != Signal.Sell(symbol))
  {
    forall i: nat, h: Holding | i < |candles| - 1
      ensures HeldSince(c, candles, i, symbol, h) <==>
              HeldSince(c, candles[..|candles| - 1], i, symbol, h) && candles[|candles| - 1].signal != Signal.Sell(symbol)
    { HeldFront(c, candles, i, symbol, h); }
  }

  /** The last candle is where a position begins exactly when it buys. */
  lemma HeldLast(c: Config, candles: seq<Candle>, symbol: string, h: Holding)
    requires candles != []
    ensures var n := |candles| - 1;
            HeldSince(c, candles, n, symbol, h) <==>
            && Buys(c, Through(c, Fresh(c), candles[..n]), candles[n], symbol)
            && h == Holding(candles[n].signal.quantity, EntryPrice(c, candles[n]))
  {
  }

  lemma {:induction false} HoldingsTold(c: Config, candles: seq<Candle>, symbol: string)
    ensures HoldingTold(c, candles, symbol)
  {
    if candles != [] {
      var n := |candles| - 1;
      var s := Through(c, Fresh(c), candles[..n]);
      HoldingsTold(c, candles[..n], symbol);
      CandlePosition(c, s, n, candles[n], symbol);
      HoldersFront(c, candles, symbol);
      forall h: Holding
        ensures HeldSince(c, candles, n, symbol, h) <==>
                Buys(c, s, candles[n], symbol) && h == Holding(candles[n].signal.quantity, EntryPrice(c, candles[n]))
      { HeldLast(c, candles, symbol, h); }
      if symbol in s.positions {
        var i: nat :| HeldSince(c, candles[..n], i, symbol, s.positions[symbol]);
        assert candles[n].signal != Signal.Sell(symbol) ==> HeldSince(c, candles, i, symbol, s.positions[symbol]);
      } else if Buys(c, s, candles[n], symbol) {
        assert HeldSince(c, candles, n, symbol, Holding(candles[n].signal.quantity, EntryPrice(c, candles[n])));
      }
    }
  }

  /** What one candle adds to the trades. */
  lemma CandleTrades(c: Config, s: State, i: nat, candle: Candle)
    ensures var t := AfterCandle(c, s, i, candle);
            t.trades == if candle.signal.Sell? && candle.signal.symbol in s.positions
                        then s.trades + [Closing(c, candle.signal.symbol, s.positions[candle.signal.symbol], candle.close)]
                        else s.trades
  {
  }

  lemma TradedMore(c: Config, candles: seq<Candle>, i: nat, j: nat, t: Trade)
    requires candles != [] && TradedAt(c, candles[..|candles| - 1], i, j, t)
    ensures TradedAt(c, candles, i, j, t)
  {
    assert candles[..|candles| - 1][..j] == candles[..j];
  }

  ghost predicate TradeTold(c: Config, candles: seq<Candle>, t: Trade) {
    exists i: nat, j: nat :: TradedAt(c, candles, i, j, t)
  }

  lemma {:induction false} AllTradesTold(c: Config, candles: seq<Candle>)
    ensures forall t :: t in Through(c, Fresh(c), candles).trades ==> TradeTold(c, candles, t)
  {
    if candles != [] {
      var n := |candles| - 1;
      var front, s := candles[..n], Through(c, Fresh(c), candles[..n]);
      AllTradesTold(c, front);
      CandleTrades(c, s, n, candles[n]);
      forall t | t in s.trades ensures TradeTold(c, candles, t) {
        var i: nat, j: nat :| TradedAt(c, front, i, j, t);
        TradedMore(c, candles, i, j, t);
      }
      if candles[n].signal.Sell? && candles[n].signal.symbol in s.positions { LastTradeTold(c, candles); }
    }
  }

  lemma ClosingIs(c: Config, symbol: string, h: Holding, candle: Candle)
    ensures var t := Closing(c, symbol, h, candle.close);
            && t.symbol == symbol && Holding(t.quantity, t.entryPrice) == h && t.exitPrice == ExitPrice(c, candle)
            && t.commission == t.quantity * t.exitPrice * c.commissionRate
            && t.pnl == (t.exitPrice - t.entryPrice) * t.quantity - t.commission
  {
  }

  lemma SaleTold(c: Config, candles: seq<Candle>, i: nat, j: nat, symbol: string, h: Holding)
    requires i < j < |candles| && candles[j].signal == Signal.Sell(symbol) && HeldSince(c, candles[..j], i, symbol, h)
    ensures TradedAt(c, candles, i, j, Closing(c, symbol, h, candles[j].close))
  {
    ClosingIs(c, symbol, h, candles[j]);
    assert Holding(h.quantity, h.entryPrice) == h;
  }

  lemma LastTradeTold(c: Config, candles: seq<Candle>)
    requires candles != []
    requires var n := |candles| - 1;
             candles[n].signal.Sell? && candles[n].signal.symbol in Through(c, Fresh(c), candles[..n]).positions
    ensures var n := |candles| - 1;
            var symbol := candles[n].signal.symbol;
            TradeTold(c, candles, Closing(c, symbol, Through(c, Fresh(c), candles[..n]).positions[symbol], candles[n].close))
  {
    var n := |candles| - 1;
    var symbol := candles[n].signal.symbol;
    var h := Through(c, Fresh(c), candles[..n]).positions[symbol];
    HoldingsTold(c, candles[..n], symbol);
    var i: nat :| HeldSince(c, candles[..n], i, symbol, h);
    SaleTold(c, candles, i, n, symbol, h);
  }

  /**
    After any run each position was bought by a candle whose symbol was not held and whose
    price was affordable, and not sold since, at that candle's close with slippage on top; each
    trade was bought so, and sold at a close with slippage taken off.
   */
  lemma TradesTellTheCandles(c: Config, candles: seq<Candle>)
    ensures var s := Through(c, Fresh(c), candles);
            && (forall symbol :: HoldingTold(c, candles, symbol))
            && (forall t :: t in s.trades ==> TradeTold(c, candles, t))
  {
    forall symbol ensures HoldingTold(c, candles, symbol) { HoldingsTold(c, candles, symbol); }
    AllTradesTold(c, candles);
  }

  /* ---------- What the equity curve and the counts say ---------- */

  /** Candle `i` did something: it bought, sold what was held, or asked for neither. */
  ghost predicate ActedAt(c: Config, candles: seq<Candle>, i: nat) {
    && i < |candles|
    && match candles[i].signal
       case Buy(symbol, quantity) => BoughtAt(c, candles, i, symbol, quantity)
       case Sell(symbol) => symbol in Through(c, Fresh(c), candles[..i]).positions
       case OtherAction => true
       case Failed => false
       case Hold => false
  }

  /** Cash and open cost after every hundredth candle, from the first on, that did something. */
  ghost function Curve(c: Config, candles: seq<Candle>): seq<real> {
    if candles == [] then []
    else
      var n := |candles| - 1;
      var s := Through(c, Fresh(c), candles);
      Curve(c, candles[..n]) + if ActedAt(c, candles, n) && n % 100 == 0 then [s.balance + Sum(s.positions, Cost)] else []
  }

  lemma ActsExactlyWhen(c: Config, candles: seq<Candle>)
    requires candles != []
    ensures var n := |candles| - 1;
            Succeeds(c, Through(c, Fresh(c), candles[..n]), candles[n].signal, candles[n].close) <==> ActedAt(c, candles, n)
  {
    var n := |candles| - 1;
    if candles[n].signal.Buy? { BuysExactlyWhen(c, Through(c, Fresh(c), candles[..n]), candles[n]); }
  }

  /** What one candle adds to the curve. */
  lemma CandleCurve(c: Config, s: State, i: nat, candle: Candle)
    ensures var t := AfterCandle(c, s, i, candle);
            t.equity == s.equity + if Succeeds(c, s, candle.signal, candle.close) && i % 100 == 0
                                   then [t.balance + Sum(t.positions, Cost)] else []
  {
    ExecuteKeepsCurve(c, s, candle.signal, candle.close);
    assert s.equity + [] == s.equity;
  }

  lemma {:induction false} CurveTellsTheCandles(c: Config, candles: seq<Candle>)
    ensures Through(c, Fresh(c), candles).equity == Curve(c, candles)
  {
    if candles != [] {
      var n := |candles| - 1;
      CurveTellsTheCandles(c, candles[..n]);
      CandleCurve(c, Through(c, Fresh(c), candles[..n]), n, candles[n]);
      ActsExactlyWhen(c, candles);
    }
  }

  ghost function Winners(ts: seq<Trade>): set<nat> { set i: nat | i < |ts| && ts[i].pnl > 0.0 }

  /** The winning trades are those with a profit above zero. */
  lemma {:induction false} WinsAreCounted(ts: seq<Trade>)
    ensures Wins(ts) == |Winners(ts)|
  {
    if ts != [] {
      var n := |ts| - 1;
      WinsAreCounted(ts[..n]);
      assert Winners(ts) == Winners(ts[..n]) + if ts[n].pnl > 0.0 then {n} else {};
    }
  }
}
