/**
  The technical indicators, over exact decimals. None stands for the panic of a division by
  zero, which a period of zero (or, for the exponential average, of minus one) brings about.
*/
module Indicators {
  import opened Entities

  /* ---------- Simple moving average ---------- */

  function Total(s: seq<real>): real {
    if s == [] then 0.0 else Total(s[..|s| - 1]) + s[|s| - 1]
  }

  function Last(prices: seq<real>, period: nat): seq<real>
    requires period <= |prices|
  {
    prices[|prices| - period..]
  }

  function Average(prices: seq<real>, period: nat): real
    requires 1 <= period <= |prices|
  {
    Quotient(Total(Last(prices, period)), period as real)
  }

  method SimpleMovingAverage(prices: seq<real>, period: int) returns (r: Option<real>)
    ensures |prices| < period ==> r == Some(0.0)
    ensures 1 <= period <= |prices| ==> r == Some(Average(prices, period))
    ensures period == 0 ==> r == None
    ensures period < 0 ==> r == Some(0.0)
  {
    if |prices| < period { return Some(0.0); }
    var sum := 0.0;
    var i := |prices| - period;
    while i < |prices|
      invariant period >= 0 ==> |prices| - period <= i <= |prices| && sum == Total(prices[|prices| - period..i])
      invariant period < 0 ==> i == |prices| - period && sum == 0.0
    {
      assert prices[|prices| - period..i + 1] == prices[|prices| - period..i] + [prices[i]];
      sum := sum + prices[i];
      i := i + 1;
    }
    if period == 0 { return None; }
    assert period > 0 ==> prices[|prices| - period..i] == Last(prices, period);
    return Some(Quotient(sum, period as real));
  }

  ghost predicate Within(s: seq<real>, lo: real, hi: real) { forall i :: 0 <= i < |s| ==> lo <= s[i] <= hi }

  lemma {:induction false} TotalWithin(s: seq<real>, lo: real, hi: real)
    requires Within(s, lo, hi)
    ensures lo * |s| as real <= Total(s) <= hi * |s| as real
  {
    if s != [] {
      TotalWithin(s[..|s| - 1], lo, hi);
      assert lo * |s| as real == lo * (|s| - 1) as real + lo;
      assert hi * |s| as real == hi * (|s| - 1) as real + hi;
    }
  }

  lemma QuotientWithin(x: real, n: real, lo: real, hi: real)
    requires n > 0.0 && lo * n <= x <= hi * n
    ensures lo <= Quotient(x, n) <= hi
  {
    var q := Quotient(x, n);
    assert q * n == x;
    assert q < lo ==> q * n < lo * n;
    assert q > hi ==> q * n > hi * n;
  }

  lemma AverageWithin(prices: seq<real>, period: nat, lo: real, hi: real)
    requires 1 <= period <= |prices| && Within(Last(prices, period), lo, hi)
    ensures lo <= Average(prices, period) <= hi
  {
    TotalWithin(Last(prices, period), lo, hi);
    QuotientWithin(Total(Last(prices, period)), period as real, lo, hi);
  }

  function Line(x: real, a: real, b: real): real { a * x + b }

  function Rescaled(prices: seq<real>, a: real, b: real): (r: seq<real>)
    ensures |r| == |prices|
  {
    seq(|prices|, i requires 0 <= i < |prices| => Line(prices[i], a, b))
  }

  lemma RescaledSlice(prices: seq<real>, a: real, b: real, from: nat, to: nat)
    requires from <= to <= |prices|
    ensures Rescaled(prices, a, b)[from..to] == Rescaled(prices[from..to], a, b)
  {
  }

  /** The sum of `n` rescaled prices whose own sum is `total`. */
  function Spread(total: real, n: real, a: real, b: real): real { a * total + b * n }

  lemma {:induction false} TotalRescaled(s: seq<real>, a: real, b: real)
    ensures Total(Rescaled(s, a, b)) == Spread(Total(s), |s| as real, a, b)
  {
    if s != [] {
      var rest, x := s[..|s| - 1], s[|s| - 1];
      RescaledSlice(s, a, b, 0, |s| - 1);
      assert Rescaled(s, a, b)[|s| - 1] == Line(x, a, b);
      TotalRescaled(rest, a, b);
      assert b * |s| as real == b * |rest| as real + b;
      assert a * Total(s) == a * Total(rest) + a * x;
    }
  }

  lemma QuotientAffine(x: real, y: real, n: real, a: real, b: real)
    requires n != 0.0 && y == Spread(x, n, a, b)
    ensures Quotient(y, n) == Line(Quotient(x, n), a, b)
  {
    var q := Quotient(x, n);
    assert q * n == x;
    assert (a * q + b) * n == a * (q * n) + b * n == y;
    SameFactor(Quotient(y, n), a * q + b, n);
  }

  lemma SameFactor(x: real, y: real, n: real)
    requires n != 0.0 && x * n == y * n
    ensures x == y
  {
    assert (x - y) * n == 0.0;
  }

  lemma AverageOf(prices: seq<real>, period: nat, s: seq<real>)
    requires 1 <= period <= |prices| && s == Last(prices, period)
    ensures Average(prices, period) == Quotient(Total(s), period as real)
  {
  }

  lemma AverageRescales(prices: seq<real>, period: nat, a: real, b: real)
    requires 1 <= period <= |prices|
    ensures Average(Rescaled(prices, a, b), period) == Line(Average(prices, period), a, b)
  {
    RescaledSlice(prices, a, b, |prices| - period, |prices|);
    var s, n := Last(prices, period), period as real;
    TotalRescaled(s, a, b);
    AverageOf(Rescaled(prices, a, b), period, Rescaled(s, a, b));
    QuotientAffine(Total(s), Total(Rescaled(s, a, b)), n, a, b);
  }

  /* ---------- Exponential moving average ---------- */

  lemma {:induction false} TotalTail(s: seq<real>)
    requires s != []
    ensures Total(s) == s[0] + Total(s[1..])
  {
    if |s| > 1 {
      assert s[1..][..|s| - 2] == s[..|s| - 1][1..];
      TotalTail(s[..|s| - 1]);
    }
  }

  /** A new price moves the average by its distance from the price that drops out of the window, over the period. */
  lemma AverageSlides(prices: seq<real>, x: real, period: nat)
    requires 1 <= period <= |prices|
    ensures (Average(prices + [x], period) - Average(prices, period)) * period as real == x - prices[|prices| - period]
  {
    var window := Last(prices, period);
    var next := Last(prices + [x], period);
    assert next[..period - 1] == window[1..];
    TotalTail(window);
    assert Average(prices, period) * period as real == Total(window);
    assert Average(prices + [x], period) * period as real == Total(next);
  }

  /** The average of a single price is the price. */
  lemma AverageOfOne(x: real)
    ensures Average([x], 1) == x
  {
    assert Last([x], 1) == [x] && [x][..0] == [];
    assert Total([x]) == x;
    assert Average([x], 1) == Quotient(x, 1 as real) == x / 1.0;
  }

  function Weight(period: int): real
    requires period != -1
  {
    Quotient(2.0, (period + 1) as real)
  }

  function Blend(x: real, ema: real, weight: real): real { x * weight + ema * (1.0 - weight) }

  function Ema(prices: seq<real>, weight: real): real
    requires prices != []
  {
    if |prices| == 1 then prices[0]
    else Blend(prices[|prices| - 1], Ema(prices[..|prices| - 1], weight), weight)
  }

  method ExponentialMovingAverage(prices: seq<real>, period: int) returns (r: Option<real>)
    ensures prices == [] ==> r == Some(0.0)
    ensures prices != [] && period == -1 ==> r == None
    ensures prices != [] && period != -1 ==> r == Some(Ema(prices, Weight(period)))
  {
    if |prices| == 0 { return Some(0.0); }
    if period + 1 == 0 { return None; }
    var multiplier := Quotient(2.0, (period + 1) as real);
    var ema := prices[0];
    var i := 1;
    while i < |prices|
      invariant 1 <= i <= |prices| && ema == Ema(prices[..i], multiplier)
    {
      assert prices[..i + 1][..i] == prices[..i];
      ema := prices[i] * multiplier + ema * (1.0 - multiplier);
      i := i + 1;
    }
    assert prices[..i] == prices;
    return Some(ema);
  }

  lemma NotNegative(x: real, y: real)
    requires x >= 0.0 && y >= 0.0
    ensures x * y >= 0.0
  {
  }

  lemma BlendWithin(x: real, y: real, w: real, lo: real, hi: real)
    requires 0.0 <= w <= 1.0 && lo <= x <= hi && lo <= y <= hi
    ensures lo <= Blend(x, y, w) <= hi
  {
    NotNegative(x - lo, w);
    NotNegative(y - lo, 1.0 - w);
    assert Blend(x, y, w) - lo == (x - lo) * w + (y - lo) * (1.0 - w);
    NotNegative(hi - x, w);
    NotNegative(hi - y, 1.0 - w);
    assert hi - Blend(x, y, w) == (hi - x) * w + (hi - y) * (1.0 - w);
  }

  lemma {:induction false} EmaBetween(prices: seq<real>, w: real, lo: real, hi: real)
    requires prices != [] && 0.0 <= w <= 1.0 && Within(prices, lo, hi)
    ensures lo <= Ema(prices, w) <= hi
  {
    var n := |prices| - 1;
    if n > 0 {
      EmaBetween(prices[..n], w, lo, hi);
      BlendWithin(prices[n], Ema(prices[..n], w), w, lo, hi);
    }
  }

  lemma WeightRange(period: int)
    requires period != -1
    ensures 0.0 <= Weight(period) <= 1.0 <==> period >= 1
  {
    var n := (period + 1) as real;
    var w := Weight(period);
    assert w * n == 2.0;
    if period >= 1 {
      QuotientWithin(2.0, n, 0.0, 1.0);
    } else if period == 0 {
      assert n == 1.0;
    } else {
      assert n < 0.0;
      assert w >= 0.0 ==> w * n <= 0.0;
    }
  }

  /**
    The average stays between the least and the greatest price for every list of prices
    exactly for the periods from one upwards.
   */
  lemma {:induction false} EmaWithinExactlyWhen(period: int)
    requires period != -1
    ensures period >= 1 <==>
            forall prices, lo, hi :: prices != [] && Within(prices, lo, hi) ==> lo <= Ema(prices, Weight(period)) <= hi
  {
    WeightRange(period);
    var w := Weight(period);
    if period >= 1 {
      forall prices, lo, hi | prices != [] && Within(prices, lo, hi) ensures lo <= Ema(prices, w) <= hi {
        EmaBetween(prices, w, lo, hi);
      }
    } else {
      var prices := [0.0, 1.0];
      assert prices[..1] == [0.0];
      assert Ema(prices, w) == Blend(1.0, 0.0, w) == w;
      assert Within(prices, 0.0, 1.0);
    }
  }

  lemma BlendRescales(x: real, y: real, w: real, a: real, b: real)
    ensures Blend(Line(x, a, b), Line(y, a, b), w) == Line(Blend(x, y, w), a, b)
  {
    assert (a * x + b) * w == a * (x * w) + b * w;
    assert (a * y + b) * (1.0 - w) == a * (y * (1.0 - w)) + b * (1.0 - w);
    assert b * w + b * (1.0 - w) == b;
    assert a * (x * w) + a * (y * (1.0 - w)) == a * Blend(x, y, w);
  }

  lemma {:induction false} EmaRescales(prices: seq<real>, w: real, a: real, b: real)
    requires prices != []
    ensures Ema(Rescaled(prices, a, b), w) == Line(Ema(prices, w), a, b)
  {
    var n := |prices| - 1;
    if n > 0 {
      RescaledSlice(prices, a, b, 0, n);
      EmaRescales(prices[..n], w, a, b);
      BlendRescales(prices[n], Ema(prices[..n], w), w, a, b);
    }
  }

  /* ---------- Relative strength index ---------- */

  /** A new price moves the exponential average 2/(period + 1) of the way towards it. */
  lemma EmaMoves(prices: seq<real>, x: real, period: nat)
    requires prices != []
    ensures (Ema(prices + [x], Weight(period)) - Ema(prices, Weight(period))) * (period + 1) as real == 2.0 * (x - Ema(prices, Weight(period)))
    ensures Ema([x], Weight(period)) == x
  {
    var w, e := Weight(period), Ema(prices, Weight(period));
    assert (prices + [x])[..|prices|] == prices;
    assert w * (period + 1) as real == 2.0;
    assert Ema(prices + [x], w) - e == w * (x - e);
    assert w * (x - e) * (period + 1) as real == w * (period + 1) as real * (x - e);
  }

  function Rise(change: real): real { if change > 0.0 then change else 0.0 }

  /** The sum of the rises from one price to the next, for the prices from `a` to `b`. */
  function Rises(prices: seq<real>, a: nat, b: nat): (r: real)
    requires 1 <= a <= b <= |prices|
    ensures r >= 0.0
  {
    if a == b then 0.0 else Rises(prices, a, b - 1) + Rise(prices[b - 1] - prices[b - 2])
  }

  function Falls(prices: seq<real>, a: nat, b: nat): (r: real)
    requires 1 <= a <= b <= |prices|
    ensures r >= 0.0
  {
    if a == b then 0.0 else Falls(prices, a, b - 1) + Rise(prices[b - 2] - prices[b - 1])
  }

  function Strength(gain: real, loss: real): real
    requires gain >= 0.0 && loss >= 0.0
  {
    if loss == 0.0 then 100.0 else 100.0 - Quotient(100.0, 1.0 + Quotient(gain, loss))
  }

  lemma QuotientSign(x: real, n: real)
    requires x >= 0.0 && n > 0.0
    ensures Quotient(x, n) >= 0.0 && (Quotient(x, n) == 0.0 <==> x == 0.0)
  {
    var q := Quotient(x, n);
    assert q * n == x;
    assert q < 0.0 ==> q * n < 0.0;
  }

  /** The index of a total gain and a total loss over so many prices. */
  function Rating(gains: real, losses: real, period: nat): real
    requires gains >= 0.0 && losses >= 0.0 && period >= 1
  {
    QuotientSign(gains, period as real);
    QuotientSign(losses, period as real);
    Strength(Quotient(gains, period as real), Quotient(losses, period as real))
  }

  function Index(prices: seq<real>, period: nat): real
    requires 1 <= period < |prices|
  {
    Rating(Rises(prices, |prices| - period, |prices|), Falls(prices, |prices| - period, |prices|), period)
  }

  method Rate(gains: real, losses: real, period: int) returns (r: real)
    requires gains >= 0.0 && losses >= 0.0 && period != 0 && (period < 0 ==> losses == 0.0)
    ensures r == if period < 0 then 100.0 else Rating(gains, losses, period)
  {
    var avgGain, avgLoss := Quotient(gains, period as real), Quotient(losses, period as real);
    assert period < 0 ==> avgLoss == 0.0 by { assert avgLoss * period as real == losses; }
    if avgLoss == 0.0 { return 100.0; }
    QuotientSign(gains, period as real);
    QuotientSign(losses, period as real);
    QuotientSign(avgGain, avgLoss);
    var rs := Quotient(avgGain, avgLoss);
    return 100.0 - Quotient(100.0, 1.0 + rs);
  }

  method RSI(prices: seq<real>, period: int) returns (r: Option<real>)
    ensures |prices| < period + 1 ==> r == Some(0.0)
    ensures 1 <= period < |prices| ==> r == Some(Index(prices, period))
    ensures period == 0 && prices != [] ==> r == None
    ensures period < 0 && period < |prices| ==> r == Some(100.0)
  {
    if |prices| < period + 1 { return Some(0.0); }
    var gains, losses := 0.0, 0.0;
    var i := |prices| - period;
    while i < |prices|
      invariant period >= 1 ==> |prices| - period <= i <= |prices|
                                && gains == Rises(prices, |prices| - period, i)
                                && losses == Falls(prices, |prices| - period, i)
      invariant period < 1 ==> i >= |prices| && gains == losses == 0.0
    {
      var change := prices[i] - prices[i - 1];
      if change > 0.0 { gains := gains + change; } else { losses := losses + -change; }
      i := i + 1;
    }
    if period == 0 { return None; }
    var rsi := Rate(gains, losses, period);
    return Some(rsi);
  }

  /** The index is always a percentage. */
  lemma IndexRange(prices: seq<real>, period: nat)
    requires 1 <= period < |prices|
    ensures 0.0 <= Index(prices, period) <= 100.0
  {
    var a := |prices| - period;
    QuotientSign(Rises(prices, a, |prices|), period as real);
    QuotientSign(Falls(prices, a, |prices|), period as real);
    var g, l := Quotient(Rises(prices, a, |prices|), period as real), Quotient(Falls(prices, a, |prices|), period as real);
    if l > 0.0 {
      QuotientSign(g, l);
      QuotientWithin(100.0, 1.0 + Quotient(g, l), 0.0, 100.0);
    }
  }

  /** A second form of the same number: the share of the gains. */
  lemma StrengthIsShare(g: real, l: real)
    requires g >= 0.0 && l >= 0.0 && g + l > 0.0
    ensures Strength(g, l) * (g + l) == 100.0 * g
  {
    if l > 0.0 {
      var q := Quotient(g, l);
      QuotientSign(g, l);
      var c := Quotient(100.0, 1.0 + q);
      assert q * l == g && c * (1.0 + q) == 100.0;
      assert (1.0 + q) * l == l + g;
      assert c * (g + l) == c * ((1.0 + q) * l) == (c * (1.0 + q)) * l == 100.0 * l;
    }
  }

  lemma StrengthsSum(g: real, l: real)
    requires g >= 0.0 && l >= 0.0
    ensures Strength(g, l) + Strength(l, g) == if g + l > 0.0 then 100.0 else 200.0
  {
    if g + l > 0.0 {
      StrengthIsShare(g, l);
      StrengthIsShare(l, g);
      var x, y := Strength(g, l), Strength(l, g);
      assert (x + y) * (g + l) == x * (g + l) + y * (l + g) == 100.0 * (g + l);
      SameFactor(x + y, 100.0, g + l);
    }
  }

  function Distance(a: real, b: real): real { if a < b then b - a else a - b }

  /** The way prices go from place `a - 1` to place `b - 1`, up and down. */
  function Path(prices: seq<real>, a: nat, b: nat): real
    requires 1 <= a <= b <= |prices|
  {
    if a == b then 0.0 else Path(prices, a, b - 1) + Distance(prices[b - 1], prices[b - 2])
  }

  /** Rises less falls is where the prices have come to, rises and falls together the way they went. */
  lemma {:induction false} RisesAndFalls(prices: seq<real>, a: nat, b: nat)
    requires 1 <= a <= b <= |prices|
    ensures Rises(prices, a, b) - Falls(prices, a, b) == prices[b - 1] - prices[a - 1]
    ensures Rises(prices, a, b) + Falls(prices, a, b) == Path(prices, a, b)
  {
    if a < b { RisesAndFalls(prices, a, b - 1); }
  }

  lemma ScaledStrength(gain: real, loss: real, n: real)
    requires gain >= 0.0 && loss >= 0.0 && n > 0.0
    ensures Quotient(gain, n) >= 0.0 && Quotient(loss, n) >= 0.0
    ensures Strength(Quotient(gain, n), Quotient(loss, n)) * (gain + loss) == 100.0 * gain
  {
    QuotientSign(gain, n);
    QuotientSign(loss, n);
    var g, l := Quotient(gain, n), Quotient(loss, n);
    assert g * n == gain && l * n == loss;
    if loss == 0.0 {
      assert l == 0.0;
    } else {
      assert l > 0.0;
      StrengthIsShare(g, l);
      assert Strength(g, l) * (gain + loss) == Strength(g, l) * (g + l) * n;
    }
  }

  lemma RatingIsShare(gains: real, losses: real, period: nat)
    requires gains >= 0.0 && losses >= 0.0 && period >= 1
    ensures Rating(gains, losses, period) * (gains + losses) == 100.0 * gains
    ensures gains + losses == 0.0 ==> Rating(gains, losses, period) == 100.0
  {
    ScaledStrength(gains, losses, period as real);
  }

  lemma {:induction false} IndexTimesWay(prices: seq<real>, period: nat)
    requires 1 <= period < |prices|
    ensures var n := |prices|;
            var up, down := Rises(prices, n - period, n), Falls(prices, n - period, n);
            && Index(prices, period) * (up + down) == 100.0 * up
            && (up + down == 0.0 ==> Index(prices, period) == 100.0)
  {
    var n := |prices|;
    RatingIsShare(Rises(prices, n - period, n), Falls(prices, n - period, n), period);
  }

  lemma Doubled(index: real, up: real, down: real, way: real, climb: real)
    requires index * (up + down) == 100.0 * up && way == up + down && climb == up - down
    ensures 2.0 * index * way == 100.0 * (way + climb)
  {
    assert 2.0 * index * way == 2.0 * (index * (up + down));
  }

  /** The index is the share of the upward way in the whole way over the last `period` changes. */
  lemma {:induction false} IndexIsShare(prices: seq<real>, period: nat)
    requires 1 <= period < |prices|
    ensures var n := |prices|;
            var way, climb := Path(prices, n - period, n), prices[n - 1] - prices[n - period - 1];
            && 2.0 * Index(prices, period) * way == 100.0 * (way + climb)
            && (way == 0.0 ==> Index(prices, period) == 100.0)
  {
    var n := |prices|;
    IndexTimesWay(prices, period);
    RisesAndFalls(prices, n - period, n);
    Doubled(Index(prices, period), Rises(prices, n - period, n), Falls(prices, n - period, n),
            Path(prices, n - period, n), prices[n - 1] - prices[n - period - 1]);
  }

  function Negated(prices: seq<real>): (r: seq<real>)
    ensures |r| == |prices|
  {
    seq(|prices|, i requires 0 <= i < |prices| => -prices[i])
  }

  lemma {:induction false} NegationSwaps(prices: seq<real>, a: nat, b: nat)
    requires 1 <= a <= b <= |prices|
    ensures Rises(Negated(prices), a, b) == Falls(prices, a, b)
    ensures Falls(Negated(prices), a, b) == Rises(prices, a, b)
    decreases b
  {
    if a < b { NegationSwaps(prices, a, b - 1); }
  }

  ghost predicate IsFlat(prices: seq<real>, period: nat)
    requires 1 <= period < |prices|
  {
    forall i :: |prices| - period <= i < |prices| ==> prices[i] == prices[i - 1]
  }

  lemma {:induction false} NoMoves(prices: seq<real>, a: nat, b: nat)
    requires 1 <= a <= b <= |prices|
    ensures Rises(prices, a, b) + Falls(prices, a, b) == 0.0 <==> forall i :: a <= i < b ==> prices[i] == prices[i - 1]
    decreases b
  {
    if a < b {
      NoMoves(prices, a, b - 1);
      assert Rise(prices[b - 1] - prices[b - 2]) + Rise(prices[b - 2] - prices[b - 1]) == 0.0 <==> prices[b - 1] == prices[b - 2];
    }
  }

  /** The indices of a list and of its mirror image make 100, exactly when the list is not flat. */
  lemma MirrorImage(prices: seq<real>, period: nat)
    requires 1 <= period < |prices|
    ensures Index(prices, period) + Index(Negated(prices), period) == 100.0 <==> !IsFlat(prices, period)
    ensures IsFlat(prices, period) ==> Index(prices, period) == Index(Negated(prices), period) == 100.0
  {
    var a := |prices| - period;
    var rises, falls := Rises(prices, a, |prices|), Falls(prices, a, |prices|);
    var n := period as real;
    NegationSwaps(prices, a, |prices|);
    NoMoves(prices, a, |prices|);
    QuotientSign(rises, n);
    QuotientSign(falls, n);
    StrengthsSum(Quotient(rises, n), Quotient(falls, n));
  }

  /* ---------- Bollinger bands ---------- */

  function Product(x: real, k: real): real { x * k }

  lemma SameSigns(x: real, y: real)
    requires (x > 0.0 && y > 0.0) || (x < 0.0 && y < 0.0)
    ensures Product(x, y) > 0.0
  {
  }

  lemma SquareSign(x: real)
    ensures Product(x, x) >= 0.0 && (Product(x, x) == 0.0 <==> x == 0.0)
  {
    if x != 0.0 { SameSigns(x, x); }
  }

  function Squares(s: seq<real>, mean: real): (r: real)
    ensures r >= 0.0
  {
    if s == [] then 0.0
    else Squares(s[..|s| - 1], mean) + Square(s[|s| - 1] - mean)
  }

  function Square(x: real): (r: real)
    ensures r >= 0.0 && (r == 0.0 <==> x == 0.0)
  {
    SquareSign(x);
    Product(x, x)
  }

  /** What the code calls the standard deviation. */
  function Deviation(prices: seq<real>, period: nat): real
    requires 1 <= period <= |prices|
  {
    Quotient(Squares(Last(prices, period), Average(prices, period)), period as real)
  }

  function SumOfSquares(s: seq<real>): real {
    if s == [] then 0.0 else SumOfSquares(s[..|s| - 1]) + Square(s[|s| - 1])
  }

  /** The squared distances from a mean, of `n` numbers with these sums of squares and of values. */
  function Expanded(squares: real, total: real, n: real, mean: real): real {
    squares - 2.0 * mean * total + mean * mean * n
  }

  lemma OneMore(squares: real, total: real, n: real, x: real, mean: real)
    ensures Expanded(squares, total, n, mean) + Square(x - mean) == Expanded(squares + Square(x), total + x, n + 1.0, mean)
  {
    assert Square(x - mean) == x * x - 2.0 * mean * x + mean * mean;
    assert 2.0 * mean * (total + x) == 2.0 * mean * total + 2.0 * mean * x;
    assert mean * mean * (n + 1.0) == mean * mean * n + mean * mean;
  }

  lemma NoneYet(mean: real)
    ensures Expanded(0.0, 0.0, 0.0, mean) == 0.0
  {
  }

  lemma {:induction false} SquaresExpand(s: seq<real>, mean: real)
    ensures Squares(s, mean) == Expanded(SumOfSquares(s), Total(s), |s| as real, mean)
  {
    if s == [] {
      NoneYet(mean);
    } else {
      var n := |s| - 1;
      SquaresExpand(s[..n], mean);
      OneMore(SumOfSquares(s[..n]), Total(s[..n]), n as real, s[n], mean);
      assert |s| as real == n as real + 1.0;
    }
  }

  lemma QuotientTimes(x: real, n: real)
    requires n != 0.0
    ensures Product(Quotient(x, n), n) == x
  {
  }

  lemma AtTheMean(squares: real, total: real, n: real, mean: real)
    requires Product(mean, n) == total
    ensures Expanded(squares, total, n, mean) == squares - Product(Square(mean), n)
  {
    assert 2.0 * mean * total == 2.0 * (mean * mean * n);
  }

  lemma WindowVariance(window: seq<real>, n: real, mean: real, variance: real)
    requires n == |window| as real && Product(mean, n) == Total(window) && Product(variance, n) == Squares(window, mean)
    ensures Product(variance, n) == SumOfSquares(window) - Product(Square(mean), n)
  {
    SquaresExpand(window, mean);
    AtTheMean(SumOfSquares(window), Total(window), n, mean);
  }

  /** The deviation is the mean of the squares less the square of the mean. */
  lemma DeviationIsVariance(prices: seq<real>, period: nat)
    requires 1 <= period <= |prices|
    ensures Product(Deviation(prices, period), period as real)
            == SumOfSquares(prices[|prices| - period..]) - Product(Square(Average(prices, period)), period as real)
  {
    var window, mean := Last(prices, period), Average(prices, period);
    QuotientTimes(Total(window), period as real);
    QuotientTimes(Squares(window, mean), period as real);
    WindowVariance(window, period as real, mean, Deviation(prices, period));
  }

  datatype Bands = Bands(middle: real, upper: real, lower: real)

  method BollingerBands(prices: seq<real>, period: int, multiplier: real) returns (r: Option<Bands>)
    ensures |prices| < period ==> r == Some(Bands(0.0, 0.0, 0.0))
    ensures period == 0 ==> r == None
    ensures period < 0 ==> r == Some(Bands(0.0, 0.0, 0.0))
    ensures 1 <= period <= |prices| ==>
              var m, d := Average(prices, period), Product(Deviation(prices, period), multiplier);
              r == Some(Bands(m, m + d, m - d))
  {
    if |prices| < period { return Some(Bands(0.0, 0.0, 0.0)); }
    var average := SimpleMovingAverage(prices, period);
    if average.None? { return None; }
    var sma := average.value;
    var sumSquaredDiff := 0.0;
    var i := |prices| - period;
    while i < |prices|
      invariant period >= 1 ==> |prices| - period <= i <= |prices|
                                && sumSquaredDiff == Squares(prices[|prices| - period..i], sma)
      invariant period < 1 ==> i >= |prices| && sumSquaredDiff == 0.0
    {
      assert prices[|prices| - period..i + 1][..i - (|prices| - period)] == prices[|prices| - period..i];
      var diff := prices[i] - sma;
      sumSquaredDiff := sumSquaredDiff + Square(diff);
      i := i + 1;
    }
    assert period >= 1 ==> prices[|prices| - period..i] == Last(prices, period);
    var variance := Quotient(sumSquaredDiff, period as real);
    assert period < 0 ==> variance == 0.0 by { assert variance * period as real == sumSquaredDiff; }
    var stdDev := variance;
    assert period < 0 ==> Product(stdDev, multiplier) == 0.0 * multiplier;
    return Some(Bands(sma, sma + Product(stdDev, multiplier), sma - Product(stdDev, multiplier)));
  }

  ghost predicate Constant(s: seq<real>, x: real) { forall i :: 0 <= i < |s| ==> s[i] == x }

  lemma {:induction false} NoSquares(s: seq<real>, mean: real)
    ensures Squares(s, mean) == 0.0 <==> Constant(s, mean)
  {
    if s != [] {
      var rest := s[..|s| - 1];
      NoSquares(rest, mean);
      if Constant(s, mean) { assert Constant(rest, mean); }
      if Constant(rest, mean) && s[|s| - 1] == mean {
        assert forall i :: 0 <= i < |s| ==> s[i] == if i < |rest| then rest[i] else mean;
      }
    }
  }

  /** The bands are in order exactly when the multiplier is not negative or the prices are all the same. */
  lemma BandsInOrder(prices: seq<real>, period: nat, multiplier: real)
    requires 1 <= period <= |prices|
    ensures var m, d := Average(prices, period), Product(Deviation(prices, period), multiplier);
            m - d <= m <= m + d <==> multiplier >= 0.0 || Constant(Last(prices, period), m)
  {
    var s, m := Last(prices, period), Average(prices, period);
    NoSquares(s, m);
    QuotientSign(Squares(s, m), period as real);
    var d := Deviation(prices, period);
    assert d > 0.0 && multiplier < 0.0 ==> d * multiplier < 0.0;
  }

  lemma {:induction false} SquaresRescale(s: seq<real>, mean: real, a: real, b: real)
    ensures Squares(Rescaled(s, a, b), Line(mean, a, b)) == Product(Squares(s, mean), a * a)
  {
    if s != [] {
      var rest, x := s[..|s| - 1], s[|s| - 1];
      RescaledSlice(s, a, b, 0, |s| - 1);
      assert Rescaled(s, a, b)[|s| - 1] == Line(x, a, b);
      SquaresRescale(rest, mean, a, b);
      SquareScales(x, mean, a, b);
      ProductAdds(Squares(rest, mean), Square(x - mean), a * a);
    }
  }

  lemma SquareScales(x: real, mean: real, a: real, b: real)
    ensures Square(Line(x, a, b) - Line(mean, a, b)) == Product(Square(x - mean), a * a)
  {
    var y := x - mean;
    assert Line(x, a, b) - Line(mean, a, b) == a * y;
    assert (a * y) * (a * y) == (y * y) * (a * a);
  }

  lemma ProductAdds(x: real, y: real, k: real)
    ensures Product(x + y, k) == Product(x, k) + Product(y, k)
  {
  }

  lemma QuotientScales(x: real, n: real, k: real)
    requires n != 0.0
    ensures Quotient(Product(x, k), n) == Product(Quotient(x, n), k)
  {
    var q := Quotient(x, n);
    assert (q * k) * n == (q * n) * k == x * k;
    SameFactor(Quotient(Product(x, k), n), q * k, n);
  }

  lemma DeviationOf(prices: seq<real>, period: nat, s: seq<real>, mean: real)
    requires 1 <= period <= |prices| && s == Last(prices, period) && mean == Average(prices, period)
    ensures Deviation(prices, period) == Quotient(Squares(s, mean), period as real)
  {
  }

  /** Quoting prices in another unit scales the width by the square of the factor, not by the factor. */
  lemma WidthScalesBySquare(prices: seq<real>, period: nat, a: real, b: real)
    requires 1 <= period <= |prices|
    ensures Deviation(Rescaled(prices, a, b), period) == Product(Deviation(prices, period), a * a)
  {
    var s, m := Last(prices, period), Average(prices, period);
    AverageRescales(prices, period, a, b);
    RescaledSlice(prices, a, b, |prices| - period, |prices|);
    DeviationOf(Rescaled(prices, a, b), period, Rescaled(s, a, b), Line(m, a, b));
    SquaresRescale(s, m, a, b);
    QuotientScales(Squares(s, m), period as real, a * a);
  }
}
