/**
 * The analytics pipeline of src/lib/marketData.ts: from an ordered price series to
 * returns, trailing-window statistics, drawdowns, a composite stress score, regime
 * labels, a return histogram, period aggregates and the tail slice the pages chart.
 *
 * Every derived series keeps the length and index alignment of its input.  The
 * functions below are the specification; the `Calculate...` and `Generate...`
 * methods are the loops of the original, proved equal to them.
 */
module MarketData {
  import opened SeqMath

  predicate AllPositive(p: seq<real>)
  {
    forall i :: 0 <= i < |p| ==> p[i] > 0.0
  }

  // ---------------------------------------------------------------------------
  // Returns
  // ---------------------------------------------------------------------------

  /** Percentage change from the previous price to the current one. */
  function DailyReturn(prev: real, cur: real): real
    requires prev > 0.0
  {
    (cur - prev) / prev * 100.0
  }

  /**
   * The return series: 0 on day 0, then the daily percentage change.  An empty
   * price series still yields the single leading 0 (the array starts as `[0]`).
   */
  function Returns(prices: seq<real>): (r: seq<real>)
    requires AllPositive(prices)
    ensures |r| == if |prices| == 0 then 1 else |prices|
    ensures r[0] == 0.0
    ensures forall i :: 1 <= i < |prices| ==> r[i] == DailyReturn(prices[i - 1], prices[i])
    decreases |prices|
  {
    if |prices| <= 1 then [0.0]
    else
      var n := |prices|;
      Returns(prices[..n - 1]) + [DailyReturn(prices[n - 2], prices[n - 1])]
  }

  method CalculateReturns(prices: seq<real>) returns (dailyReturns: seq<real>)
    requires AllPositive(prices)
    ensures dailyReturns == Returns(prices)
  {
    dailyReturns := [0.0];
    var i := 1;
    while i < |prices|
      invariant 1 <= i
      invariant |prices| > 0 ==> i <= |prices| && dailyReturns == Returns(prices[..i])
      invariant |prices| == 0 ==> dailyReturns == [0.0]
    {
      var ret := (prices[i] - prices[i - 1]) / prices[i - 1] * 100.0;
      assert prices[..i + 1][..i] == prices[..i];
      dailyReturns := dailyReturns + [ret];
      i := i + 1;
    }
    if |prices| > 0 {
      assert prices[..i] == prices;
    }
  }

  /** Rebuilds a price path from its first price by compounding the returns after day 0. */
  function Compound(first: real, dailyReturns: seq<real>): (p: seq<real>)
    requires |dailyReturns| > 0
    ensures |p| == |dailyReturns| && p[0] == first
    decreases |dailyReturns|
  {
    if |dailyReturns| == 1 then [first]
    else
      var q := Compound(first, dailyReturns[..|dailyReturns| - 1]);
      q + [Grow(q[|q| - 1], dailyReturns[|dailyReturns| - 1])]
  }

  /** A price carried forward by one day's percentage return. */
  function Grow(price: real, ret: real): real
  {
    price * (1.0 + ret / 100.0)
  }

  /** One day's growth factor recovers that day's price from the previous one. */
  lemma GrowthFactor(prev: real, cur: real)
    requires prev > 0.0
    ensures 1.0 + DailyReturn(prev, cur) / 100.0 == cur / prev
    ensures Grow(prev, DailyReturn(prev, cur)) == cur
  {
    var q := (cur - prev) / prev;
    assert q * prev == cur - prev;
    assert DailyReturn(prev, cur) / 100.0 == q;
    assert (1.0 + q) * prev == cur;
    DivideExact(cur, prev, 1.0 + q);
  }

  /** Returns loses nothing: compounding them from the first price gives the prices back. */
  lemma {:induction false} CompoundInvertsReturns(prices: seq<real>)
    requires |prices| > 0 && AllPositive(prices)
    ensures Compound(prices[0], Returns(prices)) == prices
    decreases |prices|
  {
    var n := |prices|;
    if n > 1 {
      var front := prices[..n - 1];
      var r := Returns(prices);
      assert r == Returns(front) + [DailyReturn(prices[n - 2], prices[n - 1])];
      assert r[..n - 1] == Returns(front);
      CompoundInvertsReturns(front);
      var q := Compound(prices[0], r[..n - 1]);
      assert q == front;
      GrowthFactor(prices[n - 2], prices[n - 1]);
      assert q[|q| - 1] == prices[n - 2];
      assert r[|r| - 1] == DailyReturn(prices[n - 2], prices[n - 1]);
      assert Compound(prices[0], r) == q + [Grow(q[|q| - 1], r[|r| - 1])];
      assert prices == front + [prices[n - 1]];
    }
  }

  /** Product of the daily growth factors 1 + r/100 after day 0. */
  function Growth(dailyReturns: seq<real>): real
    decreases |dailyReturns|
  {
    if |dailyReturns| <= 1 then 1.0
    else Grow(Growth(dailyReturns[..|dailyReturns| - 1]), dailyReturns[|dailyReturns| - 1])
  }

  /** Carrying the ratio b/a forward by the return from b to c gives c/a. */
  lemma RatioChain(a: real, b: real, c: real)
    requires a > 0.0 && b > 0.0
    ensures Grow(b / a, DailyReturn(b, c)) == c / a
  {
    GrowthFactor(b, c);
    var x := b / a;
    var g := 1.0 + DailyReturn(b, c) / 100.0;
    assert x * a == b;
    assert g * b == c;
    assert (x * g) * a == c;
    DivideExact(c, a, x * g);
  }

  lemma {:induction false} GrowthOfReturns(prices: seq<real>)
    requires |prices| > 0 && AllPositive(prices)
    ensures Growth(Returns(prices)) == prices[|prices| - 1] / prices[0]
    decreases |prices|
  {
    var n := |prices|;
    if n > 1 {
      var front := prices[..n - 1];
      var r := Returns(prices);
      assert r == Returns(front) + [DailyReturn(prices[n - 2], prices[n - 1])];
      assert r[..n - 1] == Returns(front);
      GrowthOfReturns(front);
      var a, b, c := prices[0], prices[n - 2], prices[n - 1];
      assert Growth(r) == Grow(b / a, DailyReturn(b, c));
      GrowthFactor(b, c);
      RatioChain(a, b, c);
    } else {
      DivideExact(prices[0], prices[0], 1.0);
    }
  }

  // ---------------------------------------------------------------------------
  // Trailing-window statistics
  // ---------------------------------------------------------------------------

  /**
   * A trailing-window series: the first window-1 positions are warm-up placeholders
   * (0), every later position i holds `stat` of data[i-window+1..i].
   */
  function Windowed(data: seq<real>, window: int, stat: seq<real> -> real): (r: seq<real>)
    requires window >= 1
    ensures |r| == |data|
    ensures forall i :: 0 <= i < |data| && i < window - 1 ==> r[i] == 0.0
    ensures forall i :: window - 1 <= i < |data| ==> r[i] == stat(data[i - window + 1 .. i + 1])
  {
    seq(|data|, i requires 0 <= i < |data| =>
      if i < window - 1 then 0.0 else stat(data[i - window + 1 .. i + 1]))
  }

  lemma SlicesOfPrefix(data: seq<real>, n: int)
    requires 0 <= n <= |data|
    ensures forall a, b :: 0 <= a <= b <= n ==> data[..n][a..b] == data[a..b]
  {
  }

  /** Extending the input by one element extends the windowed series by one entry. */
  lemma WindowedStep(data: seq<real>, window: int, stat: seq<real> -> real, i: int)
    requires window >= 1 && 0 <= i < |data|
    ensures Windowed(data[..i + 1], window, stat)
         == Windowed(data[..i], window, stat)
            + [if i < window - 1 then 0.0 else stat(data[i - window + 1 .. i + 1])]
  {
    var longer := Windowed(data[..i + 1], window, stat);
    var shorter := Windowed(data[..i], window, stat);
    SlicesOfPrefix(data, i);
    SlicesOfPrefix(data, i + 1);
    assert forall j :: 0 <= j < i ==> longer[j] == shorter[j];
  }

  method CalculateRollingMean(data: seq<real>, window: int) returns (means: seq<real>)
    requires window >= 1
    ensures means == Windowed(data, window, Mean)
  {
    means := [];
    var i := 0;
    while i < |data|
      invariant 0 <= i <= |data|
      invariant means == Windowed(data[..i], window, Mean)
    {
      if i < window - 1 {
        means := means + [0.0];
      } else {
        var avg := Sum(data[i - window + 1 .. i + 1]) / (window as real);
        means := means + [avg];
      }
      WindowedStep(data, window, Mean, i);
      i := i + 1;
    }
    assert data[..i] == data;
  }

  /** The moving average of prices: the same trailing mean, applied to prices. */
  method CalculateMA(prices: seq<real>, window: int) returns (ma: seq<real>)
    requires window >= 1
    ensures ma == Windowed(prices, window, Mean)
  {
    ma := CalculateRollingMean(prices, window);
  }

  /**
   * The rolling volatility before its square root: the population variance
   * (divide by window) of each window of returns.
   */
  method CalculateRollingVariance(dailyReturns: seq<real>, window: int) returns (variances: seq<real>)
    requires window >= 1
    ensures variances == Windowed(dailyReturns, window, Variance)
  {
    variances := [];
    var i := 0;
    while i < |dailyReturns|
      invariant 0 <= i <= |dailyReturns|
      invariant variances == Windowed(dailyReturns[..i], window, Variance)
    {
      if i < window - 1 {
        variances := variances + [0.0];
      } else {
        var slice := dailyReturns[i - window + 1 .. i + 1];
        var mean := Sum(slice) / (window as real);
        var variance := SumSquares(slice, mean) / (window as real);
        variances := variances + [variance];
      }
      WindowedStep(dailyReturns, window, Variance, i);
      i := i + 1;
    }
    assert dailyReturns[..i] == dailyReturns;
  }

  /** Each computed rolling mean lies between the smallest and largest value of its window. */
  lemma RollingMeanWithinWindow(data: seq<real>, window: int, i: int)
    requires window >= 1 && window - 1 <= i < |data|
    ensures Min(data[i - window + 1 .. i + 1]) <= Windowed(data, window, Mean)[i]
    ensures Windowed(data, window, Mean)[i] <= Max(data[i - window + 1 .. i + 1])
  {
    MeanWithinRange(data[i - window + 1 .. i + 1]);
  }

  /** A one-day window has no warm-up and reproduces its input. */
  lemma RollingMeanOfWindowOne(data: seq<real>)
    ensures Windowed(data, 1, Mean) == data
  {
    var r := Windowed(data, 1, Mean);
    forall i | 0 <= i < |data|
      ensures r[i] == data[i]
    {
      var w := data[i .. i + 1];
      assert w == [data[i]];
      assert Sum(w) == Sum(w[..0]) + data[i];
      assert w[..0] == [];
    }
  }

  /** Every entry of the rolling variance series is non-negative. */
  lemma RollingVarianceNonNegative(data: seq<real>, window: int)
    requires window >= 1
    ensures forall i :: 0 <= i < |data| ==> Windowed(data, window, Variance)[i] >= 0.0
  {
    var r := Windowed(data, window, Variance);
    forall i | window - 1 <= i < |data|
      ensures r[i] >= 0.0
    {
      VarianceNonNegative(data[i - window + 1 .. i + 1]);
    }
  }

  /**
   * A window of identical returns yields a computed volatility of exactly 0, the
   * same value as a warm-up placeholder.
   */
  lemma FlatWindowLooksLikeWarmUp(data: seq<real>, window: int, i: int)
    requires window >= 1 && window - 1 <= i < |data|
    requires forall j :: i - window + 1 <= j <= i ==> data[j] == data[i]
    ensures Windowed(data, window, Variance)[i] == 0.0
  {
    var w := data[i - window + 1 .. i + 1];
    assert forall j :: 0 <= j < |w| ==> w[j] == data[i - window + 1 + j];
    FlatHasZeroVariance(w);
  }

  // ---------------------------------------------------------------------------
  // Drawdowns
  // ---------------------------------------------------------------------------

  /**
   * The running peak on day i, raised whenever a price exceeds it; it is the
   * highest price of days 0..i.
   */
  function Peak(prices: seq<real>, i: int): (m: real)
    requires AllPositive(prices) && 0 <= i < |prices|
    ensures m > 0.0 && m >= prices[i]
    decreases i
  {
    if i == 0 then prices[0]
    else
      var before := Peak(prices, i - 1);
      if prices[i] > before then prices[i] else before
  }

  /** The running peak is the highest price seen so far, and it is one of those prices. */
  lemma {:induction false} PeakIsRunningMaximum(prices: seq<real>, i: int)
    requires AllPositive(prices) && 0 <= i < |prices|
    ensures forall j :: 0 <= j <= i ==> prices[j] <= Peak(prices, i)
    ensures exists j :: 0 <= j <= i && prices[j] == Peak(prices, i)
    decreases i
  {
    if i == 0 {
      assert prices[0] == Peak(prices, 0);
    } else {
      var before := Peak(prices, i - 1);
      PeakIsRunningMaximum(prices, i - 1);
      var k :| 0 <= k <= i - 1 && prices[k] == before;
      var w := if prices[i] > before then i else k;
      assert 0 <= w <= i && prices[w] == Peak(prices, i);
    }
  }

  /** Signed percentage distance of a price below its running peak. */
  function Drawdown(price: real, peak: real): real
    requires peak > 0.0
  {
    (price - peak) / peak * 100.0
  }

  lemma DrawdownRange(price: real, peak: real)
    requires 0.0 < price <= peak
    ensures -100.0 < Drawdown(price, peak) <= 0.0
    ensures Drawdown(price, peak) == 0.0 <==> price == peak
  {
    var q := (price - peak) / peak;
    assert q * peak == price - peak;
    DivideBounds(price - peak, peak, -1.0, 0.0);
    assert q != -1.0;
    if price == peak {
      DivideExact(0.0, peak, 0.0);
    }
  }

  function Drawdowns(prices: seq<real>): (r: seq<real>)
    requires AllPositive(prices)
    ensures |r| == |prices|
    ensures forall i :: 0 <= i < |prices| ==> r[i] == Drawdown(prices[i], Peak(prices, i))
  {
    seq(|prices|, i requires 0 <= i < |prices| => Drawdown(prices[i], Peak(prices, i)))
  }

  method CalculateDrawdowns(prices: seq<real>) returns (drawdowns: seq<real>)
    requires AllPositive(prices)
    ensures drawdowns == Drawdowns(prices)
  {
    drawdowns := [];
    // An empty series has no `prices[0]`; the original's `undefined` there is never used,
    // because the loop below does not run.
    var peak := if |prices| > 0 then prices[0] else 0.0;
    var i := 0;
    while i < |prices|
      invariant 0 <= i <= |prices|
      invariant i == 0 && |prices| > 0 ==> peak == prices[0]
      invariant 0 < i ==> peak == Peak(prices, i - 1)
      invariant |drawdowns| == i
      invariant forall j :: 0 <= j < i ==> drawdowns[j] == Drawdown(prices[j], Peak(prices, j))
    {
      if prices[i] > peak {
        peak := prices[i];
      }
      assert peak == Peak(prices, i);
      DrawdownsExtend(prices, drawdowns, i);
      drawdowns := drawdowns + [Drawdown(prices[i], peak)];
      i := i + 1;
    }
    DrawdownsByEntry(prices, drawdowns);
  }

  /** One step of the loop: day i's drawdown against its running peak extends the series. */
  lemma DrawdownsExtend(prices: seq<real>, d: seq<real>, i: int)
    requires AllPositive(prices) && 0 <= i == |d| < |prices|
    requires forall j :: 0 <= j < i ==> d[j] == Drawdown(prices[j], Peak(prices, j))
    ensures forall j :: 0 <= j <= i ==> (d + [Drawdown(prices[i], Peak(prices, i))])[j] == Drawdown(prices[j], Peak(prices, j))
  {
  }

  lemma DrawdownsByEntry(prices: seq<real>, d: seq<real>)
    requires AllPositive(prices) && |d| == |prices|
    requires forall j :: 0 <= j < |prices| ==> d[j] == Drawdown(prices[j], Peak(prices, j))
    ensures d == Drawdowns(prices)
  {
  }

  /** The running peak never decreases. */
  lemma PeakNonDecreasing(prices: seq<real>, i: int, j: int)
    requires AllPositive(prices) && 0 <= i <= j < |prices|
    ensures Peak(prices, i) <= Peak(prices, j)
  {
    PeakIsRunningMaximum(prices, i);
    PeakIsRunningMaximum(prices, j);
    var k :| 0 <= k <= i && prices[k] == Peak(prices, i);
  }

  /**
   * A drawdown lies in (-100, 0], and it is 0 exactly on a day whose price is at
   * least every earlier price (a new running peak).
   */
  lemma DrawdownAtPeak(prices: seq<real>, i: int)
    requires AllPositive(prices) && 0 <= i < |prices|
    ensures -100.0 < Drawdowns(prices)[i] <= 0.0
    ensures Drawdowns(prices)[i] == 0.0 <==> forall j :: 0 <= j <= i ==> prices[j] <= prices[i]
  {
    var peak := Peak(prices, i);
    PeakIsRunningMaximum(prices, i);
    DrawdownRange(prices[i], peak);
    if forall j :: 0 <= j <= i ==> prices[j] <= prices[i] {
      var k :| 0 <= k <= i && prices[k] == peak;
      assert peak == prices[i];
    }
  }

  /** A price series that never falls has no drawdown at all. */
  lemma RisingPricesNoDrawdown(prices: seq<real>)
    requires AllPositive(prices)
    requires forall i, j :: 0 <= i <= j < |prices| ==> prices[i] <= prices[j]
    ensures forall i :: 0 <= i < |prices| ==> Drawdowns(prices)[i] == 0.0
  {
    forall i | 0 <= i < |prices|
      ensures Drawdowns(prices)[i] == 0.0
    {
      DrawdownAtPeak(prices, i);
    }
  }

  /**
   * A worked case: prices 100, 110, 99, 99 give returns 0, 10, -10, 0, drawdowns
   * measured from the peak 110, and two-day rolling means of the returns.
   */
  lemma PipelineScenario()
    ensures Returns([100.0, 110.0, 99.0, 99.0]) == [0.0, 10.0, -10.0, 0.0]
    ensures Drawdowns([100.0, 110.0, 99.0, 99.0]) == [0.0, 0.0, -10.0, -10.0]
    ensures Windowed([0.0, 10.0, -10.0, 0.0], 2, Mean) == [0.0, 5.0, 0.0, -5.0]
  {
    var p := [100.0, 110.0, 99.0, 99.0];
    assert p[..3] == [100.0, 110.0, 99.0];
    assert p[..3][..2] == [100.0, 110.0];
    assert p[..3][..2][..1] == [100.0];
    var r := [0.0, 10.0, -10.0, 0.0];
    assert Returns(p) == r;
    assert Peak(p, 1) == 110.0;
    assert Peak(p, 3) == 110.0;
    assert Drawdowns(p) == [0.0, 0.0, -10.0, -10.0];
    var w := Windowed(r, 2, Mean);
    forall i | 1 <= i < 4
      ensures w[i] == (r[i - 1] + r[i]) / 2.0
    {
      assert r[i - 1 .. i + 1] == [r[i - 1], r[i]];
      MeanOfPair(r[i - 1], r[i]);
    }
    assert w == [0.0, 5.0, 0.0, -5.0];
  }

  // ---------------------------------------------------------------------------
  // Composite stress score
  // ---------------------------------------------------------------------------

  /**
   * `Math.max(...volatility.filter(v => v > 0))`: the largest positive volatility.
   * With no positive entry the original yields -Infinity; it is then never used,
   * since every entry takes the `vol > 0` guard's zero branch.
   */
  function MaxPositive(volatility: seq<real>): (m: real)
    ensures forall i :: 0 <= i < |volatility| && volatility[i] > 0.0 ==> volatility[i] <= m
    ensures (exists i :: 0 <= i < |volatility| && volatility[i] > 0.0) ==> m in volatility && m > 0.0
  {
    var pos := Positives(volatility);
    if |pos| == 0 then
      assert forall i :: 0 <= i < |volatility| ==> volatility[i] in volatility;
      0.0
    else
      assert forall i :: 0 <= i < |volatility| && volatility[i] > 0.0 ==> volatility[i] in pos;
      assert Max(pos) in pos;
      Max(pos)
  }

  /** Volatility share of the score, 40 at the period's highest volatility. */
  function VolatilityScore(vol: real, maxVol: real): (s: real)
    requires vol > 0.0 ==> vol <= maxVol
    ensures 0.0 <= s <= 40.0
    ensures s == 0.0 <==> vol <= 0.0
  {
    if vol > 0.0 then
      DivideBounds(vol, maxVol, 0.0, 1.0);
      vol / maxVol * 40.0
    else 0.0
  }

  /** Drawdown share of the score, 40 at the period's deepest drawdown. */
  function DrawdownScore(dd: real, minDD: real): (s: real)
    requires dd < 0.0 ==> minDD <= dd
    ensures 0.0 <= s <= 40.0
    ensures s == 0.0 <==> dd >= 0.0
  {
    if dd < 0.0 then
      DivideBounds(Abs(dd), Abs(minDD), 0.0, 1.0);
      Abs(dd) / Abs(minDD) * 40.0
    else 0.0
  }

  /** Momentum share of the score: 5 per percent of daily move, or 20 beyond a 2% move. */
  function MomentumScore(ret: real): (s: real)
    ensures 0.0 <= s <= 10.0 || s == 20.0
    ensures s == 20.0 <==> Abs(ret) > 2.0
  {
    if Abs(ret) > 2.0 then 20.0 else Abs(ret) * 5.0
  }

  function StressValue(vol: real, dd: real, ret: real, maxVol: real, minDD: real): (s: real)
    requires vol > 0.0 ==> vol <= maxVol
    requires dd < 0.0 ==> minDD <= dd
    ensures 0.0 <= s <= 100.0
  {
    var total := VolatilityScore(vol, maxVol) + DrawdownScore(dd, minDD) + MomentumScore(ret);
    if total < 100.0 then total else 100.0
  }

  /** The three weights add up to 100, so the cap at 100 never changes a score. */
  lemma ClampNeverBinds(vol: real, dd: real, ret: real, maxVol: real, minDD: real)
    requires vol > 0.0 ==> vol <= maxVol
    requires dd < 0.0 ==> minDD <= dd
    ensures StressValue(vol, dd, ret, maxVol, minDD)
         == VolatilityScore(vol, maxVol) + DrawdownScore(dd, minDD) + MomentumScore(ret)
  {
  }

  /** The period's deepest drawdown, `Math.min(...drawdowns)`. */
  function MinDrawdown(drawdowns: seq<real>): (m: real)
    ensures forall i :: 0 <= i < |drawdowns| ==> m <= drawdowns[i]
  {
    if |drawdowns| == 0 then 0.0 else Min(drawdowns)
  }

  /**
   * The stress index.  Both normalisers are statistics of the whole series, so a
   * day's score depends on days after it.
   */
  function StressIndex(volatility: seq<real>, drawdowns: seq<real>, dailyReturns: seq<real>): (r: seq<real>)
    requires |drawdowns| == |volatility| && |dailyReturns| == |volatility|
    ensures |r| == |volatility|
    ensures forall i :: 0 <= i < |r| ==> 0.0 <= r[i] <= 100.0
    ensures forall i :: 0 <= i < |r| && volatility[i] <= 0.0 && drawdowns[i] >= 0.0 ==> r[i] == MomentumScore(dailyReturns[i])
  {
    var maxVol := MaxPositive(volatility);
    var minDD := MinDrawdown(drawdowns);
    seq(|volatility|, i requires 0 <= i < |volatility| =>
      StressValue(volatility[i], drawdowns[i], dailyReturns[i], maxVol, minDD))
  }

  /** Rising prices contribute no drawdown share: the score is volatility plus momentum. */
  lemma RisingPricesStress(prices: seq<real>, volatility: seq<real>, dailyReturns: seq<real>)
    requires AllPositive(prices)
    requires forall i, j :: 0 <= i <= j < |prices| ==> prices[i] <= prices[j]
    requires |volatility| == |prices| && |dailyReturns| == |prices|
    ensures forall i :: 0 <= i < |prices| ==>
      StressIndex(volatility, Drawdowns(prices), dailyReturns)[i]
        == VolatilityScore(volatility[i], MaxPositive(volatility)) + MomentumScore(dailyReturns[i])
  {
    RisingPricesNoDrawdown(prices);
  }

  /** Adding a later, more volatile day lowers an earlier day's score: the index looks ahead. */
  lemma StressLooksAhead()
    ensures StressIndex([1.0], [0.0], [0.0]) == [40.0]
    ensures StressIndex([1.0, 2.0], [0.0, 0.0], [0.0, 0.0])[0] == 20.0
  {
    var one := [1.0];
    assert Positives(one) == [1.0] by {
      assert one[..0] == [];
    }
    var two := [1.0, 2.0];
    assert MaxPositive(two) == 2.0 by {
      assert 2.0 in two;
    }
  }

  // ---------------------------------------------------------------------------
  // Regimes
  // ---------------------------------------------------------------------------

  datatype MarketRegime = Stable | Volatile | Crisis

  /** Fixed breakpoints: below 30 Stable, from 30 below 60 Volatile, 60 and above Crisis. */
  function ClassifyStress(stress: real): (r: MarketRegime)
    ensures r == Stable <==> stress < 30.0
    ensures r == Volatile <==> 30.0 <= stress < 60.0
    ensures r == Crisis <==> 60.0 <= stress
  {
    if stress < 30.0 then Stable
    else if stress < 60.0 then Volatile
    else Crisis
  }

  function DetectRegimes(stressIndex: seq<real>): (r: seq<MarketRegime>)
    ensures |r| == |stressIndex|
    ensures forall i :: 0 <= i < |r| ==> (r[i] == Stable <==> stressIndex[i] < 30.0)
    ensures forall i :: 0 <= i < |r| ==> (r[i] == Crisis <==> stressIndex[i] >= 60.0)
  {
    seq(|stressIndex|, i requires 0 <= i < |stressIndex| => ClassifyStress(stressIndex[i]))
  }

  /** A higher stress never gets a calmer label. */
  lemma RegimeMonotone(x: real, y: real)
    requires x <= y
    ensures ClassifyStress(y) == Stable ==> ClassifyStress(x) == Stable
    ensures ClassifyStress(x) == Crisis ==> ClassifyStress(y) == Crisis
  {
  }

  // ---------------------------------------------------------------------------
  // Return histogram
  // ---------------------------------------------------------------------------

  datatype HistogramBucket = HistogramBucket(bucket: string, count: nat)

  /** The bucket labels, in the order the histogram reports them. */
  const Ranges: seq<string> :=
    ["-5+", "-4 to -5", "-3 to -4", "-2 to -3", "-1 to -2", "-1 to 0",
     "0 to 1", "1 to 2", "2 to 3", "3 to 4", "4 to 5", "5+"]

  lemma RangesDistinct()
    ensures |Ranges| == 12
    ensures forall i, j :: 0 <= i < j < 12 ==> Ranges[i] != Ranges[j]
  {
  }

  /** Position in Ranges of the bucket a return falls in: `<=` below zero, `<` from zero up. */
  function BucketIndex(ret: real): (k: nat)
    ensures k < 12
  {
    if ret <= -5.0 then 0
    else if ret <= -4.0 then 1
    else if ret <= -3.0 then 2
    else if ret <= -2.0 then 3
    else if ret <= -1.0 then 4
    else if ret < 0.0 then 5
    else if ret < 1.0 then 6
    else if ret < 2.0 then 7
    else if ret < 3.0 then 8
    else if ret < 4.0 then 9
    else if ret < 5.0 then 10
    else 11
  }

  /** Bucket k as an interval of the real line. */
  predicate InBucket(ret: real, k: int)
  {
    if k == 0 then ret <= -5.0
    else if 1 <= k <= 4 then -((6 - k) as real) < ret <= -((5 - k) as real)
    else if k == 5 then -1.0 < ret < 0.0
    else if 6 <= k <= 10 then ((k - 6) as real) <= ret < ((k - 5) as real)
    else k == 11 && 5.0 <= ret
  }

  /** The twelve intervals partition the real line, and BucketIndex picks a return's one. */
  lemma BucketPartition(ret: real, k: int)
    ensures InBucket(ret, k) <==> BucketIndex(ret) == k
  {
  }

  /** Number of returns that fall in bucket k. */
  function CountIn(dailyReturns: seq<real>, k: int): nat
    decreases |dailyReturns|
  {
    if |dailyReturns| == 0 then 0
    else CountIn(dailyReturns[..|dailyReturns| - 1], k) + (if BucketIndex(dailyReturns[|dailyReturns| - 1]) == k then 1 else 0)
  }

  /** The histogram: every bucket, in Ranges order, with its count. */
  function Histogram(dailyReturns: seq<real>): (h: seq<HistogramBucket>)
    ensures |h| == 12
    ensures forall k :: 0 <= k < 12 ==> h[k].bucket == Ranges[k]
  {
    seq(12, k requires 0 <= k < 12 => HistogramBucket(Ranges[k], CountIn(dailyReturns, k)))
  }

  method GenerateReturnHistogram(dailyReturns: seq<real>) returns (histogram: seq<HistogramBucket>)
    ensures histogram == Histogram(dailyReturns)
  {
    RangesDistinct();
    var buckets: map<string, nat> := map[];
    var j := 0;
    while j < 12
      invariant 0 <= j <= 12
      invariant forall k :: 0 <= k < j ==> Ranges[k] in buckets && buckets[Ranges[k]] == 0
    {
      buckets := buckets[Ranges[j] := 0];
      j := j + 1;
    }
    var i := 0;
    while i < |dailyReturns|
      invariant 0 <= i <= |dailyReturns|
      invariant forall k :: 0 <= k < 12 ==> Ranges[k] in buckets && buckets[Ranges[k]] == CountIn(dailyReturns[..i], k)
    {
      var b := BucketIndex(dailyReturns[i]);
      buckets := buckets[Ranges[b] := buckets[Ranges[b]] + 1];
      assert dailyReturns[..i + 1][..i] == dailyReturns[..i];
      i := i + 1;
    }
    assert dailyReturns[..i] == dailyReturns;
    histogram := seq(12, k requires 0 <= k < 12 => HistogramBucket(Ranges[k], buckets[Ranges[k]]));
  }

  function SumCounts(h: seq<HistogramBucket>): nat
    decreases |h|
  {
    if |h| == 0 then 0 else h[0].count + SumCounts(h[1..])
  }

  /** Counts of buckets k..11. */
  function CountsFrom(dailyReturns: seq<real>, k: nat): nat
    requires k <= 12
    decreases 12 - k
  {
    if k == 12 then 0 else CountIn(dailyReturns, k) + CountsFrom(dailyReturns, k + 1)
  }

  lemma {:induction false} CountsFromAppend(dailyReturns: seq<real>, x: real, k: nat)
    requires k <= 12
    ensures CountsFrom(dailyReturns + [x], k) == CountsFrom(dailyReturns, k) + (if k <= BucketIndex(x) then 1 else 0)
    decreases 12 - k
  {
    assert (dailyReturns + [x])[..|dailyReturns|] == dailyReturns;
    if k < 12 {
      CountsFromAppend(dailyReturns, x, k + 1);
    }
  }

  lemma {:induction false} CountsFromZero(dailyReturns: seq<real>)
    ensures CountsFrom(dailyReturns, 0) == |dailyReturns|
    decreases |dailyReturns|
  {
    if |dailyReturns| == 0 {
      ZeroCounts(dailyReturns, 0);
    } else {
      var front := dailyReturns[..|dailyReturns| - 1];
      CountsFromZero(front);
      CountsFromAppend(front, dailyReturns[|dailyReturns| - 1], 0);
      assert front + [dailyReturns[|dailyReturns| - 1]] == dailyReturns;
    }
  }

  lemma {:induction false} ZeroCounts(dailyReturns: seq<real>, k: nat)
    requires |dailyReturns| == 0 && k <= 12
    ensures CountsFrom(dailyReturns, k) == 0
    decreases 12 - k
  {
    if k < 12 {
      ZeroCounts(dailyReturns, k + 1);
    }
  }

  lemma {:induction false} SumCountsSuffix(dailyReturns: seq<real>, k: nat)
    requires k <= 12
    ensures SumCounts(Histogram(dailyReturns)[k..]) == CountsFrom(dailyReturns, k)
    decreases 12 - k
  {
    var h := Histogram(dailyReturns);
    if k < 12 {
      assert h[k..][1..] == h[k + 1..];
      SumCountsSuffix(dailyReturns, k + 1);
    } else {
      assert h[k..] == [];
    }
  }

  /** Each return lands in exactly one bucket, so the counts add up to the number of returns. */
  lemma HistogramTotal(dailyReturns: seq<real>)
    ensures SumCounts(Histogram(dailyReturns)) == |dailyReturns|
  {
    SumCountsSuffix(dailyReturns, 0);
    CountsFromZero(dailyReturns);
    assert Histogram(dailyReturns)[0..] == Histogram(dailyReturns);
  }

  lemma {:induction false} CountInConcat(a: seq<real>, b: seq<real>, k: int)
    ensures CountIn(a + b, k) == CountIn(a, k) + CountIn(b, k)
    decreases |b|
  {
    if |b| == 0 {
      assert a + b == a;
    } else {
      var c := a + b;
      assert c[..|c| - 1] == a + b[..|b| - 1];
      CountInConcat(a, b[..|b| - 1], k);
    }
  }

  /** The histogram depends only on which returns occur, not on their order. */
  lemma HistogramIgnoresOrder(a: seq<real>, b: seq<real>)
    requires multiset(a) == multiset(b)
    ensures Histogram(a) == Histogram(b)
  {
    forall k | 0 <= k < 12
      ensures CountIn(a, k) == CountIn(b, k)
    {
      CountInPermutation(a, b, k);
    }
  }

  lemma {:induction false} CountInPermutation(a: seq<real>, b: seq<real>, k: int)
    requires multiset(a) == multiset(b)
    ensures CountIn(a, k) == CountIn(b, k)
    decreases |a|
  {
    if |a| == 0 {
      assert |b| == |multiset(b)| == 0;
    } else {
      var x := a[|a| - 1];
      var front := a[..|a| - 1];
      assert a == front + [x];
      CountInConcat(front, [x], k);
      assert x in multiset(b);
      var j :| 0 <= j < |b| && b[j] == x;
      CountWithout(b, j, k);
      assert multiset(front) == multiset(a) - multiset{x};
      CountInPermutation(front, b[..j] + b[j + 1..], k);
    }
  }

  /** Taking one element out of a sequence removes it from the multiset and from the count. */
  lemma CountWithout(b: seq<real>, j: int, k: int)
    requires 0 <= j < |b|
    ensures multiset(b[..j] + b[j + 1..]) == multiset(b) - multiset{b[j]}
    ensures CountIn(b, k) == CountIn(b[..j] + b[j + 1..], k) + CountIn([b[j]], k)
  {
    var x := b[j];
    assert b == b[..j] + [x] + b[j + 1..];
    CountInConcat(b[..j] + [x], b[j + 1..], k);
    CountInConcat(b[..j], [x], k);
    CountInConcat(b[..j], b[j + 1..], k);
  }

  /** The boundary cases the original's comparisons decide. */
  lemma BucketBoundaries()
    ensures Ranges[BucketIndex(-1.0)] == "-1 to -2"
    ensures Ranges[BucketIndex(0.0)] == "0 to 1"
    ensures Ranges[BucketIndex(-5.0)] == "-5+" && Ranges[BucketIndex(5.0)] == "5+"
  {
  }

  // ---------------------------------------------------------------------------
  // Period aggregates
  // ---------------------------------------------------------------------------

  /** `(last - first) / first * 100` over the whole price series. */
  function TotalReturn(prices: seq<real>): real
    requires |prices| > 0 && prices[0] > 0.0
  {
    DailyReturn(prices[0], prices[|prices| - 1])
  }

  /** The total return is the compounding of every daily return. */
  lemma TotalReturnCompounds(prices: seq<real>)
    requires |prices| > 0 && AllPositive(prices)
    ensures 1.0 + TotalReturn(prices) / 100.0 == Growth(Returns(prices))
  {
    GrowthOfReturns(prices);
    GrowthFactor(prices[0], prices[|prices| - 1]);
  }

  /**
   * Mean of the strictly positive volatilities only: warm-up zeros are left out of
   * the denominator.  None when there is no positive entry (the original's 0/0).
   */
  function AverageVolatility(volatility: seq<real>): (r: Option<real>)
    ensures r.None? <==> forall i :: 0 <= i < |volatility| ==> volatility[i] <= 0.0
    ensures r.Some? ==> 0.0 < r.value <= MaxPositive(volatility)
  {
    var pos := Positives(volatility);
    if |pos| == 0 then
      assert forall i :: 0 <= i < |volatility| ==> volatility[i] in volatility;
      None
    else
      assert pos[0] in pos;
      MeanWithinRange(pos);
      assert Min(pos) in pos && Max(pos) in pos;
      Some(Mean(pos))
  }

  /** Entries that are not positive, such as warm-up placeholders, never move the average. */
  lemma NonPositiveEntriesIgnored(a: seq<real>, b: seq<real>)
    requires forall i :: 0 <= i < |b| ==> b[i] <= 0.0
    ensures AverageVolatility(b + a) == AverageVolatility(a)
    ensures AverageVolatility(a + b) == AverageVolatility(a)
  {
    PositivesOfNonPositive(b);
    PositivesAppend(b, a);
    PositivesAppend(a, b);
    assert [] + Positives(a) == Positives(a);
    assert Positives(a) + [] == Positives(a);
  }

  /** Mean of every return, the defined-zero day 0 included. */
  function AverageReturn(dailyReturns: seq<real>): (r: real)
    requires |dailyReturns| > 0
    ensures Min(dailyReturns) <= r <= Max(dailyReturns)
  {
    MeanWithinRange(dailyReturns);
    Mean(dailyReturns)
  }

  /** Day 0's placeholder return counts in the denominator of the average return. */
  lemma AverageReturnCountsDayZero(prices: seq<real>)
    requires |prices| > 0 && AllPositive(prices)
    ensures AverageReturn(Returns(prices)) == Sum(Returns(prices)[1..]) / (|prices| as real)
  {
    var r := Returns(prices);
    MeanAfterLeadingZero(r);
  }

  lemma MeanAfterLeadingZero(s: seq<real>)
    requires |s| > 0 && s[0] == 0.0
    ensures Mean(s) == Sum(s[1..]) / (|s| as real)
  {
    assert s == [0.0] + s[1..];
    SumAppend([0.0], s[1..]);
    assert Sum([0.0]) == 0.0 by { assert [0.0][..0] == []; }
  }

  /** `Math.min(...drawdowns)`: the deepest drawdown of the period. */
  function MaxDrawdown(drawdowns: seq<real>): real
    requires |drawdowns| > 0
  {
    Min(drawdowns)
  }

  /** The deepest drawdown of a non-empty price series lies in (-100, 0]. */
  lemma MaxDrawdownRange(prices: seq<real>)
    requires |prices| > 0 && AllPositive(prices)
    ensures -100.0 < MaxDrawdown(Drawdowns(prices)) <= 0.0
  {
    var dd := Drawdowns(prices);
    DrawdownAtPeak(prices, 0);
    var k :| 0 <= k < |dd| && dd[k] == Min(dd);
    DrawdownAtPeak(prices, k);
  }

  datatype SensexSummary = SensexSummary(
    totalReturn: real,
    avgVolatility: Option<real>,
    maxDrawdown: real,
    avgReturn: real)

  /** The computed part of `MARKET_SUMMARY.sensex`. */
  function Summarize(prices: seq<real>, dailyReturns: seq<real>, volatility: seq<real>, drawdowns: seq<real>): (s: SensexSummary)
    requires |prices| > 0 && AllPositive(prices)
    requires |dailyReturns| > 0 && |drawdowns| > 0
    ensures drawdowns == Drawdowns(prices) ==> -100.0 < s.maxDrawdown <= 0.0
    ensures dailyReturns == Returns(prices) ==> 1.0 + s.totalReturn / 100.0 == Growth(dailyReturns)
    ensures s.avgVolatility.Some? ==> s.avgVolatility.value > 0.0
  {
    MaxDrawdownRange(prices);
    TotalReturnCompounds(prices);
    SensexSummary(TotalReturn(prices), AverageVolatility(volatility), MaxDrawdown(drawdowns), AverageReturn(dailyReturns))
  }

  // ---------------------------------------------------------------------------
  // Chart rows
  // ---------------------------------------------------------------------------

  datatype ChartRow = ChartRow(
    date: string,
    price: real,
    sp500: real,
    dayReturn: real,
    volatility: real,
    drawdown: real,
    ma10: real,
    ma20: real,
    ma50: real,
    rollingMean: real,
    stressIndex: real,
    regime: MarketRegime)

  /** The module-level series the rows are cut from, all indexed by trading day. */
  datatype MarketSeries = MarketSeries(
    dates: seq<string>,
    prices: seq<real>,
    sp500Prices: seq<real>,
    dailyReturns: seq<real>,
    volatility: seq<real>,
    drawdowns: seq<real>,
    ma10: seq<real>,
    ma20: seq<real>,
    ma50: seq<real>,
    rollingMean: seq<real>,
    stressIndex: seq<real>,
    regimes: seq<MarketRegime>)

  predicate Aligned(m: MarketSeries)
  {
    var n := |m.dates|;
    |m.prices| == n && |m.sp500Prices| == n && |m.dailyReturns| == n && |m.volatility| == n
    && |m.drawdowns| == n && |m.ma10| == n && |m.ma20| == n && |m.ma50| == n
    && |m.rollingMean| == n && |m.stressIndex| == n && |m.regimes| == n
  }

  /** The series as the module computes them from its Sensex prices. */
  ghost predicate Derived(m: MarketSeries)
  {
    && Aligned(m) && |m.prices| > 0 && AllPositive(m.prices)
    && m.dailyReturns == Returns(m.prices)
    && (forall i :: 0 <= i < |m.volatility| ==>
          m.volatility[i] >= 0.0 && Square(m.volatility[i]) == Windowed(m.dailyReturns, 20, Variance)[i])
    && m.drawdowns == Drawdowns(m.prices)
    && m.ma10 == Windowed(m.prices, 10, Mean)
    && m.ma20 == Windowed(m.prices, 20, Mean)
    && m.ma50 == Windowed(m.prices, 50, Mean)
    && m.rollingMean == Windowed(m.dailyReturns, 20, Mean)
    && m.stressIndex == StressIndex(m.volatility, m.drawdowns, m.dailyReturns)
    && m.regimes == DetectRegimes(m.stressIndex)
  }

  function RowAt(m: MarketSeries, i: int): ChartRow
    requires Aligned(m) && 0 <= i < |m.dates|
  {
    ChartRow(m.dates[i], m.prices[i], m.sp500Prices[i], m.dailyReturns[i], m.volatility[i],
             m.drawdowns[i], m.ma10[i], m.ma20[i], m.ma50[i], m.rollingMean[i],
             m.stressIndex[i], m.regimes[i])
  }

  /**
   * The last `limit` trading days as rows, oldest first (all of them when limit
   * exceeds the series, none when limit is not positive).
   */
  function GetChartData(m: MarketSeries, limit: int): (rows: seq<ChartRow>)
    requires Aligned(m)
    ensures |rows| == if limit <= 0 then 0 else if limit < |m.dates| then limit else |m.dates|
    ensures forall k :: 0 <= k < |rows| ==> rows[k] == RowAt(m, |m.dates| - |rows| + k)
  {
    var n := |m.dates|;
    var start := if n - limit > 0 then n - limit else 0;
    if start >= n then []
    else seq(n - start, k requires 0 <= k < n - start => RowAt(m, start + k))
  }

  /** The last row, when there is one, is the latest trading day. */
  lemma LastRowIsLatestDay(m: MarketSeries, limit: int)
    requires Aligned(m) && |m.dates| > 0 && limit > 0
    ensures var rows := GetChartData(m, limit);
      |rows| > 0 && rows[|rows| - 1] == RowAt(m, |m.dates| - 1)
  {
  }

  /** The invariants the pipeline gives every day of its series. */
  predicate DayInvariant(m: MarketSeries, i: int)
    requires Aligned(m) && 0 <= i < |m.dates|
  {
    && 0.0 <= m.stressIndex[i] <= 100.0
    && m.regimes[i] == ClassifyStress(m.stressIndex[i])
    && -100.0 < m.drawdowns[i] <= 0.0
    && m.volatility[i] >= 0.0
  }

  /** Every day of the computed series carries the pipeline's invariants. */
  lemma DerivedDayInvariants(m: MarketSeries)
    requires Derived(m)
    ensures forall i :: 0 <= i < |m.dates| ==> DayInvariant(m, i)
  {
    forall i | 0 <= i < |m.dates|
      ensures DayInvariant(m, i)
    {
      DrawdownAtPeak(m.prices, i);
    }
  }

  /** Rows cut from series whose days carry the invariants carry them too. */
  lemma ChartRowsInvariants(m: MarketSeries, limit: int)
    requires Aligned(m)
    requires forall i :: 0 <= i < |m.dates| ==> DayInvariant(m, i)
    ensures var rows := GetChartData(m, limit);
      forall k :: 0 <= k < |rows| ==>
        && 0.0 <= rows[k].stressIndex <= 100.0
        && rows[k].regime == ClassifyStress(rows[k].stressIndex)
        && -100.0 < rows[k].drawdown <= 0.0
        && rows[k].volatility >= 0.0
  {
    var rows := GetChartData(m, limit);
    forall k | 0 <= k < |rows|
      ensures 0.0 <= rows[k].stressIndex <= 100.0
      ensures rows[k].regime == ClassifyStress(rows[k].stressIndex)
      ensures -100.0 < rows[k].drawdown <= 0.0
      ensures rows[k].volatility >= 0.0
    {
      assert DayInvariant(m, |m.dates| - |rows| + k);
    }
  }
}
