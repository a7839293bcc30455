/**
 * The Trend Analysis page (src/components/dashboard/TrendAnalysis.tsx): the trend
 * direction read off the latest chart row's price and its 20- and 50-day moving
 * averages, and the price's position relative to the 20-day average.
 */
module TrendAnalysis {
  import opened SeqMath
  import opened MarketData

  datatype Trend = Bullish | Bearish | Neutral

  /**
   * Bullish when price, 20-day and 50-day averages are strictly stacked downwards,
   * bearish when strictly stacked upwards, neutral otherwise.
   */
  function GetTrendDirection(price: real, ma20: real, ma50: real): (t: Trend)
    ensures t == Bullish <==> price > ma20 && ma20 > ma50
    ensures t == Bearish <==> price < ma20 && ma20 < ma50
  {
    if price > ma20 && ma20 > ma50 then Bullish
    else if price < ma20 && ma20 < ma50 then Bearish
    else Neutral
  }

  /** Neutral exactly when the three values are not strictly ordered either way. */
  lemma NeutralUnlessStrictlyOrdered(price: real, ma20: real, ma50: real)
    ensures GetTrendDirection(price, ma20, ma50) == Neutral
        <==> !(price > ma20 > ma50) && !(price < ma20 < ma50)
  {
  }

  /** Any tie between the price and the 20-day average, or between the averages, reads neutral. */
  lemma TiesAreNeutral(price: real, ma20: real, ma50: real)
    requires price == ma20 || ma20 == ma50
    ensures GetTrendDirection(price, ma20, ma50) == Neutral
  {
  }

  /** Mirroring all three values swaps bullish and bearish and keeps neutral. */
  lemma MirrorSwapsTrend(price: real, ma20: real, ma50: real)
    ensures var t := GetTrendDirection(price, ma20, ma50);
      var u := GetTrendDirection(-price, -ma20, -ma50);
      (t == Bullish <==> u == Bearish) && (t == Bearish <==> u == Bullish) && (t == Neutral <==> u == Neutral)
  {
  }

  datatype Position = Above | Below

  /** Where the price sits against its 20-day average; a price on the average reads "Below". */
  function Ma20Position(price: real, ma20: real): (p: Position)
    ensures p == Above <==> price > ma20
  {
    if price > ma20 then Above else Below
  }

  /**
   * The price's distance from the 20-day average in percent of the average.
   * A zero average has no such distance (the original prints Infinity or NaN).
   */
  function PercentFromMa20(price: real, ma20: real): (r: Option<real>)
    ensures r.Some? <==> ma20 != 0.0
    ensures r.Some? ==> r.value * ma20 == (price - ma20) * 100.0
  {
    if ma20 == 0.0 then None else Some((price - ma20) / ma20 * 100.0)
  }

  /** Over a positive average the percentage is positive exactly when the label reads "Above". */
  lemma PercentAgreesWithPosition(price: real, ma20: real)
    requires ma20 > 0.0
    ensures var r := PercentFromMa20(price, ma20);
      r.Some? && (r.value > 0.0 <==> Ma20Position(price, ma20) == Above)
      && (r.value == 0.0 <==> price == ma20)
  {
    var r := PercentFromMa20(price, ma20);
    var q := r.value;
    assert q * ma20 == (price - ma20) * 100.0;
    if q > 0.0 {
      assert q * ma20 > 0.0;
    } else {
      assert q * ma20 <= 0.0;
    }
    if price == ma20 {
      assert q * ma20 == 0.0;
    }
  }

  /** A bullish trend always reads "Above" and a bearish one "Below". */
  lemma TrendAgreesWithPosition(price: real, ma20: real, ma50: real)
    ensures GetTrendDirection(price, ma20, ma50) == Bullish ==> Ma20Position(price, ma20) == Above
    ensures GetTrendDirection(price, ma20, ma50) == Bearish ==> Ma20Position(price, ma20) == Below
  {
  }

  /** What the page shows about the latest day. */
  datatype TrendReport = TrendReport(trend: Trend, position: Position, percent: Option<real>)

  /** The page's analysis of the last of the `getChartData(100)` rows; the page needs at least one row. */
  function TrendReportOf(rows: seq<ChartRow>): (r: TrendReport)
    requires |rows| > 0
    ensures var latest := rows[|rows| - 1];
      r.trend == GetTrendDirection(latest.price, latest.ma20, latest.ma50)
      && r.position == Ma20Position(latest.price, latest.ma20)
      && r.percent == PercentFromMa20(latest.price, latest.ma20)
  {
    var latest := rows[|rows| - 1];
    TrendReport(GetTrendDirection(latest.price, latest.ma20, latest.ma50),
                Ma20Position(latest.price, latest.ma20),
                PercentFromMa20(latest.price, latest.ma20))
  }

  /** The page's report for a market series: the latest trading day's values. */
  function TrendPage(m: MarketSeries): (r: TrendReport)
    requires Aligned(m) && |m.dates| > 0
    ensures var n := |m.dates|;
      r.trend == GetTrendDirection(m.prices[n - 1], m.ma20[n - 1], m.ma50[n - 1])
      && r.position == Ma20Position(m.prices[n - 1], m.ma20[n - 1])
      && r.percent == PercentFromMa20(m.prices[n - 1], m.ma20[n - 1])
  {
    LastRowIsLatestDay(m, 100);
    TrendReportOf(GetChartData(m, 100))
  }

  /** A 20-day average of positive prices is positive once twenty days exist. */
  lemma Ma20Positive(prices: seq<real>)
    requires AllPositive(prices) && |prices| >= 20
    ensures Windowed(prices, 20, Mean)[|prices| - 1] > 0.0
  {
    var n := |prices|;
    var window := prices[n - 20 .. n];
    MeanWithinRange(window);
    assert Min(window) > 0.0 by {
      var k :| 0 <= k < |window| && window[k] == Min(window);
      assert window[k] == prices[n - 20 + k];
    }
  }

  /**
   * With twenty days of positive prices behind the latest row (as in every derived
   * series, see `MarketData.Derived`), the page's percentage is always defined and agrees with its label.
   */
  lemma LatestPercentDefined(m: MarketSeries)
    requires Aligned(m) && AllPositive(m.prices) && |m.prices| >= 20
    requires m.ma20 == Windowed(m.prices, 20, Mean)
    ensures TrendPage(m).percent.Some?
    ensures TrendPage(m).percent.value > 0.0 <==> TrendPage(m).position == Above
  {
    var n := |m.prices|;
    Ma20Positive(m.prices);
    PercentAgreesWithPosition(m.prices[n - 1], m.ma20[n - 1]);
  }
}
