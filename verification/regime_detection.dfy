/**
 * The Regime Detection page (src/components/dashboard/RegimeDetection.tsx): regime
 * day counts over the last 150 chart rows, the current regime, the numeric step
 * chart of regimes and the labels that read it back.
 */
module RegimeDetection {
  import opened SeqMath
  import opened MarketData
  import opened MarketStressIndex

  /** Rows labelled with regime `r`: `filter(d => d.regime === r).length`. */
  function CountRegime(rows: seq<ChartRow>, r: MarketRegime): (n: nat)
    ensures n <= |rows|
    decreases |rows|
  {
    if |rows| == 0 then 0
    else CountRegime(rows[..|rows| - 1], r) + (if rows[|rows| - 1].regime == r then 1 else 0)
  }

  datatype RegimeCounts = RegimeCounts(stable: nat, volatile: nat, crisis: nat)

  function RegimeCountsOf(rows: seq<ChartRow>): (c: RegimeCounts)
    ensures c.stable + c.volatile + c.crisis == |rows|
  {
    CountsPartitionRows(rows);
    RegimeCounts(CountRegime(rows, Stable), CountRegime(rows, Volatile), CountRegime(rows, Crisis))
  }

  /** Every row carries exactly one of the three labels, so the counts add up to the day count. */
  lemma {:induction false} CountsPartitionRows(rows: seq<ChartRow>)
    ensures CountRegime(rows, Stable) + CountRegime(rows, Volatile) + CountRegime(rows, Crisis) == |rows|
    decreases |rows|
  {
    if |rows| > 0 {
      CountsPartitionRows(rows[..|rows| - 1]);
    }
  }

  /** Counts add up over consecutive stretches of rows. */
  lemma {:induction false} CountRegimeConcat(a: seq<ChartRow>, b: seq<ChartRow>, r: MarketRegime)
    ensures CountRegime(a + b, r) == CountRegime(a, r) + CountRegime(b, r)
    decreases |b|
  {
    if |b| == 0 {
      assert a + b == a;
    } else {
      assert (a + b)[..|a + b| - 1] == a + b[..|b| - 1];
      CountRegimeConcat(a, b[..|b| - 1], r);
    }
  }

  /** The last row's regime, Stable when there are no rows. */
  function CurrentRegime(rows: seq<ChartRow>): (r: MarketRegime)
    ensures |rows| == 0 ==> r == Stable
    ensures |rows| > 0 ==> r == rows[|rows| - 1].regime
  {
    if |rows| == 0 then Stable else rows[|rows| - 1].regime
  }

  /** The step chart's height for a regime. */
  function RegimeValue(r: MarketRegime): (v: int)
    ensures 1 <= v <= 3
  {
    match r
    case Stable => 1
    case Volatile => 2
    case Crisis => 3
  }

  /** Distinct regimes are drawn at distinct heights. */
  lemma RegimeValueInjective(r: MarketRegime, s: MarketRegime)
    requires RegimeValue(r) == RegimeValue(s)
    ensures r == s
  {
  }

  /** The name a regime is displayed under. */
  function RegimeName(r: MarketRegime): (name: string)
  {
    match r
    case Stable => "Stable"
    case Volatile => "Volatile"
    case Crisis => "Crisis"
  }

  /** The tooltip's reading of a height: 1 Stable, 2 Volatile, anything else Crisis. */
  function TooltipLabel(v: int): (name: string)
    ensures name == "Stable" <==> v == 1
    ensures name == "Volatile" <==> v == 2
    ensures name == "Crisis" <==> v != 1 && v != 2
  {
    if v == 1 then "Stable" else if v == 2 then "Volatile" else "Crisis"
  }

  /** The axis tick label of a height: the three regime names, and nothing off the scale. */
  function TickLabel(v: int): (name: string)
    ensures name == "" <==> v != 1 && v != 2 && v != 3
  {
    if v == 1 then "Stable" else if v == 2 then "Volatile" else if v == 3 then "Crisis" else ""
  }

  /** The tooltip and the axis both read every drawn height back as its regime's name. */
  lemma LabelsInvertRegimeValue(r: MarketRegime)
    ensures TooltipLabel(RegimeValue(r)) == RegimeName(r)
    ensures TickLabel(RegimeValue(r)) == RegimeName(r)
  {
  }

  /** The rows as the step chart's heights. */
  function RegimeTimeline(rows: seq<ChartRow>): (t: seq<int>)
    ensures |t| == |rows|
    ensures forall i :: 0 <= i < |rows| ==> TooltipLabel(t[i]) == RegimeName(rows[i].regime)
  {
    seq(|rows|, i requires 0 <= i < |rows| => RegimeValue(rows[i].regime))
  }

  /** Through the pipeline's labels the chart's height never falls as stress rises. */
  lemma RegimeValueMonotone(x: real, y: real)
    requires x <= y
    ensures RegimeValue(ClassifyStress(x)) <= RegimeValue(ClassifyStress(y))
  {
    RegimeMonotone(x, y);
  }

  /** The closing sentence of the analysis. */
  function Outlook(c: RegimeCounts): (text: string)
    ensures text == "generally favorable market conditions" <==> c.stable > c.volatile + c.crisis
  {
    if c.stable > c.volatile + c.crisis then "generally favorable market conditions"
    else "significant periods of market stress"
  }

  /** The outlook is favorable exactly when stable days are a strict majority of the period. */
  lemma FavorableIffStableMajority(rows: seq<ChartRow>)
    ensures Outlook(RegimeCountsOf(rows)) == "generally favorable market conditions"
        <==> 2 * CountRegime(rows, Stable) > |rows|
  {
  }

  /** The share of stable days in percent; none without rows (the original divides 0 by 0). */
  function StableShare(rows: seq<ChartRow>): (r: Option<real>)
    ensures r.Some? <==> |rows| > 0
    ensures r.Some? ==> 0.0 <= r.value <= 100.0
  {
    if |rows| == 0 then None
    else
      var n := |rows| as real;
      var s := CountRegime(rows, Stable) as real;
      DivideBounds(s, n, 0.0, 1.0);
      Some(s / n * 100.0)
  }

  /** A part exceeding half of a positive whole is more than 50 percent of it. */
  lemma MajorityShare(part: real, whole: real)
    requires whole > 0.0 && 2.0 * part > whole
    ensures part / whole * 100.0 > 50.0
  {
    var q := part / whole;
    assert (q - 0.5) * whole == part - 0.5 * whole;
  }

  /** A favorable outlook goes with a stable share above one half. */
  lemma FavorableMeansShareAboveHalf(rows: seq<ChartRow>)
    requires Outlook(RegimeCountsOf(rows)) == "generally favorable market conditions"
    ensures StableShare(rows).Some? && StableShare(rows).value > 50.0
  {
    FavorableIffStableMajority(rows);
    MajorityShare(CountRegime(rows, Stable) as real, |rows| as real);
  }

  /** The page's current regime: the latest trading day's label. */
  lemma PageReadsLatestDay(m: MarketSeries)
    requires Aligned(m) && |m.dates| > 0
    ensures CurrentRegime(GetChartData(m, PageDays)) == m.regimes[|m.dates| - 1]
  {
    LastRowIsLatestDay(m, PageDays);
  }

  /**
   * On rows labelled by the pipeline, this page's current regime and the stress
   * page's current level agree, including on an empty period (Stable and 0).
   */
  lemma CurrentRegimeMatchesStressLevel(rows: seq<ChartRow>)
    requires forall i :: 0 <= i < |rows| ==> rows[i].regime == ClassifyStress(rows[i].stressIndex)
    ensures LevelOfRegime(CurrentRegime(rows)) == GetStressLevel(CurrentStress(rows))
  {
    StressLevelMatchesRegime(CurrentStress(rows));
  }
}
