/**
 * The Market Stress Index page (src/components/dashboard/MarketStressIndex.tsx):
 * headline figures over the last 150 chart rows and the three-level reading of
 * the current stress.
 */
module MarketStressIndex {
  import opened SeqMath
  import opened MarketData

  /** How many trading days the page charts. */
  const PageDays := 150

  datatype StressLevel = Low | Moderate | High

  /** Below 30 low, from 30 below 60 moderate, 60 and above high. */
  function GetStressLevel(stress: real): (level: StressLevel)
    ensures level == Low <==> stress < 30.0
    ensures level == Moderate <==> 30.0 <= stress < 60.0
    ensures level == High <==> stress >= 60.0
  {
    if stress < 30.0 then Low
    else if stress < 60.0 then Moderate
    else High
  }

  /** The stress level a regime label corresponds to. */
  function LevelOfRegime(r: MarketRegime): StressLevel
  {
    match r
    case Stable => Low
    case Volatile => Moderate
    case Crisis => High
  }

  /** The page's level and the pipeline's regime label draw the same lines. */
  lemma StressLevelMatchesRegime(stress: real)
    ensures GetStressLevel(stress) == LevelOfRegime(ClassifyStress(stress))
  {
  }

  /** A higher stress never reads as a lower level. */
  lemma StressLevelMonotone(x: real, y: real)
    requires x <= y
    ensures GetStressLevel(y) == Low ==> GetStressLevel(x) == Low
    ensures GetStressLevel(x) == High ==> GetStressLevel(y) == High
  {
  }

  /** The stress column of the rows. */
  function Stresses(rows: seq<ChartRow>): (s: seq<real>)
    ensures |s| == |rows|
    ensures forall i :: 0 <= i < |rows| ==> s[i] == rows[i].stressIndex
  {
    seq(|rows|, i requires 0 <= i < |rows| => rows[i].stressIndex)
  }

  /** The last row's stress, 0 when there are no rows. */
  function CurrentStress(rows: seq<ChartRow>): (s: real)
    ensures |rows| == 0 ==> s == 0.0
    ensures |rows| > 0 ==> s == rows[|rows| - 1].stressIndex
  {
    if |rows| == 0 then 0.0 else rows[|rows| - 1].stressIndex
  }

  /** The mean stress; none without rows (the original divides 0 by 0). */
  function AverageStress(rows: seq<ChartRow>): (r: Option<real>)
    ensures r.Some? <==> |rows| > 0
  {
    if |rows| == 0 then None else Some(Mean(Stresses(rows)))
  }

  /** The highest stress; none without rows (the original yields -Infinity). */
  function MaxStress(rows: seq<ChartRow>): (r: Option<real>)
    ensures r.Some? <==> |rows| > 0
    ensures r.Some? ==> forall i :: 0 <= i < |rows| ==> rows[i].stressIndex <= r.value
    ensures r.Some? ==> exists i :: 0 <= i < |rows| && rows[i].stressIndex == r.value
  {
    if |rows| == 0 then None
    else
      var s := Stresses(rows);
      var m := Max(s);
      assert exists i :: 0 <= i < |s| && s[i] == m;
      Some(m)
  }

  /** Days whose stress is strictly above 60. */
  function HighStressDays(rows: seq<ChartRow>): (n: nat)
    ensures n <= |rows|
    decreases |rows|
  {
    if |rows| == 0 then 0
    else HighStressDays(rows[..|rows| - 1]) + (if rows[|rows| - 1].stressIndex > 60.0 then 1 else 0)
  }

  /** Days whose stress reads as the high level. */
  function HighLevelDays(rows: seq<ChartRow>): (n: nat)
    ensures n <= |rows|
    decreases |rows|
  {
    if |rows| == 0 then 0
    else HighLevelDays(rows[..|rows| - 1]) + (if GetStressLevel(rows[|rows| - 1].stressIndex) == High then 1 else 0)
  }

  /** Every day counted as high-stress is a high-level day. */
  lemma {:induction false} HighStressDaysAreHighLevel(rows: seq<ChartRow>)
    ensures HighStressDays(rows) <= HighLevelDays(rows)
    decreases |rows|
  {
    if |rows| > 0 {
      HighStressDaysAreHighLevel(rows[..|rows| - 1]);
    }
  }

  /** The two counts differ exactly by the days sitting on the 60 boundary. */
  lemma {:induction false} HighLevelDaysSplit(rows: seq<ChartRow>)
    ensures HighLevelDays(rows) == HighStressDays(rows) + CountAtSixty(rows)
    decreases |rows|
  {
    if |rows| > 0 {
      HighLevelDaysSplit(rows[..|rows| - 1]);
    }
  }

  /** Days whose stress is exactly 60. */
  function CountAtSixty(rows: seq<ChartRow>): (n: nat)
    ensures n <= |rows|
    decreases |rows|
  {
    if |rows| == 0 then 0
    else CountAtSixty(rows[..|rows| - 1]) + (if rows[|rows| - 1].stressIndex == 60.0 then 1 else 0)
  }

  /** A day at exactly 60 reads high but is not counted as a high-stress day. */
  lemma SixtyIsHighButNotCounted(row: ChartRow)
    requires row.stressIndex == 60.0
    ensures GetStressLevel(row.stressIndex) == High
    ensures HighStressDays([row]) == 0 && HighLevelDays([row]) == 1
  {
    assert [row][..0] == [];
  }

  /** With rows present the average never exceeds the maximum. */
  lemma AverageAtMostMax(rows: seq<ChartRow>)
    requires |rows| > 0
    ensures AverageStress(rows).value <= MaxStress(rows).value
  {
    MeanWithinRange(Stresses(rows));
  }

  /** The advice sentence the page appends to the current reading. */
  function Advice(stress: real): (text: string)
    ensures text == "favorable conditions for risk-taking" <==> GetStressLevel(stress) == Low
    ensures text == "caution is warranted but not extreme" <==> GetStressLevel(stress) == Moderate
    ensures text == "elevated caution and potential risk reduction" <==> GetStressLevel(stress) == High
  {
    if stress < 30.0 then "favorable conditions for risk-taking"
    else if stress < 60.0 then "caution is warranted but not extreme"
    else "elevated caution and potential risk reduction"
  }

  /** The page's headline figures. */
  datatype StressPage = StressPage(
    current: real,
    level: StressLevel,
    average: Option<real>,
    maximum: Option<real>,
    highStressDays: nat,
    advice: string)

  function StressPageOf(rows: seq<ChartRow>): (p: StressPage)
    ensures p.level == GetStressLevel(p.current)
    ensures p.advice == Advice(p.current)
    ensures p.highStressDays <= |rows|
  {
    var current := CurrentStress(rows);
    StressPage(current, GetStressLevel(current), AverageStress(rows), MaxStress(rows),
               HighStressDays(rows), Advice(current))
  }

  /** When every row's stress lies in [0, 100], so do all of the page's figures. */
  lemma PageFiguresBounded(rows: seq<ChartRow>)
    requires forall i :: 0 <= i < |rows| ==> 0.0 <= rows[i].stressIndex <= 100.0
    ensures var p := StressPageOf(rows);
      && 0.0 <= p.current <= 100.0
      && (p.average.Some? ==> 0.0 <= p.average.value <= 100.0)
      && (p.maximum.Some? ==> 0.0 <= p.maximum.value <= 100.0)
  {
    if |rows| > 0 {
      MeanBounds(Stresses(rows), 0.0, 100.0);
    }
  }

  /** The page over a market series: its current reading is the latest day's stress. */
  lemma PageReadsLatestDay(m: MarketSeries)
    requires Aligned(m) && |m.dates| > 0
    ensures StressPageOf(GetChartData(m, PageDays)).current == m.stressIndex[|m.dates| - 1]
  {
    LastRowIsLatestDay(m, PageDays);
  }

  /** On the series the pipeline computes, every figure of the page lies in [0, 100]. */
  lemma DerivedPageBounded(m: MarketSeries)
    requires Derived(m)
    ensures var p := StressPageOf(GetChartData(m, PageDays));
      && 0.0 <= p.current <= 100.0
      && (p.average.Some? ==> 0.0 <= p.average.value <= 100.0)
      && (p.maximum.Some? ==> 0.0 <= p.maximum.value <= 100.0)
  {
    var rows := GetChartData(m, PageDays);
    DerivedDayInvariants(m);
    ChartRowsInvariants(m, PageDays);
    PageFiguresBounded(rows);
  }
}
