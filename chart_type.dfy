/**
 * The chart catalogue (Clima/Enums/ChartType.swift): ten charts, each drawn
 * in one of four layouts, with a title as raw value and a symbol per layout.
 */
module ChartTypes {

  datatype ChartType =
    | Top10CountriesByTerritorialMtCO2
    | TerritorialMtCO2ByRegion
    | Top10CountriesByNDGainScore
    | NdGainScoreByRegion
    | Top10CountriesByClimaJusticeScore
    | ClimaJusticeScoreByRegion
    | TerritorialMtCO2vsNDGainScore
    | TerritorialMtCO2vsClimaJusticeScore
    | NdGainScorevsClimaJusticeScore
    | BubbleChart

  /** `allCases`, in declaration order. */
  const AllCases: seq<ChartType> := [
    Top10CountriesByTerritorialMtCO2, TerritorialMtCO2ByRegion,
    Top10CountriesByNDGainScore, NdGainScoreByRegion,
    Top10CountriesByClimaJusticeScore, ClimaJusticeScoreByRegion,
    TerritorialMtCO2vsNDGainScore, TerritorialMtCO2vsClimaJusticeScore,
    NdGainScorevsClimaJusticeScore, BubbleChart]

  /** The quantities the charts are drawn over, as the titles name them. */
  datatype Measure = Emissions | Readiness | Justice

  function MeasureTitle(m: Measure): string {
    match m
    case Emissions => "Territorial MtCO2"
    case Readiness => "ND Gain Score"
    case Justice => "Clima Justice Score"
  }

  /** What a chart shows, read off its title: a top-10 ranking of a measure,
      a regional breakdown of a measure, one measure against another, or the
      bubble chart. */
  datatype Layout = Top10(m: Measure) | ByRegion(m: Measure) | Versus(x: Measure, y: Measure) | Bubble

  function LayoutOf(c: ChartType): Layout {
    match c
    case Top10CountriesByTerritorialMtCO2 => Top10(Emissions)
    case TerritorialMtCO2ByRegion => ByRegion(Emissions)
    case Top10CountriesByNDGainScore => Top10(Readiness)
    case NdGainScoreByRegion => ByRegion(Readiness)
    case Top10CountriesByClimaJusticeScore => Top10(Justice)
    case ClimaJusticeScoreByRegion => ByRegion(Justice)
    case TerritorialMtCO2vsNDGainScore => Versus(Emissions, Readiness)
    case TerritorialMtCO2vsClimaJusticeScore => Versus(Emissions, Justice)
    case NdGainScorevsClimaJusticeScore => Versus(Readiness, Justice)
    case BubbleChart => Bubble
  }

  /** The title a layout is given. */
  function LayoutTitle(l: Layout): string {
    match l
    case Top10(m) => "Top 10 Countries by " + MeasureTitle(m)
    case ByRegion(m) => MeasureTitle(m) + " by Region"
    case Versus(x, y) => MeasureTitle(x) + " vs " + MeasureTitle(y)
    case Bubble => "Climate Justice Bubble Chart"
  }

  // One lemma per composed title keeps each string comparison in a proof of its own.
  lemma Top10EmissionsTitle()
    ensures LayoutTitle(Top10(Emissions)) == "Top 10 Countries by Territorial MtCO2"
  {
  }

  lemma EmissionsByRegionTitle()
    ensures LayoutTitle(ByRegion(Emissions)) == "Territorial MtCO2 by Region"
  {
  }

  lemma Top10ReadinessTitle()
    ensures LayoutTitle(Top10(Readiness)) == "Top 10 Countries by ND Gain Score"
  {
  }

  lemma ReadinessByRegionTitle()
    ensures LayoutTitle(ByRegion(Readiness)) == "ND Gain Score by Region"
  {
  }

  lemma Top10JusticeTitle()
    ensures LayoutTitle(Top10(Justice)) == "Top 10 Countries by Clima Justice Score"
  {
  }

  lemma JusticeByRegionTitle()
    ensures LayoutTitle(ByRegion(Justice)) == "Clima Justice Score by Region"
  {
  }

  lemma EmissionsVersusReadinessTitle()
    ensures LayoutTitle(Versus(Emissions, Readiness)) == "Territorial MtCO2 vs ND Gain Score"
  {
  }

  lemma EmissionsVersusJusticeTitle()
    ensures LayoutTitle(Versus(Emissions, Justice)) == "Territorial MtCO2 vs Clima Justice Score"
  {
  }

  lemma ReadinessVersusJusticeTitle()
    ensures LayoutTitle(Versus(Readiness, Justice)) == "ND Gain Score vs Clima Justice Score"
  {
  }

  /** The raw value: the chart's title, which is always the title of the
      layout the chart is drawn in. */
  function RawValue(c: ChartType): (r: string)
    ensures r == LayoutTitle(LayoutOf(c))
  {
    match c
    case Top10CountriesByTerritorialMtCO2 => Top10EmissionsTitle(); "Top 10 Countries by Territorial MtCO2"
    case TerritorialMtCO2ByRegion => EmissionsByRegionTitle(); "Territorial MtCO2 by Region"
    case Top10CountriesByNDGainScore => Top10ReadinessTitle(); "Top 10 Countries by ND Gain Score"
    case NdGainScoreByRegion => ReadinessByRegionTitle(); "ND Gain Score by Region"
    case Top10CountriesByClimaJusticeScore => Top10JusticeTitle(); "Top 10 Countries by Clima Justice Score"
    case ClimaJusticeScoreByRegion => JusticeByRegionTitle(); "Clima Justice Score by Region"
    case TerritorialMtCO2vsNDGainScore => EmissionsVersusReadinessTitle(); "Territorial MtCO2 vs ND Gain Score"
    case TerritorialMtCO2vsClimaJusticeScore => EmissionsVersusJusticeTitle(); "Territorial MtCO2 vs Clima Justice Score"
    case NdGainScorevsClimaJusticeScore => ReadinessVersusJusticeTitle(); "ND Gain Score vs Clima Justice Score"
    case BubbleChart => "Climate Justice Bubble Chart"
  }

  /** `imageName`: bar charts for the top-10 rankings, pie charts for the
      regional breakdowns, scatter plots for the "vs" charts, and bubbles for
      the bubble chart. */
  function ImageName(c: ChartType): (r: string)
    ensures r == "chart.bar.fill" <==> LayoutOf(c).Top10?
    ensures r == "chart.pie.fill" <==> LayoutOf(c).ByRegion?
    ensures r == "chart.dots.scatter" <==> LayoutOf(c).Versus?
    ensures r == "bubbles.and.sparkles.fill" <==> c == BubbleChart
  {
    match c
    case Top10CountriesByTerritorialMtCO2 | Top10CountriesByNDGainScore | Top10CountriesByClimaJusticeScore =>
      "chart.bar.fill"
    case TerritorialMtCO2ByRegion | NdGainScoreByRegion | ClimaJusticeScoreByRegion =>
      "chart.pie.fill"
    case TerritorialMtCO2vsNDGainScore | TerritorialMtCO2vsClimaJusticeScore | NdGainScorevsClimaJusticeScore =>
      "chart.dots.scatter"
    case BubbleChart =>
      "bubbles.and.sparkles.fill"
  }

  /** A chart is identified by its layout. */
  lemma LayoutIdentifiesChart(a: ChartType, b: ChartType)
    ensures LayoutOf(a) == LayoutOf(b) <==> a == b
  {
  }

  /** Raw values are unique, as Swift demands of a string-backed enum. */
  lemma RawValueInjective(a: ChartType, b: ChartType)
    requires RawValue(a) == RawValue(b)
    ensures a == b
  {
  }

  /** `allCases` lists each of the ten charts exactly once. */
  lemma AllCasesComplete()
    ensures |AllCases| == 10
    ensures forall i, j :: 0 <= i < j < |AllCases| ==> AllCases[i] != AllCases[j]
    ensures forall c: ChartType :: c in AllCases
  {
    forall c: ChartType ensures c in AllCases {
      var k :=
        match c
        case Top10CountriesByTerritorialMtCO2 => 0
        case TerritorialMtCO2ByRegion => 1
        case Top10CountriesByNDGainScore => 2
        case NdGainScoreByRegion => 3
        case Top10CountriesByClimaJusticeScore => 4
        case ClimaJusticeScoreByRegion => 5
        case TerritorialMtCO2vsNDGainScore => 6
        case TerritorialMtCO2vsClimaJusticeScore => 7
        case NdGainScorevsClimaJusticeScore => 8
        case BubbleChart => 9;
      assert AllCases[k] == c;
    }
  }
}
