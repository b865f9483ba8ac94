/** The three metrics of the dataset (Clima/Enums/DataType.swift). */
module DataTypes {
  import opened Model

  datatype DataType = ClimaJusticeScore | TerritorialMtCO2 | NdGainScore

  /** `allCases`, in declaration order. */
  const AllCases: seq<DataType> := [ClimaJusticeScore, TerritorialMtCO2, NdGainScore]

  /** `allCases` lists every metric exactly once. */
  lemma AllCasesComplete()
    ensures |AllCases| == 3
    ensures forall i, j :: 0 <= i < j < |AllCases| ==> AllCases[i] != AllCases[j]
    ensures forall d: DataType :: d in AllCases
  {
    forall d: DataType ensures d in AllCases {
      match d
      case ClimaJusticeScore => assert AllCases[0] == d;
      case TerritorialMtCO2 => assert AllCases[1] == d;
      case NdGainScore => assert AllCases[2] == d;
    }
  }

  /** The raw value, the metric's display name; each name belongs to one metric. */
  function RawValue(d: DataType): (r: string)
    ensures r == "Clima Justice Score" <==> d == ClimaJusticeScore
    ensures r == "Territorial MtCO2" <==> d == TerritorialMtCO2
    ensures r == "ND-Gain Score" <==> d == NdGainScore
  {
    match d
    case ClimaJusticeScore => "Clima Justice Score"
    case TerritorialMtCO2 => "Territorial MtCO2"
    case NdGainScore => "ND-Gain Score"
  }

  /** `imageName`: the SF Symbol of the metric; each symbol belongs to one metric. */
  function ImageName(d: DataType): (r: string)
    ensures r == "scale.3d" <==> d == ClimaJusticeScore
    ensures r == "carbon.dioxide.cloud.fill" <==> d == TerritorialMtCO2
    ensures r == "shield.lefthalf.filled" <==> d == NdGainScore
  {
    match d
    case ClimaJusticeScore => "scale.3d"
    case TerritorialMtCO2 => "carbon.dioxide.cloud.fill"
    case NdGainScore => "shield.lefthalf.filled"
  }

  /** `color`: the metric's chart colour; each colour belongs to one metric. */
  function ColorOf(d: DataType): (r: Color)
    ensures r == Orange <==> d == ClimaJusticeScore
    ensures r == Yellow <==> d == TerritorialMtCO2
    ensures r == Green <==> d == NdGainScore
  {
    match d
    case ClimaJusticeScore => Orange
    case TerritorialMtCO2 => Yellow
    case NdGainScore => Green
  }
}
