/**
 * The Compare screen (Clima/Views/Screens/CompareView.swift): two country
 * lists side by side, each with its own selection, search text and sort
 * option, and a panel comparing the two selected countries metric by metric.
 */
module Compare {
  import opened Wrappers
  import opened Model
  import DataTypes

  datatype ListOption = Left | Right {
    function Other(): (o: ListOption)
      ensures o != this
    {
      if this == Left then Right else Left
    }
  }

  /** `getComparisonColor`: neutral for equal values, otherwise green for the
      better value and red for the worse one. */
  function ComparisonColor(value: real, otherValue: real, isHigherBetter: bool): (r: Color)
    ensures r == Primary <==> value == otherValue
    ensures r == Green <==> value != otherValue && (if isHigherBetter then value > otherValue else value < otherValue)
    ensures r == Red <==> value != otherValue && (if isHigherBetter then value < otherValue else value > otherValue)
  {
    if value == otherValue then Primary
    else
      var isBetter := if isHigherBetter then value > otherValue else value < otherValue;
      if isBetter then Green else Red
  }

  /** The two sides are coloured with swapped arguments, so unequal values
      give one green side and one red side, and equal values two neutral ones. */
  lemma OppositeColors(leftValue: real, rightValue: real, isHigherBetter: bool)
    ensures leftValue != rightValue ==>
              {ComparisonColor(leftValue, rightValue, isHigherBetter),
               ComparisonColor(rightValue, leftValue, isHigherBetter)} == {Green, Red}
    ensures leftValue == rightValue ==>
              ComparisonColor(leftValue, rightValue, isHigherBetter) == Primary &&
              ComparisonColor(rightValue, leftValue, isHigherBetter) == Primary
  {
    if leftValue != rightValue {
      var a := ComparisonColor(leftValue, rightValue, isHigherBetter);
      var b := ComparisonColor(rightValue, leftValue, isHigherBetter);
      assert a != b && a != Primary && b != Primary;
    }
  }

  const UpArrow: string := "↑"
  const DownArrow: string := "↓"

  /** The arrow of `getComparisonText`: up when this value is the larger,
      whichever direction is better. */
  function ComparisonSymbol(value: real, otherValue: real, isHigherBetter: bool): (r: string)
    ensures r == UpArrow <==> value > otherValue
    ensures r == DownArrow <==> value <= otherValue
  {
    if value > otherValue then UpArrow else DownArrow
  }

  /** The arrow alone does not say which side is better: the green side
      points up when higher is better, and down when lower is better. */
  lemma GreenSideArrow(value: real, otherValue: real, isHigherBetter: bool)
    requires value != otherValue
    ensures ComparisonColor(value, otherValue, isHigherBetter) == Green <==>
              (ComparisonSymbol(value, otherValue, isHigherBetter) == UpArrow) == isHigherBetter
  {
  }

  /** What one `comparisonMetric` row shows. An arrow is `None` when its
      difference text is hidden. */
  datatype MetricRow = MetricRow(
    title: string,
    icon: string,
    isHigherBetter: bool,
    leftValue: real,
    rightValue: real,
    leftColor: Color,
    rightColor: Color,
    leftArrow: Option<string>,
    rightArrow: Option<string>)

  /** `comparisonMetric`: colours with swapped arguments per side, and the
      difference text only when the values differ. */
  function ComparisonMetric(title: string, icon: string, leftValue: real, rightValue: real, isHigherBetter: bool): (m: MetricRow)
    ensures m.title == title && m.icon == icon && m.isHigherBetter == isHigherBetter
    ensures m.leftValue == leftValue && m.rightValue == rightValue
    ensures m.leftColor == ComparisonColor(leftValue, rightValue, isHigherBetter)
    ensures m.rightColor == ComparisonColor(rightValue, leftValue, isHigherBetter)
    ensures m.leftArrow.Some? ==> m.leftArrow.value == ComparisonSymbol(leftValue, rightValue, isHigherBetter)
    ensures m.rightArrow.Some? ==> m.rightArrow.value == ComparisonSymbol(rightValue, leftValue, isHigherBetter)
    ensures m.leftArrow.Some? <==> leftValue != rightValue
    ensures m.rightArrow.Some? <==> leftValue != rightValue
    ensures leftValue != rightValue ==> {m.leftColor, m.rightColor} == {Green, Red} && m.leftArrow != m.rightArrow
    ensures leftValue == rightValue ==> m.leftColor == Primary && m.rightColor == Primary
  {
    OppositeColors(leftValue, rightValue, isHigherBetter);
    MetricRow(
      title, icon, isHigherBetter, leftValue, rightValue,
      ComparisonColor(leftValue, rightValue, isHigherBetter),
      ComparisonColor(rightValue, leftValue, isHigherBetter),
      if leftValue != rightValue then Some(ComparisonSymbol(leftValue, rightValue, isHigherBetter)) else None,
      if leftValue != rightValue then Some(ComparisonSymbol(rightValue, leftValue, isHigherBetter)) else None)
  }

  /** Whether a higher value of the metric is the better one: true for the
      Clima Justice Score and the ND-Gain Score, false for emissions. */
  function IsHigherBetter(d: DataTypes.DataType): (r: bool)
    ensures r <==> d != DataTypes.TerritorialMtCO2
  {
    match d
    case ClimaJusticeScore => true
    case NdGainScore => true
    case TerritorialMtCO2 => false
  }

  /** The metric rows of `comparisonView`, top to bottom. */
  const ComparedMetrics: seq<DataTypes.DataType> :=
    [DataTypes.ClimaJusticeScore, DataTypes.NdGainScore, DataTypes.TerritorialMtCO2]

  function MetricValue(d: DataTypes.DataType, c: Country, score: Country -> real): real {
    match d
    case ClimaJusticeScore => score(c)
    case NdGainScore => c.ndGainScore
    case TerritorialMtCO2 => c.territorialMtCO2
  }

  /** The panel compares every metric of the metric table exactly once. */
  lemma ComparesEveryMetric()
    ensures multiset(ComparedMetrics) == multiset(DataTypes.AllCases)
  {
  }

  /** `comparisonView`'s three metric rows. `score` is the Clima Justice Score
      against the whole collection's emission range, computed elsewhere. */
  function ComparisonRows(left: Country, right: Country, score: Country -> real): (rows: seq<MetricRow>)
    ensures |rows| == |ComparedMetrics|
    ensures forall i :: 0 <= i < |rows| ==>
              var d := ComparedMetrics[i];
              rows[i].title == DataTypes.RawValue(d) &&
              rows[i].icon == DataTypes.ImageName(d) &&
              rows[i].isHigherBetter == IsHigherBetter(d) &&
              rows[i].leftValue == MetricValue(d, left, score) &&
              rows[i].rightValue == MetricValue(d, right, score)
  {
    [ ComparisonMetric("Clima Justice Score", "scale.3d", score(left), score(right), true),
      ComparisonMetric("ND-Gain Score", "shield.lefthalf.filled", left.ndGainScore, right.ndGainScore, true),
      ComparisonMetric("Territorial MtCO2", "carbon.dioxide.cloud.fill", left.territorialMtCO2, right.territorialMtCO2, false) ]
  }

  /** Each row is the comparison of one metric: its title and icon are the
      metric's raw value and image name, its values the two countries'
      values of that metric, and the direction that metric's. */
  lemma ComparisonRowsFollowMetrics(left: Country, right: Country, score: Country -> real)
    ensures forall i :: 0 <= i < |ComparedMetrics| ==>
              var d := ComparedMetrics[i];
              ComparisonRows(left, right, score)[i] ==
                ComparisonMetric(DataTypes.RawValue(d), DataTypes.ImageName(d),
                                 MetricValue(d, left, score), MetricValue(d, right, score),
                                 IsHigherBetter(d))
  {
  }

  /** The `CompareView` screen state. `filterAndSort` stands for the
      collection's `getFilteredAndSortedCountries`, whose body is not part of
      this model. */
  class CompareView {
    const countries: seq<Country>
    const filterAndSort: (seq<Country>, string, CountrySortOption) -> seq<Country>
    var selectedCountryOnLeft: Option<Country>
    var searchTextOnLeft: string
    var currentListSortOptionOnLeft: CountrySortOption
    var selectedCountryOnRight: Option<Country>
    var searchTextOnRight: string
    var currentListSortOptionOnRight: CountrySortOption

    /** The two sides never hold the same country. */
    ghost predicate Valid()
      reads this
    {
      selectedCountryOnLeft.Some? ==> selectedCountryOnLeft != selectedCountryOnRight
    }

    /** Both sides start with no selection, an empty search and A-to-Z order. */
    constructor (countries: seq<Country>, filterAndSort: (seq<Country>, string, CountrySortOption) -> seq<Country>)
      ensures Valid()
      ensures this.countries == countries && this.filterAndSort == filterAndSort
      ensures selectedCountryOnLeft == None && searchTextOnLeft == "" && currentListSortOptionOnLeft == NameAtoZ
      ensures selectedCountryOnRight == None && searchTextOnRight == "" && currentListSortOptionOnRight == NameAtoZ
    {
      this.countries := countries;
      this.filterAndSort := filterAndSort;
      selectedCountryOnLeft, searchTextOnLeft, currentListSortOptionOnLeft := None, "", NameAtoZ;
      selectedCountryOnRight, searchTextOnRight, currentListSortOptionOnRight := None, "", NameAtoZ;
    }

    function Selected(side: ListOption): Option<Country>
      reads this
    {
      if side == Left then selectedCountryOnLeft else selectedCountryOnRight
    }

    function SearchText(side: ListOption): string
      reads this
    {
      if side == Left then searchTextOnLeft else searchTextOnRight
    }

    function SortOption(side: ListOption): CountrySortOption
      reads this
    {
      if side == Left then currentListSortOptionOnLeft else currentListSortOptionOnRight
    }

    /** `displayedCountriesOnLeft` / `displayedCountriesOnRight`. */
    function DisplayedCountries(side: ListOption): (r: seq<Country>)
      reads this
      ensures side == Left ==> r == filterAndSort(countries, searchTextOnLeft, currentListSortOptionOnLeft)
      ensures side == Right ==> r == filterAndSort(countries, searchTextOnRight, currentListSortOptionOnRight)
    {
      filterAndSort(countries, SearchText(side), SortOption(side))
    }

    /** A card is disabled when its country is selected on the other side. */
    predicate IsDisabled(c: Country, side: ListOption)
      reads this
      ensures IsDisabled(c, side) <==> Selected(side.Other()) == Some(c)
    {
      (if side == Left then selectedCountryOnRight else selectedCountryOnLeft) == Some(c)
    }

    /** The comparison panel appears once both sides hold a country, and then
        they are two different countries. */
    predicate ShowsComparison()
      reads this
      ensures ShowsComparison() <==> selectedCountryOnLeft.Some? && selectedCountryOnRight.Some?
      ensures ShowsComparison() && Valid() ==> selectedCountryOnLeft.value != selectedCountryOnRight.value
    {
      selectedCountryOnLeft.Some? && selectedCountryOnRight.Some?
    }

    /** `selectCountry(_:for:)`: sets one side's selection and nothing else.
        The screen reaches it only through `TapCountry`, which never passes
        the country selected on the other side; called directly it can
        break `Valid()`, as the Swift function can. */
    method SelectCountry(country: Option<Country>, side: ListOption)
      modifies this
      ensures Selected(side) == country
      ensures Selected(side.Other()) == old(Selected(side.Other()))
      ensures searchTextOnLeft == old(searchTextOnLeft) && searchTextOnRight == old(searchTextOnRight)
      ensures currentListSortOptionOnLeft == old(currentListSortOptionOnLeft)
      ensures currentListSortOptionOnRight == old(currentListSortOptionOnRight)
    {
      match side
      case Left => selectedCountryOnLeft := country;
      case Right => selectedCountryOnRight := country;
    }

    /** A tap on a country card: a disabled card ignores it, a tap on the
        side's own selection clears it, any other tap selects the country.
        The other side is never touched. */
    method TapCountry(country: Country, side: ListOption)
      requires Valid()
      modifies this
      ensures Valid()
      ensures old(IsDisabled(country, side)) ==> Selected(side) == old(Selected(side))
      ensures !old(IsDisabled(country, side)) && old(Selected(side)) == Some(country) ==> Selected(side) == None
      ensures !old(IsDisabled(country, side)) && old(Selected(side)) != Some(country) ==> Selected(side) == Some(country)
      ensures Selected(side.Other()) == old(Selected(side.Other()))
      ensures searchTextOnLeft == old(searchTextOnLeft) && searchTextOnRight == old(searchTextOnRight)
      ensures currentListSortOptionOnLeft == old(currentListSortOptionOnLeft)
      ensures currentListSortOptionOnRight == old(currentListSortOptionOnRight)
      ensures DisplayedCountries(Left) == old(DisplayedCountries(Left))
      ensures DisplayedCountries(Right) == old(DisplayedCountries(Right))
    {
      var isSelected := Selected(side) == Some(country);
      var isDuplicate := IsDisabled(country, side);
      if !isDuplicate {
        SelectCountry(if isSelected then None else Some(country), side);
      }
    }

    /** `changeListSortOption(to:for:)`. */
    method ChangeListSortOption(option: CountrySortOption, side: ListOption)
      modifies this
      ensures SortOption(side) == option
      ensures SortOption(side.Other()) == old(SortOption(side.Other()))
      ensures selectedCountryOnLeft == old(selectedCountryOnLeft) && selectedCountryOnRight == old(selectedCountryOnRight)
      ensures searchTextOnLeft == old(searchTextOnLeft) && searchTextOnRight == old(searchTextOnRight)
      ensures DisplayedCountries(side.Other()) == old(DisplayedCountries(side.Other()))
    {
      match side
      case Left => currentListSortOptionOnLeft := option;
      case Right => currentListSortOptionOnRight := option;
    }

    /** The search field of one side, through its binding. */
    method SetSearchText(text: string, side: ListOption)
      modifies this
      ensures SearchText(side) == text
      ensures SearchText(side.Other()) == old(SearchText(side.Other()))
      ensures selectedCountryOnLeft == old(selectedCountryOnLeft) && selectedCountryOnRight == old(selectedCountryOnRight)
      ensures currentListSortOptionOnLeft == old(currentListSortOptionOnLeft)
      ensures currentListSortOptionOnRight == old(currentListSortOptionOnRight)
      ensures DisplayedCountries(side.Other()) == old(DisplayedCountries(side.Other()))
    {
      match side
      case Left => searchTextOnLeft := text;
      case Right => searchTextOnRight := text;
    }

    /** The clear button of one side's search field. */
    method ClearSearchText(side: ListOption)
      modifies this
      ensures SearchText(side) == ""
      ensures SearchText(side.Other()) == old(SearchText(side.Other()))
      ensures selectedCountryOnLeft == old(selectedCountryOnLeft) && selectedCountryOnRight == old(selectedCountryOnRight)
      ensures currentListSortOptionOnLeft == old(currentListSortOptionOnLeft)
      ensures currentListSortOptionOnRight == old(currentListSortOptionOnRight)
      ensures DisplayedCountries(side.Other()) == old(DisplayedCountries(side.Other()))
    {
      SetSearchText("", side);
    }
  }
}
