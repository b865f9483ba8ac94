/**
 * The Home screen (Clima/Views/Screens/HomeView.swift): a map of all
 * countries or of the selected one, and a list filtered by name prefix.
 */
module Home {
  import opened Wrappers
  import opened Model

  /** `replacingOccurrences(of: "ü", with: "u")`. */
  function ReplaceUmlaut(s: string): (r: string)
    ensures |r| == |s|
    ensures forall i :: 0 <= i < |s| ==> r[i] == (if s[i] == 'ü' then 'u' else s[i])
  {
    if s == [] then []
    else [if s[0] == 'ü' then 'u' else s[0]] + ReplaceUmlaut(s[1..])
  }

  /** The normal form both the name and the search text are brought to
      before comparing: lower-cased by `lower` (Swift's `lowercased()`),
      then "ü" read as "u". */
  function Normalize(lower: string -> string, s: string): string {
    ReplaceUmlaut(lower(s))
  }

  /** The filter's test: the normalized name starts with the normalized search text. */
  predicate MatchesSearch(lower: string -> string, searchText: string, c: Country) {
    Normalize(lower, searchText) <= Normalize(lower, c.name)
  }

  /** `ys` is `xs` with some elements dropped and the rest kept in order. */
  predicate IsSubsequence<T(==)>(ys: seq<T>, xs: seq<T>)
    decreases |xs|
  {
    if ys == [] then true
    else if xs == [] then false
    else if ys[0] == xs[0] then IsSubsequence(ys[1..], xs[1..])
    else IsSubsequence(ys, xs[1..])
  }

  /** `displayedCountriesOnList`: `countries.filter` by the name-prefix test. */
  function FilterByPrefix(countries: seq<Country>, searchText: string, lower: string -> string): (r: seq<Country>)
    ensures IsSubsequence(r, countries)
    ensures forall i :: 0 <= i < |r| ==> MatchesSearch(lower, searchText, r[i])
    ensures forall c :: multiset(r)[c] == if MatchesSearch(lower, searchText, c) then multiset(countries)[c] else 0
  {
    if countries == [] then []
    else
      var rest := FilterByPrefix(countries[1..], searchText, lower);
      assert countries == [countries[0]] + countries[1..];
      if MatchesSearch(lower, searchText, countries[0]) then [countries[0]] + rest else rest
  }

  /** With an empty search text, and a lower-casing that keeps the empty
      string empty, the list is the whole collection in its own order. */
  lemma {:induction false} EmptySearchKeepsAll(countries: seq<Country>, lower: string -> string)
    requires lower("") == ""
    ensures FilterByPrefix(countries, "", lower) == countries
  {
    if countries != [] {
      EmptySearchKeepsAll(countries[1..], lower);
    }
  }

  /** Two strings that agree everywhere except that one may have "ü" where
      the other has "u". */
  predicate UmlautEquivalent(x: string, y: string) {
    |x| == |y| &&
    forall i :: 0 <= i < |x| ==>
      x[i] == y[i] || (x[i] == 'ü' && y[i] == 'u') || (x[i] == 'u' && y[i] == 'ü')
  }

  lemma UmlautEquivalentNormalizeEqual(x: string, y: string)
    requires UmlautEquivalent(x, y)
    ensures ReplaceUmlaut(x) == ReplaceUmlaut(y)
  {
    var rx, ry := ReplaceUmlaut(x), ReplaceUmlaut(y);
    forall i | 0 <= i < |rx| ensures rx[i] == ry[i] {
    }
  }

  /** Searches whose lower-cased forms differ only by "ü" versus "u" list the same countries. */
  lemma {:induction false} UmlautInsensitiveSearch(countries: seq<Country>, a: string, b: string, lower: string -> string)
    requires UmlautEquivalent(lower(a), lower(b))
    ensures FilterByPrefix(countries, a, lower) == FilterByPrefix(countries, b, lower)
  {
    UmlautEquivalentNormalizeEqual(lower(a), lower(b));
    if countries != [] {
      UmlautInsensitiveSearch(countries[1..], a, b, lower);
    }
  }

  /** The `HomeView` screen state. `countries` is the collection loaded at
      start-up, which the screen only reads. */
  class HomeView {
    const countries: seq<Country>
    const lower: string -> string
    var selectedCountry: Option<Country>
    var mapCameraPosition: CameraPosition
    var searchText: string

    /** Nothing selected, automatic camera, empty search. */
    constructor (countries: seq<Country>, lower: string -> string)
      ensures this.countries == countries && this.lower == lower
      ensures selectedCountry == None && mapCameraPosition == Automatic && searchText == ""
    {
      this.countries := countries;
      this.lower := lower;
      selectedCountry := None;
      mapCameraPosition := Automatic;
      searchText := "";
    }

    /** `displayedCountriesOnMap`: only the selected country, or all of them. */
    function DisplayedCountriesOnMap(): (r: seq<Country>)
      reads this
      ensures selectedCountry.Some? ==> r == [selectedCountry.value]
      ensures selectedCountry.None? ==> r == countries
    {
      match selectedCountry
      case Some(c) => [c]
      case None => countries
    }

    /** `displayedCountriesOnList`: exactly the countries whose normalized
        name starts with the normalized search text, in collection order. */
    function DisplayedCountriesOnList(): (r: seq<Country>)
      reads this
      ensures IsSubsequence(r, countries)
      ensures forall c :: c in r <==> c in countries && MatchesSearch(lower, searchText, c)
      ensures forall c :: multiset(r)[c] == if MatchesSearch(lower, searchText, c) then multiset(countries)[c] else 0
    {
      var r := FilterByPrefix(countries, searchText, lower);
      assert forall c :: c in r <==> multiset(r)[c] > 0;
      assert forall c :: c in countries <==> multiset(countries)[c] > 0;
      r
    }

    /** The "No Results" view replaces the list exactly when no country matches. */
    predicate ShowsNoResults()
      reads this
      ensures ShowsNoResults() <==>
                forall i :: 0 <= i < |countries| ==> !MatchesSearch(lower, searchText, countries[i])
    {
      var r := DisplayedCountriesOnList();
      assert r != [] ==> r[0] in r;
      r == []
    }

    /** The clear-selection button is disabled when nothing is selected,
        that is, when the map already shows every country. */
    predicate IsClearButtonDisabled()
      reads this
      ensures IsClearButtonDisabled() <==> selectedCountry.None?
      ensures IsClearButtonDisabled() ==> DisplayedCountriesOnMap() == countries
      ensures !IsClearButtonDisabled() ==> |DisplayedCountriesOnMap()| == 1
    {
      selectedCountry.None?
    }

    /** `changeSelectedCountry(to:)`: selection and camera change together. */
    method ChangeSelectedCountry(to: Option<Country>)
      modifies this
      ensures selectedCountry == to
      ensures to.Some? ==> mapCameraPosition == CameraOf(to.value)
      ensures to.None? ==> mapCameraPosition == Automatic
      ensures searchText == old(searchText)
      ensures to.Some? ==> DisplayedCountriesOnMap() == [to.value] && !IsClearButtonDisabled()
      ensures to.None? ==> DisplayedCountriesOnMap() == countries && IsClearButtonDisabled()
    {
      if to.Some? {
        selectedCountry := to;
        mapCameraPosition := CameraOf(to.value);
      } else {
        selectedCountry := None;
        mapCameraPosition := Automatic;
      }
    }

    /** The search field's binding. */
    method SetSearchText(text: string)
      modifies this
      ensures searchText == text
      ensures selectedCountry == old(selectedCountry) && mapCameraPosition == old(mapCameraPosition)
    {
      searchText := text;
    }

    /** The clear-search button: `searchText.removeAll()`. */
    method ClearSearchText()
      modifies this
      ensures searchText == ""
      ensures selectedCountry == old(selectedCountry) && mapCameraPosition == old(mapCameraPosition)
    {
      searchText := "";
    }
  }
}
