/**
 * The Map screen (Clima/Views/Screens/MapView.swift): a map, a detail panel
 * for the selected country that slides away when the user moves the map
 * with nothing selected, and a sorted, filtered country list.
 */
module MapScreen {
  import opened Wrappers
  import opened Model

  /** The rule of the camera `onChange` handler on the detail panel: hide it
      when nothing is selected and the camera has left the automatic framing. */
  predicate HidesDetailView(selected: Option<Country>, camera: CameraPosition)
    ensures HidesDetailView(selected, camera) <==> selected.None? && camera.CountryCam?
  {
    selected.None? && camera != Automatic
  }

  /** The `MapView` screen state. `filterAndSort` stands for the collection's
      `getFilteredAndSortedCountries`, whose body is not part of this model. */
  class MapView {
    const countries: seq<Country>
    const filterAndSort: (seq<Country>, string, CountrySortOption) -> seq<Country>
    var selectedCountry: Option<Country>
    var mapCameraPosition: CameraPosition
    var searchText: string
    var isShowingDetailView: bool
    var currentListSortOption: CountrySortOption

    /** Nothing selected, automatic camera, empty search, detail panel shown,
        A-to-Z order. */
    constructor (countries: seq<Country>, filterAndSort: (seq<Country>, string, CountrySortOption) -> seq<Country>)
      ensures this.countries == countries && this.filterAndSort == filterAndSort
      ensures selectedCountry == None && mapCameraPosition == Automatic && searchText == ""
      ensures isShowingDetailView && currentListSortOption == NameAtoZ
    {
      this.countries := countries;
      this.filterAndSort := filterAndSort;
      selectedCountry := None;
      mapCameraPosition := Automatic;
      searchText := "";
      isShowingDetailView := true;
      currentListSortOption := NameAtoZ;
    }

    /** `displayedCountriesOnMap`: only the selected country, or all of them. */
    function DisplayedCountriesOnMap(): (r: seq<Country>)
      reads this
      ensures selectedCountry.Some? ==> r == [selectedCountry.value]
      ensures selectedCountry.None? ==> r == countries
    {
      match selectedCountry
      case Some(c) => [c]
      case None => countries
    }

    /** `displayedCountriesOnList`: the collection filtered by the search
        text and ordered by the current sort option. */
    function DisplayedCountriesOnList(): (r: seq<Country>)
      reads this
      ensures r == filterAndSort(countries, searchText, currentListSortOption)
    {
      filterAndSort(countries, searchText, currentListSortOption)
    }

    /** The row of the selected country is disabled (selecting it again would change nothing). */
    predicate IsRowDisabled(c: Country)
      reads this
      ensures IsRowDisabled(c) <==> selectedCountry == Some(c)
      ensures IsRowDisabled(c) ==> DisplayedCountriesOnMap() == [c]
    {
      selectedCountry == Some(c)
    }

    /** The clear-selection button is disabled when nothing is selected,
        that is, when the map already shows every country. */
    predicate IsClearButtonDisabled()
      reads this
      ensures IsClearButtonDisabled() <==> selectedCountry.None?
      ensures IsClearButtonDisabled() ==> DisplayedCountriesOnMap() == countries
      ensures !IsClearButtonDisabled() ==> |DisplayedCountriesOnMap()| == 1
    {
      selectedCountry.None?
    }

    /** `changeSelectedCountry(to:)`. Selecting a country centres the camera
        on it and brings the detail panel back; clearing the selection only
        resets the camera. In both cases the camera handler then has nothing
        to hide. */
    method ChangeSelectedCountry(to: Option<Country>)
      modifies this
      ensures selectedCountry == to
      ensures to.Some? ==> mapCameraPosition == CameraOf(to.value) && isShowingDetailView
      ensures to.None? ==> mapCameraPosition == Automatic && isShowingDetailView == old(isShowingDetailView)
      ensures searchText == old(searchText) && currentListSortOption == old(currentListSortOption)
      ensures !HidesDetailView(selectedCountry, mapCameraPosition)
      ensures to.Some? ==> DisplayedCountriesOnMap() == [to.value] && IsRowDisabled(to.value) && !IsClearButtonDisabled()
      ensures to.None? ==> DisplayedCountriesOnMap() == countries && IsClearButtonDisabled()
      ensures DisplayedCountriesOnList() == old(DisplayedCountriesOnList())
    {
      if to.Some? {
        selectedCountry := to;
        mapCameraPosition := CameraOf(to.value);
        isShowingDetailView := true;
      } else {
        selectedCountry := None;
        mapCameraPosition := Automatic;
      }
    }

    /** The camera `onChange` handler of the detail panel. */
    method OnMapCameraPositionChange()
      modifies this
      ensures isShowingDetailView ==
                (if HidesDetailView(selectedCountry, mapCameraPosition) then false else old(isShowingDetailView))
      ensures selectedCountry == old(selectedCountry) && mapCameraPosition == old(mapCameraPosition)
      ensures searchText == old(searchText) && currentListSortOption == old(currentListSortOption)
      ensures DisplayedCountriesOnList() == old(DisplayedCountriesOnList())
    {
      if selectedCountry == None && mapCameraPosition != Automatic {
        isShowingDetailView := false;
      }
    }

    /** The map writes a new camera through its binding (the user moved the
        map, to a position represented as some `CountryCam`); a change of
        value fires the handler above. */
    method SetMapCameraPosition(position: CameraPosition)
      modifies this
      ensures mapCameraPosition == position
      ensures isShowingDetailView ==
                (if position != old(mapCameraPosition) && HidesDetailView(selectedCountry, position) then false
                 else old(isShowingDetailView))
      ensures selectedCountry == old(selectedCountry)
      ensures searchText == old(searchText) && currentListSortOption == old(currentListSortOption)
    {
      var changed := position != mapCameraPosition;
      mapCameraPosition := position;
      if changed {
        OnMapCameraPositionChange();
      }
    }

    /** `changeListSortOption(to:)`: the sort option and nothing else. */
    method ChangeListSortOption(option: CountrySortOption)
      modifies this
      ensures currentListSortOption == option
      ensures selectedCountry == old(selectedCountry) && mapCameraPosition == old(mapCameraPosition)
      ensures searchText == old(searchText) && isShowingDetailView == old(isShowingDetailView)
    {
      currentListSortOption := option;
    }

    /** The search field's binding. */
    method SetSearchText(text: string)
      modifies this
      ensures searchText == text
      ensures selectedCountry == old(selectedCountry) && mapCameraPosition == old(mapCameraPosition)
      ensures isShowingDetailView == old(isShowingDetailView) && currentListSortOption == old(currentListSortOption)
    {
      searchText := text;
    }

    /** The clear-search button: `searchText.removeAll()`. */
    method ClearSearchText()
      modifies this
      ensures searchText == ""
      ensures selectedCountry == old(selectedCountry) && mapCameraPosition == old(mapCameraPosition)
      ensures isShowingDetailView == old(isShowingDetailView) && currentListSortOption == old(currentListSortOption)
    {
      searchText := "";
    }
  }
}
