# Clima screen logic, in Dafny

Clima is a SwiftUI app that shows a bundled dataset of country climate
statistics (territorial CO2 emissions, the ND-Gain readiness score and a
derived Clima Justice Score) on a map, in charts and side by side. This
project models the controller logic of its screens and the lookup tables of
two of its enums.

- **Onboarding** (`onboarding.dfy`): the six-step carousel. `NextStatus` and
  `PreviousStatus` compute the neighbouring step from the position in
  `allCases`, as the app does, and are proved to return the step declared
  right after or right before, and nothing past the ends. Forward and back
  are proved to undo each other. The screen is a class whose one field is
  `currentStatus`.
- **Home** (`home.dfy`): the name search. Names and search text are
  lower-cased and "ü" is read as "u" before a prefix test. The filtered list
  is proved to be an order-preserving subsequence of the collection that
  keeps exactly the matching countries, with their multiplicities. An empty
  search keeps everything, and searches that differ only by "ü" versus "u"
  list the same countries. Also modelled: what the map shows and how
  selection and camera change together.
- **Compare** (`compare.dfy`): two lists, each with its own selection,
  search text and sort option. A tap on a card toggles that side's
  selection. A card selected on the other side is disabled, so the class
  invariant `Valid()` (the sides never hold the same country) is kept. Each
  metric row colours the better value green and the worse red, and is
  proved to give the two sides opposite colours. The arrow points up for
  the larger value, whichever direction is better.
- **Map** (`map_view.dfy`): the selection, camera, detail-panel flag and
  sort option. Whenever the camera changes to a position other than the
  automatic one while nothing is selected, the panel hides. That includes a
  move from one non-automatic position to another. Changing the selection is
  proved never to trigger that rule.
- **Chart and metric tables** (`chart_type.dfy`, `data_type.dfy`): each
  chart's symbol is proved to follow the layout its title announces. The
  metric names, symbols and colours each identify one metric. The metric
  rows of the Compare screen use the names and symbols of that table.

Shared value types are in `model.dfy` (the country record, the camera
position, the sort options, the regions, colours), and `Option` is in
`wrappers.dfy`. Swift's `Identifiable` conformances whose `id` is the case
itself need nothing in Dafny: a datatype value is its own identity.

Code this model does not have is passed to it as a parameter.
`lowercased()` is the function `lower: string -> string`. The collection's
`getFilteredAndSortedCountries` is the function `filterAndSort`. The Clima
Justice Score is `score: Country -> real`. The camera for a country
(`getMapCameraPosition()`) is `CameraOf(c) == CountryCam(c.id)`; only its
identity and the fact that it is never `Automatic` are used. Country
equality is taken to be structural equality of the record. Metric values are `real`.

Two things in the code look odd but are modelled as written.
`OnboardingView` starts on its last step, `thisIsCompare`
(Clima/Views/Screens/OnboardingView.swift:13), so the first tap does nothing.
Its `beforeWeStart` step has no content branch in the view body.

## Model

| member | source | states |
|---|---|---|
| `Onboarding.FirstIndex` | Clima/Views/Screens/OnboardingView.swift:186 | `firstIndex(of:)`: none exactly when the value is absent; otherwise an in-range index holding the value with no earlier occurrence |
| `Onboarding.AllCasesInOrder` | Clima/Views/Screens/OnboardingView.swift:181-182 | `allCases` has six entries, entry i is the step declared i-th, and every step occurs |
| `Onboarding.NextStatus` | Clima/Views/Screens/OnboardingView.swift:184-189 | none exactly for `thisIsCompare`; otherwise the step whose declaration position is one more |
| `Onboarding.PreviousStatus` | Clima/Views/Screens/OnboardingView.swift:191-196 | none exactly for `welcomeToClima`; otherwise the step whose declaration position is one less |
| `Onboarding.PreviousAfterNext` | Clima/Views/Screens/OnboardingView.swift:184-196 | where a next step exists, the previous of the next is the step itself |
| `Onboarding.NextAfterPrevious` | Clima/Views/Screens/OnboardingView.swift:184-196 | where a previous step exists, the next of the previous is the step itself |
| `Onboarding.OnboardingView.constructor` | Clima/Views/Screens/OnboardingView.swift:13 | the screen starts on `thisIsCompare` |
| `Onboarding.OnboardingView.ContinueLabelString` | Clima/Views/Screens/OnboardingView.swift:15-21 | "Tap anywhere to begin" if and only if on `welcomeToClima`, the continue/back text on every other step |
| `Onboarding.OnboardingView.IsContinueLabelShown` | Clima/Views/Screens/OnboardingView.swift:146 | the label is shown exactly on the first two steps |
| `Onboarding.OnboardingView.ChangeCurrentStatusTo` | Clima/Views/Screens/OnboardingView.swift:161-165 | the status becomes exactly the given step |
| `Onboarding.OnboardingView.ChangeCurrentStatus` | Clima/Views/Screens/OnboardingView.swift:167-179 | moves exactly one position forward or back, and stays put at the end in that direction |
| `Home.ReplaceUmlaut` | Clima/Views/Screens/HomeView.swift:27 | same length; each "ü" becomes "u" and every other character is kept |
| `Home.FilterByPrefix` | Clima/Views/Screens/HomeView.swift:27 | the result is an order-preserving subsequence of the countries; each member matches; each country occurs as often as in the input if it matches, else not at all |
| `Home.EmptySearchKeepsAll` | Clima/Views/Screens/HomeView.swift:27 | an empty search returns the whole collection in order, given that lower-casing keeps "" empty |
| `Home.UmlautEquivalentNormalizeEqual` | Clima/Views/Screens/HomeView.swift:27 | strings that differ only by "ü" versus "u" have the same normal form |
| `Home.UmlautInsensitiveSearch` | Clima/Views/Screens/HomeView.swift:27 | two searches whose lower-cased forms differ only by "ü" versus "u" give identical lists |
| `Home.HomeView.constructor` | Clima/Views/Screens/HomeView.swift:14-16 | no selection, automatic camera, empty search |
| `Home.HomeView.DisplayedCountriesOnMap` | Clima/Views/Screens/HomeView.swift:18-24 | just the selected country when there is one, otherwise every country |
| `Home.HomeView.DisplayedCountriesOnList` | Clima/Views/Screens/HomeView.swift:26-28 | a subsequence of the collection holding exactly the countries whose normalized name starts with the normalized search text, each as often as in the collection |
| `Home.HomeView.ShowsNoResults` | Clima/Views/Screens/HomeView.swift:64-76 | "No Results" is shown exactly when no country matches the search |
| `Home.HomeView.IsClearButtonDisabled` | Clima/Views/Screens/HomeView.swift:205-215 | the clear-selection button is disabled if and only if nothing is selected; the map then shows every country, and when it is enabled the map shows one country |
| `Home.HomeView.ChangeSelectedCountry` | Clima/Views/Screens/HomeView.swift:263-273 | selection becomes the argument; camera becomes that country's camera, or automatic when cleared; search untouched; the map then shows that one country or all, and the clear button is enabled exactly when something is selected |
| `Home.HomeView.SetSearchText` | Clima/Views/Screens/HomeView.swift:222 | the search field sets only the search text |
| `Home.HomeView.ClearSearchText` | Clima/Views/Screens/HomeView.swift:226-238 | the clear button empties the search text and changes nothing else |
| `Compare.ComparisonColor` | Clima/Views/Screens/CompareView.swift:404-411 | primary if and only if the values are equal; green if and only if they differ and this value is the better one for the metric's direction; red if and only if it is the worse one |
| `Compare.OppositeColors` | Clima/Views/Screens/CompareView.swift:369-397 | with the arguments swapped between sides, unequal values give one green and one red side, equal values two primary ones |
| `Compare.ComparisonSymbol` | Clima/Views/Screens/CompareView.swift:417-418 | "↑" if and only if this value is larger, "↓" otherwise, whatever the metric's direction |
| `Compare.GreenSideArrow` | Clima/Views/Screens/CompareView.swift:404-418 | for unequal values, the green side's arrow points up exactly when higher is better |
| `Compare.ComparisonMetric` | Clima/Views/Screens/CompareView.swift:358-402 | a row keeps its title, icon and values; the left colour compares the left value with the right one and the right colour the right value with the left one; difference texts appear on both sides exactly when the values differ, each side's arrow comparing its own value with the other's, so the arrows are opposite; colours are one green and one red, or both primary for equal values |
| `Compare.ComparisonRows` | Clima/Views/Screens/CompareView.swift:297-325 | three rows, in the order justice score, ND-Gain, emissions: each row's title and icon are that metric's name and symbol from the metric table; higher is better except for emissions; the values are the two countries' metric values |
| `Compare.ComparisonRowsFollowMetrics` | Clima/Views/Screens/CompareView.swift:297-325 | each row is exactly the comparison row built from one metric's name, symbol, direction and the two countries' values of it, so its colours and arrows follow from `ComparisonMetric` |
| `Compare.IsHigherBetter` | Clima/Views/Screens/CompareView.swift:297-325 | higher is better for every metric except territorial emissions |
| `Compare.ComparesEveryMetric` | Clima/Views/Screens/CompareView.swift:297-325 | the comparison panel has one row per metric of the metric table, each metric once |
| `Compare.CompareView.constructor` | Clima/Views/Screens/CompareView.swift:13-25 | both sides start with no selection, empty search and A-to-Z order, and the invariant holds |
| `Compare.CompareView.DisplayedCountries` | Clima/Views/Screens/CompareView.swift:16-25 | each side's list is the collection filtered and sorted by that side's own search text and sort option, and by nothing of the other side |
| `Compare.CompareView.IsDisabled` | Clima/Views/Screens/CompareView.swift:39-57 | a card is disabled exactly when its country is selected on the other side |
| `Compare.CompareView.ShowsComparison` | Clima/Views/Screens/CompareView.swift:71-77 | the comparison panel appears exactly when both sides have a selection, and the two selections then differ |
| `Compare.CompareView.SelectCountry` | Clima/Views/Screens/CompareView.swift:127-136 | sets the chosen side's selection and leaves the other side's selection, both search texts and both sort options as they were |
| `Compare.CompareView.TapCountry` | Clima/Views/Screens/CompareView.swift:38-58 | a disabled card changes nothing; tapping the side's own selection clears it; tapping another country selects it; the other side and all search and sort state are unchanged, so neither list changes; the sides never hold the same country |
| `Compare.CompareView.ChangeListSortOption` | Clima/Views/Screens/CompareView.swift:423-432 | sets the chosen side's sort option and nothing else; the other side's list is unchanged |
| `Compare.CompareView.SetSearchText` | Clima/Views/Screens/CompareView.swift:150 | a side's search field sets only that side's search text; the other side's list is unchanged |
| `Compare.CompareView.ClearSearchText` | Clima/Views/Screens/CompareView.swift:154-171 | empties the chosen side's search text and nothing else; the other side's list is unchanged |
| `MapScreen.MapView.constructor` | Clima/Views/Screens/MapView.swift:14-18 | no selection, automatic camera, empty search, detail panel shown, A-to-Z order |
| `MapScreen.MapView.DisplayedCountriesOnMap` | Clima/Views/Screens/MapView.swift:20-26 | just the selected country when there is one, otherwise every country |
| `MapScreen.MapView.DisplayedCountriesOnList` | Clima/Views/Screens/MapView.swift:28-30 | the list is the collection filtered and sorted by the search text and sort option; selecting a country or moving the camera leaves it unchanged |
| `MapScreen.MapView.IsRowDisabled` | Clima/Views/Screens/MapView.swift:80-83 | a row is disabled if and only if its country is the selected one, which is then the only country on the map |
| `MapScreen.MapView.IsClearButtonDisabled` | Clima/Views/Screens/MapView.swift:234-244 | the clear-selection button is disabled if and only if nothing is selected; the map then shows every country, and when it is enabled the map shows one country |
| `MapScreen.MapView.ChangeSelectedCountry` | Clima/Views/Screens/MapView.swift:414-425 | selecting sets the selection, centres the camera on it, shows the panel, disables that country's row and enables the clear button; clearing resets the camera to automatic and keeps the panel flag; the hide-panel rule never fires afterwards; search and sort are untouched, so the list is unchanged |
| `MapScreen.HidesDetailView` | Clima/Views/Screens/MapView.swift:218 | the panel-hiding rule fires if and only if nothing is selected and the camera is not the automatic one (every non-automatic camera is a `CountryCam`) |
| `MapScreen.MapView.OnMapCameraPositionChange` | Clima/Views/Screens/MapView.swift:217-223 | the panel is hidden if nothing is selected and the camera is not automatic, and otherwise the flag is unchanged; nothing else changes, the list included |
| `MapScreen.MapView.SetMapCameraPosition` | Clima/Views/Screens/MapView.swift:35-47 | the map's binding sets the camera; when the value changed, the hide-panel rule applies to the new camera |
| `MapScreen.MapView.ChangeListSortOption` | Clima/Views/Screens/MapView.swift:427-431 | sets only the sort option |
| `MapScreen.MapView.SetSearchText` | Clima/Views/Screens/MapView.swift:252 | the search field sets only the search text |
| `MapScreen.MapView.ClearSearchText` | Clima/Views/Screens/MapView.swift:256-268 | the clear button empties the search text and changes nothing else |
| `Model.CameraOf` | Clima/Views/Screens/MapView.swift:418 | a country's camera is never the automatic one |
| `ChartTypes.RawValue` | Clima/Enums/ChartType.swift:11-22 | each raw value is the title of the chart's layout: "Top 10 Countries by M", "M by Region", "M vs N", or the bubble chart's |
| `ChartTypes.LayoutIdentifiesChart` | Clima/Enums/ChartType.swift:11-22 | distinct charts have distinct layouts |
| `ChartTypes.RawValueInjective` | Clima/Enums/ChartType.swift:10-22 | distinct charts have distinct raw values |
| `ChartTypes.ImageName` | Clima/Enums/ChartType.swift:26-37 | "chart.bar.fill" exactly for the three top-10 charts, "chart.pie.fill" exactly for the three by-region charts, "chart.dots.scatter" exactly for the three "vs" charts, "bubbles.and.sparkles.fill" exactly for the bubble chart |
| `ChartTypes.AllCasesComplete` | Clima/Enums/ChartType.swift:10-22 | `allCases` has ten distinct entries and contains every chart |
| `DataTypes.AllCasesComplete` | Clima/Enums/DataType.swift:10-13 | `allCases` has three distinct entries and contains every metric |
| `DataTypes.RawValue` | Clima/Enums/DataType.swift:11-13 | "Clima Justice Score", "Territorial MtCO2" and "ND-Gain Score", each the raw value of exactly one metric |
| `DataTypes.ImageName` | Clima/Enums/DataType.swift:15-24 | "scale.3d", "carbon.dioxide.cloud.fill" and "shield.lefthalf.filled", each the symbol of exactly one metric |
| `DataTypes.ColorOf` | Clima/Enums/DataType.swift:26-35 | orange, yellow and green, each the colour of exactly one metric |

## Left out

- The Clima Justice Score, the log-emissions scaling, `getFilteredAndSortedCountries`, `getRegion` and `getMapCameraPosition` are defined in files that are not part of this model. They appear only as parameters (`score`, `filterAndSort`) or as the abstract camera `CameraOf`, and the region row of the comparison panel is not modelled.
- The difference and percentage in `getComparisonText`, and all `String(format:)` output, are floating-point formatting. Only the arrow is modelled. The percentage divides by `min(value, otherValue)`, which may be zero.
- Metric values are Dafny `real`, not `Double`. NaN, for which `==` and `>` both fail, is not modelled.
- `lowercased()` is Unicode case mapping and is a parameter here.
- Strings are modelled as sequences of Unicode scalars, not of grapheme clusters. Swift's `hasPrefix` and `replacingOccurrences` compare `Character`s (extended grapheme clusters) under canonical equivalence. The model compares scalars one by one, with "ü" the single scalar U+00FC. So a search text can match a prefix that splits a combining sequence: "c" matches a name written "c" + U+0327 + "a". Swift's `hasPrefix` never matches such a prefix. A decomposed "u" + U+0308 is also not read as "ü".
- The deferred work is timers, so it is not modelled: the 1.5-second camera snap-back in HomeView and MapView, and MapView's delayed scroll-to-top of the list after a sort change.
- MapView's scroll to the first listed country when the search text changes (Clima/Views/Screens/MapView.swift:273-277) is immediate, but it moves only the scroll view, which is not modelled.
- The single-tap/double-tap gesture disambiguation on the onboarding screen is UI event handling. The two gestures are the two calls of `ChangeCurrentStatus`.
- Compare.CompareView.TapCountry: which cards can be tapped depends on the list `filterAndSort` returns. The model lets any country be tapped, so its contract covers more taps than the screen offers.
- Country's `Equatable` conformance, which the screens' `==` on countries needs, is not in Clima/Models & Data/Country.swift (it declares only `Identifiable` and `Decodable`); the file that adds it is not part of this model. Equality is taken to be structural equality of the record. That agrees with equality by `id` as long as ids are unique in the dataset.
- Camera positions are not modelled by their coordinates. Every camera other than `.automatic`, including one the user pans to, is represented as some `CountryCam`. The screens ask only whether the camera is automatic and whether it changed, so nothing else depends on this.
- Rendering is not modelled: layout, animations, MapKit drawing, haptic feedback and the flag images fetched over the network.
- OnboardingView's embedded `MapView(showList:…)`, `CompareView(isForOnboarding:)` and `ChartsView.getChartView` call an initialiser and a static function that Clima/Views/Screens/MapView.swift, CompareView.swift and ChartsView.swift do not declare, so they are not modelled.
