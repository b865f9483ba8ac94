/**
 * The value types the Clima screens share: the country record, the map
 * camera position, the sort options, the regions and the colours the
 * screens paint with.
 */
module Model {

  /** One country of the bundled dataset (Clima/Models & Data/Country.swift).
      Equality is structural over all four fields. */
  datatype Country = Country(
    id: string,
    name: string,
    territorialMtCO2: real,
    ndGainScore: real)

  /** MapKit's camera position, reduced to what the screens distinguish:
      the automatic framing, or any other camera. Every non-automatic camera,
      one the user pans to included, is represented as some `CountryCam`. */
  datatype CameraPosition = Automatic | CountryCam(countryId: string)

  /** `Country.getMapCameraPosition()`: a camera centred on the country.
      Only its identity matters to the screens, never the coordinates. */
  function CameraOf(c: Country): (p: CameraPosition)
    ensures p != Automatic
    ensures p.countryId == c.id
  {
    CountryCam(c.id)
  }

  /** The eight list orders (Clima/Enums/CountrySortOption.swift). */
  datatype CountrySortOption =
    | NameAtoZ
    | NameZtoA
    | ClimaJusticeScoreHighToLow
    | ClimaJusticeScoreLowToHigh
    | NdGainScoreHighToLow
    | NdGainScoreLowToHigh
    | TerritorialMtCO2HighToLow
    | TerritorialMtCO2LowToHigh

  /** The six regions (Clima/Enums/Region.swift). */
  datatype Region = Africa | Asia | Europe | NorthAmerica | SouthAmerica | Oceania

  /** The SwiftUI colours the core hands to the renderer. */
  datatype Color = Primary | Green | Red | Orange | Yellow
}
