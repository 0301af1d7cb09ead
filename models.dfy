/** The value types of the app: a recorded point, the map state and the intents. */
module Models {
  import opened Wrappers

  /** `CLLocationCoordinate2D`, with `Double` replaced by `real`. */
  datatype Coordinate2D = Coordinate2D(latitude: real, longitude: real)

  /** A recorded point of the history. Every field is a `let`, so the record is immutable. */
  datatype Location = Location(
    latitude: real,
    longitude: real,
    timestamp: int,
    title: Option<string>,
    subtitle: Option<string>)
  {
    /** The computed `coordinate` property. */
    function Coordinate(): (c: Coordinate2D)
      ensures c.latitude == latitude && c.longitude == longitude
    {
      Coordinate2D(latitude, longitude)
    }
  }

  /** `Location.init(coordinate:timestamp:title:subtitle:)`; title and subtitle default to nil. */
  function NewLocation(coordinate: Coordinate2D, timestamp: int,
                       title: Option<string> := None, subtitle: Option<string> := None): (l: Location)
    ensures l.Coordinate() == coordinate
    ensures l.timestamp == timestamp && l.title == title && l.subtitle == subtitle
  {
    Location(coordinate.latitude, coordinate.longitude, timestamp, title, subtitle)
  }

  /** Rebuilding a point from its own coordinate, timestamp and labels gives the same point. */
  lemma LocationRoundTrip(l: Location)
    ensures NewLocation(l.Coordinate(), l.timestamp, l.title, l.subtitle) == l
    ensures NewLocation(l.Coordinate(), l.timestamp) == l <==> l.title == None && l.subtitle == None
  {
  }

  /** `MKCoordinateRegion(center:latitudinalMeters:longitudinalMeters:)`, kept in metres. */
  datatype Region = Region(center: Coordinate2D, latitudinalMeters: real, longitudinalMeters: real)

  /** The snapshot the view model publishes. `region` and `error` are optional. */
  datatype MapState = MapState(
    selectedDate: int,
    locations: seq<Location>,
    isTracking: bool,
    region: Option<Region>,
    error: Option<string>)

  /** `MapState.initial`; the clock reading `Date()` is the parameter `now`. */
  function Initial(now: int): (s: MapState)
    ensures s.selectedDate == now && s.locations == [] && !s.isTracking
    ensures s.region == None && s.error == None
  {
    MapState(now, [], false, None, None)
  }

  /** The five things the view model reacts to. */
  datatype MapIntent =
    | DateSelected(date: int)
    | StartTracking
    | StopTracking
    | LocationUpdated(location: Location)
    | ErrorOccurred(message: string)
}
