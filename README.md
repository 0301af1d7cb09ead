# Footprints location history, modelled in Dafny

This project models the location-history core of the Footprints iOS app. It has three parts:

- **The history store** (`LocationManager`). It keeps an append-only list of recorded points. After every append it writes the whole list to the app's key-value store under the key `"savedLocations"`, and it reads that list back at start-up. It answers "which points fall on this calendar day" with a filter that keeps arrival order. As the CoreLocation delegate, it turns the last fix of each batch into a point and appends it.
- **The intent reducer** (`MapViewModel.handleIntent`). It updates the published `MapState` field by field for the five intents `dateSelected`, `startTracking`, `stopTracking`, `locationUpdated` and `errorOccurred`.
- **The viewport** (`updateMapRegion`). A non-empty point list gives a region centred on the mean latitude and mean longitude, with a fixed 1000 m × 1000 m span. An empty list leaves the region as it was.

Modules follow the source tree:

- `Models` holds `Location`, `MapState` and `MapIntent`.
- `Managers` holds the `LocationManager` class.
- `ViewModels` holds the `MapViewModel` class and the `Reduce` and `RegionUpdated` functions that specify it.
- `Calendar` and `Wrappers` are small helpers.

Representation choices:

- Timestamps are whole seconds.
- The calendar is one fixed reference zone: `DayOf(t) = t / 86400`, rounded down. The same `SameDay` decides both the store's filter and the view model's "is this point on the selected day" test.
- Coordinates are `real`.
- The key-value store is a map from key to stored value. A stored value is either an encoded history or data that does not decode.
- `LocationManager.updating` records the `startUpdatingLocation` / `stopUpdatingLocation` requests made to CoreLocation.

Behaviour of the source that the model keeps as written:

- **Every fix is appended twice.** The delegate assigns `currentLocation`, and the view model is subscribed to that published property. The subscriber dispatches `locationUpdated`, which calls `saveLocation`; then the delegate calls `saveLocation` itself. A published property notifies its subscribers while the property is being assigned. So the view model's append and re-query run before the delegate's own append. `ViewModels.MapViewModel.DeliverFixes` models that order. As a result, the history gains `[p, p]`, but on the selected day the visible list gains only one copy until a day is selected again. `ViewModels.TrackingSession` shows this end to end.
- A published property hands its current value to a new subscriber. So a view model built over a store that already holds a fix dispatches `locationUpdated` at once (`ViewModels.MapViewModel.constructor`).
- Fixes are never gated on the tracking flag.
- Feed errors are only logged. Nothing dispatches `errorOccurred`.
- `dateSelected` does not clear `error`.
- A history that is missing or does not decode leaves the in-memory list empty, and no signal is raised.
- The intent set is closed at five cases, and the reducer's `match` has no default.

## Model

| member | source | states |
|---|---|---|
| Calendar.DayOf | Footprints/Managers/LocationManager.swift:44-46 | the day of an instant is the one whose 86400-second interval contains it |
| Calendar.SameDayBoundary | Footprints/ViewModels/MapViewModel.swift:49 | same-day is reflexive; two instants on one day are less than a day apart; the last second of a day and the next second are on different days |
| Models.Location.Coordinate | Footprints/Models/Location.swift:11-13 | the accessor returns the stored latitude and longitude |
| Models.NewLocation | Footprints/Models/Location.swift:15-21 | the initializer stores coordinate, timestamp, title and subtitle unchanged, so reading `coordinate` back gives the argument; title and subtitle default to absent |
| Models.LocationRoundTrip | Footprints/Models/Location.swift:4-21 | rebuilding a point from its own fields gives the same point; the two-argument form gives it back exactly when it has no title and no subtitle |
| Models.Initial | Footprints/Models/MapState.swift:12-20 | the initial state has the given clock value as its date, no points, tracking off, and no region and no error |
| Managers.Persist | Footprints/Managers/LocationManager.swift:50-54 | saving overwrites the `"savedLocations"` key with the whole encoded history and leaves every other key as it was |
| Managers.Decode | Footprints/Managers/LocationManager.swift:56-61 | a history is read back exactly when the key is present and decodes, and it is the stored one |
| Managers.PersistThenDecode | Footprints/Managers/LocationManager.swift:50-61 | persisting a history and reading it back gives the same points in the same order |
| Managers.LocationFromFix | Footprints/Managers/LocationManager.swift:69-72 | the point built from a fix keeps its coordinate and timestamp and has no title or subtitle |
| Managers.OnDay | Footprints/Managers/LocationManager.swift:43-48 | the day filter returns at most as many points as the history, and a point is returned exactly when it is in the history and on that day |
| Managers.OnDayAppend | Footprints/Managers/LocationManager.swift:38-48 | filtering a concatenation is the concatenation of the filtered parts |
| Managers.OnDaySnoc | Footprints/Managers/LocationManager.swift:38-48 | after one append, each day's query is the old query, followed by the new point when it is on that day |
| Managers.OnDayCount | Footprints/Managers/LocationManager.swift:45-47 | the query contains every copy of an on-day point and no copy of an off-day point |
| Managers.OnDayIsSubsequence | Footprints/Managers/LocationManager.swift:45-47 | the query keeps history order |
| Managers.OnDaySingleDay | Footprints/Managers/LocationManager.swift:45-47 | all points of one query have the same day |
| Managers.OnDayStable | Footprints/Managers/LocationManager.swift:43-48 | re-filtering a query changes nothing, and any instant of the same day gives the same query |
| Managers.LocationManager.constructor | Footprints/Managers/LocationManager.swift:11-17 | the store starts with the stored history if it decodes, otherwise empty; there is no current fix and no update request |
| Managers.LocationManager.StartUpdatingLocation | Footprints/Managers/LocationManager.swift:30-32 | records the request to start the feed and changes nothing else |
| Managers.LocationManager.StopUpdatingLocation | Footprints/Managers/LocationManager.swift:34-36 | records the request to stop the feed and changes nothing else |
| Managers.LocationManager.SaveLocation | Footprints/Managers/LocationManager.swift:38-41 | appends the point unconditionally, and the stored snapshot becomes the full new history |
| Managers.LocationManager.GetLocations | Footprints/Managers/LocationManager.swift:43-48 | returns exactly the history's points on the given day, bounded by the history's length, and reads without changing anything |
| Managers.LocationManager.SaveLocations | Footprints/Managers/LocationManager.swift:50-54 | the stored snapshot becomes the in-memory history; nothing else changes |
| Managers.LocationManager.LoadLocations | Footprints/Managers/LocationManager.swift:56-61 | the history is replaced by the stored one if present and decodable, and kept otherwise |
| Managers.LocationManager.SetCurrentLocation | Footprints/Managers/LocationManager.swift:67 | the current fix becomes the given one and nothing else changes |
| Managers.LocationManager.DidUpdateLocations | Footprints/Managers/LocationManager.swift:65-74 | an empty batch changes nothing; otherwise only the last fix is used: it becomes the current fix and exactly one point built from it is appended and persisted, whatever the tracking flag |
| Managers.LocationManager.DidFailWithError | Footprints/Managers/LocationManager.swift:76-78 | a feed error changes no state |
| ViewModels.SumOfConstant | Footprints/ViewModels/MapViewModel.swift:66-67 | the sum of n copies of x is n·x |
| ViewModels.SumBounds | Footprints/ViewModels/MapViewModel.swift:66-67 | a sum of n values in [lo, hi] lies in [n·lo, n·hi] |
| ViewModels.MeanBounds | Footprints/ViewModels/MapViewModel.swift:66-67 | the mean of values in [lo, hi] lies in [lo, hi] |
| ViewModels.CentroidWithinBounds | Footprints/ViewModels/MapViewModel.swift:62-72 | the centre lies in every latitude/longitude box that holds all the points |
| ViewModels.CentroidOfRepeated | Footprints/ViewModels/MapViewModel.swift:62-72 | points that share one coordinate, a single point included, are centred on that coordinate |
| ViewModels.CentroidExample | Footprints/ViewModels/MapViewModel.swift:62-72 | (0, 0) and (2, 2) are centred on (1, 1) |
| ViewModels.RegionUpdatedEffect | Footprints/ViewModels/MapViewModel.swift:59-79 | no points leave the state unchanged; otherwise the region centre times the count equals the sums of latitudes and longitudes, the span is 1000 by 1000, and nothing but the region changes |
| ViewModels.DateSelectedEffect | Footprints/ViewModels/MapViewModel.swift:34-37 | selecting a date sets it, shows that day's points from the store in store order and on that day only, keeps tracking flag and error, and leaves the history alone |
| ViewModels.TrackingEffect | Footprints/ViewModels/MapViewModel.swift:39-45 | start and stop set the tracking flag, change no other field and no history, and are idempotent |
| ViewModels.LocationUpdatedEffect | Footprints/ViewModels/MapViewModel.swift:47-52 | the history always grows by the point; off the selected day the state is unchanged; on it the list becomes the old day list plus the point, and the region is recomputed |
| ViewModels.ErrorOccurredEffect | Footprints/ViewModels/MapViewModel.swift:54-55 | an error sets the error field and changes nothing else |
| ViewModels.OffDayPointRetrievable | Footprints/ViewModels/MapViewModel.swift:34-52 | a point recorded off the selected day leaves the view unchanged and appears once its own day is selected |
| ViewModels.MapViewModel.constructor | Footprints/ViewModels/MapViewModel.swift:11-30 | the view model starts from the initial state; when the store already has a current fix, the subscription dispatches it as `locationUpdated` at once |
| ViewModels.MapViewModel.HandleIntent | Footprints/ViewModels/MapViewModel.swift:32-57 | each intent takes the state and history to `Reduce` and `StoreAfter` of the old ones; only `locationUpdated` persists, and only the tracking intents change the feed request |
| ViewModels.MapViewModel.UpdateMapRegion | Footprints/ViewModels/MapViewModel.swift:59-79 | the state becomes `RegionUpdated` of the old state |
| ViewModels.MapViewModel.OnCurrentLocation | Footprints/ViewModels/MapViewModel.swift:20-28 | a published fix is handled as `locationUpdated` of the point built from it |
| ViewModels.MapViewModel.DeliverFixes | Footprints/Managers/LocationManager.swift:65-74 | with the view model subscribed, a non-empty batch appends the last fix's point twice, once through the subscriber and once by the delegate; the state is what `locationUpdated` of that point makes of it |
| ViewModels.TrackingSession | Footprints/ViewModels/MapViewModel.swift:18-57 | from an empty store: start, a fix on today, stop, a fix on another day. The history holds both fixes, each twice; the view shows one copy until the day is re-selected, then both; tracking is off; the stored snapshot equals the history |

## Left out

- The CoreLocation set-up and permission request are platform calls with no state the model needs: delegate, accuracy, background and pause flags, and `requestAlwaysAuthorization` (Footprints/Managers/LocationManager.swift:19-28). Start and stop are recorded only as the `updating` flag.
- The process-wide `LocationManager.shared` singleton is left out. Each model object is built explicitly and handed to the view model.
- JSON encoding and `UserDefaults` are abstracted. Storage is a map to an encoded history, or to data that does not decode.
- Managers.LocationManager.SaveLocations: always writes the snapshot. In the source, a `JSONEncoder` failure skips the write, and with `Double` that happens only for non-finite values, which `real` cannot hold.
- `Double` rounding in the averages is left out. The centre is the exact real mean.
- MapKit's conversion of the 1000 m span into degrees is left out. The region records the centre and the span in metres.
- The Combine and `DispatchQueue.main` plumbing is left out. The subscription is a direct synchronous call, made where the published assignment happens.
- `Calendar.current`'s time zones are replaced by one fixed zone with 86400-second days. `Date()` becomes an explicit `now` parameter.
- Raw fix fields other than coordinate and timestamp are carried in `Fix` and then dropped, as the source drops them.
- The map view controller is not part of this model. It only renders `MapState` and dispatches intents.
