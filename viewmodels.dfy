/**
 * The view model (`MapViewModel`): a reducer over the five intents that updates the
 * published map state field by field, the centroid viewport, and the subscription
 * that turns every published fix into a `locationUpdated` intent.
 */
module ViewModels {
  import opened Wrappers
  import opened Calendar
  import opened Models
  import opened Managers

  /** The viewport's fixed extent, in metres, in both directions. */
  const RegionSpanMeters: real := 1000.0

  /** `reduce(0, +)`: a left fold of addition starting from zero. */
  function SumLeft(xs: seq<real>): real
  {
    if xs == [] then 0.0 else SumLeft(xs[..|xs| - 1]) + xs[|xs| - 1]
  }

  function Latitudes(ls: seq<Location>): seq<real>
  {
    seq(|ls|, i requires 0 <= i < |ls| => ls[i].Coordinate().latitude)
  }

  function Longitudes(ls: seq<Location>): seq<real>
  {
    seq(|ls|, i requires 0 <= i < |ls| => ls[i].Coordinate().longitude)
  }

  /** The arithmetic mean: the sum divided by the count. */
  function Mean(xs: seq<real>): real
    requires xs != []
  {
    SumLeft(xs) / (|xs| as real)
  }

  /** The viewport centre: the mean latitude and the mean longitude of the points. */
  function Centroid(ls: seq<Location>): (c: Coordinate2D)
    requires ls != []
  {
    Coordinate2D(Mean(Latitudes(ls)), Mean(Longitudes(ls)))
  }

  /** The sum of `n` copies of `x` is `n * x`. */
  lemma {:induction false} SumOfConstant(xs: seq<real>, x: real)
    requires forall i :: 0 <= i < |xs| ==> xs[i] == x
    ensures SumLeft(xs) == (|xs| as real) * x
  {
    if xs != [] {
      SumOfConstant(xs[..|xs| - 1], x);
    }
  }

  /** A sum of `n` values in `[lo, hi]` lies in `[n * lo, n * hi]`. */
  lemma {:induction false} SumBounds(xs: seq<real>, lo: real, hi: real)
    requires forall i :: 0 <= i < |xs| ==> lo <= xs[i] <= hi
    ensures (|xs| as real) * lo <= SumLeft(xs) <= (|xs| as real) * hi
  {
    if xs != [] {
      var n := |xs| as real;
      SumBounds(xs[..|xs| - 1], lo, hi);
      assert n * lo == (n - 1.0) * lo + lo && n * hi == (n - 1.0) * hi + hi;
    }
  }

  /** The mean of values in `[lo, hi]` is in `[lo, hi]`. */
  lemma MeanBounds(xs: seq<real>, lo: real, hi: real)
    requires xs != []
    requires forall i :: 0 <= i < |xs| ==> lo <= xs[i] <= hi
    ensures lo <= Mean(xs) <= hi
  {
    var n := |xs| as real;
    SumBounds(xs, lo, hi);
    assert Mean(xs) * n == SumLeft(xs);
  }

  /** All points lie in the box `[south, north] x [west, east]`. */
  ghost predicate InBox(ls: seq<Location>, south: real, north: real, west: real, east: real)
  {
    forall i :: 0 <= i < |ls| ==>
      south <= ls[i].latitude <= north && west <= ls[i].longitude <= east
  }

  /** The centre lies in every box holding all the points; in particular it is a valid
      coordinate when the points are (latitudes in [-90, 90], longitudes in [-180, 180]). */
  lemma CentroidWithinBounds(ls: seq<Location>, south: real, north: real, west: real, east: real)
    requires ls != [] && InBox(ls, south, north, west, east)
    ensures south <= Centroid(ls).latitude <= north && west <= Centroid(ls).longitude <= east
  {
    MeanBounds(Latitudes(ls), south, north);
    MeanBounds(Longitudes(ls), west, east);
  }

  /** Points that all share one coordinate are centred on it; so is a single point. */
  lemma CentroidOfRepeated(ls: seq<Location>, c: Coordinate2D)
    requires ls != []
    requires forall i :: 0 <= i < |ls| ==> ls[i].Coordinate() == c
    ensures Centroid(ls) == c
  {
    var n := |ls| as real;
    SumOfConstant(Latitudes(ls), c.latitude);
    SumOfConstant(Longitudes(ls), c.longitude);
    assert (n * c.latitude) / n == c.latitude;
    assert (n * c.longitude) / n == c.longitude;
  }

  /** (0, 0) and (2, 2) are centred on (1, 1). */
  lemma CentroidExample(t0: int, t1: int)
    ensures Centroid([NewLocation(Coordinate2D(0.0, 0.0), t0), NewLocation(Coordinate2D(2.0, 2.0), t1)])
         == Coordinate2D(1.0, 1.0)
  {
    var ls := [NewLocation(Coordinate2D(0.0, 0.0), t0), NewLocation(Coordinate2D(2.0, 2.0), t1)];
    assert Latitudes(ls) == [0.0, 2.0] && Longitudes(ls) == [0.0, 2.0];
    assert SumLeft([0.0, 2.0]) == SumLeft([0.0]) + 2.0;
    assert SumLeft([0.0]) == SumLeft([]) + 0.0;
  }

  /** What `updateMapRegion` leaves in the state: unchanged for no points, otherwise the
      centroid with the fixed span. */
  function RegionUpdated(s: MapState): MapState
  {
    if s.locations == [] then s
    else s.(region := Some(Region(Centroid(s.locations), RegionSpanMeters, RegionSpanMeters)))
  }

  /** The history after one intent: only `locationUpdated` appends. */
  function StoreAfter(history: seq<Location>, intent: MapIntent): seq<Location>
  {
    if intent.LocationUpdated? then history + [intent.location] else history
  }

  /** The state after one intent, given the state and the history before it. */
  function Reduce(s: MapState, history: seq<Location>, intent: MapIntent): MapState
  {
    match intent
    case DateSelected(date) => RegionUpdated(s.(selectedDate := date, locations := OnDay(history, date)))
    case StartTracking => s.(isTracking := true)
    case StopTracking => s.(isTracking := false)
    case LocationUpdated(l) =>
      if SameDay(l.timestamp, s.selectedDate)
      then RegionUpdated(s.(locations := OnDay(history + [l], s.selectedDate)))
      else s
    case ErrorOccurred(message) => s.(error := Some(message))
  }

  /** `updateMapRegion`: no points leave the region as it was; otherwise the centre is
      the mean coordinate and the span is 1000 m by 1000 m. Nothing else changes. */
  lemma RegionUpdatedEffect(s: MapState)
    ensures s.locations == [] ==> RegionUpdated(s) == s
    ensures s.locations != [] ==>
      RegionUpdated(s).region.Some? &&
      RegionUpdated(s).region.value.center.latitude * (|s.locations| as real) == SumLeft(Latitudes(s.locations)) &&
      RegionUpdated(s).region.value.center.longitude * (|s.locations| as real) == SumLeft(Longitudes(s.locations)) &&
      RegionUpdated(s).region.value.latitudinalMeters == 1000.0 &&
      RegionUpdated(s).region.value.longitudinalMeters == 1000.0
    ensures RegionUpdated(s) == s.(region := RegionUpdated(s).region)
  {
  }

  /** `dateSelected(d)`: the day's points in history order, on day `d` only; tracking flag
      and error kept; the history is not touched. */
  lemma DateSelectedEffect(s: MapState, history: seq<Location>, date: int)
    ensures StoreAfter(history, DateSelected(date)) == history
    ensures Reduce(s, history, DateSelected(date)).selectedDate == date
    ensures Reduce(s, history, DateSelected(date)).locations == OnDay(history, date)
    ensures Reduce(s, history, DateSelected(date)).isTracking == s.isTracking
    ensures Reduce(s, history, DateSelected(date)).error == s.error
    ensures forall l :: l in Reduce(s, history, DateSelected(date)).locations ==> SameDay(l.timestamp, date)
    ensures IsSubsequence(Reduce(s, history, DateSelected(date)).locations, history)
  {
    OnDayIsSubsequence(history, date);
  }

  /** `startTracking` and `stopTracking` set the flag, change nothing else, and are idempotent. */
  lemma TrackingEffect(s: MapState, history: seq<Location>)
    ensures Reduce(s, history, StartTracking) == s.(isTracking := true)
    ensures Reduce(s, history, StopTracking) == s.(isTracking := false)
    ensures Reduce(Reduce(s, history, StartTracking), history, StartTracking) == Reduce(s, history, StartTracking)
    ensures Reduce(Reduce(s, history, StopTracking), history, StopTracking) == Reduce(s, history, StopTracking)
    ensures StoreAfter(history, StartTracking) == history && StoreAfter(history, StopTracking) == history
  {
  }

  /** `locationUpdated(p)` always records `p`; off the selected day the state is untouched,
      on it the list becomes the old day list followed by `p`. */
  lemma LocationUpdatedEffect(s: MapState, history: seq<Location>, p: Location)
    ensures StoreAfter(history, LocationUpdated(p)) == history + [p]
    ensures !SameDay(p.timestamp, s.selectedDate) ==> Reduce(s, history, LocationUpdated(p)) == s
    ensures SameDay(p.timestamp, s.selectedDate) ==>
      Reduce(s, history, LocationUpdated(p)) == RegionUpdated(s.(locations := OnDay(history, s.selectedDate) + [p]))
  {
    OnDaySnoc(history, p, s.selectedDate);
  }

  /** `errorOccurred(m)` sets the error and nothing else. */
  lemma ErrorOccurredEffect(s: MapState, history: seq<Location>, message: string)
    ensures Reduce(s, history, ErrorOccurred(message)) == s.(error := Some(message))
    ensures StoreAfter(history, ErrorOccurred(message)) == history
  {
  }

  /** A point recorded off the selected day is shown once its own day is selected. */
  lemma OffDayPointRetrievable(s: MapState, history: seq<Location>, p: Location)
    requires !SameDay(p.timestamp, s.selectedDate)
    ensures Reduce(s, history, LocationUpdated(p)) == s
    ensures var h := StoreAfter(history, LocationUpdated(p));
      OnDay(h, p.timestamp) == OnDay(history, p.timestamp) + [p] &&
      p in Reduce(s, h, DateSelected(p.timestamp)).locations
  {
    OnDaySnoc(history, p, p.timestamp);
  }

  class MapViewModel {
    /** The published state. */
    var state: MapState
    /** The history store this view model reads and appends to. */
    const manager: LocationManager

    /**
     * `init`: the initial state, then the subscription to `currentLocation`. A published
     * property hands its current value to a new subscriber at once, so a fix the store
     * already holds is dispatched as `locationUpdated` right away.
     */
    constructor (locationManager: LocationManager, now: int)
      modifies locationManager
      ensures manager == locationManager
      ensures locationManager.currentLocation == old(locationManager.currentLocation)
      ensures locationManager.updating == old(locationManager.updating)
      ensures old(locationManager.currentLocation).None? ==>
        state == Initial(now) &&
        locationManager.locations == old(locationManager.locations) &&
        locationManager.defaults == old(locationManager.defaults)
      ensures old(locationManager.currentLocation).Some? ==>
        var update := LocationUpdated(LocationFromFix(old(locationManager.currentLocation).value));
        state == Reduce(Initial(now), old(locationManager.locations), update) &&
        locationManager.locations == StoreAfter(old(locationManager.locations), update) &&
        locationManager.defaults == Persist(old(locationManager.defaults), locationManager.locations)
    {
      manager := locationManager;
      state := Initial(now);
      new;
      if manager.currentLocation.Some? {
        OnCurrentLocation(manager.currentLocation.value);
      }
    }

    /** The reducer: each intent changes its own fields of the state and, through the store,
        the history, the stored snapshot and the feed request. */
    method HandleIntent(intent: MapIntent)
      modifies this, manager
      ensures state == Reduce(old(state), old(manager.locations), intent)
      ensures manager.locations == StoreAfter(old(manager.locations), intent)
      ensures manager.defaults ==
        if intent.LocationUpdated? then Persist(old(manager.defaults), manager.locations) else old(manager.defaults)
      ensures manager.updating ==
        match intent case StartTracking => true case StopTracking => false case _ => old(manager.updating)
      ensures manager.currentLocation == old(manager.currentLocation)
    {
      match intent
      case DateSelected(date) =>
        state := state.(selectedDate := date);
        state := state.(locations := manager.GetLocations(date));
        UpdateMapRegion();
      case StartTracking =>
        state := state.(isTracking := true);
        manager.StartUpdatingLocation();
      case StopTracking =>
        state := state.(isTracking := false);
        manager.StopUpdatingLocation();
      case LocationUpdated(location) =>
        manager.SaveLocation(location);
        if SameDay(location.timestamp, state.selectedDate) {
          state := state.(locations := manager.GetLocations(state.selectedDate));
          UpdateMapRegion();
        }
      case ErrorOccurred(message) =>
        state := state.(error := Some(message));
    }

    /** `updateMapRegion`. */
    method UpdateMapRegion()
      modifies this
      ensures state == RegionUpdated(old(state))
    {
      if state.locations == [] {
        return;
      }
      var center := Centroid(state.locations);
      state := state.(region := Some(Region(center, RegionSpanMeters, RegionSpanMeters)));
    }

    /** The subscriber to `currentLocation`: every published fix becomes a `locationUpdated` intent. */
    method OnCurrentLocation(fix: Fix)
      modifies this, manager
      ensures state == Reduce(old(state), old(manager.locations), LocationUpdated(LocationFromFix(fix)))
      ensures manager.locations == old(manager.locations) + [LocationFromFix(fix)]
      ensures manager.defaults == Persist(old(manager.defaults), manager.locations)
      ensures manager.currentLocation == old(manager.currentLocation) && manager.updating == old(manager.updating)
    {
      HandleIntent(LocationUpdated(LocationFromFix(fix)));
    }

    /**
     * `didUpdateLocations` with this view model subscribed. The published property notifies
     * its subscriber as it is assigned, before the delegate's own append, so the view model
     * appends and re-queries first and the delegate then appends the same point again:
     * every fix lands in the history twice.
     */
    method DeliverFixes(batch: seq<Fix>)
      modifies this, manager
      ensures batch == [] ==>
        state == old(state) && manager.locations == old(manager.locations) &&
        manager.currentLocation == old(manager.currentLocation) && manager.defaults == old(manager.defaults)
      ensures batch != [] ==>
        var p := LocationFromFix(batch[|batch| - 1]);
        manager.currentLocation == Some(batch[|batch| - 1]) &&
        manager.locations == old(manager.locations) + [p, p] &&
        manager.defaults == Persist(old(manager.defaults), manager.locations) &&
        state == Reduce(old(state), old(manager.locations), LocationUpdated(p))
      ensures manager.updating == old(manager.updating)
    {
      if batch == [] {
        return;
      }
      var fix := batch[|batch| - 1];
      OnCurrentLocation(fix);
      manager.SetCurrentLocation(fix);
      manager.SaveLocation(LocationFromFix(fix));
    }
  }

  /** The day lists of the session below: one point of the day recorded twice, then one off it. */
  lemma SessionDayLists(p: Location, q: Location, date: int)
    requires SameDay(p.timestamp, date) && !SameDay(q.timestamp, date)
    ensures OnDay([p], date) == [p]
    ensures OnDay([p, p, q, q], date) == [p, p]
  {
    assert [p, p, q, q] == [p] + [p] + [q] + [q];
    OnDaySnoc([], p, date);
    OnDaySnoc([p], p, date);
    OnDaySnoc([p, p], q, date);
    OnDaySnoc([p, p, q], q, date);
    assert [p] + [p] == [p, p] && [p, p] + [q] == [p, p, q] && [p, p, q] + [q] == [p, p, q, q];
  }

  /**
   * A session from a fresh start with nothing stored: start tracking, receive a fix on
   * today's date, stop tracking, receive another fix. Both fixes are kept (tracking is not
   * consulted), each twice; the view shows the first fix once until the day is selected
   * again, and then both of its copies.
   */
  method TrackingSession(now: int, first: Fix, later: Fix)
    returns (history: seq<Location>, shown: seq<Location>, reselected: seq<Location>, tracking: bool, stored: Option<seq<Location>>)
    requires SameDay(first.timestamp, now) && !SameDay(later.timestamp, now)
    ensures history == [LocationFromFix(first), LocationFromFix(first), LocationFromFix(later), LocationFromFix(later)]
    ensures shown == [LocationFromFix(first)]
    ensures reselected == [LocationFromFix(first), LocationFromFix(first)]
    ensures !tracking
    ensures stored == Some(history)
  {
    var p, q := LocationFromFix(first), LocationFromFix(later);
    var manager := new LocationManager(map[]);
    var vm := new MapViewModel(manager, now);
    assert vm.state == Initial(now) && manager.locations == [];
    vm.HandleIntent(StartTracking);
    assert vm.state.selectedDate == now && vm.state.locations == [] && manager.locations == [];
    vm.DeliverFixes([first]);
    OnDaySnoc([], p, now);
    assert vm.state.locations == [p] && manager.locations == [p, p];
    vm.HandleIntent(StopTracking);
    assert vm.state.locations == [p] && vm.state.selectedDate == now && !vm.state.isTracking;
    vm.DeliverFixes([later]);
    assert manager.locations == [p, p, q, q];
    shown := vm.state.locations;
    assert shown == [p];
    SessionDayLists(p, q, now);
    vm.HandleIntent(DateSelected(now));
    reselected := vm.state.locations;
    history := manager.locations;
    tracking := vm.state.isTracking;
    stored := Decode(manager.defaults);
  }
}
