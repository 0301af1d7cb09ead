/**
 * The location history store (`LocationManager`): an append-only list of points,
 * written in full to a key-value store after every append and read back at start-up,
 * plus the CoreLocation delegate that turns raw fixes into points.
 */
module Managers {
  import opened Wrappers
  import opened Calendar
  import opened Models

  /** The key the history is stored under. */
  const LocationsKey: string := "savedLocations"

  /** A raw CoreLocation fix. Accuracy and speed arrive with it and are dropped. */
  datatype Fix = Fix(coordinate: Coordinate2D, timestamp: int, horizontalAccuracy: real, speed: real)

  /** What the key-value store holds under a key: an encoded history, or data that does not decode as one. */
  datatype StoredValue = Encoded(history: seq<Location>) | Undecodable

  type Defaults = map<string, StoredValue>

  /** `saveLocations`: overwrite the history key with the whole encoded history. */
  function Persist(defaults: Defaults, history: seq<Location>): (d: Defaults)
    ensures d.Keys == defaults.Keys + {LocationsKey}
    ensures d[LocationsKey] == Encoded(history)
    ensures forall k :: k in defaults && k != LocationsKey ==> d[k] == defaults[k]
  {
    defaults[LocationsKey := Encoded(history)]
  }

  /** The read half of `loadLocations`: a history only when the key is present and decodes. */
  function Decode(defaults: Defaults): (r: Option<seq<Location>>)
    ensures r.Some? <==> LocationsKey in defaults && defaults[LocationsKey].Encoded?
    ensures r.Some? ==> defaults[LocationsKey] == Encoded(r.value)
  {
    if LocationsKey in defaults && defaults[LocationsKey].Encoded?
    then Some(defaults[LocationsKey].history)
    else None
  }

  /** Persisting and then reading back gives the same history, the same points in the same order. */
  lemma PersistThenDecode(defaults: Defaults, history: seq<Location>)
    ensures Decode(Persist(defaults, history)) == Some(history)
  {
  }

  /** The point the delegate builds from a fix: coordinate and timestamp kept, no title or subtitle. */
  function LocationFromFix(fix: Fix): (l: Location)
    ensures l.Coordinate() == fix.coordinate && l.timestamp == fix.timestamp
    ensures l.title == None && l.subtitle == None
  {
    NewLocation(fix.coordinate, fix.timestamp)
  }

  /** The points of `history` that fall on the day of `date`, in history order (`filter`). */
  function OnDay(history: seq<Location>, date: int): (r: seq<Location>)
    ensures |r| <= |history|
    ensures forall l :: l in r <==> l in history && SameDay(l.timestamp, date)
  {
    if history == [] then []
    else (if SameDay(history[0].timestamp, date) then [history[0]] else []) + OnDay(history[1..], date)
  }

  /** `r` is `s` with some elements left out, the rest kept in order. */
  ghost predicate IsSubsequence<T>(r: seq<T>, s: seq<T>)
    decreases |s|
  {
    r == [] || (s != [] && ((r[0] == s[0] && IsSubsequence(r[1..], s[1..])) || IsSubsequence(r, s[1..])))
  }

  /** Filtering a concatenation filters each part: appended points land at the end of the day's list. */
  lemma {:induction false} OnDayAppend(a: seq<Location>, b: seq<Location>, date: int)
    ensures OnDay(a + b, date) == OnDay(a, date) + OnDay(b, date)
  {
    if a == [] {
      assert a + b == b;
    } else {
      assert (a + b)[1..] == a[1..] + b;
      OnDayAppend(a[1..], b, date);
    }
  }

  /** The effect of one append on every day's query. */
  lemma OnDaySnoc(history: seq<Location>, l: Location, date: int)
    ensures OnDay(history + [l], date) == OnDay(history, date) + (if SameDay(l.timestamp, date) then [l] else [])
  {
    OnDayAppend(history, [l], date);
    assert OnDay([l], date) == (if SameDay(l.timestamp, date) then [l] else []) + OnDay([], date);
  }

  /** The query keeps every copy of a point on the day and no copy of a point off it. */
  lemma {:induction false} OnDayCount(history: seq<Location>, date: int, l: Location)
    ensures multiset(OnDay(history, date))[l] == if SameDay(l.timestamp, date) then multiset(history)[l] else 0
  {
    if history != [] {
      OnDayCount(history[1..], date, l);
      assert history == [history[0]] + history[1..];
    }
  }

  /** The query keeps history order. */
  lemma {:induction false} OnDayIsSubsequence(history: seq<Location>, date: int)
    ensures IsSubsequence(OnDay(history, date), history)
    decreases |history|
  {
    if history != [] {
      OnDayIsSubsequence(history[1..], date);
      var r := OnDay(history, date);
      if SameDay(history[0].timestamp, date) {
        assert r[0] == history[0] && r[1..] == OnDay(history[1..], date);
      } else {
        assert r == OnDay(history[1..], date);
      }
    }
  }

  /** Every point of one query lies on one day: two points of different days are never returned together. */
  lemma OnDaySingleDay(history: seq<Location>, date: int)
    ensures forall i, j :: 0 <= i < |OnDay(history, date)| && 0 <= j < |OnDay(history, date)| ==>
      DayOf(OnDay(history, date)[i].timestamp) == DayOf(OnDay(history, date)[j].timestamp)
  {
    var r := OnDay(history, date);
    assert forall i :: 0 <= i < |r| ==> r[i] in r;
  }

  /** Querying the answer again changes nothing, and any instant of the same day gives the same answer. */
  lemma {:induction false} OnDayStable(history: seq<Location>, date: int, other: int)
    requires SameDay(date, other)
    ensures OnDay(OnDay(history, date), date) == OnDay(history, date)
    ensures OnDay(history, other) == OnDay(history, date)
  {
    if history != [] {
      OnDayStable(history[1..], date, other);
      var head := if SameDay(history[0].timestamp, date) then [history[0]] else [];
      OnDayAppend(head, OnDay(history[1..], date), date);
      assert OnDay(head, date) == head by {
        if head != [] { assert head[1..] == []; }
      }
    }
  }

  class LocationManager {
    /** The in-memory history, in arrival order. */
    var locations: seq<Location>
    /** The last raw fix delivered by the feed. */
    var currentLocation: Option<Fix>
    /** The app's `UserDefaults` store. */
    var defaults: Defaults
    /** Whether `startUpdatingLocation` was called more recently than `stopUpdatingLocation`. */
    var updating: bool

    /** `init`: an empty history, then `loadLocations` from what the store already holds. */
    constructor (stored: Defaults)
      ensures defaults == stored && currentLocation == None && !updating
      ensures locations == match Decode(stored) case Some(h) => h case None => []
    {
      defaults := stored;
      currentLocation := None;
      updating := false;
      locations := [];
      new;
      LoadLocations();
    }

    /** Asks the platform feed for fixes. Only the request is recorded. */
    method StartUpdatingLocation()
      modifies this
      ensures updating
      ensures locations == old(locations) && currentLocation == old(currentLocation) && defaults == old(defaults)
    {
      updating := true;
    }

    /** Asks the platform feed to stop. Only the request is recorded. */
    method StopUpdatingLocation()
      modifies this
      ensures !updating
      ensures locations == old(locations) && currentLocation == old(currentLocation) && defaults == old(defaults)
    {
      updating := false;
    }

    /** Appends a point, never rejecting one, and writes the whole history to the store. */
    method SaveLocation(location: Location)
      modifies this
      ensures locations == old(locations) + [location]
      ensures defaults == Persist(old(defaults), locations)
      ensures currentLocation == old(currentLocation) && updating == old(updating)
    {
      locations := locations + [location];
      SaveLocations();
    }

    /** The points recorded on the day of `date`, in the order they arrived. */
    function GetLocations(date: int): (r: seq<Location>)
      reads this
      ensures |r| <= |locations|
      ensures forall l :: l in r <==> l in locations && SameDay(l.timestamp, date)
    {
      OnDay(locations, date)
    }

    /** Overwrites the stored history with the in-memory one. */
    method SaveLocations()
      modifies this
      ensures defaults == Persist(old(defaults), locations)
      ensures locations == old(locations) && currentLocation == old(currentLocation) && updating == old(updating)
    {
      defaults := Persist(defaults, locations);
    }

    /** Replaces the history with the stored one when it is present and decodes; otherwise keeps it. */
    method LoadLocations()
      modifies this
      ensures locations == match Decode(defaults) case Some(h) => h case None => old(locations)
      ensures defaults == old(defaults) && currentLocation == old(currentLocation) && updating == old(updating)
    {
      var decoded := Decode(defaults);
      if decoded.Some? {
        locations := decoded.value;
      }
    }

    /** The assignment `currentLocation = location`. */
    method SetCurrentLocation(fix: Fix)
      modifies this
      ensures currentLocation == Some(fix)
      ensures locations == old(locations) && defaults == old(defaults) && updating == old(updating)
    {
      currentLocation := Some(fix);
    }

    /**
     * The delegate's `didUpdateLocations`, on its own: only the last fix of a batch is used,
     * whether or not tracking is on. (With the view model subscribed, see `MapViewModel.DeliverFixes`.)
     */
    method DidUpdateLocations(batch: seq<Fix>)
      modifies this
      ensures batch == [] ==>
        locations == old(locations) && currentLocation == old(currentLocation) && defaults == old(defaults)
      ensures batch != [] ==>
        currentLocation == Some(batch[|batch| - 1]) &&
        locations == old(locations) + [LocationFromFix(batch[|batch| - 1])] &&
        defaults == Persist(old(defaults), locations)
      ensures updating == old(updating)
    {
      if batch == [] {
        return;
      }
      var fix := batch[|batch| - 1];
      SetCurrentLocation(fix);
      SaveLocation(LocationFromFix(fix));
    }

    /** The delegate's `didFailWithError`: the error is only logged, so nothing changes. */
    method DidFailWithError(message: string)
      ensures locations == old(locations) && currentLocation == old(currentLocation)
      ensures defaults == old(defaults) && updating == old(updating)
    {
    }
  }
}
