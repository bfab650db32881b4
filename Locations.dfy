// The map carousel of the Connect tab
// (ViewModels/Store/User/Connect/LocationsViewModel.swift): stepping to the
// next church by id with wrap-around, selecting a church, toggling the list
// and picking the church nearest to the user under a given distance.

module Locations {
  import opened Models

  /** A map camera region: its centre and its latitude and longitude spans. */
  datatype MapRegion = MapRegion(center: Coordinate, latitudeDelta: real, longitudeDelta: real)

  /** The camera before any church is shown. */
  const InitialPosition: MapRegion := MapRegion(Coordinate(0.0, 0.0), 0.1, 0.1)

  /** The span `showNextChurch` uses. */
  const CarouselSpan: real := 0.1

  /** `mapSpan`, the span `updateMapPosition` (and so `selectChurch`) uses. */
  const MapSpan: real := 1.0

  /** The camera centred on `c` with equal spans. */
  function Focus(c: Coordinate, span: real): (r: MapRegion)
    ensures r.center == c && r.latitudeDelta == span && r.longitudeDelta == span
  {
    MapRegion(c, span, span)
  }

  function Position(c: Church): Coordinate {
    Coordinate(c.latitude, c.longitude)
  }

  // ---------------------------------------------------------------------
  // nextButtonPressed
  // ---------------------------------------------------------------------

  /** `churches.firstIndex(where: { $0.id == mapChurch?.id })`: an absent id
      (no current church) matches nothing. */
  function FirstIndexOfId(churches: seq<Church>, id: Option<string>): (r: Option<nat>)
    ensures r.None? <==> id.None? || forall i :: 0 <= i < |churches| ==> churches[i].id != id.value
    ensures r.Some? ==> r.value < |churches| && churches[r.value].id == id.value
    ensures r.Some? ==> forall i :: 0 <= i < r.value ==> churches[i].id != id.value
  {
    if id.None? || churches == [] then None
    else if churches[0].id == id.value then Some(0)
    else match FirstIndexOfId(churches[1..], id)
      case None => None
      case Some(j) => Some(j + 1)
  }

  function IdOf(current: Option<Church>): Option<string> {
    if current.Some? then Some(current.value.id) else None
  }

  /** The church `nextButtonPressed` shows, or None when it returns early
      (no current church, or its id is not in the list). */
  function NextChurch(churches: seq<Church>, current: Option<Church>): Option<Church> {
    match FirstIndexOfId(churches, IdOf(current))
    case None => None
    case Some(i) => if i + 1 < |churches| then Some(churches[i + 1]) else Some(churches[0])
  }

  /** `mapChurch` after one press. */
  function Pressed(churches: seq<Church>, current: Option<Church>): Option<Church> {
    if NextChurch(churches, current).Some? then NextChurch(churches, current) else current
  }

  /** The index where an id first occurs is the one `firstIndex` finds. */
  lemma FirstIndexIs(churches: seq<Church>, id: string, i: nat)
    requires i < |churches| && churches[i].id == id
    requires forall k :: 0 <= k < i ==> churches[k].id != id
    ensures FirstIndexOfId(churches, Some(id)) == Some(i)
  {
    var r := FirstIndexOfId(churches, Some(id));
    assert r.Some?;
    assert !(r.value < i);
    assert !(r.value > i);
  }

  lemma NextAdvancesFromFirstMatch(churches: seq<Church>, current: Church, i: nat)
    requires FirstIndexOfId(churches, Some(current.id)) == Some(i)
    ensures i + 1 < |churches| ==> NextChurch(churches, Some(current)) == Some(churches[i + 1])
    ensures i + 1 == |churches| ==> NextChurch(churches, Some(current)) == Some(churches[0])
  {
  }

  /** No current church, or one whose id is not listed: nothing changes. */
  lemma NextWithoutMatchChangesNothing(churches: seq<Church>, current: Option<Church>)
    requires current.None? || forall c :: c in churches ==> c.id != current.value.id
    ensures NextChurch(churches, current) == None
    ensures Pressed(churches, current) == current
  {
  }

  /** With a duplicated id, pressing next from the later copy advances from
      the first copy. */
  lemma DuplicateIdAdvancesFromFirst(churches: seq<Church>, i: nat, j: nat)
    requires i < j < |churches| && churches[i].id == churches[j].id
    requires forall k :: 0 <= k < i ==> churches[k].id != churches[i].id
    ensures NextChurch(churches, Some(churches[j])) == Some(churches[i + 1])
  {
    FirstIndexIs(churches, churches[j].id, i);
  }

  predicate DistinctIds(churches: seq<Church>) {
    forall i, j :: 0 <= i < j < |churches| ==> churches[i].id != churches[j].id
  }

  /** `mapChurch` after `k` presses. */
  function Presses(churches: seq<Church>, current: Option<Church>, k: nat): Option<Church>
    decreases k
  {
    if k == 0 then current else Presses(churches, Pressed(churches, current), k - 1)
  }

  /** With distinct ids, one press goes from each church to the next one in
      the list, and from the last back to the first. */
  lemma NextStepsInOrder(churches: seq<Church>, i: nat)
    requires DistinctIds(churches) && i < |churches|
    ensures i + 1 < |churches| ==> Pressed(churches, Some(churches[i])) == Some(churches[i + 1])
    ensures i + 1 == |churches| ==> Pressed(churches, Some(churches[i])) == Some(churches[0])
  {
    FirstIndexIs(churches, churches[i].id, i);
  }

  lemma {:induction false} PressesCompose(churches: seq<Church>, current: Option<Church>, a: nat, b: nat)
    ensures Presses(churches, current, a + b) == Presses(churches, Presses(churches, current, a), b)
    decreases a
  {
    if a > 0 {
      PressesCompose(churches, Pressed(churches, current), a - 1, b);
    }
  }

  /** With distinct ids, `k` presses from the church at `i` show the church
      `k` places further on, as long as the end is not passed. */
  lemma {:induction false} PressesAdvance(churches: seq<Church>, i: nat, k: nat)
    requires DistinctIds(churches) && i + k < |churches|
    ensures Presses(churches, Some(churches[i]), k) == Some(churches[i + k])
    decreases k
  {
    if k > 0 {
      NextStepsInOrder(churches, i);
      PressesAdvance(churches, i + 1, k - 1);
    }
  }

  /** With distinct ids, `i + 1` presses from the last church wrap around
      to the church at `i`. */
  lemma WrapFromLast(churches: seq<Church>, i: nat)
    requires DistinctIds(churches) && i < |churches|
    ensures Presses(churches, Some(churches[|churches| - 1]), i + 1) == Some(churches[i])
  {
    NextStepsInOrder(churches, |churches| - 1);
    PressesAdvance(churches, 0, i);
  }

  /** Going once round the list is going to its end and then on to `i`. */
  lemma CycleSplits(churches: seq<Church>, i: nat, toEnd: nat)
    requires i + toEnd + 1 == |churches|
    ensures Presses(churches, Some(churches[i]), |churches|)
         == Presses(churches, Presses(churches, Some(churches[i]), toEnd), i + 1)
  {
    PressesCompose(churches, Some(churches[i]), toEnd, i + 1);
  }

  /** With distinct ids, pressing next once per church returns to the start. */
  lemma FullCycleReturnsToStart(churches: seq<Church>, i: nat)
    requires DistinctIds(churches) && i < |churches|
    ensures Presses(churches, Some(churches[i]), |churches|) == Some(churches[i])
  {
    var toEnd :| i + toEnd + 1 == |churches|;
    CycleSplits(churches, i, toEnd);
    PressesAdvance(churches, i, toEnd);
    WrapFromLast(churches, i);
  }

  // ---------------------------------------------------------------------
  // findNearestChurch
  // ---------------------------------------------------------------------

  /** `min(by:)` under the distance from `user`: a left-to-right scan that
      takes a later church only when it is strictly closer. */
  function NearestIndex(churches: seq<Church>, user: Coordinate, distance: (Coordinate, Church) -> real): (j: nat)
    requires churches != []
    ensures j < |churches|
    ensures forall i :: 0 <= i < |churches| ==> distance(user, churches[j]) <= distance(user, churches[i])
    ensures forall i :: 0 <= i < j ==> distance(user, churches[j]) < distance(user, churches[i])
    decreases |churches|
  {
    if |churches| == 1 then 0
    else
      var last := |churches| - 1;
      var m := NearestIndex(churches[..last], user, distance);
      assert churches[..last][m] == churches[m];
      if distance(user, churches[last]) < distance(user, churches[m]) then last else m
  }

  /** The nearest church: none for an empty list, otherwise the first church
      of minimal distance. */
  function Nearest(churches: seq<Church>, user: Coordinate, distance: (Coordinate, Church) -> real): Option<Church> {
    if churches == [] then None else Some(churches[NearestIndex(churches, user, distance)])
  }

  /** The scan result is the one and only first minimum. */
  lemma NearestIsFirstMinimum(churches: seq<Church>, user: Coordinate, distance: (Coordinate, Church) -> real, j: nat)
    requires j < |churches|
    requires forall i :: 0 <= i < |churches| ==> distance(user, churches[j]) <= distance(user, churches[i])
    requires forall i :: 0 <= i < j ==> distance(user, churches[j]) < distance(user, churches[i])
    ensures Nearest(churches, user, distance) == Some(churches[j])
    ensures NearestIndex(churches, user, distance) == j
  {
  }

  class LocationsViewModel {
    var churches: seq<Church>
    var mapChurch: Option<Church>
    var mapPosition: MapRegion
    var showChurchesList: bool
    var userLocation: Option<Coordinate>
    var nearestChurch: Option<Church>

    constructor ()
      ensures churches == [] && mapChurch == None && mapPosition == InitialPosition
      ensures !showChurchesList && userLocation == None && nearestChurch == None
    {
      churches := [];
      mapChurch := None;
      mapPosition := InitialPosition;
      showChurchesList := false;
      userLocation := None;
      nearestChurch := None;
    }

    /** `toggleChurchesList`: two calls restore the flag. */
    method ToggleChurchesList()
      modifies this`showChurchesList
      ensures showChurchesList == !old(showChurchesList)
    {
      showChurchesList := !showChurchesList;
    }

    /** `showNextChurch`: the carousel span. */
    method ShowNextChurch(church: Church)
      modifies this`mapChurch, this`mapPosition
      ensures mapChurch == Some(church)
      ensures mapPosition == Focus(Position(church), CarouselSpan)
    {
      mapChurch := Some(church);
      mapPosition := MapRegion(Coordinate(church.latitude, church.longitude), 0.1, 0.1);
    }

    /** `nextButtonPressed`. */
    method NextButtonPressed()
      modifies this`mapChurch, this`mapPosition
      ensures mapChurch == Pressed(churches, old(mapChurch))
      ensures NextChurch(churches, old(mapChurch)).None? ==> mapPosition == old(mapPosition)
      ensures NextChurch(churches, old(mapChurch)).Some? ==>
        mapPosition == Focus(Position(NextChurch(churches, old(mapChurch)).value), CarouselSpan)
    {
      var currentIndex := FirstIndexOfId(churches, IdOf(mapChurch));
      if currentIndex.None? {
        return;
      }
      var nextIndex := currentIndex.value + 1;
      if nextIndex >= |churches| {
        ShowNextChurch(churches[0]);
        return;
      }
      ShowNextChurch(churches[nextIndex]);
    }

    /** `locationManager(_:didUpdateLocations:)`: keeps the last reported
        location and centres the map on it. */
    method LocationsUpdated(locations: seq<Coordinate>)
      modifies this`userLocation, this`mapPosition
      ensures locations == [] ==> userLocation == old(userLocation) && mapPosition == old(mapPosition)
      ensures locations != [] ==> userLocation == Some(locations[|locations| - 1])
      ensures locations != [] ==> mapPosition == Focus(locations[|locations| - 1], MapSpan)
    {
      if locations == [] {
        return;
      }
      var location := locations[|locations| - 1];
      userLocation := Some(location);
      UpdateMapPosition(location);
    }

    /** `updateMapPosition`. */
    method UpdateMapPosition(coordinate: Coordinate)
      modifies this`mapPosition
      ensures mapPosition == Focus(coordinate, MapSpan)
    {
      mapPosition := MapRegion(coordinate, MapSpan, MapSpan);
    }

    /** `selectChurch`: the same church as the carousel, with `mapSpan`. */
    method SelectChurch(church: Church)
      modifies this`mapChurch, this`mapPosition
      ensures mapChurch == Some(church)
      ensures mapPosition == Focus(Position(church), MapSpan)
    {
      mapChurch := Some(church);
      UpdateMapPosition(Coordinate(church.latitude, church.longitude));
    }

    /** `findNearestChurch`; `distance` stands for `CLLocation.distance(from:)`. */
    method FindNearestChurch(distance: (Coordinate, Church) -> real)
      modifies this`nearestChurch
      ensures userLocation.None? ==> nearestChurch == old(nearestChurch)
      ensures userLocation.Some? ==> nearestChurch == Nearest(churches, userLocation.value, distance)
    {
      if userLocation.None? {
        return;
      }
      nearestChurch := Nearest(churches, userLocation.value, distance);
    }
  }
}
