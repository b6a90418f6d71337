/** The itinerary state of the web map page, `lakbai/src/pages/Map.tsx`:
    the confirmed locations, the location waiting for confirmation, the
    route information and geometry per consecutive pair, which profile each
    pair shows, and the trip's title, dates and description.  The page's
    React state is the class `MapPage`; each handler is a method whose new
    state is given by a pure function on `Trip`.  Drawing on the map is not
    part of this model: whether the map exists is a parameter (`mapReady`),
    and what the backend answered is a parameter too (`None` when it
    answered nothing or the request threw).  The clock is a parameter:
    `today` for the date and `now` for `Date.now()`. */
module WebItinerary {
  import opened Wrappers
  import opened Text
  import Routing
  import PoiData
  import opened Itinerary

  /** `[long, lat]`; a `None` number is `NaN`. */
  datatype LngLat = LngLat(lng: Option<real>, lat: Option<real>)

  /** A stop of the web itinerary: the POI id and coordinates as parsed
      from the CSV, `NaN` included. */
  type WebLocation = Location<Option<int>, LngLat>

  /** `RouteGeometry`: the line per profile, absent when that profile has no route. */
  datatype RouteGeometry = RouteGeometry(car: Option<Routing.Geometry>, bicycle: Option<Routing.Geometry>,
                                         foot: Option<Routing.Geometry>)

  /** The page's itinerary state. */
  datatype Trip = Trip(locations: seq<WebLocation>, pending: Option<WebLocation>,
                       routeInfos: map<string, RouteInfo>, routeGeometries: map<string, RouteGeometry>,
                       activeRoutes: map<string, Profile>,
                       title: string, dateFrom: string, dateTo: string, description: string)

  /** The state the page starts with, and returns to after deleting everything. */
  const Initial: Trip := Trip([], None, map[], map[], map[], "My Trip", "", "", "Add a description...")

  // ---------------------------------------------------------------------
  // Route lines
  // ---------------------------------------------------------------------

  /** `routeData.p?.geometry`. */
  function GeometryAt(routes: map<string, Routing.RouteData>, p: string): Option<Routing.Geometry> {
    if p in routes then Some(routes[p].geometry) else None
  }

  function GeometryOf(r: Routing.SegmentResult): RouteGeometry {
    RouteGeometry(GeometryAt(r.routes, "car"), GeometryAt(r.routes, "bicycle"), GeometryAt(r.routes, "foot"))
  }

  /** The labels and lines of a segment agree: a profile has a line exactly
      when the answer has a route for it, and the distance label is the
      answer's `distance_formatted`. */
  lemma InfoOfSpec(r: Routing.SegmentResult)
    ensures InfoOf(r).distance == r.distanceFormatted
    ensures GeometryOf(r).car.Some? <==> "car" in r.routes
    ensures GeometryOf(r).bicycle.Some? <==> "bicycle" in r.routes
    ensures GeometryOf(r).foot.Some? <==> "foot" in r.routes
    ensures "car" in r.routes ==> ParseInt(InfoOf(r).car[..|InfoOf(r).car| - 1]) == Some(r.routes["car"].duration)
    ensures "car" !in r.routes ==> InfoOf(r).car == "0m"
  {
    DurationLabelSpec(r.routes, "car");
  }

  // ---------------------------------------------------------------------
  // Handlers, as functions of the state
  // ---------------------------------------------------------------------

  /** `addPOIToItinerary`: a new unconfirmed location for the POI, from 09:00
      to 10:00 today, tagged with its theme, waiting for confirmation. */
  function AddPoi(t: Trip, poi: PoiData.WebPoi, today: string, now: nat): Trip {
    var loc := Location(NatToString(now), poi.poiID, poi.poiName, poi.theme, [poi.theme], today,
                        "09:00", "10:00", LngLat(poi.long, poi.lat), false);
    t.(pending := Some(loc))
  }

  /** `handlePendingTimeChange`: edits the waiting location, if any. */
  function PendingTimeChange(t: Trip, field: TimeField, value: string): Trip {
    if t.pending.Some? then t.(pending := Some(WithField(t.pending.value, field, value))) else t
  }

  /** `confirmLocation`: the waiting location joins the itinerary, confirmed. */
  function Confirm(t: Trip): Trip {
    if t.pending.Some? then
      t.(locations := t.locations + [t.pending.value.(confirmed := true)], pending := None)
    else t
  }

  /** `cancelPendingLocation`. */
  function Cancel(t: Trip): Trip {
    t.(pending := None)
  }

  /** An edit of the waiting location reaches the itinerary only through a
      confirmation, which appends the edited location; the itinerary itself is
      left alone by the edit. */
  lemma PendingEditThenConfirm(t: Trip, field: TimeField, value: string)
    requires t.pending.Some?
    ensures PendingTimeChange(t, field, value).locations == t.locations
    ensures Confirm(PendingTimeChange(t, field, value)).locations
              == t.locations + [WithField(t.pending.value, field, value).(confirmed := true)]
  {
  }

  /** Adding a POI and confirming it appends one confirmed location with the
      POI's id, name and theme, the default times and `[long, lat]`, and
      leaves nothing waiting; cancelling instead leaves the itinerary as it
      was. */
  lemma AddThenConfirm(t: Trip, poi: PoiData.WebPoi, today: string, now: nat)
    ensures var u := Confirm(AddPoi(t, poi, today, now));
      && |u.locations| == |t.locations| + 1
      && u.locations[..|t.locations|] == t.locations
      && u.pending.None?
      && var l := u.locations[|t.locations|];
        && l.confirmed && l.poiId == poi.poiID && l.name == poi.poiName && l.category == poi.theme
        && l.tags == [poi.theme] && l.startTime == "09:00" && l.endTime == "10:00" && l.date == today
        && l.coordinates == LngLat(poi.long, poi.lat)
    ensures Cancel(AddPoi(t, poi, today, now)).locations == t.locations
    ensures Confirm(Cancel(AddPoi(t, poi, today, now))) == Cancel(t)
  {
    var u := Confirm(AddPoi(t, poi, today, now));
    assert u.locations[..|t.locations|] == t.locations;
  }

  /** The entries whose key does not contain `id`: `key.includes(id)` is a
      substring test. */
  function Pruned<V>(m: map<string, V>, id: string): map<string, V> {
    map k | k in m && !Includes(k, id) :: m[k]
  }

  /** The `forEach`/`delete` loop over a copy of one of the route maps. */
  method PruneKeys<V>(m: map<string, V>, id: string) returns (r: map<string, V>)
    ensures r == Pruned(m, id)
  {
    r := m;
    var keys := m.Keys;
    while keys != {}
      invariant keys <= m.Keys
      invariant r == map k | k in m && (k in keys || !Includes(k, id)) :: m[k]
      decreases |keys|
    {
      var key :| key in keys;
      if Includes(key, id) {
        r := map k | k in r && k != key :: r[k];
      }
      keys := keys - {key};
    }
  }

  /** A window of the id's length that starts inside the first id and is
      not at the start of the key covers the dash. */
  lemma DashInside(a: string, b: string, n: nat, i: int)
    requires |a| == |b| == n && 0 < i <= n
    ensures '-' in PairKey(a, b)[i..i + n]
  {
    assert PairKey(a, b)[i..i + n][n - i] == '-';
  }

  /** For ids of one length and without a dash (as `Date.now()` strings
      are in practice), a pair's key contains an id exactly when it is one
      of the pair's two ids, so the pruning removes the pairs that touch the
      removed location and keeps every other pair. */
  lemma PairKeyIncludes(a: string, b: string, id: string)
    requires |a| == |b| == |id|
    requires '-' !in id
    ensures Includes(PairKey(a, b), id) <==> a == id || b == id
  {
    var key := PairKey(a, b);
    var n := |id|;
    assert Includes(key, id) ==> a == id || b == id by {
      if Includes(key, id) {
        var i :| OccursAt(key, id, i);
        OccursInPairKey(a, b, id, i);
      }
    }
    assert a == id ==> Includes(key, id) by {
      if a == id {
        assert key[0..n] == a;
        assert OccursAt(key, id, 0);
      }
    }
    assert b == id ==> Includes(key, id) by {
      if b == id {
        assert key[n + 1..n + 1 + n] == b;
        assert OccursAt(key, id, n + 1);
      }
    }
  }

  /** A dash-free id of the same length occurs in a pair's key only as one
      of its two ids. */
  lemma OccursInPairKey(a: string, b: string, id: string, i: int)
    requires |a| == |b| == |id| && '-' !in id && OccursAt(PairKey(a, b), id, i)
    ensures a == id || b == id
  {
    var key := PairKey(a, b);
    var n := |id|;
    if i == 0 {
      assert key[0..n] == a;
    } else if i <= n {
      DashInside(a, b, n, i);
    } else {
      assert key[n + 1..n + 1 + n] == b;
    }
  }

  /** `removeLocation`: the location goes, and so does every route entry
      whose key contains its id. */
  function Remove(t: Trip, id: string): Trip {
    t.(locations := Without(t.locations, id),
       routeInfos := Pruned(t.routeInfos, id),
       routeGeometries := Pruned(t.routeGeometries, id),
       activeRoutes := Pruned(t.activeRoutes, id))
  }

  /** After a removal no route label, line or display entry has a key that
      contains the id (the location itself goes as `WithoutSpec` states), so
      the pairs into and out of it are gone from all three maps; an entry
      for a pair of other ids of the same length stays as it was. */
  lemma RemoveSpec(t: Trip, id: string, a: string, b: string)
    requires '-' !in id && |a| == |b| == |id| && a != id && b != id
    ensures forall k :: k in Remove(t, id).activeRoutes ==> !Includes(k, id)
    ensures forall k :: k in Remove(t, id).routeInfos ==> !Includes(k, id)
    ensures PairKey(a, b) in t.routeInfos ==>
              PairKey(a, b) in Remove(t, id).routeInfos && Remove(t, id).routeInfos[PairKey(a, b)] == t.routeInfos[PairKey(a, b)]
    ensures PairKey(a, b) in t.activeRoutes ==>
              PairKey(a, b) in Remove(t, id).activeRoutes && Remove(t, id).activeRoutes[PairKey(a, b)] == t.activeRoutes[PairKey(a, b)]
    ensures forall k :: k in Remove(t, id).routeGeometries ==> !Includes(k, id)
    ensures PairKey(a, b) in t.routeGeometries ==>
              PairKey(a, b) in Remove(t, id).routeGeometries
              && Remove(t, id).routeGeometries[PairKey(a, b)] == t.routeGeometries[PairKey(a, b)]
    ensures PairKey(a, id) !in Remove(t, id).activeRoutes && PairKey(id, b) !in Remove(t, id).activeRoutes
    ensures PairKey(a, id) !in Remove(t, id).routeInfos && PairKey(id, b) !in Remove(t, id).routeInfos
    ensures PairKey(a, id) !in Remove(t, id).routeGeometries && PairKey(id, b) !in Remove(t, id).routeGeometries
  {
    PairKeyIncludes(a, b, id);
    PairKeyIncludes(a, id, id);
    PairKeyIncludes(id, b, id);
  }

  /** `profile` of a pair's lines. */
  function GeometryFor(g: RouteGeometry, profile: Profile): Option<Routing.Geometry> {
    match profile
    case Car => g.car
    case Bicycle => g.bicycle
    case Foot => g.foot
  }

  /** `toggleRouteDisplay`. */
  function Toggle(t: Trip, pair: string, profile: Profile, mapReady: bool): Trip {
    if pair in t.activeRoutes && t.activeRoutes[pair] == profile then
      t.(activeRoutes := t.activeRoutes - {pair})
    else if pair in t.routeGeometries && GeometryFor(t.routeGeometries[pair], profile).Some? && mapReady then
      t.(activeRoutes := t.activeRoutes[pair := profile])
    else t
  }

  /** The three ways a toggle goes: the shown profile hides the pair, another
      profile with a line shows that one, and one without a line changes
      nothing; only the pair's entry of `activeRoutes` ever changes. */
  lemma ToggleCases(t: Trip, pair: string, profile: Profile, mapReady: bool)
    ensures var u := Toggle(t, pair, profile, mapReady);
      && u.(activeRoutes := t.activeRoutes) == t
      && (forall k :: k != pair ==> (k in u.activeRoutes <==> k in t.activeRoutes))
      && (forall k :: k != pair && k in t.activeRoutes ==> u.activeRoutes[k] == t.activeRoutes[k])
      && (pair in t.activeRoutes && t.activeRoutes[pair] == profile ==> pair !in u.activeRoutes)
      && (!(pair in t.activeRoutes && t.activeRoutes[pair] == profile) ==>
            if mapReady && pair in t.routeGeometries && GeometryFor(t.routeGeometries[pair], profile).Some?
            then pair in u.activeRoutes && u.activeRoutes[pair] == profile
            else u == t)
  {
  }

  /** Toggling a hidden pair's profile twice, when it has a line, hides it
      again. */
  lemma ToggleTwice(t: Trip, pair: string, profile: Profile)
    requires pair !in t.activeRoutes
    requires pair in t.routeGeometries && GeometryFor(t.routeGeometries[pair], profile).Some?
    ensures Toggle(Toggle(t, pair, profile, true), pair, profile, true) == t
  {
    var u := Toggle(t, pair, profile, true);
    assert u.activeRoutes - {pair} == t.activeRoutes;
  }

  /** What `calculateRoute` stores for one pair: the labels, the lines, and
      the car route as shown when there is one and the map exists. */
  function RouteFetched(t: Trip, from: WebLocation, to: WebLocation, data: Option<Routing.SegmentResult>, mapReady: bool): Trip {
    match data
    case None => t
    case Some(r) =>
      var key := PairKey(from.id, to.id);
      t.(routeInfos := t.routeInfos[key := InfoOf(r)],
         routeGeometries := t.routeGeometries[key := GeometryOf(r)],
         activeRoutes := if "car" in r.routes && mapReady then t.activeRoutes[key := Car] else t.activeRoutes)
  }

  function GeometriesOf(results: map<string, Routing.SegmentResult>): map<string, RouteGeometry> {
    map k | k in results :: GeometryOf(results[k])
  }

  function AllCar(keys: set<string>): map<string, Profile> {
    map k | k in keys :: Car
  }

  /** The batch answer for the locations; no request is made for fewer
      than two. */
  function RequestBatch(locs: seq<WebLocation>, backend: seq<Segment<LngLat>> -> Option<map<string, Routing.SegmentResult>>)
    : Option<map<string, Routing.SegmentResult>>
  {
    if |locs| < 2 then None else backend(Segments(locs))
  }

  /** The batch answer replaces the labels and lines wholesale, and when the
      map exists every returned pair is shown by car. */
  function BatchApplied(t: Trip, batch: Option<map<string, Routing.SegmentResult>>, mapReady: bool): Trip {
    match batch
    case None => t
    case Some(results) =>
      t.(routeInfos := InfosOf(results), routeGeometries := GeometriesOf(results),
         activeRoutes := if mapReady then AllCar(results.Keys) else t.activeRoutes)
  }

  /** After a batch the maps hold exactly the returned pairs; every one of
      them is shown by car, also a pair with no car route, whose line the
      map then does not draw. */
  lemma BatchSpec(t: Trip, results: map<string, Routing.SegmentResult>, key: string)
    ensures var u := BatchApplied(t, Some(results), true);
      && u.routeInfos.Keys == results.Keys && u.routeGeometries.Keys == results.Keys
      && u.activeRoutes.Keys == results.Keys
      && u.locations == t.locations && u.pending == t.pending
      && (key in results ==>
            && u.activeRoutes[key] == Car
            && u.routeInfos[key].distance == results[key].distanceFormatted
            && (u.routeGeometries[key].car.Some? <==> "car" in results[key].routes)
            && (u.routeInfos[key].car == "0m" <==> "car" !in results[key].routes || results[key].routes["car"].duration == 0))
  {
    DurationLabelSpec(if key in results then results[key].routes else map[], "car");
  }

  /** `deleteAllItinerary`: only when the user confirms. */
  function DeleteAll(t: Trip, confirmed: bool): Trip {
    if confirmed then Initial else t
  }

  /** A confirmed delete leaves no location, nothing pending, no route entry
      and the default title, dates and description; after it a toggle
      changes nothing. */
  lemma DeleteAllSpec(t: Trip, pair: string, profile: Profile, mapReady: bool)
    ensures var u := DeleteAll(t, true);
      && u.locations == [] && u.pending.None? && u.routeInfos == map[] && u.routeGeometries == map[]
      && u.activeRoutes == map[] && u.title == "My Trip" && u.dateFrom == "" && u.dateTo == ""
      && u.description == "Add a description..."
      && Segments(u.locations) == []
      && Toggle(u, pair, profile, mapReady) == u
    ensures DeleteAll(t, false) == t
  {
  }

  /** The `forEach` over the batch answer's entries. */
  method LabelAll(results: map<string, Routing.SegmentResult>)
    returns (infos: map<string, RouteInfo>, geometries: map<string, RouteGeometry>)
    ensures infos == InfosOf(results) && geometries == GeometriesOf(results)
  {
    infos, geometries := map[], map[];
    var todo := results.Keys;
    while todo != {}
      invariant todo <= results.Keys
      invariant infos == map k | k in results && k !in todo :: InfoOf(results[k])
      invariant geometries == map k | k in results && k !in todo :: GeometryOf(results[k])
      decreases |todo|
    {
      var key :| key in todo;
      infos := infos[key := InfoOf(results[key])];
      geometries := geometries[key := GeometryOf(results[key])];
      todo := todo - {key};
    }
  }

  /** The `forEach` over the keys of the new lines. */
  method ShowAllByCar(keys: set<string>) returns (active: map<string, Profile>)
    ensures active == AllCar(keys)
  {
    active := map[];
    var todo := keys;
    while todo != {}
      invariant todo <= keys
      invariant active == map k | k in keys && k !in todo :: Car
      decreases |todo|
    {
      var key :| key in todo;
      active := active[key := Car];
      todo := todo - {key};
    }
  }

  // ---------------------------------------------------------------------
  // The page
  // ---------------------------------------------------------------------

  /** The page's state variables. */
  class MapPage {
    var locations: seq<WebLocation>
    var pending: Option<WebLocation>
    var routeInfos: map<string, RouteInfo>
    var routeGeometries: map<string, RouteGeometry>
    var activeRoutes: map<string, Profile>
    var title: string
    var dateFrom: string
    var dateTo: string
    var description: string

    function State(): Trip
      reads this
    {
      Trip(locations, pending, routeInfos, routeGeometries, activeRoutes, title, dateFrom, dateTo, description)
    }

    method Set(t: Trip)
      modifies this
      ensures State() == t
    {
      locations, pending := t.locations, t.pending;
      routeInfos, routeGeometries, activeRoutes := t.routeInfos, t.routeGeometries, t.activeRoutes;
      title, dateFrom, dateTo, description := t.title, t.dateFrom, t.dateTo, t.description;
    }

    constructor ()
      ensures State() == Initial
    {
      locations, pending := [], None;
      routeInfos, routeGeometries, activeRoutes := map[], map[], map[];
      title, dateFrom, dateTo, description := "My Trip", "", "", "Add a description...";
    }

    method HandleTimeChange(id: string, field: TimeField, value: string)
      modifies this
      ensures State() == old(State()).(locations := TimeChange(old(locations), id, field, value))
    {
      locations := TimeChange(locations, id, field, value);
    }

    method HandlePendingTimeChange(field: TimeField, value: string)
      modifies this
      ensures State() == PendingTimeChange(old(State()), field, value)
    {
      if pending.Some? {
        pending := Some(WithField(pending.value, field, value));
      }
    }

    method AddPoiToItinerary(poi: PoiData.WebPoi, today: string, now: nat)
      modifies this
      ensures State() == AddPoi(old(State()), poi, today, now)
    {
      pending := Some(Location(NatToString(now), poi.poiID, poi.poiName, poi.theme, [poi.theme], today,
                               "09:00", "10:00", LngLat(poi.long, poi.lat), false));
    }

    /** The route to the new stop follows as `CalculateRoute` once the
        backend answers. */
    method ConfirmLocation()
      modifies this
      ensures State() == Confirm(old(State()))
    {
      if pending.Some? {
        locations := locations + [pending.value.(confirmed := true)];
        pending := None;
      }
    }

    method CancelPendingLocation()
      modifies this
      ensures State() == Cancel(old(State()))
    {
      pending := None;
    }

    /** `calculateRoute` once the backend has answered for the pair. */
    method CalculateRoute(from: WebLocation, to: WebLocation, data: Option<Routing.SegmentResult>, mapReady: bool)
      modifies this
      ensures State() == RouteFetched(old(State()), from, to, data, mapReady)
    {
      if data.None? {
        return;
      }
      var r := data.value;
      var key := PairKey(from.id, to.id);
      routeInfos := routeInfos[key := InfoOf(r)];
      routeGeometries := routeGeometries[key := GeometryOf(r)];
      if "car" in r.routes && mapReady {
        activeRoutes := activeRoutes[key := Car];
      }
    }

    /** The `calculateRoutes` effect: the request of consecutive pairs,
        then, with `backend`'s answer, the `forEach` over its entries and the
        one over its keys. */
    method CalculateRoutes(backend: seq<Segment<LngLat>> -> Option<map<string, Routing.SegmentResult>>, mapReady: bool)
      modifies this
      ensures State() == BatchApplied(old(State()), RequestBatch(old(locations), backend), mapReady)
    {
      if |locations| < 2 {
        return;
      }
      var segments := BuildSegments(locations);
      var batch := backend(segments);
      if batch.None? {
        return;
      }
      var results := batch.value;
      routeInfos, routeGeometries := LabelAll(results);
      if mapReady {
        activeRoutes := ShowAllByCar(results.Keys);
      }
    }

    method RemoveLocation(id: string)
      modifies this
      ensures State() == Remove(old(State()), id)
    {
      locations := Without(locations, id);
      routeInfos := PruneKeys(routeInfos, id);
      routeGeometries := PruneKeys(routeGeometries, id);
      activeRoutes := PruneKeys(activeRoutes, id);
    }

    method ToggleRouteDisplay(pair: string, profile: Profile, mapReady: bool)
      modifies this
      ensures State() == Toggle(old(State()), pair, profile, mapReady)
    {
      if pair in activeRoutes && activeRoutes[pair] == profile {
        activeRoutes := activeRoutes - {pair};
        return;
      }
      if pair in routeGeometries && GeometryFor(routeGeometries[pair], profile).Some? && mapReady {
        activeRoutes := activeRoutes[pair := profile];
      }
    }

    method DeleteAllItinerary(confirmed: bool)
      modifies this
      ensures State() == DeleteAll(old(State()), confirmed)
    {
      if confirmed {
        Set(Initial);
      }
    }
  }
}
