/** The route planner of the two plan pages, `src/app/plan/page.tsx` and
    `src/features/PlanPage/index.tsx`, whose reducers are the same: the
    selected POIs, the route points (a start point, then a waypoint per
    selected POI), the straight-line route through them, and, on the first
    page, the interests and the suggestion filter.  The geolocation, the API
    calls and the offline save are not part of this model. */
module Planner {
  import opened Wrappers
  import opened Text
  import Routing

  /** A POI of the API; `category` may be missing. */
  datatype Poi = Poi(id: int, name: string, lat: real, lon: real, category: Option<string>)

  datatype PointKind = Start | Destination | Waypoint

  /** A point of the route; `estimatedTime` is in minutes. */
  datatype RoutePoint = RoutePoint(id: string, name: string, lat: real, lon: real, kind: PointKind,
                                   estimatedTime: Option<int>)

  /** The planner's state. */
  datatype Plan = Plan(selected: seq<Poi>, points: seq<RoutePoint>, route: Option<seq<Routing.Point>>)

  /** The elements of `xs` that `keep` accepts, in order: `xs.filter(keep)`. */
  function Filter<T>(xs: seq<T>, keep: T -> bool): seq<T> {
    if xs == [] then []
    else
      var prev := Filter(xs[..|xs| - 1], keep);
      if keep(xs[|xs| - 1]) then prev + [xs[|xs| - 1]] else prev
  }

  /** An element is kept exactly when it is there and accepted; nothing is
      added, and with every element accepted nothing is dropped. */
  lemma {:induction false} FilterSpec<T>(xs: seq<T>, keep: T -> bool)
    ensures |Filter(xs, keep)| <= |xs|
    ensures forall x :: x in Filter(xs, keep) <==> x in xs && keep(x)
    ensures (forall i :: 0 <= i < |xs| ==> keep(xs[i])) ==> Filter(xs, keep) == xs
  {
    if xs != [] {
      var m := |xs| - 1;
      FilterSpec(xs[..m], keep);
      assert xs == xs[..m] + [xs[m]];
    }
  }

  /** Filtering a sequence with one more element at the end. */
  lemma FilterSnoc<T>(xs: seq<T>, x: T, keep: T -> bool)
    ensures Filter(xs + [x], keep) == if keep(x) then Filter(xs, keep) + [x] else Filter(xs, keep)
  {
    assert (xs + [x])[..|xs|] == xs;
  }

  // ---------------------------------------------------------------------
  // Adding and removing POIs
  // ---------------------------------------------------------------------

  /** `poi-${id}`, the id of a POI's waypoint. */
  function WaypointId(id: int): string {
    "poi-" + IntToString(id)
  }

  function WaypointOf(poi: Poi): RoutePoint {
    RoutePoint(WaypointId(poi.id), poi.name, poi.lat, poi.lon, Waypoint, Some(60))
  }

  /** `selectedPOIs.find(p => p.id === poi.id)`: a POI with that id is selected. */
  predicate Selected(p: Plan, id: int) {
    exists i :: 0 <= i < |p.selected| && p.selected[i].id == id
  }

  /** `addPOIToRoute`. */
  function AddPoi(p: Plan, poi: Poi): Plan {
    if Selected(p, poi.id) then p
    else p.(selected := p.selected + [poi], points := p.points + [WaypointOf(poi)])
  }

  /** `removePOIFromRoute`. */
  function RemovePoi(p: Plan, id: int): Plan {
    p.(selected := Filter(p.selected, (x: Poi) => x.id != id),
       points := Filter(p.points, (x: RoutePoint) => x.id != WaypointId(id)))
  }

  /** Adding a selected POI changes nothing; otherwise the POI is appended
      and so is its waypoint, named after it, at its place, an hour long,
      with every earlier point (the start point among them) kept. */
  lemma AddPoiSpec(p: Plan, poi: Poi)
    ensures Selected(p, poi.id) ==> AddPoi(p, poi) == p
    ensures !Selected(p, poi.id) ==>
      var q := AddPoi(p, poi);
      && q.selected == p.selected + [poi]
      && |q.points| == |p.points| + 1 && q.points[..|p.points|] == p.points
      && var w := q.points[|p.points|];
        w.id == WaypointId(poi.id) && w.kind == Waypoint && w.estimatedTime == Some(60)
        && w.lat == poi.lat && w.lon == poi.lon && w.name == poi.name
    ensures Selected(AddPoi(p, poi), poi.id)
    ensures AddPoi(AddPoi(p, poi), poi) == AddPoi(p, poi)
  {
    if !Selected(p, poi.id) {
      var q := AddPoi(p, poi);
      assert q.points[..|p.points|] == p.points;
      assert q.selected[|p.selected|].id == poi.id;
    }
  }

  /** After a removal no selected POI has the id and no point is its
      waypoint; every other POI and point stays, the start point included. */
  lemma RemovePoiSpec(p: Plan, id: int)
    ensures forall x :: x in RemovePoi(p, id).selected <==> x in p.selected && x.id != id
    ensures forall x :: x in RemovePoi(p, id).points <==> x in p.points && x.id != WaypointId(id)
    ensures forall x :: x in p.points && x.kind == Start && x.id == "start" ==> x in RemovePoi(p, id).points
  {
    FilterSpec(p.selected, (x: Poi) => x.id != id);
    FilterSpec(p.points, (x: RoutePoint) => x.id != WaypointId(id));
    assert forall x: RoutePoint :: x.id == "start" ==> x.id != WaypointId(id) by {
      assert "start"[0] != WaypointId(id)[0];
    }
  }

  /** Removing a POI just added, when no point had its waypoint's id, gives
      back the plan as it was. */
  lemma AddThenRemove(p: Plan, poi: Poi)
    requires !Selected(p, poi.id)
    requires forall i :: 0 <= i < |p.points| ==> p.points[i].id != WaypointId(poi.id)
    ensures RemovePoi(AddPoi(p, poi), poi.id) == p
  {
    var keepPoi := (x: Poi) => x.id != poi.id;
    var keepPoint := (x: RoutePoint) => x.id != WaypointId(poi.id);
    FilterSnoc(p.selected, poi, keepPoi);
    FilterSnoc(p.points, WaypointOf(poi), keepPoint);
    FilterSpec(p.selected, keepPoi);
    FilterSpec(p.points, keepPoint);
  }

  /** The remove button's `parseInt(point.id.split('-')[1])`; `NaN` is `None`. */
  function IdOfWaypoint(pointId: string): Option<int> {
    var parts := Split(pointId, '-');
    if |parts| >= 2 then ParseInt(parts[1]) else None
  }

  /** The button finds the POI again from its waypoint's id for every
      non-negative id, so the button removes the POI it belongs to. */
  lemma WaypointIdRoundTrip(id: int)
    requires id >= 0
    ensures IdOfWaypoint(WaypointId(id)) == Some(id)
  {
    var digits := NatToString(id);
    var parts := ["poi", digits];
    assert '-' !in digits by {
      assert AllDigits(digits);
    }
    assert WaypointId(id) == JoinWith(parts, '-') by {
      assert JoinWith(parts[1..], '-') == digits;
    }
    SplitJoinWith(parts, '-');
    ParseIntRoundTrip(id);
  }

  /** For a negative id the minus sign is a second dash, the part after the
      first dash is empty, and `parseInt` of it gives `NaN`. */
  lemma NegativeWaypointIdLost(id: int)
    requires id < 0
    ensures IdOfWaypoint(WaypointId(id)) == None
  {
    var digits := NatToString(-id);
    var parts := ["poi", "", digits];
    assert '-' !in digits by {
      assert AllDigits(digits);
    }
    assert WaypointId(id) == JoinWith(parts, '-') by {
      assert JoinWith(parts[2..], '-') == digits;
      assert JoinWith(parts[1..], '-') == "" + ['-'] + digits;
    }
    SplitJoinWith(parts, '-');
    assert TrimStart("") == "";
    assert DigitRun("") == 0;
  }

  // ---------------------------------------------------------------------
  // The route
  // ---------------------------------------------------------------------

  /** `calculateRoute`: with at least two points, `[lon, lat]` of each point
      in order; otherwise nothing happens. */
  function CalculateRoute(p: Plan): Plan {
    if |p.points| < 2 then p
    else p.(route := Some(seq(|p.points|, i requires 0 <= i < |p.points| => Routing.Point(p.points[i].lon, p.points[i].lat))))
  }

  /** The route visits every point once, in order, at its place; the
      selection and the points are left as they are. */
  lemma CalculateRouteSpec(p: Plan)
    ensures |p.points| < 2 ==> CalculateRoute(p) == p
    ensures |p.points| >= 2 ==>
      var q := CalculateRoute(p);
      && q.route.Some? && |q.route.value| == |p.points|
      && (forall i :: 0 <= i < |p.points| ==> q.route.value[i] == Routing.Point(p.points[i].lon, p.points[i].lat))
      && q.selected == p.selected && q.points == p.points
  {
  }

  /** Adding a POI to a plan with a start point makes a route possible: the
      route then ends at the new POI. */
  lemma RouteEndsAtNewPoi(p: Plan, poi: Poi)
    requires |p.points| >= 1 && !Selected(p, poi.id)
    ensures var q := CalculateRoute(AddPoi(p, poi));
      q.route.Some? && q.route.value[|q.route.value| - 1] == Routing.Point(poi.lon, poi.lat)
  {
  }

  // ---------------------------------------------------------------------
  // Interests and suggestions
  // ---------------------------------------------------------------------

  /** An interest button: removes the category when chosen, adds it at the
      end otherwise. */
  function TogglePreference(prefs: seq<string>, category: string): seq<string> {
    if category in prefs then Filter(prefs, (c: string) => c != category) else prefs + [category]
  }

  /** A toggle flips the category and leaves every other choice as it was;
      toggling an unchosen category twice gives the choices back. */
  lemma TogglePreferenceSpec(prefs: seq<string>, category: string)
    ensures category in TogglePreference(prefs, category) <==> category !in prefs
    ensures forall c :: c != category ==> (c in TogglePreference(prefs, category) <==> c in prefs)
    ensures category !in prefs ==> TogglePreference(TogglePreference(prefs, category), category) == prefs
  {
    var keep := (c: string) => c != category;
    FilterSpec(prefs, keep);
    if category !in prefs {
      FilterSnoc(prefs, category, keep);
      FilterSpec(prefs, keep);
    }
  }

  /** `poi.category || ''`. */
  function CategoryOf(poi: Poi): string {
    if poi.category.Some? then poi.category.value else ""
  }

  /** The POIs `getAISuggestions` picks from. */
  function Suggestible(pois: seq<Poi>, prefs: seq<string>): seq<Poi> {
    Filter(pois, (poi: Poi) => |prefs| == 0 || CategoryOf(poi) in prefs)
  }

  /** With no interest every POI is kept; otherwise exactly those whose
      category is one of the interests, in order. */
  lemma SuggestibleSpec(pois: seq<Poi>, prefs: seq<string>)
    ensures prefs == [] ==> Suggestible(pois, prefs) == pois
    ensures forall x :: x in Suggestible(pois, prefs) <==> x in pois && (prefs == [] || CategoryOf(x) in prefs)
  {
    FilterSpec(pois, (poi: Poi) => |prefs| == 0 || CategoryOf(poi) in prefs);
  }
}
