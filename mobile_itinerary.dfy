/** The itinerary state of the mobile map screen,
    `lakbai-mobile/src/screens/MapScreen.tsx`: the confirmed locations, the
    location waiting for confirmation, the route labels and polylines per
    consecutive pair for the chosen travel mode, and the trip's title, dates
    and description, with the rows it saves to and loads from the database.
    The database and the backend are parameters: what the batch request
    answered, whether a user is signed in, and the rows a query returned. */
module MobileItinerary {
  import opened Wrappers
  import opened Text
  import opened Itinerary
  import Routing

  /** A POI of the mobile client's built-in list. */
  datatype MobilePoi = MobilePoi(poiID: int, poiName: string, lat: real, long: real, theme: string)

  /** A stop of the mobile itinerary; its coordinates are `[long, lat]`. */
  type MobileLocation = Location<int, Routing.Point>

  /** A map point as React Native Maps takes it. */
  datatype LatLng = LatLng(latitude: real, longitude: real)

  /** The screen's itinerary state. */
  datatype Screen = Screen(locations: seq<MobileLocation>, pending: Option<MobileLocation>,
                           routeCoordinates: map<string, seq<LatLng>>, routeInfos: map<string, RouteInfo>,
                           transportMode: Profile,
                           title: string, dateFrom: string, dateTo: string, description: string)

  const Initial: Screen := Screen([], None, map[], map[], Car, "My Trip", "", "", "Add a description...")

  // ---------------------------------------------------------------------
  // Routes
  // ---------------------------------------------------------------------

  /** `{latitude: coord[1], longitude: coord[0]}`. */
  function ToLatLng(p: Routing.Point): LatLng {
    LatLng(p.lat, p.lon)
  }

  /** The polyline of one segment for the travel mode: only when the answer
      has a route for that mode and its line has coordinates. */
  function Polyline(r: Routing.SegmentResult, mode: Profile): Option<seq<LatLng>> {
    var name := ProfileName(mode);
    if name in r.routes && r.routes[name].geometry.coordinates.Some? then
      var coords := r.routes[name].geometry.coordinates.value;
      Some(seq(|coords|, i requires 0 <= i < |coords| => ToLatLng(coords[i])))
    else None
  }

  /** A polyline exists exactly for a route of the chosen mode with
      coordinates; it has one point per coordinate, latitude and longitude
      swapped back into place, so turning each point around again gives the
      GeoJSON coordinates. */
  lemma PolylineSpec(r: Routing.SegmentResult, mode: Profile)
    ensures Polyline(r, mode).Some? <==>
              ProfileName(mode) in r.routes && r.routes[ProfileName(mode)].geometry.coordinates.Some?
    ensures Polyline(r, mode).Some? ==>
      var coords := r.routes[ProfileName(mode)].geometry.coordinates.value;
      var line := Polyline(r, mode).value;
      && |line| == |coords|
      && (forall i :: 0 <= i < |line| ==> line[i].latitude == coords[i].lat && line[i].longitude == coords[i].lon)
      && seq(|line|, i requires 0 <= i < |line| => Routing.Point(line[i].longitude, line[i].latitude)) == coords
  {
  }

  /** The polylines of a batch answer. */
  function CoordinatesOf(results: map<string, Routing.SegmentResult>, mode: Profile): map<string, seq<LatLng>> {
    map k | k in results && Polyline(results[k], mode).Some? :: Polyline(results[k], mode).value
  }

  /** The polylines of the answer's entries other than `todo`. */
  function CoordinatesBut(results: map<string, Routing.SegmentResult>, mode: Profile, todo: set<string>): map<string, seq<LatLng>> {
    map k | k in results && k !in todo && Polyline(results[k], mode).Some? :: Polyline(results[k], mode).value
  }

  lemma CoordinatesStep(results: map<string, Routing.SegmentResult>, mode: Profile, todo: set<string>, key: string)
    requires key in todo && key in results
    ensures CoordinatesBut(results, mode, todo - {key}) ==
      var line := Polyline(results[key], mode);
      if line.Some? then CoordinatesBut(results, mode, todo)[key := line.value] else CoordinatesBut(results, mode, todo)
  {
  }

  /** The labels of the answer's entries other than `todo`. */
  function InfosBut(results: map<string, Routing.SegmentResult>, todo: set<string>): map<string, RouteInfo> {
    map k | k in results && k !in todo :: InfoOf(results[k])
  }

  lemma InfosStep(results: map<string, Routing.SegmentResult>, todo: set<string>, key: string)
    requires key in todo && key in results
    ensures InfosBut(results, todo - {key}) == InfosBut(results, todo)[key := InfoOf(results[key])]
  {
  }

  /** The `forEach` over the batch answer's entries. */
  method ProcessBatch(results: map<string, Routing.SegmentResult>, mode: Profile)
    returns (infos: map<string, RouteInfo>, coordinates: map<string, seq<LatLng>>)
    ensures infos == InfosOf(results) && coordinates == CoordinatesOf(results, mode)
  {
    infos, coordinates := map[], map[];
    var todo := results.Keys;
    while todo != {}
      invariant todo <= results.Keys
      invariant infos == InfosBut(results, todo)
      invariant coordinates == CoordinatesBut(results, mode, todo)
      decreases |todo|
    {
      var key :| key in todo;
      InfosStep(results, todo, key);
      CoordinatesStep(results, mode, todo, key);
      infos := infos[key := InfoOf(results[key])];
      var line := Polyline(results[key], mode);
      if line.Some? {
        coordinates := coordinates[key := line.value];
      }
      todo := todo - {key};
    }
    assert CoordinatesBut(results, mode, {}) == CoordinatesOf(results, mode);
    assert InfosBut(results, {}) == InfosOf(results);
  }

  /** `calculateRoutes`: fewer than two locations clear both maps; otherwise
      the batch answer, when there is one, replaces them. */
  function RoutesCalculated(s: Screen, batch: Option<map<string, Routing.SegmentResult>>): Screen {
    if |s.locations| < 2 then s.(routeCoordinates := map[], routeInfos := map[])
    else match batch
      case None => s
      case Some(results) =>
        s.(routeInfos := InfosOf(results), routeCoordinates := CoordinatesOf(results, s.transportMode))
  }

  /** With fewer than two locations no route is left; otherwise every label
      and polyline belongs to a returned pair, every returned pair has its
      labels, and a pair has a polyline exactly when the chosen mode has a
      line with coordinates. */
  lemma RoutesCalculatedSpec(s: Screen, batch: Option<map<string, Routing.SegmentResult>>, key: string)
    ensures |s.locations| < 2 ==>
      RoutesCalculated(s, batch).routeCoordinates == map[] && RoutesCalculated(s, batch).routeInfos == map[]
    ensures |s.locations| >= 2 && batch.Some? ==>
      var u := RoutesCalculated(s, batch);
      var name := ProfileName(s.transportMode);
      && u.routeInfos.Keys == batch.value.Keys
      && u.routeCoordinates.Keys <= batch.value.Keys
      && (key in batch.value ==>
            (key in u.routeCoordinates <==>
               name in batch.value[key].routes && batch.value[key].routes[name].geometry.coordinates.Some?))
    ensures RoutesCalculated(s, batch).locations == s.locations
  {
    if |s.locations| >= 2 && batch.Some? && key in batch.value {
      PolylineSpec(batch.value[key], s.transportMode);
    }
  }

  // ---------------------------------------------------------------------
  // Recommendations
  // ---------------------------------------------------------------------

  /** The POI ids of the confirmed locations, in itinerary order. */
  function ConfirmedIds(locs: seq<MobileLocation>): seq<int> {
    if locs == [] then []
    else
      var prev := ConfirmedIds(locs[..|locs| - 1]);
      if locs[|locs| - 1].confirmed then prev + [locs[|locs| - 1].poiId] else prev
  }

  /** The route the recommendations are requested for: none while the
      itinerary is empty (the list is cleared instead). */
  function RecommendationRoute(locs: seq<MobileLocation>): Option<seq<int>> {
    if locs == [] then None else Some(ConfirmedIds(locs))
  }

  /** The route keeps itinerary order: it is the route of the first part
      followed by the route of the rest. */
  lemma {:induction false} ConfirmedIdsAppend(a: seq<MobileLocation>, b: seq<MobileLocation>)
    ensures ConfirmedIds(a + b) == ConfirmedIds(a) + ConfirmedIds(b)
  {
    if b == [] {
      assert a + b == a;
    } else {
      var m := |b| - 1;
      assert (a + b)[..|a + b| - 1] == a + b[..m];
      ConfirmedIdsAppend(a, b[..m]);
    }
  }

  /** An id is requested exactly when a confirmed location carries it, and
      when every location is confirmed the route is all their ids in order. */
  lemma {:induction false} ConfirmedIdsSpec(locs: seq<MobileLocation>)
    ensures |ConfirmedIds(locs)| <= |locs|
    ensures forall x :: x in ConfirmedIds(locs) <==> exists l :: l in locs && l.confirmed && l.poiId == x
    ensures (forall i :: 0 <= i < |locs| ==> locs[i].confirmed) ==>
              ConfirmedIds(locs) == seq(|locs|, i requires 0 <= i < |locs| => locs[i].poiId)
  {
    if locs != [] {
      var m := |locs| - 1;
      ConfirmedIdsSpec(locs[..m]);
      assert locs == locs[..m] + [locs[m]];
      assert forall l :: l in locs <==> l in locs[..m] || l == locs[m];
    }
  }

  // ---------------------------------------------------------------------
  // Handlers, as functions of the state
  // ---------------------------------------------------------------------

  /** `addPOIToItinerary`: a new unconfirmed location from 09:00 to 10:00
      today, tagged with the POI's theme, at `[long, lat]`. */
  function AddPoi(s: Screen, poi: MobilePoi, today: string, now: nat): Screen {
    s.(pending := Some(Location(NatToString(now), poi.poiID, poi.poiName, poi.theme, [poi.theme], today,
                                "09:00", "10:00", Routing.Point(poi.long, poi.lat), false)))
  }

  /** `confirmLocation`. */
  function Confirm(s: Screen): Screen {
    if s.pending.Some? then
      s.(locations := s.locations + [s.pending.value.(confirmed := true)], pending := None)
    else s
  }

  /** `handlePendingTimeChange`: edits the waiting location, if any. */
  function PendingTimeChange(s: Screen, field: TimeField, value: string): Screen {
    if s.pending.Some? then s.(pending := Some(WithField(s.pending.value, field, value))) else s
  }

  /** `cancelPendingLocation`. */
  function Cancel(s: Screen): Screen {
    s.(pending := None)
  }

  /** An edit of the waiting location reaches the itinerary only through a
      confirmation, which appends the edited location; the itinerary itself is
      left alone by the edit. */
  lemma PendingEditThenConfirm(s: Screen, field: TimeField, value: string)
    requires s.pending.Some?
    ensures PendingTimeChange(s, field, value).locations == s.locations
    ensures Confirm(PendingTimeChange(s, field, value)).locations
              == s.locations + [WithField(s.pending.value, field, value).(confirmed := true)]
    ensures Confirm(Cancel(s)) == Cancel(s) && Cancel(s).locations == s.locations
  {
  }

  /** `removeLocation`. */
  function Remove(s: Screen, id: string): Screen {
    s.(locations := Without(s.locations, id))
  }

  /** `handleTimeChange`. */
  function TimeChanged(s: Screen, id: string, field: TimeField, value: string): Screen {
    s.(locations := TimeChange(s.locations, id, field, value))
  }

  /** Every location of the itinerary is confirmed. */
  predicate AllConfirmed(locs: seq<MobileLocation>) {
    forall i :: 0 <= i < |locs| ==> locs[i].confirmed
  }

  /** Confirming, removing and editing times keep every location confirmed,
      so the filter on `confirmed` never drops a location of this screen and
      the recommendation route is every POI id of the itinerary. */
  lemma AllConfirmedKept(s: Screen, id: string, field: TimeField, value: string)
    requires AllConfirmed(s.locations)
    ensures AllConfirmed(Confirm(s).locations)
    ensures AllConfirmed(Remove(s, id).locations)
    ensures AllConfirmed(TimeChanged(s, id, field, value).locations)
    ensures ConfirmedIds(s.locations) == seq(|s.locations|, i requires 0 <= i < |s.locations| => s.locations[i].poiId)
  {
    assert AllConfirmed(Remove(s, id).locations) by {
      var r := Without(s.locations, id);
      WithoutSpec(s.locations, id);
      forall i | 0 <= i < |r| ensures r[i].confirmed {
        assert r[i] in r;
      }
    }
    assert AllConfirmed(TimeChanged(s, id, field, value).locations) by {
      var r := TimeChange(s.locations, id, field, value);
      forall i | 0 <= i < |r| ensures r[i].confirmed {
        TimeChangeSpec(s.locations, id, field, value, i);
      }
    }
    ConfirmedIdsSpec(s.locations);
  }

  /** Confirming the POI just added appends it, confirmed, at `[long, lat]`,
      and appends its id to the recommendation route. */
  lemma AddThenConfirm(s: Screen, poi: MobilePoi, today: string, now: nat)
    ensures var u := Confirm(AddPoi(s, poi, today, now));
      && u.pending.None?
      && |u.locations| == |s.locations| + 1 && u.locations[..|s.locations|] == s.locations
      && u.locations[|s.locations|].confirmed
      && u.locations[|s.locations|].coordinates == Routing.Point(poi.long, poi.lat)
      && u.locations[|s.locations|].startTime == "09:00" && u.locations[|s.locations|].endTime == "10:00"
      && RecommendationRoute(u.locations) == Some(ConfirmedIds(s.locations) + [poi.poiID])
  {
    var u := Confirm(AddPoi(s, poi, today, now));
    assert u.locations[..|s.locations|] == s.locations;
    ConfirmedIdsAppend(s.locations, [u.locations[|s.locations|]]);
    assert ConfirmedIds([u.locations[|s.locations|]]) == [poi.poiID] by {
      assert [u.locations[|s.locations|]][..0] == [];
    }
  }

  // ---------------------------------------------------------------------
  // Saving and loading
  // ---------------------------------------------------------------------

  /** A row of `itinerary_locations` as the screen inserts it; `None` is SQL
      null.  The `itinerary_id` column is left out. */
  datatype LocationRow = LocationRow(poiId: int, name: string, category: string, latitude: real, longitude: real,
                                     visitDate: Option<string>, startTime: Option<string>, endTime: Option<string>,
                                     orderIndex: nat)

  /** `value || null` on a string. */
  function OrNull(s: string): Option<string> {
    if s == "" then None else Some(s)
  }

  /** `value || ''` on a nullable string. */
  function OrEmpty(o: Option<string>): string {
    if o.Some? then o.value else ""
  }

  function RowOf(loc: MobileLocation, index: nat): LocationRow {
    LocationRow(loc.poiId, loc.name, loc.category, loc.coordinates.lat, loc.coordinates.lon,
                OrNull(loc.date), OrNull(loc.startTime), OrNull(loc.endTime), index)
  }

  /** The rows `saveItinerary` inserts, one per location in order. */
  function Rows(locs: seq<MobileLocation>): seq<LocationRow> {
    seq(|locs|, i requires 0 <= i < |locs| => RowOf(locs[i], i))
  }

  /** Why a save stops before reaching the database, or the rows it inserts. */
  datatype SaveOutcome = NotSignedIn | NoLocations | Insert(rows: seq<LocationRow>)

  /** `saveItinerary` up to the insert: refused without a user, then
      refused for an empty itinerary. */
  function Save(signedIn: bool, locs: seq<MobileLocation>): SaveOutcome {
    if !signedIn then NotSignedIn
    else if locs == [] then NoLocations
    else Insert(Rows(locs))
  }

  /** A save inserts rows only for a signed-in user with at least one
      location; the rows are the locations in order, `order_index` counting
      from 0, latitude from `coordinates[1]`, longitude from `coordinates[0]`,
      and an empty date or time stored as null. */
  lemma SaveSpec(signedIn: bool, locs: seq<MobileLocation>)
    ensures Save(signedIn, locs).Insert? <==> signedIn && locs != []
    ensures !signedIn ==> Save(signedIn, locs) == NotSignedIn
    ensures Save(signedIn, locs).Insert? ==>
      var rows := Save(signedIn, locs).rows;
      && |rows| == |locs|
      && forall i :: 0 <= i < |rows| ==>
           && rows[i].orderIndex == i
           && rows[i].latitude == locs[i].coordinates.lat && rows[i].longitude == locs[i].coordinates.lon
           && rows[i].poiId == locs[i].poiId
           && (rows[i].visitDate.None? <==> locs[i].date == "")
           && (rows[i].startTime.None? <==> locs[i].startTime == "")
           && (rows[i].endTime.None? <==> locs[i].endTime == "")
  {
  }

  /** A row as a query returns it: the database's own id and the saved columns. */
  datatype StoredRow = StoredRow(id: string, row: LocationRow)

  /** The location `loadItinerary` makes of a row. */
  function LocationOfRow(r: StoredRow): MobileLocation {
    Location(r.id, r.row.poiId, r.row.name, if r.row.category == "" then "Other" else r.row.category, [],
             OrEmpty(r.row.visitDate), OrEmpty(r.row.startTime), OrEmpty(r.row.endTime),
             Routing.Point(r.row.longitude, r.row.latitude), true)
  }

  /** The locations `loadItinerary` makes of the rows, in the order the query
      returned them (ascending `order_index`). */
  function Loaded(rows: seq<StoredRow>): seq<MobileLocation> {
    seq(|rows|, i requires 0 <= i < |rows| => LocationOfRow(rows[i]))
  }

  /** The saved rows as the database holds them, under the ids it gave. */
  function Stored(rows: seq<LocationRow>, ids: seq<string>): seq<StoredRow>
    requires |ids| == |rows|
  {
    seq(|rows|, i requires 0 <= i < |rows| => StoredRow(ids[i], rows[i]))
  }

  /** Saving then loading gives the locations back in the same order, with
      the same POI, name, coordinates, date and times; what changes is the
      id (the database's), the tags (dropped), an empty category (now
      "Other") and `confirmed` (now true).  The saved `order_index` values
      are 0, 1, 2, ... in itinerary order, so ordering by them returns the
      rows as saved. */
  lemma SaveThenLoad(locs: seq<MobileLocation>, ids: seq<string>)
    requires |ids| == |locs|
    ensures forall i, j :: 0 <= i < j < |locs| ==> Rows(locs)[i].orderIndex < Rows(locs)[j].orderIndex
    ensures Loaded(Stored(Rows(locs), ids)) ==
      seq(|locs|, i requires 0 <= i < |locs| =>
        locs[i].(id := ids[i], tags := [], confirmed := true,
                 category := if locs[i].category == "" then "Other" else locs[i].category))
  {
    var l := Loaded(Stored(Rows(locs), ids));
    forall i | 0 <= i < |locs|
      ensures l[i] == locs[i].(id := ids[i], tags := [], confirmed := true,
                               category := if locs[i].category == "" then "Other" else locs[i].category)
    {
      assert OrEmpty(OrNull(locs[i].date)) == locs[i].date;
      assert OrEmpty(OrNull(locs[i].startTime)) == locs[i].startTime;
      assert OrEmpty(OrNull(locs[i].endTime)) == locs[i].endTime;
    }
  }

  /** Loading rows saved by the screen and saving them again writes the
      same rows, as long as no category was empty and no date or time was
      stored as an empty string. */
  lemma LoadThenSave(stored: seq<StoredRow>)
    requires forall i :: 0 <= i < |stored| ==> stored[i].row.orderIndex == i && stored[i].row.category != ""
    requires forall i :: 0 <= i < |stored| ==>
      stored[i].row.visitDate != Some("") && stored[i].row.startTime != Some("") && stored[i].row.endTime != Some("")
    ensures Rows(Loaded(stored)) == seq(|stored|, i requires 0 <= i < |stored| => stored[i].row)
  {
    var r := Rows(Loaded(stored));
    forall i | 0 <= i < |stored|
      ensures r[i] == stored[i].row
    {
      var row := stored[i].row;
      assert OrNull(OrEmpty(row.visitDate)) == row.visitDate;
      assert OrNull(OrEmpty(row.startTime)) == row.startTime;
      assert OrNull(OrEmpty(row.endTime)) == row.endTime;
    }
  }

  /** An `itineraries` record as the query returns it; `None` is null. */
  datatype ItineraryRecord = ItineraryRecord(name: Option<string>, dateFrom: Option<string>, dateTo: Option<string>,
                                             description: Option<string>)

  /** `loadItinerary`: the metadata with its defaults, then the locations. */
  function Load(s: Screen, record: ItineraryRecord, rows: seq<StoredRow>): Screen {
    var description := OrEmpty(record.description);
    var name := OrEmpty(record.name);
    s.(title := if name == "" then "My Trip" else name,
       dateFrom := OrEmpty(record.dateFrom), dateTo := OrEmpty(record.dateTo),
       description := if description == "" then "Add a description..." else description,
       locations := Loaded(rows))
  }

  /** A loaded itinerary is all confirmed, in the rows' order, at the rows'
      `[longitude, latitude]`, and the pending location is left alone. */
  lemma LoadSpec(s: Screen, record: ItineraryRecord, rows: seq<StoredRow>)
    ensures var u := Load(s, record, rows);
      && AllConfirmed(u.locations) && |u.locations| == |rows| && u.pending == s.pending
      && (forall i :: 0 <= i < |rows| ==>
            u.locations[i].coordinates == Routing.Point(rows[i].row.longitude, rows[i].row.latitude)
            && u.locations[i].id == rows[i].id && u.locations[i].category != "")
      && u.title != "" && u.description != ""
  {
  }

  // ---------------------------------------------------------------------
  // The screen
  // ---------------------------------------------------------------------

  /** The screen's state variables. */
  class MapScreen {
    var locations: seq<MobileLocation>
    var pending: Option<MobileLocation>
    var routeCoordinates: map<string, seq<LatLng>>
    var routeInfos: map<string, RouteInfo>
    var transportMode: Profile
    var title: string
    var dateFrom: string
    var dateTo: string
    var description: string

    function State(): Screen
      reads this
    {
      Screen(locations, pending, routeCoordinates, routeInfos, transportMode, title, dateFrom, dateTo, description)
    }

    /** Every location of the screen is confirmed. */
    ghost predicate Valid()
      reads this
    {
      AllConfirmed(locations)
    }

    constructor ()
      ensures State() == Initial && Valid()
    {
      locations, pending := [], None;
      routeCoordinates, routeInfos, transportMode := map[], map[], Car;
      title, dateFrom, dateTo, description := "My Trip", "", "", "Add a description...";
    }

    /** The effect that runs when the locations or the mode change; the
        backend's answer to the request is `backend`. */
    method CalculateRoutes(backend: seq<Segment<Routing.Point>> -> Option<map<string, Routing.SegmentResult>>)
      modifies this
      ensures State() == RoutesCalculated(old(State()), backend(Segments(old(locations))))
    {
      if |locations| < 2 {
        routeCoordinates, routeInfos := map[], map[];
        return;
      }
      var segments := BuildSegments(locations);
      var batch := backend(segments);
      if batch.None? {
        return;
      }
      routeInfos, routeCoordinates := ProcessBatch(batch.value, transportMode);
    }

    method SetTransportMode(mode: Profile)
      modifies this
      ensures State() == old(State()).(transportMode := mode)
      ensures Valid() == old(Valid())
    {
      transportMode := mode;
    }

    method AddPoiToItinerary(poi: MobilePoi, today: string, now: nat)
      modifies this
      ensures State() == AddPoi(old(State()), poi, today, now)
      ensures Valid() == old(Valid())
    {
      pending := Some(Location(NatToString(now), poi.poiID, poi.poiName, poi.theme, [poi.theme], today,
                               "09:00", "10:00", Routing.Point(poi.long, poi.lat), false));
    }

    method HandlePendingTimeChange(field: TimeField, value: string)
      modifies this
      ensures State() == PendingTimeChange(old(State()), field, value)
      ensures Valid() == old(Valid())
    {
      if pending.Some? {
        pending := Some(WithField(pending.value, field, value));
      }
    }

    method CancelPendingLocation()
      modifies this
      ensures State() == Cancel(old(State()))
      ensures Valid() == old(Valid())
    {
      pending := None;
    }

    method ConfirmLocation()
      modifies this
      requires Valid()
      ensures State() == Confirm(old(State())) && Valid()
    {
      AllConfirmedKept(State(), "", StartTime, "");
      if pending.Some? {
        locations := locations + [pending.value.(confirmed := true)];
        pending := None;
      }
    }

    method RemoveLocation(id: string)
      modifies this
      requires Valid()
      ensures State() == Remove(old(State()), id) && Valid()
    {
      AllConfirmedKept(State(), id, StartTime, "");
      locations := Without(locations, id);
    }

    method HandleTimeChange(id: string, field: TimeField, value: string)
      modifies this
      requires Valid()
      ensures State() == TimeChanged(old(State()), id, field, value) && Valid()
    {
      AllConfirmedKept(State(), id, field, value);
      locations := TimeChange(locations, id, field, value);
    }

    /** `saveItinerary`; the database keeps the rows. */
    method SaveItinerary(signedIn: bool) returns (outcome: SaveOutcome)
      ensures outcome == Save(signedIn, locations)
    {
      if !signedIn {
        return NotSignedIn;
      }
      if |locations| == 0 {
        return NoLocations;
      }
      outcome := Insert(Rows(locations));
    }

    method LoadItinerary(record: ItineraryRecord, rows: seq<StoredRow>)
      modifies this
      ensures State() == Load(old(State()), record, rows) && Valid()
    {
      var name := OrEmpty(record.name);
      var text := OrEmpty(record.description);
      title := if name == "" then "My Trip" else name;
      dateFrom, dateTo := OrEmpty(record.dateFrom), OrEmpty(record.dateTo);
      description := if text == "" then "Add a description..." else text;
      locations := Loaded(rows);
    }
  }
}
