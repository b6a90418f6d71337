/** What the web map page (`lakbai/src/pages/Map.tsx`) and the mobile map
    screen (`lakbai-mobile/src/screens/MapScreen.tsx`) share: the itinerary
    stop, the time edits, removal by id, the batch request of consecutive
    pairs and the duration labels of a segment's routes.  A stop is generic
    in how its POI id and its `[long, lat]` pair are held, which is where
    the two clients differ. */
module Itinerary {
  import opened Wrappers
  import opened Text
  import Routing

  /** A stop of the itinerary. */
  datatype Location<Id, P> = Location(id: string, poiId: Id, name: string, category: string,
                                      tags: seq<string>, date: string, startTime: string, endTime: string,
                                      coordinates: P, confirmed: bool)

  /** The three travel profiles the clients ask for. */
  datatype Profile = Car | Bicycle | Foot

  /** The profile's name, as the routing API keys its answer. */
  function ProfileName(p: Profile): string {
    match p
    case Car => "car"
    case Bicycle => "bicycle"
    case Foot => "foot"
  }

  /** The fields a time edit may change. */
  datatype TimeField = StartTime | EndTime | Date

  // ---------------------------------------------------------------------
  // Time edits and removal
  // ---------------------------------------------------------------------

  function WithField<Id, P>(loc: Location<Id, P>, field: TimeField, value: string): Location<Id, P> {
    match field
    case StartTime => loc.(startTime := value)
    case EndTime => loc.(endTime := value)
    case Date => loc.(date := value)
  }

  /** `handleTimeChange` of both clients: the named field of the location with that id takes the value. */
  function TimeChange<Id, P>(locs: seq<Location<Id, P>>, id: string, field: TimeField, value: string): seq<Location<Id, P>> {
    seq(|locs|, i requires 0 <= i < |locs| => if locs[i].id == id then WithField(locs[i], field, value) else locs[i])
  }

  /** Only the named field of the locations with that id changes: the
      length, the order, the ids and every other location stay. */
  lemma TimeChangeSpec<Id, P>(locs: seq<Location<Id, P>>, id: string, field: TimeField, value: string, i: nat)
    requires i < |locs|
    ensures |TimeChange(locs, id, field, value)| == |locs|
    ensures var l := TimeChange(locs, id, field, value)[i];
      && (locs[i].id != id ==> l == locs[i])
      && (locs[i].id == id ==>
            && l.id == id && l.poiId == locs[i].poiId && l.coordinates == locs[i].coordinates
            && l.confirmed == locs[i].confirmed && l.name == locs[i].name
            && (field == StartTime ==> l.startTime == value && l.endTime == locs[i].endTime && l.date == locs[i].date)
            && (field == EndTime ==> l.endTime == value && l.startTime == locs[i].startTime && l.date == locs[i].date)
            && (field == Date ==> l.date == value && l.startTime == locs[i].startTime && l.endTime == locs[i].endTime))
  {
  }

  /** Setting the same value twice is setting it once, and edits of
      different fields commute. */
  lemma TimeChangeAlgebra<Id, P>(locs: seq<Location<Id, P>>, id: string, f: TimeField, g: TimeField, v: string, w: string)
    ensures TimeChange(TimeChange(locs, id, f, v), id, f, v) == TimeChange(locs, id, f, v)
    ensures f != g ==>
      TimeChange(TimeChange(locs, id, f, v), id, g, w) == TimeChange(TimeChange(locs, id, g, w), id, f, v)
  {
  }
  /** The locations whose id is not `id`, in order. */
  function Without<Id, P>(locs: seq<Location<Id, P>>, id: string): seq<Location<Id, P>> {
    if locs == [] then []
    else
      var prev := Without(locs[..|locs| - 1], id);
      if locs[|locs| - 1].id != id then prev + [locs[|locs| - 1]] else prev
  }

  /** A location survives the removal exactly when its id is another one;
      with distinct ids exactly one location goes when the id is present. */
  lemma WithoutSpec<Id, P>(locs: seq<Location<Id, P>>, id: string)
    ensures forall l :: l in Without(locs, id) <==> l in locs && l.id != id
    ensures |Without(locs, id)| <= |locs|
    ensures (forall i :: 0 <= i < |locs| ==> locs[i].id != id) ==> Without(locs, id) == locs
  {
    WithoutMembers(locs, id);
    WithoutKeepsAll(locs, id);
  }

  lemma {:induction false} WithoutMembers<Id, P>(locs: seq<Location<Id, P>>, id: string)
    ensures forall l :: l in Without(locs, id) <==> l in locs && l.id != id
    ensures |Without(locs, id)| <= |locs|
  {
    if locs != [] {
      var m := |locs| - 1;
      WithoutMembers(locs[..m], id);
      assert locs == locs[..m] + [locs[m]];
    }
  }

  lemma {:induction false} WithoutKeepsAll<Id, P>(locs: seq<Location<Id, P>>, id: string)
    ensures (forall i :: 0 <= i < |locs| ==> locs[i].id != id) ==> Without(locs, id) == locs
  {
    if locs != [] && forall i :: 0 <= i < |locs| ==> locs[i].id != id {
      var m := |locs| - 1;
      WithoutKeepsAll(locs[..m], id);
      assert locs == locs[..m] + [locs[m]];
    }
  }

  /** With distinct ids, removing a present id drops exactly that location. */
  lemma {:induction false} WithoutRemovesOne<Id, P>(locs: seq<Location<Id, P>>, id: string, k: nat)
    requires k < |locs| && locs[k].id == id
    requires forall i, j :: 0 <= i < j < |locs| ==> locs[i].id != locs[j].id
    ensures Without(locs, id) == locs[..k] + locs[k + 1..]
  {
    var m := |locs| - 1;
    if k == m {
      WithoutSpec(locs[..m], id);
    } else {
      WithoutRemovesOne(locs[..m], id, k);
      assert locs[..m][..k] == locs[..k];
      assert locs[..m][k + 1..] + [locs[m]] == locs[k + 1..];
    }
  }

  // ---------------------------------------------------------------------
  // Segments
  // ---------------------------------------------------------------------

  /** One element of the batch request. */
  datatype Segment<P> = Segment(id: string, from: P, to: P)

  /** The key of the pair `from`, `to`: `${from.id}-${to.id}`. */
  function PairKey(from: string, to: string): string {
    from + "-" + to
  }

  function SegmentOf<Id, P>(from: Location<Id, P>, to: Location<Id, P>): Segment<P> {
    Segment(PairKey(from.id, to.id), from.coordinates, to.coordinates)
  }

  /** The batch request for the locations: one segment per consecutive pair. */
  function Segments<Id, P>(locs: seq<Location<Id, P>>): seq<Segment<P>> {
    if |locs| < 2 then []
    else Segments(locs[..|locs| - 1]) + [SegmentOf(locs[|locs| - 2], locs[|locs| - 1])]
  }

  /** There are n-1 segments for n >= 2 locations and none for fewer; the
      i-th joins location i to location i+1 and is keyed by their ids. */
  lemma {:induction false} SegmentsSpec<Id, P>(locs: seq<Location<Id, P>>)
    ensures |Segments(locs)| == if |locs| < 2 then 0 else |locs| - 1
    ensures forall i :: 0 <= i < |Segments(locs)| ==>
              Segments(locs)[i] == Segment(PairKey(locs[i].id, locs[i + 1].id), locs[i].coordinates, locs[i + 1].coordinates)
  {
    if |locs| >= 2 {
      var m := |locs| - 1;
      SegmentsSpec(locs[..m]);
    }
  }

  /** The loop of both clients' `calculateRoutes` that builds the request;
      it does nothing for fewer than two locations. */
  method BuildSegments<Id, P>(locs: seq<Location<Id, P>>) returns (segments: seq<Segment<P>>)
    ensures segments == Segments(locs)
  {
    segments := [];
    if |locs| < 2 {
      return;
    }
    for i := 0 to |locs| - 1
      invariant segments == Segments(locs[..i + 1])
    {
      assert locs[..i + 2][..i + 1] == locs[..i + 1];
      segments := segments + [SegmentOf(locs[i], locs[i + 1])];
    }
    assert locs[..|locs|] == locs;
  }

  /** The text before the first dash. */
  function BeforeDash(s: string): (r: string)
    ensures |r| <= |s| && r == s[..|r|]
  {
    if s == [] || s[0] == '-' then [] else [s[0]] + BeforeDash(s[1..])
  }

  lemma {:induction false} BeforeDashOfPairKey(a: string, b: string)
    requires '-' !in a
    ensures BeforeDash(PairKey(a, b)) == a
  {
    if a != [] {
      assert PairKey(a, b)[1..] == PairKey(a[1..], b);
      BeforeDashOfPairKey(a[1..], b);
    }
  }

  /** Ids without a dash give distinct keys to distinct pairs: the key
      determines both ids. */
  lemma PairKeyInjective(a: string, b: string, c: string, d: string)
    requires '-' !in a && '-' !in c
    requires PairKey(a, b) == PairKey(c, d)
    ensures a == c && b == d
  {
    var k := PairKey(a, b);
    BeforeDashOfPairKey(a, b);
    BeforeDashOfPairKey(c, d);
    assert b == k[|a| + 1..] == d;
  }

  /** Locations with distinct, dash-free ids give segments with distinct
      ids, so the batch answer has one entry per segment. */
  lemma SegmentIdsDistinct<Id, P>(locs: seq<Location<Id, P>>)
    requires forall i :: 0 <= i < |locs| ==> '-' !in locs[i].id
    requires forall i, j :: 0 <= i < j < |locs| ==> locs[i].id != locs[j].id
    ensures forall i, j :: 0 <= i < j < |Segments(locs)| ==> Segments(locs)[i].id != Segments(locs)[j].id
  {
    SegmentsSpec(locs);
    forall i, j | 0 <= i < j < |Segments(locs)|
      ensures Segments(locs)[i].id != Segments(locs)[j].id
    {
      if Segments(locs)[i].id == Segments(locs)[j].id {
        PairKeyInjective(locs[i].id, locs[i + 1].id, locs[j].id, locs[j + 1].id);
      }
    }
  }

  /** `RouteInfo`: a duration label per profile and the distance label. */
  datatype RouteInfo = RouteInfo(car: string, bicycle: string, foot: string, distance: Routing.DistanceLabel)

  /** `routeData.p ? `${routeData.p.duration}m` : '0m'`. */
  function DurationLabel(routes: map<string, Routing.RouteData>, p: string): string {
    if p in routes then IntToString(routes[p].duration) + "m" else "0m"
  }

  /** The labels of one segment's answer. */
  function InfoOf(r: Routing.SegmentResult): RouteInfo {
    RouteInfo(DurationLabel(r.routes, "car"), DurationLabel(r.routes, "bicycle"),
              DurationLabel(r.routes, "foot"), r.distanceFormatted)
  }

  /** A label is minutes followed by "m": reading back the part before the
      "m" gives the route's duration, and "0m" stands both for a missing
      route and for a zero-minute one. */
  lemma DurationLabelSpec(routes: map<string, Routing.RouteData>, p: string)
    ensures var l := DurationLabel(routes, p);
      && |l| >= 2 && l[|l| - 1] == 'm'
      && (p in routes ==> ParseInt(l[..|l| - 1]) == Some(routes[p].duration))
      && (l == "0m" <==> p !in routes || routes[p].duration == 0)
  {
    var l := DurationLabel(routes, p);
    if p in routes {
      var d := routes[p].duration;
      var s := IntToString(d);
      assert l[..|l| - 1] == s;
      ParseIntRoundTrip(d);
      if l == "0m" {
        assert s == "0";
      }
    }
  }

  /** The labels of every segment of a batch answer. */
  function InfosOf(results: map<string, Routing.SegmentResult>): map<string, RouteInfo> {
    map k | k in results :: InfoOf(results[k])
  }
}
