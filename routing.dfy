/** The route lookup service of `backend/routing_api.py`: profile mapping,
    the memoised engine fetch (`functools.lru_cache(maxsize=1000)`), the
    single-segment and batch handlers, and cache introspection.

    The memo is specified by the pure datatype `Memo` and the function
    `Served`, which follow the documented `lru_cache` semantics: a key-to-value
    map, a recency order (least recently used first), hit and miss counters,
    and eviction of the least recently used key when a miss finds the cache
    full.  `RouteCache` holds the same four fields and each of its methods is
    proved to move its state exactly as `Served` says.  The routing engine
    (an HTTP request to OSRM) is the `Engine` class: its replies come from a
    function of the endpoint, the key and how many requests came before, and
    it records every request, so that "no engine call" can be stated. */
module Routing {
  import opened Wrappers

  // ---------------------------------------------------------------------
  // Profiles and endpoints
  // ---------------------------------------------------------------------

  /** The three engine base URLs (`OSRM_CAR_URL`, `OSRM_BICYCLE_URL`, `OSRM_FOOT_URL`). */
  datatype Endpoint = CarEndpoint | BicycleEndpoint | FootEndpoint

  function LowerChar(c: char): char {
    if 'A' <= c <= 'Z' then (c as int + 32) as char else c
  }

  /** `str.lower()` on the ASCII letters. */
  function Lower(s: string): (r: string)
    ensures |r| == |s| && forall i :: 0 <= i < |s| ==> r[i] == LowerChar(s[i])
  {
    if s == [] then [] else [LowerChar(s[0])] + Lower(s[1..])
  }

  /** The dictionary literal inside `get_osrm_url`, in its written order. */
  const UrlTable: seq<(string, Endpoint)> := [
    ("driving", CarEndpoint), ("car", CarEndpoint),
    ("cycling", BicycleEndpoint), ("bicycle", BicycleEndpoint),
    ("foot", FootEndpoint), ("walking", FootEndpoint)
  ]

  /** `dict.get` on a table written as a list of pairs. */
  function TableGet<V>(table: seq<(string, V)>, key: string): Option<V> {
    if table == [] then None
    else if table[0].0 == key then Some(table[0].1)
    else TableGet(table[1..], key)
  }

  /** `get_osrm_url`: look the lower-cased profile up, falling back to the car endpoint. */
  function OsrmUrl(profile: string): Endpoint {
    TableGet(UrlTable, Lower(profile)).GetOr(CarEndpoint)
  }

  /** `get_osrm_url` is case-insensitive and sends `car`/`driving` to the car
      engine, `bicycle`/`cycling` to the bicycle engine, `foot`/`walking` to
      the foot engine and every other name to the car engine. */
  lemma OsrmUrlCases(profile: string)
    ensures var p := Lower(profile);
      && (OsrmUrl(profile) == BicycleEndpoint <==> p == "cycling" || p == "bicycle")
      && (OsrmUrl(profile) == FootEndpoint <==> p == "foot" || p == "walking")
      && (OsrmUrl(profile) == CarEndpoint <==> p !in {"cycling", "bicycle", "foot", "walking"})
  {
    var p, t := Lower(profile), UrlTable;
    assert TableGet(t, p) == if p == "driving" then Some(CarEndpoint) else TableGet(t[1..], p);
    assert TableGet(t[1..], p) == if p == "car" then Some(CarEndpoint) else TableGet(t[2..], p);
    assert TableGet(t[2..], p) == if p == "cycling" then Some(BicycleEndpoint) else TableGet(t[3..], p);
    assert TableGet(t[3..], p) == if p == "bicycle" then Some(BicycleEndpoint) else TableGet(t[4..], p);
    assert TableGet(t[4..], p) == if p == "foot" then Some(FootEndpoint) else TableGet(t[5..], p);
    assert TableGet(t[5..], p) == if p == "walking" then Some(FootEndpoint) else TableGet(t[6..], p);
    assert t[6..] == [];
  }

  /** The handlers' own table: the caller's `car`, `bicycle`, `foot` become the
      engine's `driving`, `cycling`, `foot`; any other name becomes `driving`.
      Unlike `get_osrm_url` this lookup is case-sensitive. */
  const ProfileTable: seq<(string, string)> := [
    ("car", "driving"), ("bicycle", "cycling"), ("foot", "foot")
  ]

  function EngineProfile(requested: string): string {
    TableGet(ProfileTable, requested).GetOr("driving")
  }

  /** Every requested name reaches one of the three engine profiles, and an
      unknown one (including a differently-cased known one) silently becomes
      `driving`. */
  lemma EngineProfileCases(requested: string)
    ensures EngineProfile(requested) in {"driving", "cycling", "foot"}
    ensures requested !in {"car", "bicycle", "foot"} ==> EngineProfile(requested) == "driving"
    ensures requested == "bicycle" <==> EngineProfile(requested) == "cycling"
    ensures requested == "foot" <==> EngineProfile(requested) == "foot"
    ensures OsrmUrl(EngineProfile(requested)) ==
      if requested == "bicycle" then BicycleEndpoint
      else if requested == "foot" then FootEndpoint
      else CarEndpoint
  {
    EngineProfileValue(requested);
    EngineEndpoints();
  }

  /** The three engine profiles reach their own engines. */
  lemma EngineEndpoints()
    ensures OsrmUrl("driving") == CarEndpoint
    ensures OsrmUrl("cycling") == BicycleEndpoint
    ensures OsrmUrl("foot") == FootEndpoint
  {
    var t := UrlTable;
    LowerOfLower("driving");
    LowerOfLower("cycling");
    assert TableGet(t, "cycling") == TableGet(t[2..], "cycling");
    LowerOfLower("foot");
    assert TableGet(t, "foot") == TableGet(t[4..], "foot");
  }

  /** A name without capitals is its own lower-case form. */
  lemma LowerOfLower(s: string)
    requires forall i :: 0 <= i < |s| ==> !('A' <= s[i] <= 'Z')
    ensures Lower(s) == s
  {
  }

  /** The handlers' table, entry by entry. */
  lemma EngineProfileValue(requested: string)
    ensures EngineProfile(requested) ==
      if requested == "car" then "driving"
      else if requested == "bicycle" then "cycling"
      else if requested == "foot" then "foot"
      else "driving"
  {
    var t := ProfileTable;
    assert TableGet(t, requested) == if requested == "car" then Some("driving") else TableGet(t[1..], requested);
    assert TableGet(t[1..], requested) == if requested == "bicycle" then Some("cycling") else TableGet(t[2..], requested);
    assert TableGet(t[2..], requested) == if requested == "foot" then Some("foot") else TableGet(t[3..], requested);
    assert t[3..] == [];
  }

  // ---------------------------------------------------------------------
  // Engine replies and their translation
  // ---------------------------------------------------------------------

  /** A `[longitude, latitude]` pair. */
  datatype Point = Point(lon: real, lat: real)

  /** A GeoJSON line; `coordinates` is absent when the engine sent none. */
  datatype Geometry = Geometry(coordinates: Option<seq<Point>>)

  /** One element of the engine's `routes` array. */
  datatype EngineRoute = EngineRoute(durationSeconds: real, distance: real, geometry: Geometry)

  /** What an engine request produced: a decoded JSON body, or `Failed` for
      anything that raised (connection error, timeout, HTTP error status,
      undecodable body). */
  datatype EngineReply = Reply(code: string, routes: seq<EngineRoute>) | Failed

  /** The record `fetch_route_cached` returns: minutes, metres, geometry. */
  datatype RouteData = RouteData(duration: int, distance: real, geometry: Geometry)

  /** Python's `round` on a number: to the nearest integer, ties to even. */
  function RoundHalfEven(x: real): int {
    var f := x.Floor;
    var frac := x - f as real;
    if frac < 0.5 then f
    else if frac > 0.5 then f + 1
    else if f % 2 == 0 then f else f + 1
  }

  lemma RoundHalfEvenSpec(x: real)
    ensures var r := RoundHalfEven(x);
      && -0.5 <= x - r as real <= 0.5
      && (x - r as real == 0.5 || x - r as real == -0.5 ==> r % 2 == 0)
  {
  }

  /** The body of `fetch_route_cached` after the request: a record only when
      the reply's code is `Ok` and `routes` is non-empty. */
  function Translate(reply: EngineReply): Option<RouteData> {
    match reply
    case Failed => None
    case Reply(code, routes) =>
      if code == "Ok" && |routes| > 0 then
        var route := routes[0];
        Some(RouteData(RoundHalfEven(route.durationSeconds / 60.0), route.distance, route.geometry))
      else None
  }

  /** A record comes back exactly for an `Ok` reply with routes; it holds the
      first route's duration in whole minutes (within half a minute), its
      distance in metres and its geometry, unchanged. */
  lemma TranslateSpec(reply: EngineReply)
    ensures Translate(reply).Some? <==> reply.Reply? && reply.code == "Ok" && |reply.routes| > 0
    ensures Translate(reply).Some? ==>
      var d := Translate(reply).value;
      var route := reply.routes[0];
      && -30.0 <= route.durationSeconds - 60.0 * d.duration as real <= 30.0
      && d.distance == route.distance
      && d.geometry == route.geometry
  {
    if Translate(reply).Some? {
      RoundHalfEvenSpec(reply.routes[0].durationSeconds / 60.0);
    }
  }

  // ---------------------------------------------------------------------
  // The memo: lru_cache semantics as a value
  // ---------------------------------------------------------------------

  /** The exact argument tuple `(from_coords, to_coords, profile)`. */
  datatype FetchKey = FetchKey(from: Point, to: Point, profile: string)

  /** `order` lists the cached keys from least to most recently used. */
  datatype Memo = Memo(order: seq<FetchKey>, entries: map<FetchKey, Option<RouteData>>, hits: nat, misses: nat)

  predicate Distinct<T(==)>(s: seq<T>) {
    forall i, j :: 0 <= i < j < |s| ==> s[i] != s[j]
  }

  /** The memo's invariant: the order lists each cached key once, the cache
      never holds more than `maxsize` entries. */
  ghost predicate Wf(m: Memo, maxsize: nat) {
    && Distinct(m.order)
    && (forall k :: k in m.entries <==> k in m.order)
    && |m.entries| == |m.order| <= maxsize
  }

  function RemoveKey(order: seq<FetchKey>, key: FetchKey): (r: seq<FetchKey>)
    ensures forall k :: k in r <==> k in order && k != key
    ensures Distinct(order) && key in order ==> Distinct(r) && |r| == |order| - 1
    ensures key !in order ==> r == order
  {
    if order == [] then []
    else if order[0] == key then
      assert Distinct(order) ==> key !in order[1..];
      RemoveKey(order[1..], key)
    else
      var rest := RemoveKey(order[1..], key);
      assert Distinct(order) ==> order[0] !in order[1..] && order[0] !in rest;
      [order[0]] + rest
  }

  /** Marks `key` as the most recently used. */
  function MoveToEnd(order: seq<FetchKey>, key: FetchKey): seq<FetchKey> {
    RemoveKey(order, key) + [key]
  }

  /** One call of the memoised function: the new memo and the value returned.
      `reply` is what the engine would answer now; it is used only on a miss. */
  function Served(m: Memo, key: FetchKey, reply: EngineReply, maxsize: nat): (Memo, Option<RouteData>) {
    if key in m.entries then
      (Memo(MoveToEnd(m.order, key), m.entries, m.hits + 1, m.misses), m.entries[key])
    else
      var v := Translate(reply);
      if maxsize == 0 then
        (Memo(m.order, m.entries, m.hits, m.misses + 1), v)
      else if |m.order| >= maxsize then
        (Memo(m.order[1..] + [key], (m.entries - {m.order[0]})[key := v], m.hits, m.misses + 1), v)
      else
        (Memo(m.order + [key], m.entries[key := v], m.hits, m.misses + 1), v)
  }

  /** Serving a call keeps the invariant, so the cache never holds more than
      `maxsize` entries; every call counts exactly one hit or one miss. */
  lemma ServedKeepsWf(m: Memo, key: FetchKey, reply: EngineReply, maxsize: nat)
    requires Wf(m, maxsize)
    ensures Wf(Served(m, key, reply, maxsize).0, maxsize)
    ensures var m' := Served(m, key, reply, maxsize).0;
      m'.hits + m'.misses == m.hits + m.misses + 1
  {
    if key in m.entries {
      var r := RemoveKey(m.order, key);
      DistinctSnoc(r, key);
    } else if maxsize != 0 && |m.order| >= maxsize {
      EvictKeepsWf(m, key, Translate(reply), maxsize);
    } else if maxsize != 0 {
      DistinctSnoc(m.order, key);
    }
  }

  lemma DistinctSnoc(s: seq<FetchKey>, k: FetchKey)
    requires Distinct(s) && k !in s
    ensures Distinct(s + [k])
  {
  }

  /** A miss on a full cache drops the least recently used entry and keeps
      the invariant. */
  lemma EvictKeepsWf(m: Memo, key: FetchKey, v: Option<RouteData>, maxsize: nat)
    requires Wf(m, maxsize) && key !in m.entries && maxsize != 0 && |m.order| >= maxsize
    ensures Wf(Memo(m.order[1..] + [key], (m.entries - {m.order[0]})[key := v], m.hits, m.misses + 1), maxsize)
  {
    var old0 := m.order[0];
    var order := m.order[1..];
    assert old0 !in order && forall i :: 0 <= i < |order| ==> order[i] == m.order[i + 1];
    DistinctSnoc(order, key);
    assert old0 in m.entries;
    ReplaceSize(m.entries, old0, key, v);
  }

  /** Dropping one key and adding a new one keeps a map's size. */
  lemma ReplaceSize<K, V>(e: map<K, V>, gone: K, added: K, v: V)
    requires gone in e && added !in e
    ensures |(e - {gone})[added := v]| == |e|
  {
    var d := e - {gone};
    assert |d.Keys| == |e.Keys - {gone}| == |e.Keys| - 1;
    assert added !in d;
  }

  /** A call whose key is cached returns the stored value, whatever the engine
      would answer, and a stored failure (`None`) is returned like any other
      value; only the hit counter and the recency order change. */
  lemma HitIgnoresEngine(m: Memo, key: FetchKey, reply: EngineReply, maxsize: nat)
    requires key in m.entries
    ensures Served(m, key, reply, maxsize).1 == m.entries[key]
    ensures var m' := Served(m, key, reply, maxsize).0;
      m'.entries == m.entries && m'.hits == m.hits + 1 && m'.misses == m.misses
      && m'.order[|m'.order| - 1] == key
  {
  }

  /** An entry survives any call, with its value unchanged, unless that call
      was a miss on a full cache and the entry was the least recently used. */
  lemma EntryStableUnlessEvicted(m: Memo, cached: FetchKey, key: FetchKey, reply: EngineReply, maxsize: nat)
    requires Wf(m, maxsize) && cached in m.entries
    ensures var m' := Served(m, key, reply, maxsize).0;
      if cached in m'.entries then m'.entries[cached] == m.entries[cached]
      else key !in m.entries && |m.order| == maxsize && m.order[0] == cached
  {
    var m' := Served(m, key, reply, maxsize).0;
    if key !in m.entries && maxsize != 0 && |m.order| >= maxsize && cached != m.order[0] {
      assert cached in m.order[1..];
    }
  }

  /** Calling twice in a row with the same arguments costs at most one engine
      request: the second call is a hit and returns what the first returned,
      a failure included, whatever the engine would answer the second time. */
  lemma RepeatIsHit(m: Memo, key: FetchKey, first: EngineReply, second: EngineReply, maxsize: nat)
    requires Wf(m, maxsize) && maxsize > 0
    ensures var (m1, v1) := Served(m, key, first, maxsize);
      key in m1.entries && Served(m1, key, second, maxsize).1 == v1
  {
    if key !in m.entries && |m.order| >= maxsize {
      assert m.order[0] in m.entries;
    }
  }

  // ---------------------------------------------------------------------
  // The engine and the cache as objects
  // ---------------------------------------------------------------------

  /** The external routing engine. `respond(endpoint, key, n)` is the reply
      to a request sent when `n` requests had already been sent, so a reply
      may change over time; `calls` records every request. */
  class Engine {
    const respond: (Endpoint, FetchKey, nat) -> EngineReply
    var calls: seq<FetchKey>

    constructor (respond: (Endpoint, FetchKey, nat) -> EngineReply)
      ensures this.respond == respond && calls == []
    {
      this.respond := respond;
      calls := [];
    }

    /** The reply the engine would give to `key` now, at the endpoint `get_osrm_url` picks. */
    function NextReply(key: FetchKey): EngineReply
      reads this
    {
      respond(OsrmUrl(key.profile), key, |calls|)
    }

    method Request(endpoint: Endpoint, key: FetchKey) returns (reply: EngineReply)
      modifies this
      ensures calls == old(calls) + [key]
      ensures reply == respond(endpoint, key, |old(calls)|)
    {
      reply := respond(endpoint, key, |calls|);
      calls := calls + [key];
    }
  }

  /** The statistics `cache_info` reports. */
  datatype CacheStats = CacheStats(hits: nat, misses: nat, size: nat, maxsize: nat, hitRate: HitRate)

  /** `hit_rate`: a percentage, or "0%" before the first lookup. */
  datatype HitRate = NoLookups | Percent(value: real)

  function HitRateOf(hits: nat, misses: nat): HitRate {
    if hits + misses > 0 then Percent(hits as real / (hits + misses) as real * 100.0) else NoLookups
  }

  /** The rate is a percentage between 0 and 100, exactly the share of hits;
      it is 100 only when there has been no miss. */
  lemma HitRateBounds(hits: nat, misses: nat)
    ensures HitRateOf(hits, misses).NoLookups? <==> hits + misses == 0
    ensures HitRateOf(hits, misses).Percent? ==>
      var p := HitRateOf(hits, misses).value;
      && 0.0 <= p <= 100.0
      && p * (hits + misses) as real == 100.0 * hits as real
      && (p == 100.0 <==> misses == 0)
  {
    if hits + misses > 0 {
      var t := (hits + misses) as real;
      var h := hits as real;
      var p := h / t * 100.0;
      assert p * t == 100.0 * h;
      assert h <= t;
      if misses == 0 {
        assert h == t;
        assert h / t == 1.0;
      } else {
        assert h < t;
        assert h / t < 1.0;
      }
    }
  }

  /** The memo of `fetch_route_cached`, with the fields `lru_cache` keeps. */
  class RouteCache {
    const maxsize: nat
    var order: seq<FetchKey>
    var entries: map<FetchKey, Option<RouteData>>
    var hits: nat
    var misses: nat

    function State(): Memo
      reads this
    {
      Memo(order, entries, hits, misses)
    }

    ghost predicate Valid()
      reads this
    {
      Wf(State(), maxsize)
    }

    constructor (maxsize: nat)
      ensures Valid() && this.maxsize == maxsize
      ensures State() == Memo([], map[], 0, 0)
    {
      this.maxsize := maxsize;
      order, entries, hits, misses := [], map[], 0, 0;
    }

    /** `fetch_route_cached(from, to, profile)`: a hit returns the stored value
        without a request; a miss sends one request to the endpoint
        `get_osrm_url(profile)` picks and stores its translation, `None` included. */
    method Fetch(from: Point, to: Point, profile: string, engine: Engine) returns (r: Option<RouteData>)
      requires Valid()
      modifies this, engine
      ensures Valid()
      ensures var key := FetchKey(from, to, profile);
        (State(), r) == Served(old(State()), key, old(engine.NextReply(key)), maxsize)
      ensures var key := FetchKey(from, to, profile);
        engine.calls == old(engine.calls) + (if key in old(entries) then [] else [key])
    {
      var key := FetchKey(from, to, profile);
      ServedKeepsWf(State(), key, engine.NextReply(key), maxsize);
      if key in entries {
        r := Hit(key);
      } else {
        var reply := engine.Request(OsrmUrl(profile), key);
        r := Store(key, reply);
      }
    }

    /** A hit: the key becomes the most recently used and its value is returned. */
    method Hit(key: FetchKey) returns (r: Option<RouteData>)
      requires key in entries
      modifies this
      ensures forall reply :: (State(), r) == Served(old(State()), key, reply, maxsize)
    {
      hits := hits + 1;
      order := MoveToEnd(order, key);
      r := entries[key];
    }

    /** A miss: the translated reply is stored as the most recently used
        entry, after evicting the least recently used one from a full cache. */
    method Store(key: FetchKey, reply: EngineReply) returns (r: Option<RouteData>)
      requires key !in entries
      modifies this
      ensures (State(), r) == Served(old(State()), key, reply, maxsize)
    {
      misses := misses + 1;
      r := Translate(reply);
      if maxsize > 0 {
        if |order| >= maxsize {
          entries := entries - {order[0]};
          order := order[1..];
        }
        order := order + [key];
        entries := entries[key := r];
      }
    }

    /** `cache_clear`: no entries, counters back to zero. */
    method Clear()
      requires Valid()
      modifies this
      ensures Valid() && State() == Memo([], map[], 0, 0)
    {
      order, entries, hits, misses := [], map[], 0, 0;
    }

    /** `cache_info` together with the handler's hit rate. */
    method Info() returns (stats: CacheStats)
      requires Valid()
      ensures stats.size == |entries| <= maxsize == stats.maxsize
      ensures stats.hits == hits && stats.misses == misses
      ensures stats.hitRate.Percent? <==> hits + misses > 0
      ensures stats.hitRate.Percent? ==> stats.hitRate.value * (hits + misses) as real == 100.0 * hits as real
    {
      HitRateBounds(hits, misses);
      stats := CacheStats(hits, misses, |entries|, maxsize, HitRateOf(hits, misses));
    }
  }

  /** The capacity the service decorates `fetch_route_cached` with. */
  const CacheCapacity: nat := 1000

  /** The service's own cache, as `@lru_cache(maxsize=1000)` creates it:
      empty, with room for 1000 entries. */
  method ServiceCache() returns (cache: RouteCache)
    ensures fresh(cache) && cache.Valid()
    ensures cache.maxsize == CacheCapacity && cache.State() == Memo([], map[], 0, 0)
  {
    cache := new RouteCache(CacheCapacity);
  }

  // ---------------------------------------------------------------------
  // Result assembly: the handlers' profile loop
  // ---------------------------------------------------------------------

  /** `distance_formatted`: kilometres from 1000 m up, whole metres below.
      Only the branch and the unit are modelled, not the `.1f` text. */
  datatype DistanceLabel = Kilometres(metres: real) | Metres(rounded: int)

  function FormatDistance(distance: real): DistanceLabel {
    if distance >= 1000.0 then Kilometres(distance) else Metres(RoundHalfEven(distance))
  }

  /** One segment's response: a record per profile that succeeded, keyed by
      the caller's own profile name, and the distance label. */
  datatype SegmentResult = SegmentResult(routes: map<string, RouteData>, distanceFormatted: DistanceLabel)

  /** What the profile loop has built after the profiles given: the `results`
      dictionary and the running `distance` (starting at 0). */
  function Collect(profiles: seq<string>, fetched: seq<Option<RouteData>>): (map<string, RouteData>, real)
    requires |profiles| == |fetched|
  {
    if profiles == [] then (map[], 0.0)
    else
      var n := |profiles| - 1;
      var prev := Collect(profiles[..n], fetched[..n]);
      match fetched[n]
      case None => prev
      case Some(d) => (prev.0[profiles[n] := d], d.distance)
  }

  function Assemble(profiles: seq<string>, fetched: seq<Option<RouteData>>): SegmentResult
    requires |profiles| == |fetched|
  {
    var c := Collect(profiles, fetched);
    SegmentResult(c.0, FormatDistance(c.1))
  }

  /** The index of the last fetch that succeeded. */
  function LastSuccess(fetched: seq<Option<RouteData>>): (r: Option<nat>)
    ensures r.None? <==> forall i :: 0 <= i < |fetched| ==> fetched[i].None?
    ensures r.Some? ==> (r.value < |fetched| && fetched[r.value].Some?
      && forall i :: r.value < i < |fetched| ==> fetched[i].None?)
  {
    if fetched == [] then None
    else if fetched[|fetched| - 1].Some? then Some(|fetched| - 1)
    else LastSuccess(fetched[..|fetched| - 1])
  }

  /** The label comes from the distance of the last profile, in request
      order, whose fetch succeeded, and is "0 m" when none did. */
  lemma {:induction false} LabelFromLastSuccess(profiles: seq<string>, fetched: seq<Option<RouteData>>)
    requires |profiles| == |fetched|
    ensures Collect(profiles, fetched).1 ==
      match LastSuccess(fetched)
      case None => 0.0
      case Some(j) => fetched[j].value.distance
    ensures Assemble(profiles, fetched).distanceFormatted ==
      match LastSuccess(fetched)
      case None => Metres(0)
      case Some(j) => FormatDistance(fetched[j].value.distance)
  {
    if profiles != [] {
      var n := |profiles| - 1;
      LabelFromLastSuccess(profiles[..n], fetched[..n]);
      if fetched[n].None? {
        assert LastSuccess(fetched) == LastSuccess(fetched[..n]);
      }
    }
    if LastSuccess(fetched).None? {
      assert RoundHalfEven(0.0) == 0;
    }
  }

  /** A profile name is a key of the segment's result exactly when some fetch
      for it succeeded, and then it holds the record of the last such fetch. */
  lemma ProfileKeyIffSuccess(profiles: seq<string>, fetched: seq<Option<RouteData>>, name: string)
    requires |profiles| == |fetched|
    ensures name in Collect(profiles, fetched).0 <==>
      exists i :: 0 <= i < |profiles| && profiles[i] == name && fetched[i].Some?
    ensures name in Collect(profiles, fetched).0 ==>
      exists j :: 0 <= j < |profiles| && profiles[j] == name
        && fetched[j] == Some(Collect(profiles, fetched).0[name])
        && forall i :: j < i < |profiles| && profiles[i] == name ==> fetched[i].None?
  {
    ProfileKeyIff(profiles, fetched, name);
    ProfileKeyLast(profiles, fetched, name);
  }

  lemma {:induction false} ProfileKeyIff(profiles: seq<string>, fetched: seq<Option<RouteData>>, name: string)
    requires |profiles| == |fetched|
    ensures name in Collect(profiles, fetched).0 <==>
      exists i :: 0 <= i < |profiles| && profiles[i] == name && fetched[i].Some?
  {
    if profiles != [] {
      var n := |profiles| - 1;
      var ps, fs := profiles[..n], fetched[..n];
      ProfileKeyIff(ps, fs, name);
      assert forall i :: 0 <= i < n ==> ps[i] == profiles[i] && fs[i] == fetched[i];
    }
  }

  lemma {:induction false} ProfileKeyLast(profiles: seq<string>, fetched: seq<Option<RouteData>>, name: string)
    requires |profiles| == |fetched|
    ensures name in Collect(profiles, fetched).0 ==>
      exists j :: 0 <= j < |profiles| && profiles[j] == name
        && fetched[j] == Some(Collect(profiles, fetched).0[name])
        && forall i :: j < i < |profiles| && profiles[i] == name ==> fetched[i].None?
  {
    if profiles != [] {
      var n := |profiles| - 1;
      var ps, fs := profiles[..n], fetched[..n];
      ProfileKeyLast(ps, fs, name);
      var c := Collect(profiles, fetched).0;
      if profiles[n] == name && fetched[n].Some? {
        assert c[name] == fetched[n].value;
      } else if name in c {
        var prev := Collect(ps, fs).0;
        assert name in prev && c[name] == prev[name];
        var j :| 0 <= j < n && ps[j] == name && fs[j] == Some(prev[name])
          && forall i :: j < i < n && ps[i] == name ==> fs[i].None?;
        assert fetched[j] == Some(c[name]);
        assert forall i :: j < i < n ==> ps[i] == profiles[i] && fs[i] == fetched[i];
      }
    }
  }

  // ---------------------------------------------------------------------
  // The handlers as runs over the memo
  // ---------------------------------------------------------------------

  /** The memo, the engine's request log and the values fetched so far. */
  datatype Run = Run(memo: Memo, calls: seq<FetchKey>, fetched: seq<Option<RouteData>>)

  /** One call of `fetch_route_cached` inside a handler. */
  function Step(run: Run, key: FetchKey, respond: (Endpoint, FetchKey, nat) -> EngineReply, maxsize: nat): Run {
    var served := Served(run.memo, key, respond(OsrmUrl(key.profile), key, |run.calls|), maxsize);
    Run(served.0, if key in run.memo.entries then run.calls else run.calls + [key], run.fetched + [served.1])
  }

  /** The fetches a handler makes for one segment, one per requested profile,
      with the profile translated for the engine. */
  function ServeProfiles(start: Run, from: Point, to: Point, profiles: seq<string>,
                         respond: (Endpoint, FetchKey, nat) -> EngineReply, maxsize: nat): (r: Run)
    ensures |r.fetched| == |start.fetched| + |profiles|
  {
    if profiles == [] then start
    else
      var n := |profiles| - 1;
      Step(ServeProfiles(start, from, to, profiles[..n], respond, maxsize),
           FetchKey(from, to, EngineProfile(profiles[n])), respond, maxsize)
  }

  lemma ServeProfilesSnoc(start: Run, from: Point, to: Point, profiles: seq<string>, i: nat,
                          respond: (Endpoint, FetchKey, nat) -> EngineReply, maxsize: nat)
    requires i < |profiles|
    ensures ServeProfiles(start, from, to, profiles[..i + 1], respond, maxsize)
            == Step(ServeProfiles(start, from, to, profiles[..i], respond, maxsize),
                    FetchKey(from, to, EngineProfile(profiles[i])), respond, maxsize)
  {
    assert profiles[..i + 1][..i] == profiles[..i];
  }

  lemma CollectSnoc(profiles: seq<string>, fetched: seq<Option<RouteData>>, d: Option<RouteData>)
    requires |fetched| < |profiles|
    ensures var i := |fetched|;
      var prev := Collect(profiles[..i], fetched);
      Collect(profiles[..i + 1], fetched + [d])
      == if d.Some? then (prev.0[profiles[i] := d.value], d.value.distance) else prev
  {
    var i := |fetched|;
    var ps, fs := profiles[..i + 1], fetched + [d];
    assert ps[..i] == profiles[..i] && ps[i] == profiles[i];
    assert fs[..i] == fetched && fs[i] == d;
  }

  /** One memoised fetch, as one `Step` of a handler's run. */
  method FetchStep(cache: RouteCache, engine: Engine, from: Point, to: Point, profile: string, ghost before: Run)
    returns (routeData: Option<RouteData>)
    requires cache.Valid() && before.memo == cache.State() && before.calls == engine.calls
    modifies cache, engine
    ensures cache.Valid()
    ensures Run(cache.State(), engine.calls, before.fetched + [routeData])
            == Step(before, FetchKey(from, to, profile), engine.respond, cache.maxsize)
  {
    routeData := cache.Fetch(from, to, profile, engine);
  }

  /** The profile loop shared by `get_route` and `get_routes_batch`: one
      memoised fetch per requested profile, in order; a successful record is
      stored under the caller's name and overwrites the running distance. */
  method RouteSegment(cache: RouteCache, engine: Engine, from: Point, to: Point, profiles: seq<string>)
    returns (result: SegmentResult)
    requires cache.Valid()
    modifies cache, engine
    ensures cache.Valid()
    ensures var run := ServeProfiles(Run(old(cache.State()), old(engine.calls), []), from, to, profiles,
                                     engine.respond, cache.maxsize);
      && cache.State() == run.memo && engine.calls == run.calls
      && result == Assemble(profiles, run.fetched)
  {
    var results: map<string, RouteData> := map[];
    var distance: real := 0.0;
    ghost var start := Run(cache.State(), engine.calls, []);
    ghost var run := start;
    for i := 0 to |profiles|
      invariant cache.Valid()
      invariant run == ServeProfiles(start, from, to, profiles[..i], engine.respond, cache.maxsize)
      invariant run.memo == cache.State() && run.calls == engine.calls && |run.fetched| == i
      invariant (results, distance) == Collect(profiles[..i], run.fetched)
    {
      results, distance, run := ProfileStep(cache, engine, from, to, profiles, i, start, run, results, distance);
    }
    assert profiles[..|profiles|] == profiles;
    result := SegmentResult(results, FormatDistance(distance));
  }

  /** One pass of the profile loop: the fetch for `profiles[i]`, then the
      update of `results` and `distance`. */
  method ProfileStep(cache: RouteCache, engine: Engine, from: Point, to: Point, profiles: seq<string>, i: nat,
                     ghost start: Run, ghost run: Run, results: map<string, RouteData>, distance: real)
    returns (results': map<string, RouteData>, distance': real, ghost run': Run)
    requires i < |profiles| && cache.Valid()
    requires run == ServeProfiles(start, from, to, profiles[..i], engine.respond, cache.maxsize)
    requires run.memo == cache.State() && run.calls == engine.calls && |run.fetched| == i
    requires (results, distance) == Collect(profiles[..i], run.fetched)
    modifies cache, engine
    ensures cache.Valid()
    ensures run' == ServeProfiles(start, from, to, profiles[..i + 1], engine.respond, cache.maxsize)
    ensures run'.memo == cache.State() && run'.calls == engine.calls && |run'.fetched| == i + 1
    ensures (results', distance') == Collect(profiles[..i + 1], run'.fetched)
  {
    var routeData := FetchStep(cache, engine, from, to, EngineProfile(profiles[i]), run);
    ServeProfilesSnoc(start, from, to, profiles, i, engine.respond, cache.maxsize);
    CollectSnoc(profiles, run.fetched, routeData);
    run' := Step(run, FetchKey(from, to, EngineProfile(profiles[i])), engine.respond, cache.maxsize);
    results', distance' := results, distance;
    if routeData.Some? {
      results' := results[profiles[i] := routeData.value];
      distance' := routeData.value.distance;
    }
  }

  /** The body of a `/api/route` request; `profiles` may be missing. */
  datatype RouteRequest = RouteRequest(from: Point, to: Point, profiles: Option<seq<string>>)

  const DefaultProfiles: seq<string> := ["car", "bicycle", "foot"]

  /** `get_route`: the profile loop for one segment, all three profiles by default. */
  method GetRoute(cache: RouteCache, engine: Engine, request: RouteRequest) returns (result: SegmentResult)
    requires cache.Valid()
    modifies cache, engine
    ensures cache.Valid()
    ensures var profiles := request.profiles.GetOr(DefaultProfiles);
      var run := ServeProfiles(Run(old(cache.State()), old(engine.calls), []), request.from, request.to,
                               profiles, engine.respond, cache.maxsize);
      && cache.State() == run.memo && engine.calls == run.calls
      && result == Assemble(profiles, run.fetched)
  {
    result := RouteSegment(cache, engine, request.from, request.to, request.profiles.GetOr(DefaultProfiles));
  }

  /** One element of a batch's `segments`. */
  datatype Segment = Segment(id: string, from: Point, to: Point)

  /** The memo, the request log, and each segment's fetched values and result, in order. */
  datatype BatchRun = BatchRun(memo: Memo, calls: seq<FetchKey>, fetched: seq<seq<Option<RouteData>>>,
                               results: seq<SegmentResult>)

  function ServeSegments(memo: Memo, calls: seq<FetchKey>, segments: seq<Segment>, profiles: seq<string>,
                         respond: (Endpoint, FetchKey, nat) -> EngineReply, maxsize: nat): (b: BatchRun)
    ensures |b.fetched| == |b.results| == |segments|
  {
    if segments == [] then BatchRun(memo, calls, [], [])
    else
      var n := |segments| - 1;
      var prev := ServeSegments(memo, calls, segments[..n], profiles, respond, maxsize);
      var run := ServeProfiles(Run(prev.memo, prev.calls, []), segments[n].from, segments[n].to,
                               profiles, respond, maxsize);
      BatchRun(run.memo, run.calls, prev.fetched + [run.fetched], prev.results + [Assemble(profiles, run.fetched)])
  }

  /** `results[segment_id] = segment_results`, segment by segment. */
  function ById(segments: seq<Segment>, results: seq<SegmentResult>): map<string, SegmentResult>
    requires |segments| == |results|
  {
    if segments == [] then map[]
    else
      var n := |segments| - 1;
      ById(segments[..n], results[..n])[segments[n].id := results[n]]
  }

  /** Each segment's result is assembled from that segment's own fetches
      alone: the distance starts again at 0 for every segment. */
  lemma {:induction false} SegmentResultsAreOwn(memo: Memo, calls: seq<FetchKey>, segments: seq<Segment>,
                                                profiles: seq<string>, respond: (Endpoint, FetchKey, nat) -> EngineReply,
                                                maxsize: nat, j: nat)
    requires j < |segments|
    ensures var b := ServeSegments(memo, calls, segments, profiles, respond, maxsize);
      |b.fetched[j]| == |profiles| && b.results[j] == Assemble(profiles, b.fetched[j])
  {
    var n := |segments| - 1;
    if j < n {
      SegmentResultsAreOwn(memo, calls, segments[..n], profiles, respond, maxsize, j);
    }
  }

  /** A batch answers once per distinct segment id, and the answer for an id
      is that of the last segment carrying it. */
  lemma ByIdLastWins(segments: seq<Segment>, results: seq<SegmentResult>, id: string)
    requires |segments| == |results|
    ensures id in ById(segments, results) <==> exists i :: 0 <= i < |segments| && segments[i].id == id
    ensures id in ById(segments, results) ==>
      exists j :: 0 <= j < |segments| && segments[j].id == id && ById(segments, results)[id] == results[j]
        && forall i :: j < i < |segments| ==> segments[i].id != id
  {
    ByIdKeys(segments, results, id);
    ByIdLast(segments, results, id);
  }

  lemma {:induction false} ByIdKeys(segments: seq<Segment>, results: seq<SegmentResult>, id: string)
    requires |segments| == |results|
    ensures id in ById(segments, results) <==> exists i :: 0 <= i < |segments| && segments[i].id == id
  {
    if segments != [] {
      var n := |segments| - 1;
      var ss := segments[..n];
      ByIdKeys(ss, results[..n], id);
      assert forall i :: 0 <= i < n ==> ss[i] == segments[i];
    }
  }

  lemma {:induction false} ByIdLast(segments: seq<Segment>, results: seq<SegmentResult>, id: string)
    requires |segments| == |results|
    ensures id in ById(segments, results) ==>
      exists j :: 0 <= j < |segments| && segments[j].id == id && ById(segments, results)[id] == results[j]
        && forall i :: j < i < |segments| ==> segments[i].id != id
  {
    if segments != [] {
      var n := |segments| - 1;
      var ss, rs := segments[..n], results[..n];
      var m := ById(segments, results);
      if segments[n].id == id {
        assert m[id] == results[n];
      } else if id in m {
        var prev := ById(ss, rs);
        assert id in prev && m[id] == prev[id];
        ByIdLast(ss, rs, id);
        var j :| 0 <= j < n && ss[j].id == id && prev[id] == rs[j]
          && forall i :: j < i < n ==> ss[i].id != id;
        assert segments[j].id == id && m[id] == results[j];
        forall i | j < i < |segments| ensures segments[i].id != id {
          if i < n {
            assert ss[i] == segments[i];
          }
        }
      }
    }
  }

  lemma BatchStep(memo: Memo, calls: seq<FetchKey>, segments: seq<Segment>, k: nat, profiles: seq<string>,
                  respond: (Endpoint, FetchKey, nat) -> EngineReply, maxsize: nat)
    requires k < |segments|
    ensures var prev := ServeSegments(memo, calls, segments[..k], profiles, respond, maxsize);
      var run := ServeProfiles(Run(prev.memo, prev.calls, []), segments[k].from, segments[k].to,
                               profiles, respond, maxsize);
      ServeSegments(memo, calls, segments[..k + 1], profiles, respond, maxsize)
        == BatchRun(run.memo, run.calls, prev.fetched + [run.fetched], prev.results + [Assemble(profiles, run.fetched)])
  {
    assert segments[..k + 1][..k] == segments[..k];
  }

  lemma ByIdStep(segments: seq<Segment>, results: seq<SegmentResult>, k: nat, r: SegmentResult)
    requires k < |segments| && |results| == k
    ensures ById(segments[..k + 1], results + [r]) == ById(segments[..k], results)[segments[k].id := r]
  {
    assert segments[..k + 1][..k] == segments[..k];
    assert (results + [r])[..k] == results;
  }

  /** `get_routes_batch`: the profile loop for each segment in order, all
      sharing the one memo; a later segment with an id already answered
      overwrites the earlier answer. */
  method GetRoutesBatch(cache: RouteCache, engine: Engine, segments: seq<Segment>, requested: Option<seq<string>>)
    returns (results: map<string, SegmentResult>)
    requires cache.Valid()
    modifies cache, engine
    ensures cache.Valid()
    ensures var b := ServeSegments(old(cache.State()), old(engine.calls), segments,
                                   requested.GetOr(DefaultProfiles), engine.respond, cache.maxsize);
      && cache.State() == b.memo && engine.calls == b.calls
      && results == ById(segments, b.results)
  {
    var profiles := requested.GetOr(DefaultProfiles);
    results := map[];
    ghost var memo0, calls0 := cache.State(), engine.calls;
    ghost var b := BatchRun(memo0, calls0, [], []);
    for k := 0 to |segments|
      invariant cache.Valid()
      invariant b == ServeSegments(memo0, calls0, segments[..k], profiles, engine.respond, cache.maxsize)
      invariant cache.State() == b.memo && engine.calls == b.calls
      invariant results == ById(segments[..k], b.results)
    {
      var segmentResult := RouteSegment(cache, engine, segments[k].from, segments[k].to, profiles);
      BatchStep(memo0, calls0, segments, k, profiles, engine.respond, cache.maxsize);
      ByIdStep(segments, b.results, k, segmentResult);
      b := ServeSegments(memo0, calls0, segments[..k + 1], profiles, engine.respond, cache.maxsize);
      results := results[segments[k].id := segmentResult];
    }
    assert segments[..|segments|] == segments;
  }

  /** `clear_cache`. */
  method ClearCache(cache: RouteCache)
    requires cache.Valid()
    modifies cache
    ensures cache.Valid() && cache.State() == Memo([], map[], 0, 0)
  {
    cache.Clear();
  }

  /** `cache_info`. */
  method CacheInfo(cache: RouteCache) returns (stats: CacheStats)
    requires cache.Valid()
    ensures stats == CacheStats(cache.hits, cache.misses, |cache.entries|, cache.maxsize,
                                HitRateOf(cache.hits, cache.misses))
    ensures stats.size <= stats.maxsize
  {
    stats := cache.Info();
  }
}
