/** The recommender of `backend/lakbai_hybrid_smart_recommender.py`: the
    theme index built from the POI table, the smart cache filled from real
    visits, the popular-start fallback for an empty route and the five-step
    merge of candidates behind `recommend_next_pois`.  The BERT model is not
    part of this model: its cached predictions are given to the constructor
    and its real-time prediction for a route is a parameter. */
module LakbaiRecommender {
  import opened Wrappers
  import opened Text
  import opened Sorting
  import opened Dicts
  import opened PoiTables
  import opened Patterns

  // ---------------------------------------------------------------------
  // get_themes_ids
  // ---------------------------------------------------------------------

  /** `poi2theme`: each id of the table maps to the theme of its last row. */
  function PoiThemes(pois: seq<Poi>): (m: map<int, string>)
    ensures forall id :: id in m <==> exists i :: 0 <= i < |pois| && pois[i].id == id
    ensures forall id :: id in m ==> m[id] == LastWithId(pois, id).value.theme
  {
    if pois == [] then map[]
    else
      var n := |pois| - 1;
      assert forall i :: 0 <= i < n ==> pois[..n][i] == pois[i];
      PoiThemes(pois[..n])[pois[n].id := pois[n].theme]
  }

  /** `get_themes_ids`: numbers the distinct themes 0..k-1 in sorted order
      (`theme2num`, and its inverse `num2theme`) and maps every POI id to its
      theme. */
  method GetThemesIds(pois: seq<Poi>) returns (theme2num: map<string, int>, num2theme: map<int, string>,
                                              poi2theme: map<int, string>)
    ensures forall t :: t in theme2num <==> exists i :: 0 <= i < |pois| && pois[i].theme == t
    ensures forall t :: t in theme2num ==> theme2num[t] in num2theme && num2theme[theme2num[t]] == t
    ensures forall k :: k in num2theme <==> 0 <= k < |SortedUnique(Themes(pois))|
    ensures forall k :: k in num2theme ==> num2theme[k] in theme2num && theme2num[num2theme[k]] == k
    ensures forall a, b :: a in theme2num && b in theme2num ==> (StrLt(a, b) <==> theme2num[a] < theme2num[b])
    ensures poi2theme == PoiThemes(pois)
  {
    var allthemes := SortedUnique(Themes(pois));
    SortedUniqueSorted(Themes(pois));
    theme2num, num2theme := NumberThemes(allthemes);
    forall t | t in theme2num ensures exists i :: 0 <= i < |pois| && pois[i].theme == t {
      assert t in Themes(pois);
      var i :| 0 <= i < |pois| && Themes(pois)[i] == t;
    }
    forall t | t in Themes(pois) ensures t in theme2num {
      var j :| 0 <= j < |allthemes| && allthemes[j] == t;
    }
    ThemeNumbersFollowOrder(allthemes, theme2num);
    poi2theme := ThemeOfEachPoi(pois, theme2num, num2theme);
  }

  /** The first loop of `get_themes_ids`: theme `allthemes[i]` gets number `i`. */
  method NumberThemes(allthemes: seq<string>) returns (theme2num: map<string, int>, num2theme: map<int, string>)
    requires StrictlySorted(allthemes)
    ensures forall j :: 0 <= j < |allthemes| ==> allthemes[j] in theme2num && theme2num[allthemes[j]] == j
    ensures forall t :: t in theme2num ==> t in allthemes
    ensures forall k :: k in num2theme <==> 0 <= k < |allthemes|
    ensures forall k :: 0 <= k < |allthemes| ==> num2theme[k] == allthemes[k]
  {
    StrictlySortedDistinct(allthemes);
    theme2num, num2theme := map[], map[];
    for i := 0 to |allthemes|
      invariant forall j :: 0 <= j < i ==> allthemes[j] in theme2num && theme2num[allthemes[j]] == j
      invariant forall t :: t in theme2num ==> t in allthemes[..i]
      invariant forall k :: k in num2theme <==> 0 <= k < i
      invariant forall k :: 0 <= k < i ==> num2theme[k] == allthemes[k]
    {
      theme2num := theme2num[allthemes[i] := i];
      num2theme := num2theme[i := allthemes[i]];
    }
  }

  /** Numbering a strictly increasing list by position keeps the order. */
  lemma ThemeNumbersFollowOrder(allthemes: seq<string>, theme2num: map<string, int>)
    requires StrictlySorted(allthemes)
    requires forall j :: 0 <= j < |allthemes| ==> allthemes[j] in theme2num && theme2num[allthemes[j]] == j
    requires forall t :: t in theme2num ==> t in allthemes
    ensures forall a, b :: a in theme2num && b in theme2num ==> (StrLt(a, b) <==> theme2num[a] < theme2num[b])
  {
    forall a, b | a in theme2num && b in theme2num
      ensures StrLt(a, b) <==> theme2num[a] < theme2num[b]
    {
      var i :| 0 <= i < |allthemes| && allthemes[i] == a;
      var j :| 0 <= j < |allthemes| && allthemes[j] == b;
      if i == j {
        StrLtIrreflexive(a);
      } else if j < i && StrLt(a, b) {
        StrLtTransitive(a, b, a);
        StrLtIrreflexive(a);
      }
    }
  }

  /** The second loop of `get_themes_ids`.  Its branch for a theme without a
      number never runs, because every theme of the table was numbered. */
  method ThemeOfEachPoi(pois: seq<Poi>, theme2num: map<string, int>, num2theme: map<int, string>)
    returns (poi2theme: map<int, string>)
    requires forall t :: t in Themes(pois) ==> t in theme2num
    ensures poi2theme == PoiThemes(pois)
  {
    poi2theme := map[];
    for i := 0 to |pois|
      invariant poi2theme == PoiThemes(pois[..i])
    {
      assert pois[..i + 1][..i] == pois[..i];
      var pid, theme := pois[i].id, pois[i].theme;
      assert Themes(pois)[i] == theme;
      poi2theme := poi2theme[pid := theme];
      if theme !in theme2num {
        assert false;
      }
    }
    assert pois[..|pois|] == pois;
  }

  // ---------------------------------------------------------------------
  // Candidates and results
  // ---------------------------------------------------------------------

  /** Which strategy proposed or boosted a candidate (`sources`). */
  datatype Source = RealTransitions | ThemeMatch | BertCached | NearbyDiverse | BertRealtime

  /** The `reason` text, by its shape. */
  datatype Reason =
    | PopularAttraction(theme: string, visits: nat)
    | PopularStartingPoint(theme: string)
    | Discover(theme: string)
    | PopularNextStop(travelers: nat)
    | AiPrediction
    | NearbyAttraction(theme: string)
    | AdvancedAi
    | HighlyRecommended(factors: nat)

  /** An entry of `scored_recommendations`. */
  datatype Candidate = Candidate(poiId: int, name: string, theme: string, score: real, reason: Reason,
                                 sources: seq<Source>)

  /** A returned recommendation: a candidate without its `sources`. */
  datatype Recommendation = Recommendation(poiId: int, name: string, theme: string, score: real, reason: Reason)

  /** `scored_recommendations`, keyed by POI id in insertion order. */
  type Scored = seq<(int, Candidate)>

  function RecScore(r: Recommendation): real { r.score }
  function CandScore(c: Candidate): real { c.score }

  /** What the recommender knows once its cache is built. */
  datatype Knowledge = Knowledge(pois: seq<Poi>, visits: seq<Visit>, themeGroups: seq<(string, seq<int>)>,
                                 distanceMatrix: map<(int, int), real>, tables: PatternTables,
                                 bertCache: map<seq<int>, seq<Prediction>>)

  /** `build_smart_cache`: the visit patterns, then the theme groups and the
      distance matrix. */
  method BuildSmartCache(pois: seq<Poi>, visits: seq<Visit>, poi2theme: map<int, string>)
    returns (groups: seq<(string, seq<int>)>, matrix: map<(int, int), real>, tables: PatternTables)
    ensures ThemeGroupsOf(pois, groups) && matrix == Matrix(pois, pois) && tables == Analyze(visits, poi2theme)
  {
    groups := ComputeThemeGroups(pois);
    matrix := ComputeDistanceMatrix(pois);
    tables := AnalyzeRealUserPatterns(visits, poi2theme);
  }

  // ---------------------------------------------------------------------
  // _get_popular_starting_pois
  // ---------------------------------------------------------------------

  /** `user_visits.groupby('poiID').size()`: visits per POI. */
  function VisitCounts(visits: seq<Visit>): seq<(int, nat)> {
    if visits == [] then []
    else
      var n := |visits| - 1;
      Bump(VisitCounts(visits[..n]), visits[n].poi)
  }

  function NegatedId(e: (int, nat)): real { -(e.0 as real) }

  /** The counts by ascending POI id (the order `groupby` gives), then
      `sort_values('visit_count', ascending=False)`. */
  function RankedVisitCounts(visits: seq<Visit>): seq<(int, nat)> {
    Ranked(SortDesc(VisitCounts(visits), NegatedId))
  }

  /** `poi_visit_counts['visit_count'].max()` (0 for no rows). */
  function MaxCount(c: seq<(int, nat)>): (m: nat)
    ensures forall i :: 0 <= i < |c| ==> c[i].1 <= m
    ensures c != [] ==> exists i :: 0 <= i < |c| && c[i].1 == m
  {
    if c == [] then 0
    else
      var rest := MaxCount(c[1..]);
      assert forall i :: 1 <= i < |c| ==> c[i] == c[1..][i - 1];
      if c[0].1 >= rest then c[0].1 else rest
  }

  /** The loop over `head(num_recommendations * 2)`: each row whose POI is in
      the table is recommended with score `visit_count / max_visits`; the
      loop stops once `n` are collected. */
  function VisitPhase(recs: seq<Recommendation>, rows: seq<(int, nat)>, pois: seq<Poi>, maxVisits: nat, n: nat)
    : seq<Recommendation>
    requires rows != [] ==> maxVisits > 0
    decreases |rows|
  {
    if rows == [] then recs
    else
      var poiId, count := rows[0].0, rows[0].1;
      var next := match PoiInfo(pois, poiId)
        case None => recs
        case Some(info) =>
          recs + [Recommendation(poiId, info.name, info.theme, count as real / maxVisits as real,
                                 PopularAttraction(info.theme, count))];
      if |next| >= n then next else VisitPhase(next, rows[1..], pois, maxVisits, n)
  }

  /** `any(r['poi_id'] == poi_id for r in recommendations)`. */
  predicate HasId(recs: seq<Recommendation>, poiId: int) {
    exists i | 0 <= i < |recs| :: recs[i].poiId == poiId
  }

  /** The inner fallback loop over one theme's first three starting POIs. */
  function FallbackTheme(recs: seq<Recommendation>, theme: string, entries: seq<StartEntry>, pois: seq<Poi>, n: nat)
    : seq<Recommendation>
    decreases |entries|
  {
    if entries == [] then recs
    else
      var e := entries[0];
      var next :=
        if HasId(recs, e.poi) then recs
        else match PoiInfo(pois, e.poi)
          case None => recs
          case Some(info) => recs + [Recommendation(e.poi, info.name, info.theme, e.score, PopularStartingPoint(theme))];
      if |next| >= n then next else FallbackTheme(next, theme, entries[1..], pois, n)
  }

  /** The outer fallback loop over the themes of `starting_pois`. */
  function FallbackPhase(recs: seq<Recommendation>, groups: seq<(string, seq<StartEntry>)>, pois: seq<Poi>, n: nat)
    : seq<Recommendation>
    decreases |groups|
  {
    if groups == [] then recs
    else
      var next := FallbackTheme(recs, groups[0].0, Take(groups[0].1, 3), pois, n);
      if |next| >= n then next else FallbackPhase(next, groups[1..], pois, n)
  }

  /** The last resort: the first `n` rows of the table with score 0.5. */
  function LastResort(pois: seq<Poi>, n: nat): (r: seq<Recommendation>)
    ensures |r| == |Take(pois, n)|
  {
    var head := Take(pois, n);
    seq(|head|, i requires 0 <= i < |head| =>
      Recommendation(head[i].id, head[i].name, head[i].theme, 0.5, Discover(head[i].theme)))
  }

  /** `_get_popular_starting_pois`. */
  function PopularStarts(k: Knowledge, n: nat): seq<Recommendation> {
    Take(SortDesc(PopularCollected(k, n), RecScore), n)
  }

  /** The visit loop, stopping once `n` recommendations are collected. */
  method VisitLoop(rows: seq<(int, nat)>, pois: seq<Poi>, maxVisits: nat, n: nat) returns (recs: seq<Recommendation>)
    requires maxVisits > 0
    ensures recs == VisitPhase([], rows, pois, maxVisits, n)
  {
    recs := [];
    var i := 0;
    while i < |rows|
      invariant 0 <= i <= |rows|
      invariant VisitPhase(recs, rows[i..], pois, maxVisits, n) == VisitPhase([], rows, pois, maxVisits, n)
    {
      assert rows[i..][0] == rows[i] && rows[i..][1..] == rows[i + 1..];
      var poiId, count := rows[i].0, rows[i].1;
      var info := PoiInfo(pois, poiId);
      if info.Some? {
        recs := recs + [Recommendation(poiId, info.value.name, info.value.theme, count as real / maxVisits as real,
                                       PopularAttraction(info.value.theme, count))];
      }
      if |recs| >= n {
        break;
      }
      i := i + 1;
    }
  }

  /** One theme's inner fallback loop. */
  method FallbackThemeLoop(recs0: seq<Recommendation>, theme: string, entries: seq<StartEntry>, pois: seq<Poi>, n: nat)
    returns (recs: seq<Recommendation>)
    ensures recs == FallbackTheme(recs0, theme, entries, pois, n)
  {
    recs := recs0;
    var i := 0;
    while i < |entries|
      invariant 0 <= i <= |entries|
      invariant FallbackTheme(recs, theme, entries[i..], pois, n) == FallbackTheme(recs0, theme, entries, pois, n)
    {
      assert entries[i..][0] == entries[i] && entries[i..][1..] == entries[i + 1..];
      var e := entries[i];
      if !HasId(recs, e.poi) {
        var info := PoiInfo(pois, e.poi);
        if info.Some? {
          recs := recs + [Recommendation(e.poi, info.value.name, info.value.theme, e.score, PopularStartingPoint(theme))];
        }
      }
      if |recs| >= n {
        break;
      }
      i := i + 1;
    }
  }

  /** The outer fallback loop. */
  method FallbackLoop(recs0: seq<Recommendation>, groups: seq<(string, seq<StartEntry>)>, pois: seq<Poi>, n: nat)
    returns (recs: seq<Recommendation>)
    ensures recs == FallbackPhase(recs0, groups, pois, n)
  {
    recs := recs0;
    var g := 0;
    while g < |groups|
      invariant 0 <= g <= |groups|
      invariant FallbackPhase(recs, groups[g..], pois, n) == FallbackPhase(recs0, groups, pois, n)
    {
      assert groups[g..][0] == groups[g] && groups[g..][1..] == groups[g + 1..];
      recs := FallbackThemeLoop(recs, groups[g].0, Take(groups[g].1, 3), pois, n);
      if |recs| >= n {
        break;
      }
      g := g + 1;
    }
  }

  /** The last-resort loop over `pois.head(n)`. */
  method LastResortLoop(pois: seq<Poi>, n: nat) returns (recs: seq<Recommendation>)
    ensures recs == LastResort(pois, n)
  {
    var head := Take(pois, n);
    recs := [];
    for i := 0 to |head|
      invariant recs == LastResort(pois, n)[..i]
    {
      recs := recs + [Recommendation(head[i].id, head[i].name, head[i].theme, 0.5, Discover(head[i].theme))];
    }
  }

  /** Every recommendation of the visit loop is either one it was given or a
      visited POI of the table, scored by its share of the busiest POI's visits. */
  lemma {:induction false} VisitPhaseEntries(recs: seq<Recommendation>, rows: seq<(int, nat)>, pois: seq<Poi>,
                                             maxVisits: nat, n: nat, r: Recommendation)
    requires rows != [] ==> maxVisits > 0
    requires r in VisitPhase(recs, rows, pois, maxVisits, n)
    ensures r in recs || (r.reason.PopularAttraction? && (r.poiId, r.reason.visits) in rows
                          && r.score == r.reason.visits as real / maxVisits as real
                          && PoiInfo(pois, r.poiId).Some?)
    decreases |rows|
  {
    if rows != [] {
      var poiId, count := rows[0].0, rows[0].1;
      var next := match PoiInfo(pois, poiId)
        case None => recs
        case Some(info) =>
          recs + [Recommendation(poiId, info.name, info.theme, count as real / maxVisits as real,
                                 PopularAttraction(info.theme, count))];
      if |next| < n {
        VisitPhaseEntries(next, rows[1..], pois, maxVisits, n, r);
        assert forall x :: x in rows[1..] ==> x in rows;
      }
    }
  }

  /** The fallback loops add only POIs of the table, as starting points. */
  lemma {:induction false} FallbackThemeEntries(recs: seq<Recommendation>, theme: string, entries: seq<StartEntry>,
                                                pois: seq<Poi>, n: nat, r: Recommendation)
    requires r in FallbackTheme(recs, theme, entries, pois, n)
    ensures r in recs || (r.reason.PopularStartingPoint? && PoiInfo(pois, r.poiId).Some?)
    decreases |entries|
  {
    if entries != [] {
      var e := entries[0];
      var next :=
        if HasId(recs, e.poi) then recs
        else match PoiInfo(pois, e.poi)
          case None => recs
          case Some(info) => recs + [Recommendation(e.poi, info.name, info.theme, e.score, PopularStartingPoint(theme))];
      if |next| < n {
        FallbackThemeEntries(next, theme, entries[1..], pois, n, r);
      }
    }
  }

  lemma {:induction false} FallbackPhaseEntries(recs: seq<Recommendation>, groups: seq<(string, seq<StartEntry>)>,
                                                pois: seq<Poi>, n: nat, r: Recommendation)
    requires r in FallbackPhase(recs, groups, pois, n)
    ensures r in recs || (r.reason.PopularStartingPoint? && PoiInfo(pois, r.poiId).Some?)
    decreases |groups|
  {
    if groups != [] {
      var next := FallbackTheme(recs, groups[0].0, Take(groups[0].1, 3), pois, n);
      if r in next {
        FallbackThemeEntries(recs, groups[0].0, Take(groups[0].1, 3), pois, n, r);
      }
      if |next| < n {
        FallbackPhaseEntries(next, groups[1..], pois, n, r);
        if r in next {
          FallbackThemeEntries(recs, groups[0].0, Take(groups[0].1, 3), pois, n, r);
        }
      }
    }
  }

  /** The three phases of `_get_popular_starting_pois` over the ranked visit
      counts `rows`: the most visited POIs, then each theme's starting POIs,
      then the first rows of the table. */
  function Collect(rows: seq<(int, nat)>, pois: seq<Poi>, starts: seq<(string, seq<StartEntry>)>, n: nat)
    : seq<Recommendation>
  {
    var maxVisits := MaxCount(rows);
    var fromVisits := if rows != [] && maxVisits > 0 then VisitPhase([], Take(rows, 2 * n), pois, maxVisits, n) else [];
    var withFallback := if |fromVisits| < n then FallbackPhase(fromVisits, starts, pois, n) else fromVisits;
    if withFallback == [] then LastResort(pois, n) else withFallback
  }

  /** The three phases, one after the other. */
  method CollectPopular(rows: seq<(int, nat)>, pois: seq<Poi>, starts: seq<(string, seq<StartEntry>)>, n: nat)
    returns (recs: seq<Recommendation>)
    ensures recs == Collect(rows, pois, starts, n)
  {
    recs := [];
    if rows != [] {
      var maxVisits := MaxCount(rows);
      if maxVisits > 0 {
        recs := VisitLoop(Take(rows, 2 * n), pois, maxVisits, n);
      }
    }
    if |recs| < n {
      recs := FallbackLoop(recs, starts, pois, n);
    }
    if |recs| == 0 {
      recs := LastResortLoop(pois, n);
    }
  }

  /** What `_get_popular_starting_pois` collects before its final sort. */
  function PopularCollected(k: Knowledge, n: nat): seq<Recommendation> {
    Collect(RankedVisitCounts(k.visits), k.pois, k.tables.startingPois, n)
  }

  /** For an empty route: the best `n` of what the three phases collected,
      best first: `min(n, |collected|)` of them, each collected, and nothing
      left out scores higher than anything kept. */
  lemma PopularStartsShape(k: Knowledge, n: nat)
    ensures var recs := PopularStarts(k, n); var all := PopularCollected(k, n);
      && |recs| <= n
      && |recs| == (if n <= |all| then n else |all|)
      && SortedDesc(recs, RecScore)
      && (forall r :: r in recs ==> r in all)
      && multiset(recs) <= multiset(all)
      && forall x, y :: x in multiset(all) - multiset(recs) && y in recs ==> x.score <= y.score
  {
    var all := PopularCollected(k, n);
    assert PopularStarts(k, n) == Take(SortDesc(all, RecScore), n);
    RecsTop(all, n);
  }

  /** `TopSpec` for recommendations ranked by score. */
  lemma RecsTop(all: seq<Recommendation>, n: nat)
    ensures var recs := Take(SortDesc(all, RecScore), n);
      && |recs| <= n
      && |recs| == (if n <= |all| then n else |all|)
      && SortedDesc(recs, RecScore)
      && (forall r :: r in recs ==> r in all)
      && multiset(recs) <= multiset(all)
      && forall x, y :: x in multiset(all) - multiset(recs) && y in recs ==> x.score <= y.score
  {
    var recs := Take(SortDesc(all, RecScore), n);
    SortDescSorted(all, RecScore);
    TakeSorted(SortDesc(all, RecScore), n, RecScore);
    TopCount(all, n, RecScore);
    forall r | r in recs ensures r in all {
      assert r in multiset(recs);
    }
    forall x, y | x in multiset(all) - multiset(recs) && y in recs ensures x.score <= y.score {
      TopLeftOut(all, n, RecScore, x, y);
    }
  }

  /** The last resort recommends rows of the table. */
  lemma LastResortEntry(pois: seq<Poi>, n: nat, r: Recommendation)
    requires r in LastResort(pois, n)
    ensures PoiInfo(pois, r.poiId).Some? && r.reason.Discover?
  {
    var head := Take(pois, n);
    var i :| 0 <= i < |head| && LastResort(pois, n)[i] == r;
    assert head[i] == pois[i];
  }

  /** A count taken from `rows` over the largest count is in (0, 1]. */
  lemma ShareOfMax(rows: seq<(int, nat)>, x: (int, nat))
    requires Positive(rows) && x in rows
    ensures MaxCount(rows) > 0 && 0.0 < x.1 as real / MaxCount(rows) as real <= 1.0
  {
    var j :| 0 <= j < |rows| && rows[j] == x;
    DivAtMostOne(x.1 as real, MaxCount(rows) as real);
  }

  /** Each collected recommendation is a POI of the table; one drawn from the
      visits is a counted POI scored by its count over the largest count, so
      its score is in (0, 1]. */
  lemma CollectEntry(rows: seq<(int, nat)>, pois: seq<Poi>, starts: seq<(string, seq<StartEntry>)>, n: nat,
                     r: Recommendation)
    requires Positive(rows)
    requires r in Collect(rows, pois, starts, n)
    ensures PoiInfo(pois, r.poiId).Some?
    ensures r.reason.PopularAttraction? ==>
              && (r.poiId, r.reason.visits) in rows
              && MaxCount(rows) > 0
              && r.score == r.reason.visits as real / MaxCount(rows) as real
              && 0.0 < r.score <= 1.0
  {
    var maxVisits := MaxCount(rows);
    var head := Take(rows, 2 * n);
    var fromVisits := if rows != [] && maxVisits > 0 then VisitPhase([], head, pois, maxVisits, n) else [];
    var withFallback := if |fromVisits| < n then FallbackPhase(fromVisits, starts, pois, n) else fromVisits;
    if withFallback == [] {
      LastResortEntry(pois, n, r);
    } else {
      if |fromVisits| < n && r !in fromVisits {
        FallbackPhaseEntries(fromVisits, starts, pois, n, r);
      }
      if r in fromVisits {
        VisitPhaseEntries([], head, pois, maxVisits, n, r);
        if r.reason.PopularAttraction? {
          assert (r.poiId, r.reason.visits) in rows;
          ShareOfMax(rows, (r.poiId, r.reason.visits));
        }
      }
    }
  }

  /** For an empty route every recommendation is a POI of the table, and one
      drawn from the visits has its visit count over the largest visit count
      as its score, which is in (0, 1]. */
  lemma PopularStartsEntries(k: Knowledge, n: nat)
    ensures forall r :: r in PopularStarts(k, n) ==>
              && PoiInfo(k.pois, r.poiId).Some?
              && (r.reason.PopularAttraction? ==>
                    && (r.poiId, r.reason.visits) in RankedVisitCounts(k.visits)
                    && MaxCount(RankedVisitCounts(k.visits)) > 0
                    && r.score == r.reason.visits as real / MaxCount(RankedVisitCounts(k.visits)) as real
                    && 0.0 < r.score <= 1.0)
  {
    PopularStartsShape(k, n);
    VisitCountsPositive(k.visits);
    forall r | r in PopularStarts(k, n)
      ensures PoiInfo(k.pois, r.poiId).Some?
      ensures r.reason.PopularAttraction? ==>
                && (r.poiId, r.reason.visits) in RankedVisitCounts(k.visits)
                && MaxCount(RankedVisitCounts(k.visits)) > 0
                && r.score == r.reason.visits as real / MaxCount(RankedVisitCounts(k.visits)) as real
                && 0.0 < r.score <= 1.0
    {
      CollectEntry(RankedVisitCounts(k.visits), k.pois, k.tables.startingPois, n, r);
    }
  }

  /** Every ranked visit count is at least one. */
  lemma VisitCountsPositive(visits: seq<Visit>)
    ensures Positive(RankedVisitCounts(visits))
  {
    PositiveCounts(visits);
    var byId := SortDesc(VisitCounts(visits), NegatedId);
    forall i | 0 <= i < |RankedVisitCounts(visits)| ensures RankedVisitCounts(visits)[i].1 >= 1 {
      var x := RankedVisitCounts(visits)[i];
      assert x in multiset(Ranked(byId));
      assert x in multiset(byId);
      PositiveMember(VisitCounts(visits), x);
    }
  }

  lemma {:induction false} PositiveCounts(visits: seq<Visit>)
    ensures Positive(VisitCounts(visits))
  {
    if visits != [] {
      var n := |visits| - 1;
      PositiveCounts(visits[..n]);
      BumpPositive(VisitCounts(visits[..n]), visits[n].poi);
    }
  }

  // ---------------------------------------------------------------------
  // recommend_next_pois: the five strategies
  // ---------------------------------------------------------------------

  /** `distance_matrix.get((a, b), 999)`. */
  function Distance(m: map<(int, int), real>, a: int, b: int): (r: real)
    ensures NonNegative(m) ==> r >= 0.0
  {
    if (a, b) in m then m[(a, b)] else 999.0
  }

  /** Every stored distance is at least zero, as the matrix's are. */
  ghost predicate NonNegative(m: map<(int, int), real>) {
    forall key :: key in m ==> m[key] >= 0.0
  }

  lemma MatrixNonNegative(pois: seq<Poi>)
    ensures NonNegative(Matrix(pois, pois))
  {
    forall key | key in Matrix(pois, pois) ensures Matrix(pois, pois)[key] >= 0.0 {
      MatrixSymmetric(pois, key.0, key.1);
    }
  }

  /** `1.0 / (1.0 + distance * factor)`: 1 at distance 0, falling towards 0. */
  function Closeness(dist: real, factor: real): (c: real)
    requires dist >= 0.0 && factor > 0.0
    ensures 0.0 < c <= 1.0
  {
    DivAtMostOne(1.0, 1.0 + dist * factor);
    1.0 / (1.0 + dist * factor)
  }

  /** Records `c` under its id; when the id is already scored, adds `bonus`
      to the stored score and `c`'s source to the stored sources instead. */
  function Merge(d: Scored, c: Candidate, bonus: real): Scored {
    match Lookup(d, c.poiId)
      case None => Set(d, c.poiId, c)
      case Some(prev) => Set(d, c.poiId, prev.(score := prev.score + bonus, sources := prev.sources + c.sources))
  }

  /** Strategy 1, one transition out of the last stop. */
  function TransitionStep(d: Scored, route: seq<int>, pois: seq<Poi>, t: TransitionEntry): Scored {
    if t.poi in route then d
    else match PoiInfo(pois, t.poi)
      case None => d
      case Some(info) =>
        Merge(d, Candidate(t.poi, info.name, info.theme, t.score * 2.0, PopularNextStop(t.count), [RealTransitions]),
              t.score * 2.0 * 0.5)
  }

  function Transitions(d: Scored, route: seq<int>, pois: seq<Poi>, ts: seq<TransitionEntry>): Scored {
    if ts == [] then d
    else TransitionStep(Transitions(d, route, pois, ts[..|ts| - 1]), route, pois, ts[|ts| - 1])
  }

  /** Strategy 2's boost for `id`: a tenth of `0.15 * closeness` to the last stop. */
  function ThemeBonus(m: map<(int, int), real>, last: int, id: int): (b: real)
    requires NonNegative(m)
    ensures 0.0 < b <= 0.015
  {
    var score := 0.15 * Closeness(Distance(m, last, id), 10.0);
    score * 0.1
  }

  /** A scored POI raised by `bonus` and marked `theme_match` once. */
  function ThemeMarked(prev: Candidate, bonus: real): (c: Candidate)
    ensures c.poiId == prev.poiId && c.score == prev.score + bonus && ThemeMatch in c.sources
  {
    prev.(score := prev.score + bonus,
          sources := if ThemeMatch in prev.sources then prev.sources else prev.sources + [ThemeMatch])
  }

  /** Strategy 2, one POI of the last stop's theme: only an already scored POI
      is boosted. */
  function ThemeStep(d: Scored, route: seq<int>, pois: seq<Poi>, m: map<(int, int), real>, last: int, id: int)
    : Scored
    requires NonNegative(m)
  {
    if id in route || PoiInfo(pois, id).None? then d
    else match Lookup(d, id)
      case None => d
      case Some(prev) => Set(d, id, ThemeMarked(prev, ThemeBonus(m, last, id)))
  }

  function ThemeBoost(d: Scored, route: seq<int>, pois: seq<Poi>, m: map<(int, int), real>, last: int, ids: seq<int>)
    : Scored
    requires NonNegative(m)
  {
    if ids == [] then d
    else ThemeStep(ThemeBoost(d, route, pois, m, last, ids[..|ids| - 1]), route, pois, m, last, ids[|ids| - 1])
  }

  /** Strategy 3, one cached BERT prediction for the whole route. */
  function CachedBertStep(d: Scored, route: seq<int>, p: Prediction): Scored {
    if p.poiId in route then d
    else Merge(d, Candidate(p.poiId, p.name, p.theme, p.score * 1.8, AiPrediction, [BertCached]), p.score * 1.8 * 0.4)
  }

  function CachedBert(d: Scored, route: seq<int>, ps: seq<Prediction>): Scored {
    if ps == [] then d else CachedBertStep(CachedBert(d, route, ps[..|ps| - 1]), route, ps[|ps| - 1])
  }

  /** A POI near the last stop, as strategy 4 collects it. */
  datatype NearbyPoi = NearbyPoi(poiId: int, distance: real, theme: string)

  function NegatedDistance(p: NearbyPoi): real { -p.distance }

  /** Strategy 4's collection loop over the ids `1..upTo`: unscored POIs of
      the table, off the route, closer than 0.5 to the last stop. */
  function NearbyCandidates(pois: seq<Poi>, m: map<(int, int), real>, route: seq<int>, d: Scored, last: int, upTo: nat)
    : (r: seq<NearbyPoi>)
    ensures forall p :: p in r ==>
              && 1 <= p.poiId <= upTo && p.poiId !in route && Lookup(d, p.poiId).None?
              && p.distance == Distance(m, last, p.poiId) < 0.5 && PoiInfo(pois, p.poiId).Some?
  {
    if upTo == 0 then []
    else
      var prev := NearbyCandidates(pois, m, route, d, last, upTo - 1);
      var id := upTo;
      if id in route || Lookup(d, id).Some? then prev
      else
        var dist := Distance(m, last, id);
        if dist < 0.5 then
          match PoiInfo(pois, id)
            case None => prev
            case Some(info) => prev + [NearbyPoi(id, dist, info.theme)]
        else prev
  }

  /** `distance_score * 0.5 + theme_bonus`, the bonus 0.2 for a theme not yet added. */
  function NearbyScore(dist: real, newTheme: bool): (s: real)
    requires dist >= 0.0
    ensures 0.0 < s <= 0.7
    ensures newTheme ==> s > 0.2
  {
    var themeBonus := if newTheme then 0.2 else 0.0;
    var distanceScore := Closeness(dist, 5.0);
    distanceScore * 0.5 + themeBonus
  }

  /** Strategy 4's second loop, over the nearby POIs closest first: it stops
      once `n` POIs are scored, and gives 0.2 more to a POI whose theme it has
      not added yet. */
  function AddNearby(d: Scored, themesAdded: set<string>, near: seq<NearbyPoi>, pois: seq<Poi>, n: nat): Scored
    requires forall p :: p in near ==> p.distance >= 0.0
    decreases |near|
  {
    if near == [] || |d| >= n then d
    else
      assert forall p :: p in near[1..] ==> p in near;
      match PoiInfo(pois, near[0].poiId)
        case None => AddNearby(d, themesAdded, near[1..], pois, n)
        case Some(info) =>
          var c := Candidate(near[0].poiId, info.name, info.theme,
                             NearbyScore(near[0].distance, info.theme !in themesAdded),
                             NearbyAttraction(info.theme), [NearbyDiverse]);
          AddNearby(Set(d, near[0].poiId, c), themesAdded + {info.theme}, near[1..], pois, n)
  }

  /** The nearby candidates, closest first (a stable ascending sort). */
  function NearbySorted(pois: seq<Poi>, m: map<(int, int), real>, route: seq<int>, d: Scored, last: int)
    : (r: seq<NearbyPoi>)
    ensures forall p :: p in r ==> p in NearbyCandidates(pois, m, route, d, last, |pois|)
  {
    SortDescMembers(NearbyCandidates(pois, m, route, d, last, |pois|), NegatedDistance);
    SortDesc(NearbyCandidates(pois, m, route, d, last, |pois|), NegatedDistance)
  }

  /** Strategy 4. */
  function Nearby(d: Scored, pois: seq<Poi>, m: map<(int, int), real>, route: seq<int>, last: int, n: nat): Scored
    requires NonNegative(m)
  {
    AddNearby(d, {}, NearbySorted(pois, m, route, d, last), pois, n)
  }

  /** Strategy 5, one real-time BERT prediction. */
  function RealtimeStep(d: Scored, route: seq<int>, p: Prediction): Scored {
    if p.poiId in route then d
    else Merge(d, Candidate(p.poiId, p.name, p.theme, p.score * 1.3, AdvancedAi, [BertRealtime]), p.score * 0.5)
  }

  function Realtime(d: Scored, route: seq<int>, ps: seq<Prediction>): Scored {
    if ps == [] then d else RealtimeStep(Realtime(d, route, ps[..|ps| - 1]), route, ps[|ps| - 1])
  }

  /** `scored_recommendations` after the first three strategies, for a
      non-empty route: the transitions out of the last stop, the theme
      continuity boost and the cached BERT predictions. */
  function Informed(k: Knowledge, route: seq<int>): Scored
    requires route != [] && NonNegative(k.distanceMatrix)
  {
    var last := route[|route| - 1];
    var lastInfo := PoiInfo(k.pois, last);
    var d1 := match Lookup(k.tables.transitions, last)
      case None => []
      case Some(ts) => Transitions([], route, k.pois, Take(ts, 8));
    var d2 :=
      if lastInfo.Some? && lastInfo.value.theme != "" && Lookup(k.themeGroups, lastInfo.value.theme).Some? then
        ThemeBoost(d1, route, k.pois, k.distanceMatrix, last, Take(Lookup(k.themeGroups, lastInfo.value.theme).value, 5))
      else d1;
    if route in k.bertCache then CachedBert(d2, route, Take(k.bertCache[route], 8)) else d2
  }

  /** `scored_recommendations` after the five strategies, for a non-empty
      route.  `realtime` is `None` when no BERT model is loaded, and otherwise
      what `get_bert_predictions_for_route` returns for the route. */
  function Scores(k: Knowledge, route: seq<int>, n: nat, realtime: Option<seq<Prediction>>): Scored
    requires route != [] && NonNegative(k.distanceMatrix)
  {
    var d3 := Informed(k, route);
    var d4 := if |d3| < n then Nearby(d3, k.pois, k.distanceMatrix, route, route[|route| - 1], n) else d3;
    if |d4| < n && realtime.Some? then Realtime(d4, route, Take(realtime.value, 3)) else d4
  }

  /** A candidate without its sources; more than one source replaces the reason. */
  function Present(c: Candidate): Recommendation {
    Recommendation(c.poiId, c.name, c.theme, c.score,
                   if |c.sources| > 1 then HighlyRecommended(|c.sources|) else c.reason)
  }

  /** `ranked`, presented. */
  function PresentAll(ranked: seq<Candidate>): (recs: seq<Recommendation>)
    ensures |recs| == |ranked|
    ensures forall i :: 0 <= i < |ranked| ==> recs[i] == Present(ranked[i])
  {
    seq(|ranked|, i requires 0 <= i < |ranked| => Present(ranked[i]))
  }

  /** The best `n` candidates by score, presented. */
  function Finish(d: Scored, n: nat): seq<Recommendation> {
    PresentAll(Take(SortDesc(Values(d), CandScore), n))
  }

  /** `recommend_next_pois`. */
  function Recommend(k: Knowledge, route: seq<int>, n: nat, realtime: Option<seq<Prediction>>): seq<Recommendation>
    requires NonNegative(k.distanceMatrix)
  {
    if route == [] then PopularStarts(k, n) else Finish(Scores(k, route, n, realtime), n)
  }

  // ---------------------------------------------------------------------
  // The strategy loops
  // ---------------------------------------------------------------------

  method MergeTransitions(d0: Scored, route: seq<int>, pois: seq<Poi>, ts: seq<TransitionEntry>) returns (d: Scored)
    ensures d == Transitions(d0, route, pois, ts)
  {
    d := d0;
    for i := 0 to |ts|
      invariant d == Transitions(d0, route, pois, ts[..i])
    {
      assert ts[..i + 1][..i] == ts[..i];
      var t := ts[i];
      if t.poi !in route {
        var info := PoiInfo(pois, t.poi);
        if info.Some? {
          var score := t.score * 2.0;
          var prev := Lookup(d, t.poi);
          if prev.None? {
            d := Set(d, t.poi, Candidate(t.poi, info.value.name, info.value.theme, score, PopularNextStop(t.count),
                                         [RealTransitions]));
          } else {
            d := Set(d, t.poi, prev.value.(score := prev.value.score + score * 0.5,
                                           sources := prev.value.sources + [RealTransitions]));
          }
        }
      }
    }
    assert ts[..|ts|] == ts;
  }

  method BoostThemeMatches(d0: Scored, route: seq<int>, pois: seq<Poi>, m: map<(int, int), real>, last: int, ids: seq<int>)
    returns (d: Scored)
    requires NonNegative(m)
    ensures d == ThemeBoost(d0, route, pois, m, last, ids)
  {
    d := d0;
    for i := 0 to |ids|
      invariant d == ThemeBoost(d0, route, pois, m, last, ids[..i])
    {
      assert ids[..i + 1][..i] == ids[..i];
      var id := ids[i];
      if id !in route && PoiInfo(pois, id).Some? {
        var prev := Lookup(d, id);
        if prev.Some? {
          var sources := prev.value.sources;
          if ThemeMatch !in sources {
            sources := sources + [ThemeMatch];
          }
          d := Set(d, id, prev.value.(score := prev.value.score + ThemeBonus(m, last, id), sources := sources));
        }
      }
    }
    assert ids[..|ids|] == ids;
  }

  method MergeCachedBert(d0: Scored, route: seq<int>, ps: seq<Prediction>) returns (d: Scored)
    ensures d == CachedBert(d0, route, ps)
  {
    d := d0;
    for i := 0 to |ps|
      invariant d == CachedBert(d0, route, ps[..i])
    {
      assert ps[..i + 1][..i] == ps[..i];
      var p := ps[i];
      if p.poiId !in route {
        var score := p.score * 1.8;
        var prev := Lookup(d, p.poiId);
        if prev.None? {
          d := Set(d, p.poiId, Candidate(p.poiId, p.name, p.theme, score, AiPrediction, [BertCached]));
        } else {
          d := Set(d, p.poiId, prev.value.(score := prev.value.score + score * 0.4,
                                           sources := prev.value.sources + [BertCached]));
        }
      }
    }
    assert ps[..|ps|] == ps;
  }

  method CollectNearby(pois: seq<Poi>, m: map<(int, int), real>, route: seq<int>, d: Scored, last: int)
    returns (near: seq<NearbyPoi>)
    ensures near == NearbyCandidates(pois, m, route, d, last, |pois|)
  {
    near := [];
    var id := 1;
    while id <= |pois|
      invariant 1 <= id <= |pois| + 1
      invariant near == NearbyCandidates(pois, m, route, d, last, id - 1)
    {
      if id !in route && Lookup(d, id).None? {
        var dist := Distance(m, last, id);
        if dist < 0.5 {
          var info := PoiInfo(pois, id);
          if info.Some? {
            near := near + [NearbyPoi(id, dist, info.value.theme)];
          }
        }
      }
      id := id + 1;
    }
  }

  method AddNearbyLoop(d0: Scored, near: seq<NearbyPoi>, pois: seq<Poi>, n: nat) returns (d: Scored)
    requires forall p :: p in near ==> p.distance >= 0.0
    ensures d == AddNearby(d0, {}, near, pois, n)
  {
    d := d0;
    var themesAdded: set<string> := {};
    var i := 0;
    while i < |near|
      invariant 0 <= i <= |near|
      invariant forall p :: p in near[i..] ==> p in near
      invariant AddNearby(d, themesAdded, near[i..], pois, n) == AddNearby(d0, {}, near, pois, n)
    {
      if |d| >= n {
        break;
      }
      assert near[i..][0] == near[i] && near[i..][1..] == near[i + 1..];
      var p := near[i];
      var info := PoiInfo(pois, p.poiId);
      if info.Some? {
        var score := NearbyScore(p.distance, info.value.theme !in themesAdded);
        d := Set(d, p.poiId, Candidate(p.poiId, info.value.name, info.value.theme, score,
                                       NearbyAttraction(info.value.theme), [NearbyDiverse]));
        themesAdded := themesAdded + {info.value.theme};
      }
      i := i + 1;
    }
  }

  method MergeRealtimeBert(d0: Scored, route: seq<int>, ps: seq<Prediction>) returns (d: Scored)
    ensures d == Realtime(d0, route, ps)
  {
    d := d0;
    for i := 0 to |ps|
      invariant d == Realtime(d0, route, ps[..i])
    {
      assert ps[..i + 1][..i] == ps[..i];
      var p := ps[i];
      if p.poiId !in route {
        var prev := Lookup(d, p.poiId);
        if prev.None? {
          d := Set(d, p.poiId, Candidate(p.poiId, p.name, p.theme, p.score * 1.3, AdvancedAi, [BertRealtime]));
        } else {
          d := Set(d, p.poiId, prev.value.(score := prev.value.score + p.score * 0.5,
                                           sources := prev.value.sources + [BertRealtime]));
        }
      }
    }
    assert ps[..|ps|] == ps;
  }

  /** The final clean-up loop over the best `n` candidates. */
  method FinishLoop(d: Scored, n: nat) returns (recs: seq<Recommendation>)
    ensures recs == Finish(d, n)
  {
    var ranked := Take(SortDesc(Values(d), CandScore), n);
    recs := [];
    for i := 0 to |ranked|
      invariant recs == Finish(d, n)[..i]
    {
      var c := ranked[i];
      var reason := c.reason;
      if |c.sources| > 1 {
        reason := HighlyRecommended(|c.sources|);
      }
      recs := recs + [Recommendation(c.poiId, c.name, c.theme, c.score, reason)];
    }
  }

  /** The five strategies in turn, on a non-empty route. */
  method ScoreRoute(k: Knowledge, route: seq<int>, n: nat, realtime: Option<seq<Prediction>>) returns (scored: Scored)
    requires route != [] && NonNegative(k.distanceMatrix)
    ensures scored == Scores(k, route, n, realtime)
  {
    var last := route[|route| - 1];
    scored := InformedLoop(k, route);
    if |scored| < n {
      var near := CollectNearby(k.pois, k.distanceMatrix, route, scored, last);
      near := SortDesc(near, NegatedDistance);
      assert near == NearbySorted(k.pois, k.distanceMatrix, route, scored, last);
      scored := AddNearbyLoop(scored, near, k.pois, n);
    }
    if |scored| < n && realtime.Some? {
      scored := MergeRealtimeBert(scored, route, Take(realtime.value, 3));
    }
  }

  /** The first three strategies in turn. */
  method InformedLoop(k: Knowledge, route: seq<int>) returns (scored: Scored)
    requires route != [] && NonNegative(k.distanceMatrix)
    ensures scored == Informed(k, route)
  {
    var last := route[|route| - 1];
    var lastInfo := PoiInfo(k.pois, last);
    scored := [];
    var transitions := Lookup(k.tables.transitions, last);
    if transitions.Some? {
      scored := MergeTransitions(scored, route, k.pois, Take(transitions.value, 8));
    }
    if lastInfo.Some? && lastInfo.value.theme != "" {
      var themePois := Lookup(k.themeGroups, lastInfo.value.theme);
      if themePois.Some? {
        scored := BoostThemeMatches(scored, route, k.pois, k.distanceMatrix, last, Take(themePois.value, 5));
      }
    }
    if route in k.bertCache {
      scored := MergeCachedBert(scored, route, Take(k.bertCache[route], 8));
    }
  }

  // ---------------------------------------------------------------------
  // What the strategies keep
  // ---------------------------------------------------------------------

  /** Each scored POI is stored under its own id, once, and is not on the route. */
  ghost predicate ScoredOk(d: Scored, route: seq<int>) {
    DistinctKeys(d) && forall x :: x in d ==> x.1.poiId == x.0 && x.0 !in route
  }

  lemma SetScoredOk(d: Scored, route: seq<int>, c: Candidate)
    requires ScoredOk(d, route) && c.poiId !in route
    ensures ScoredOk(Set(d, c.poiId, c), route)
  {
    SetDistinct(d, c.poiId, c);
    SetItems(d, c.poiId, c);
  }

  lemma MergeScoredOk(d: Scored, route: seq<int>, c: Candidate, bonus: real)
    requires ScoredOk(d, route) && c.poiId !in route
    ensures ScoredOk(Merge(d, c, bonus), route)
  {
    match Lookup(d, c.poiId)
      case None => SetScoredOk(d, route, c);
      case Some(prev) =>
        var i :| 0 <= i < |d| && d[i] == (c.poiId, prev);
        assert d[i] in d;
        SetScoredOk(d, route, prev.(score := prev.score + bonus, sources := prev.sources + c.sources));
  }

  lemma TransitionStepOk(d: Scored, route: seq<int>, pois: seq<Poi>, t: TransitionEntry)
    requires ScoredOk(d, route)
    ensures ScoredOk(TransitionStep(d, route, pois, t), route)
  {
    if t.poi !in route && PoiInfo(pois, t.poi).Some? {
      var info := PoiInfo(pois, t.poi).value;
      MergeScoredOk(d, route, Candidate(t.poi, info.name, info.theme, t.score * 2.0, PopularNextStop(t.count),
                                        [RealTransitions]), t.score * 2.0 * 0.5);
    }
  }

  lemma {:induction false} TransitionsOk(d: Scored, route: seq<int>, pois: seq<Poi>, ts: seq<TransitionEntry>)
    requires ScoredOk(d, route)
    ensures ScoredOk(Transitions(d, route, pois, ts), route)
  {
    if ts != [] {
      TransitionsOk(d, route, pois, ts[..|ts| - 1]);
      TransitionStepOk(Transitions(d, route, pois, ts[..|ts| - 1]), route, pois, ts[|ts| - 1]);
    }
  }

  lemma CachedBertStepOk(d: Scored, route: seq<int>, p: Prediction)
    requires ScoredOk(d, route)
    ensures ScoredOk(CachedBertStep(d, route, p), route)
  {
    if p.poiId !in route {
      MergeScoredOk(d, route, Candidate(p.poiId, p.name, p.theme, p.score * 1.8, AiPrediction, [BertCached]),
                    p.score * 1.8 * 0.4);
    }
  }

  lemma {:induction false} CachedBertOk(d: Scored, route: seq<int>, ps: seq<Prediction>)
    requires ScoredOk(d, route)
    ensures ScoredOk(CachedBert(d, route, ps), route)
  {
    if ps != [] {
      CachedBertOk(d, route, ps[..|ps| - 1]);
      CachedBertStepOk(CachedBert(d, route, ps[..|ps| - 1]), route, ps[|ps| - 1]);
    }
  }

  lemma RealtimeStepOk(d: Scored, route: seq<int>, p: Prediction)
    requires ScoredOk(d, route)
    ensures ScoredOk(RealtimeStep(d, route, p), route)
  {
    if p.poiId !in route {
      MergeScoredOk(d, route, Candidate(p.poiId, p.name, p.theme, p.score * 1.3, AdvancedAi, [BertRealtime]),
                    p.score * 0.5);
    }
  }

  lemma {:induction false} RealtimeOk(d: Scored, route: seq<int>, ps: seq<Prediction>)
    requires ScoredOk(d, route)
    ensures ScoredOk(Realtime(d, route, ps), route)
  {
    if ps != [] {
      RealtimeOk(d, route, ps[..|ps| - 1]);
      RealtimeStepOk(Realtime(d, route, ps[..|ps| - 1]), route, ps[|ps| - 1]);
    }
  }

  /** Theme continuity creates no entry and removes none, never lowers a
      score, and keeps every entry where it was. */
  lemma {:induction false} ThemeBoostKeeps(d: Scored, route: seq<int>, pois: seq<Poi>, m: map<(int, int), real>,
                                           last: int, ids: seq<int>)
    requires NonNegative(m)
    ensures var r := ThemeBoost(d, route, pois, m, last, ids);
      && |r| == |d|
      && forall i :: 0 <= i < |d| ==> r[i].0 == d[i].0 && r[i].1.poiId == d[i].1.poiId && r[i].1.score >= d[i].1.score
  {
    if ids != [] {
      ThemeBoostKeeps(d, route, pois, m, last, ids[..|ids| - 1]);
      ThemeStepKeeps(ThemeBoost(d, route, pois, m, last, ids[..|ids| - 1]), route, pois, m, last, ids[|ids| - 1]);
    }
  }

  lemma ThemeStepKeeps(d: Scored, route: seq<int>, pois: seq<Poi>, m: map<(int, int), real>, last: int, id: int)
    requires NonNegative(m)
    ensures var r := ThemeStep(d, route, pois, m, last, id);
      && |r| == |d|
      && forall i :: 0 <= i < |d| ==> r[i].0 == d[i].0 && r[i].1.poiId == d[i].1.poiId && r[i].1.score >= d[i].1.score
  {
    if id !in route && PoiInfo(pois, id).Some? && Lookup(d, id).Some? {
      var prev := Lookup(d, id).value;
      SetReplaces(d, id, prev, ThemeMarked(prev, ThemeBonus(m, last, id)));
    }
  }

  lemma ThemeStepOk(d: Scored, route: seq<int>, pois: seq<Poi>, m: map<(int, int), real>, last: int, id: int)
    requires NonNegative(m) && ScoredOk(d, route)
    ensures ScoredOk(ThemeStep(d, route, pois, m, last, id), route)
  {
    if id !in route && PoiInfo(pois, id).Some? && Lookup(d, id).Some? {
      var prev := Lookup(d, id).value;
      var i :| 0 <= i < |d| && d[i] == (id, prev);
      assert d[i] in d;
      SetScoredOk(d, route, ThemeMarked(prev, ThemeBonus(m, last, id)));
    }
  }

  lemma {:induction false} ThemeBoostOk(d: Scored, route: seq<int>, pois: seq<Poi>, m: map<(int, int), real>,
                                        last: int, ids: seq<int>)
    requires NonNegative(m) && ScoredOk(d, route)
    ensures ScoredOk(ThemeBoost(d, route, pois, m, last, ids), route)
  {
    if ids != [] {
      ThemeBoostOk(d, route, pois, m, last, ids[..|ids| - 1]);
      ThemeStepOk(ThemeBoost(d, route, pois, m, last, ids[..|ids| - 1]), route, pois, m, last, ids[|ids| - 1]);
    }
  }

  /** The nearby loop stops at `n`: started below `n`, it ends at most at `n`.
      Every POI it changes is one of `near`, recommended for being nearby. */
  lemma {:induction false} AddNearbySpec(d: Scored, themesAdded: set<string>, near: seq<NearbyPoi>, pois: seq<Poi>,
                                         n: nat, id: int)
    requires forall p :: p in near ==> p.distance >= 0.0
    ensures |d| <= n ==> |AddNearby(d, themesAdded, near, pois, n)| <= n
    ensures var r := AddNearby(d, themesAdded, near, pois, n);
      Lookup(r, id) == Lookup(d, id)
      || (&& Lookup(r, id).Some? && Lookup(r, id).value.sources == [NearbyDiverse]
          && Lookup(r, id).value.reason.NearbyAttraction?
          && exists p :: p in near && p.poiId == id)
    decreases |near|
  {
    if near != [] && |d| < n {
      assert forall p :: p in near[1..] ==> p in near;
      match PoiInfo(pois, near[0].poiId)
        case None =>
          AddNearbySpec(d, themesAdded, near[1..], pois, n, id);
        case Some(info) =>
          var c := Candidate(near[0].poiId, info.name, info.theme,
                             NearbyScore(near[0].distance, info.theme !in themesAdded),
                             NearbyAttraction(info.theme), [NearbyDiverse]);
          AddNearbySpec(Set(d, near[0].poiId, c), themesAdded + {info.theme}, near[1..], pois, n, id);
          LookupSet(d, near[0].poiId, c, id);
    }
  }

  /** Every POI that strategy 4 adds is a POI of the table, off the route,
      closer than 0.5 to the last stop, and there only for being nearby; and
      the strategy never takes the count past `n`. */
  lemma NearbyAdds(d: Scored, pois: seq<Poi>, m: map<(int, int), real>, route: seq<int>, last: int, n: nat, id: int)
    requires NonNegative(m)
    ensures |d| <= n ==> |Nearby(d, pois, m, route, last, n)| <= n
    ensures var r := Nearby(d, pois, m, route, last, n);
      Lookup(d, id).None? && Lookup(r, id).Some? ==>
        && id !in route && PoiInfo(pois, id).Some? && Distance(m, last, id) < 0.5
        && Lookup(r, id).value.sources == [NearbyDiverse]
  {
    AddNearbySpec(d, {}, NearbySorted(pois, m, route, d, last), pois, n, id);
  }

  lemma NearbyOk(d: Scored, pois: seq<Poi>, m: map<(int, int), real>, route: seq<int>, last: int, n: nat)
    requires NonNegative(m) && ScoredOk(d, route)
    ensures ScoredOk(Nearby(d, pois, m, route, last, n), route)
  {
    AddNearbyOk(d, {}, NearbySorted(pois, m, route, d, last), pois, n, route);
  }

  lemma {:induction false} AddNearbyOk(d: Scored, themesAdded: set<string>, near: seq<NearbyPoi>, pois: seq<Poi>,
                                       n: nat, route: seq<int>)
    requires forall p :: p in near ==> p.distance >= 0.0 && p.poiId !in route
    requires ScoredOk(d, route)
    ensures ScoredOk(AddNearby(d, themesAdded, near, pois, n), route)
    decreases |near|
  {
    if near != [] && |d| < n {
      assert forall p :: p in near[1..] ==> p in near;
      match PoiInfo(pois, near[0].poiId)
        case None =>
          AddNearbyOk(d, themesAdded, near[1..], pois, n, route);
        case Some(info) =>
          var c := Candidate(near[0].poiId, info.name, info.theme,
                             NearbyScore(near[0].distance, info.theme !in themesAdded),
                             NearbyAttraction(info.theme), [NearbyDiverse]);
          SetScoredOk(d, route, c);
          AddNearbyOk(Set(d, near[0].poiId, c), themesAdded + {info.theme}, near[1..], pois, n, route);
    }
  }

  /** After the five strategies each scored POI is off the route and scored once. */
  lemma ScoresOk(k: Knowledge, route: seq<int>, n: nat, realtime: Option<seq<Prediction>>)
    requires route != [] && NonNegative(k.distanceMatrix)
    ensures ScoredOk(Scores(k, route, n, realtime), route)
  {
    var d3 := Informed(k, route);
    InformedOk(k, route);
    var d4 := if |d3| < n then Nearby(d3, k.pois, k.distanceMatrix, route, route[|route| - 1], n) else d3;
    if |d3| < n {
      NearbyOk(d3, k.pois, k.distanceMatrix, route, route[|route| - 1], n);
    }
    if |d4| < n && realtime.Some? {
      RealtimeOk(d4, route, Take(realtime.value, 3));
    }
  }

  lemma InformedOk(k: Knowledge, route: seq<int>)
    requires route != [] && NonNegative(k.distanceMatrix)
    ensures ScoredOk(Informed(k, route), route)
  {
    var last := route[|route| - 1];
    var lastInfo := PoiInfo(k.pois, last);
    var d1 := match Lookup(k.tables.transitions, last)
      case None => []
      case Some(ts) => Transitions([], route, k.pois, Take(ts, 8));
    if Lookup(k.tables.transitions, last).Some? {
      TransitionsOk([], route, k.pois, Take(Lookup(k.tables.transitions, last).value, 8));
    }
    var d2 :=
      if lastInfo.Some? && lastInfo.value.theme != "" && Lookup(k.themeGroups, lastInfo.value.theme).Some? then
        ThemeBoost(d1, route, k.pois, k.distanceMatrix, last, Take(Lookup(k.themeGroups, lastInfo.value.theme).value, 5))
      else d1;
    if d2 != d1 {
      ThemeBoostOk(d1, route, k.pois, k.distanceMatrix, last, Take(Lookup(k.themeGroups, lastInfo.value.theme).value, 5));
    }
    if route in k.bertCache {
      CachedBertOk(d2, route, Take(k.bertCache[route], 8));
    }
  }

  function RecId(r: Recommendation): int { r.poiId }
  function CandId(c: Candidate): int { c.poiId }

  /** Finishing keeps the best `n` scored candidates, presented, best first:
      `min(n, |d|)` of them, each from `d`, and no candidate left out scores
      higher than one kept; ids stay distinct and off the route when the
      scored entries' are. */
  lemma FinishSpec(d: Scored, n: nat, route: seq<int>)
    requires ScoredOk(d, route)
    ensures var recs := Finish(d, n);
      && |recs| <= n
      && |recs| == (if n <= |d| then n else |d|)
      && (forall r :: r in recs ==> exists c :: c in Values(d) && r == Present(c))
      && (forall c, r :: c in Values(d) && Present(c) !in recs && r in recs ==> c.score <= r.score)
      && SortedDesc(recs, RecScore)
      && DistinctBy(recs, RecId)
      && forall r :: r in recs ==> r.poiId !in route
  {
    var values := Values(d);
    FinishTop(d, n);
    ScoredValues(d, route);
    SortDescSorted(values, CandScore);
    SortDescDistinct(values, CandScore, CandId);
    SortDescMembers(values, CandScore);
    PresentRanked(Take(SortDesc(values, CandScore), n), route);
  }

  /** `sorted(scored.values(), …, reverse=True)[:n]`, presented: `min(n, |d|)`
      candidates of `d`, and none left out scores higher than one kept. */
  lemma FinishTop(d: Scored, n: nat)
    ensures var recs := Finish(d, n);
      && |recs| == (if n <= |d| then n else |d|)
      && (forall r :: r in recs ==> exists c :: c in Values(d) && r == Present(c))
      && forall c, r :: c in Values(d) && Present(c) !in recs && r in recs ==> c.score <= r.score
  {
    var values := Values(d);
    PresentTop(values, n);
  }

  /** The best `n` of `values`, presented, by the facts `TopSpec` gives about them. */
  lemma PresentTop(values: seq<Candidate>, n: nat)
    ensures var recs := PresentAll(Take(SortDesc(values, CandScore), n));
      && |recs| == (if n <= |values| then n else |values|)
      && (forall r :: r in recs ==> exists c :: c in values && r == Present(c))
      && forall c, r :: c in values && Present(c) !in recs && r in recs ==> c.score <= r.score
  {
    var ranked := Take(SortDesc(values, CandScore), n);
    var recs := PresentAll(ranked);
    TopCount(values, n, CandScore);
    forall r | r in recs ensures exists c :: c in values && r == Present(c) {
      var i :| 0 <= i < |recs| && recs[i] == r;
      assert ranked[i] in multiset(values);
    }
    forall c, r | c in values && Present(c) !in recs && r in recs ensures c.score <= r.score {
      PresentLeftOut(values, n, c, r);
    }
  }

  /** A candidate whose presentation is not kept scores no higher than one kept. */
  lemma PresentLeftOut(values: seq<Candidate>, n: nat, c: Candidate, r: Recommendation)
    requires c in values
    requires Present(c) !in PresentAll(Take(SortDesc(values, CandScore), n))
    requires r in PresentAll(Take(SortDesc(values, CandScore), n))
    ensures c.score <= r.score
  {
    var ranked := Take(SortDesc(values, CandScore), n);
    var recs := PresentAll(ranked);
    forall j | 0 <= j < |ranked| ensures ranked[j] != c {
      assert recs[j] in recs;
    }
    assert c !in multiset(ranked);
    assert c in multiset(values);
    var i :| 0 <= i < |recs| && recs[i] == r;
    TopLeftOut(values, n, CandScore, c, ranked[i]);
  }

  /** The scored entries' candidates have distinct ids, none on the route. */
  lemma ScoredValues(d: Scored, route: seq<int>)
    requires ScoredOk(d, route)
    ensures DistinctBy(Values(d), CandId)
    ensures forall c :: c in Values(d) ==> c.poiId !in route
  {
    var values := Values(d);
    forall i, j | 0 <= i < j < |values| ensures CandId(values[i]) != CandId(values[j]) {
      assert d[i] in d && d[j] in d;
    }
    forall c | c in values ensures c.poiId !in route {
      var i :| 0 <= i < |values| && values[i] == c;
      assert d[i] in d;
    }
  }

  /** Presenting a ranked prefix keeps its order, its distinct ids and its
      distance from the route. */
  lemma PresentRanked(ranked: seq<Candidate>, route: seq<int>)
    requires SortedDesc(ranked, CandScore) && DistinctBy(ranked, CandId)
    requires forall c :: c in ranked ==> c.poiId !in route
    ensures var recs := PresentAll(ranked);
      && SortedDesc(recs, RecScore)
      && DistinctBy(recs, RecId)
      && forall r :: r in recs ==> r.poiId !in route
  {
    var recs := PresentAll(ranked);
    forall r | r in recs ensures r.poiId !in route {
      var i :| 0 <= i < |recs| && recs[i] == r;
      assert ranked[i] in ranked;
    }
  }

  /** For a non-empty route: the best `min(n, |scored|)` scored candidates,
      presented, best first; none left out scores higher than one kept; no
      POI of the route, and no POI twice. */
  lemma RecommendNextShape(k: Knowledge, route: seq<int>, n: nat, realtime: Option<seq<Prediction>>)
    requires route != [] && NonNegative(k.distanceMatrix)
    ensures var recs := Recommend(k, route, n, realtime);
      var d := Scores(k, route, n, realtime);
      && |recs| <= n
      && |recs| == (if n <= |d| then n else |d|)
      && (forall r :: r in recs ==> exists c :: c in Values(d) && r == Present(c))
      && (forall c, r :: c in Values(d) && Present(c) !in recs && r in recs ==> c.score <= r.score)
      && SortedDesc(recs, RecScore)
      && DistinctBy(recs, RecId)
      && forall r :: r in recs ==> r.poiId !in route
  {
    ScoresOk(k, route, n, realtime);
    FinishSpec(Scores(k, route, n, realtime), n, route);
  }


  // ---------------------------------------------------------------------
  // _format_route_for_bert
  // ---------------------------------------------------------------------

  /** The words of the route text: the id and the theme of each stop that is
      in the table, in route order. */
  function RouteWords(route: seq<int>, pois: seq<Poi>): seq<string> {
    if route == [] then []
    else
      var prev := RouteWords(route[..|route| - 1], pois);
      match PoiInfo(pois, route[|route| - 1])
        case None => prev
        case Some(info) => prev + [IntToString(route[|route| - 1]), info.theme]
  }

  /** `" ".join(parts)`. */
  function RouteText(route: seq<int>, pois: seq<Poi>): string {
    Join(RouteWords(route, pois), ' ')
  }

  /** `a`, `b` name a stop of the route that is in the table: `a` reads back
      as its id and `b` is its theme. */
  ghost predicate NamesStop(route: seq<int>, pois: seq<Poi>, a: string, b: string) {
    exists id :: id in route && ParseInt(a) == Some(id) && PoiInfo(pois, id).Some?
                 && b == PoiInfo(pois, id).value.theme
  }

  /** The words come in pairs: a printed id of a stop of the route that is
      in the table, which reads back as that id, then that POI's theme. */
  lemma {:induction false} RouteWordsPairs(route: seq<int>, pois: seq<Poi>)
    ensures var w := RouteWords(route, pois);
      && |w| % 2 == 0
      && forall i :: 0 <= i < |w| / 2 ==> NamesStop(route, pois, w[2 * i], w[2 * i + 1])
  {
    if route != [] {
      var init := route[..|route| - 1];
      var last := route[|route| - 1];
      RouteWordsPairs(init, pois);
      var prev := RouteWords(init, pois);
      if PoiInfo(pois, last).Some? {
        var w := prev + [IntToString(last), PoiInfo(pois, last).value.theme];
        assert RouteWords(route, pois) == w;
        assert |w| / 2 == |prev| / 2 + 1;
        forall i | 0 <= i < |w| / 2 ensures NamesStop(route, pois, w[2 * i], w[2 * i + 1]) {
          if i < |prev| / 2 {
            assert w[2 * i] == prev[2 * i] && w[2 * i + 1] == prev[2 * i + 1];
            NamesStopWider(init, route, pois, prev[2 * i], prev[2 * i + 1]);
          } else {
            assert w[2 * i] == IntToString(last) && w[2 * i + 1] == PoiInfo(pois, last).value.theme;
            NamesStopLast(route, pois, last);
          }
        }
      } else {
        assert RouteWords(route, pois) == prev;
        forall i | 0 <= i < |prev| / 2 ensures NamesStop(route, pois, prev[2 * i], prev[2 * i + 1]) {
          NamesStopWider(init, route, pois, prev[2 * i], prev[2 * i + 1]);
        }
      }
    }
  }

  lemma NamesStopWider(init: seq<int>, route: seq<int>, pois: seq<Poi>, a: string, b: string)
    requires NamesStop(init, pois, a, b) && |init| <= |route| && init == route[..|init|]
    ensures NamesStop(route, pois, a, b)
  {
    var id :| id in init && ParseInt(a) == Some(id) && PoiInfo(pois, id).Some?
              && b == PoiInfo(pois, id).value.theme;
    assert id in route;
  }

  lemma NamesStopLast(route: seq<int>, pois: seq<Poi>, last: int)
    requires route != [] && last == route[|route| - 1] && PoiInfo(pois, last).Some?
    ensures NamesStop(route, pois, IntToString(last), PoiInfo(pois, last).value.theme)
  {
    ParseIntRoundTrip(last);
    assert last in route;
  }

  /** The text is empty exactly when no stop of the route is in the table,
      the case in which no BERT prediction is asked for. */
  lemma {:induction false} RouteTextEmpty(route: seq<int>, pois: seq<Poi>)
    ensures RouteText(route, pois) == "" <==> forall id :: id in route ==> PoiInfo(pois, id).None?
  {
    RouteWordsEmpty(route, pois);
    var w := RouteWords(route, pois);
    if w != [] {
      assert |w| == 1 || JoinWith(w, ' ') == w[0] + [' '] + JoinWith(w[1..], ' ');
    }
  }

  lemma {:induction false} RouteWordsEmpty(route: seq<int>, pois: seq<Poi>)
    ensures RouteWords(route, pois) == [] <==> forall id :: id in route ==> PoiInfo(pois, id).None?
    ensures RouteWords(route, pois) != [] ==> RouteWords(route, pois)[0] != ""
  {
    if route != [] {
      var init, last := route[..|route| - 1], route[|route| - 1];
      RouteWordsEmpty(init, pois);
      assert route == init + [last];
      assert forall id :: id in route <==> id in init || id == last;
      var prev := RouteWords(init, pois);
      if PoiInfo(pois, last).Some? {
        var w := prev + [IntToString(last), PoiInfo(pois, last).value.theme];
        assert RouteWords(route, pois) == w;
        assert last in route && PoiInfo(pois, last).Some?;
        assert w[0] == if prev == [] then IntToString(last) else prev[0];
        assert |IntToString(last)| >= 1;
      } else {
        assert RouteWords(route, pois) == prev;
      }
    }
  }

  /** When no theme holds a space, splitting the text at spaces gives the
      words back. */
  lemma RouteTextSplits(route: seq<int>, pois: seq<Poi>)
    requires forall i :: 0 <= i < |pois| ==> ' ' !in pois[i].theme
    requires RouteWords(route, pois) != []
    ensures Split(RouteText(route, pois), ' ') == RouteWords(route, pois)
  {
    RouteWordsNoSpace(route, pois);
    SplitJoinWith(RouteWords(route, pois), ' ');
  }

  lemma {:induction false} RouteWordsNoSpace(route: seq<int>, pois: seq<Poi>)
    requires forall i :: 0 <= i < |pois| ==> ' ' !in pois[i].theme
    ensures forall word :: word in RouteWords(route, pois) ==> ' ' !in word
  {
    if route != [] {
      RouteWordsNoSpace(route[..|route| - 1], pois);
      var last := route[|route| - 1];
      if PoiInfo(pois, last).Some? {
        IntToStringNoSpace(last);
        PoiInfoFirst(pois, last);
        var i :| 0 <= i < |pois| && pois[i] == PoiInfo(pois, last).value && pois[i].id == last
                 && forall j :: 0 <= j < i ==> pois[j].id != last;
        assert ' ' !in pois[i].theme;
        var prev := RouteWords(route[..|route| - 1], pois);
        assert RouteWords(route, pois) == prev + [IntToString(last), pois[i].theme];
        forall word | word in prev + [IntToString(last), pois[i].theme] ensures ' ' !in word {
          if word !in prev {
            assert word == IntToString(last) || word == pois[i].theme;
          }
        }
      }
    }
  }

  // ---------------------------------------------------------------------
  // The recommender object
  // ---------------------------------------------------------------------

  class HybridSmartRecommender {
    var pois: seq<Poi>
    var userVisits: seq<Visit>
    var theme2num: map<string, int>
    var num2theme: map<int, string>
    var poi2theme: map<int, string>
    var themeGroups: seq<(string, seq<int>)>
    var distanceMatrix: map<(int, int), real>
    var bertPredictionsCache: map<seq<int>, seq<Prediction>>
    var popularRoutesFromData: PatternTables

    /** Every derived table agrees with the POI table and the visits. */
    ghost predicate Valid()
      reads this
    {
      && poi2theme == PoiThemes(pois)
      && ThemeGroupsOf(pois, themeGroups)
      && distanceMatrix == Matrix(pois, pois)
      && popularRoutesFromData == Analyze(userVisits, poi2theme)
      && NonNegative(distanceMatrix)
    }

    function State(): Knowledge
      reads this
    {
      Knowledge(pois, userVisits, themeGroups, distanceMatrix, popularRoutesFromData, bertPredictionsCache)
    }

    /** `__init__` and `initialize` with the data already loaded: the theme
        index, then `build_smart_cache`.  `bertPredictions` stands for what
        `precompute_bert_predictions` would cache. */
    constructor (pois: seq<Poi>, userVisits: seq<Visit>, bertPredictions: map<seq<int>, seq<Prediction>>)
      ensures Valid()
      ensures this.pois == pois && this.userVisits == userVisits && bertPredictionsCache == bertPredictions
    {
      this.pois := pois;
      this.userVisits := userVisits;
      var t2n, n2t, p2t := GetThemesIds(pois);
      theme2num, num2theme, poi2theme := t2n, n2t, p2t;
      bertPredictionsCache := bertPredictions;
      var groups, matrix, tables := BuildSmartCache(pois, userVisits, p2t);
      themeGroups, distanceMatrix, popularRoutesFromData := groups, matrix, tables;
      MatrixNonNegative(pois);
    }

    /** `_get_popular_starting_pois`. */
    method GetPopularStartingPois(n: nat) returns (recs: seq<Recommendation>)
      ensures recs == PopularStarts(State(), n)
    {
      recs := CollectPopular(RankedVisitCounts(userVisits), pois, popularRoutesFromData.startingPois, n);
      recs := Take(SortDesc(recs, RecScore), n);
    }

    /** `_format_route_for_bert`. */
    method FormatRouteForBert(route: seq<int>) returns (text: string)
      ensures text == RouteText(route, pois)
    {
      var parts: seq<string> := [];
      for i := 0 to |route|
        invariant parts == RouteWords(route[..i], pois)
      {
        assert route[..i + 1][..i] == route[..i];
        var info := PoiInfo(pois, route[i]);
        if info.Some? {
          parts := parts + [IntToString(route[i]), info.value.theme];
        }
      }
      assert route[..|route|] == route;
      text := Join(parts, ' ');
    }

    /** `recommend_next_pois`.  `realtime` is `None` when no BERT model is
        loaded, and otherwise what `get_bert_predictions_for_route` returns. */
    method RecommendNextPois(route: seq<int>, n: nat, realtime: Option<seq<Prediction>>)
      returns (recs: seq<Recommendation>)
      requires Valid()
      ensures recs == Recommend(State(), route, n, realtime)
    {
      if route == [] {
        recs := GetPopularStartingPois(n);
      } else {
        var scored := ScoreRoute(State(), route, n, realtime);
        recs := FinishLoop(scored, n);
      }
    }
  }
}
