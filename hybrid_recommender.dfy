/** The recommender of `backend/hybrid_smart_recommender.py`: the same smart
    cache as the other recommender (visit patterns, theme groups, distance
    matrix), and a `recommend_next_pois` that pools candidates from the
    starting table, the cached and real-time BERT predictions and the real
    transitions, then keeps the best-scored occurrence of each POI.  The BERT
    model is not part of this model: its cached predictions are given to the
    constructor and its real-time prediction for a route is a parameter, and
    `poi2theme` comes from `get_themes_ids` of a module that is not part of
    this model either. */
module HybridRecommender {
  import opened Wrappers
  import opened Sorting
  import opened Dicts
  import opened PoiTables
  import opened Patterns

  /** The `reason` text, by its shape. */
  datatype Reason =
    | StartingPoint(users: nat)
    | CachedPrediction
    | PopularTransition(users: nat)
    | RealtimePrediction

  /** An entry of `recommendations`. */
  datatype Recommendation = Recommendation(poiId: int, name: string, theme: string, score: real, reason: Reason)

  function RecScore(r: Recommendation): real { r.score }
  function RecId(r: Recommendation): int { r.poiId }

  /** The ids of a list of recommendations. */
  function IdSet(recs: seq<Recommendation>): set<int> {
    set r | r in recs :: r.poiId
  }

  /** `num_recommendations` when the caller gives none. */
  const DefaultCount: nat := 3

  /** What `recommend_next_pois` reads of the recommender. */
  datatype Knowledge = Knowledge(pois: seq<Poi>, tables: PatternTables, bertCache: map<seq<int>, seq<Prediction>>)

  // ---------------------------------------------------------------------
  // Candidates
  // ---------------------------------------------------------------------

  function StartRec(e: StartEntry, info: Poi): Recommendation {
    Recommendation(e.poi, info.name, info.theme, e.score, StartingPoint(e.count))
  }

  function TransitionRec(t: TransitionEntry, info: Poi): Recommendation {
    Recommendation(t.poi, info.name, info.theme, t.score, PopularTransition(t.count))
  }

  function PredictionRec(p: Prediction, reason: Reason): Recommendation {
    Recommendation(p.poiId, p.name, p.theme, p.score, reason)
  }

  /** The inner loop over one theme's entries: each entry whose POI is in the
      table. */
  function ThemeStarts(entries: seq<StartEntry>, pois: seq<Poi>): seq<Recommendation> {
    if entries == [] then []
    else
      var e := entries[|entries| - 1];
      var prev := ThemeStarts(entries[..|entries| - 1], pois);
      match PoiInfo(pois, e.poi)
      case None => prev
      case Some(info) => prev + [StartRec(e, info)]
  }

  /** The empty-route candidates: the first two entries of each theme of
      `starting_pois`, in theme order. */
  function StartCandidates(groups: seq<(string, seq<StartEntry>)>, pois: seq<Poi>): seq<Recommendation> {
    if groups == [] then []
    else
      var n := |groups| - 1;
      StartCandidates(groups[..n], pois) + ThemeStarts(Take(groups[n].1, 2), pois)
  }

  /** The cached (or real-time) BERT predictions that are not on the route. */
  function PredictionCandidates(route: seq<int>, ps: seq<Prediction>, reason: Reason): seq<Recommendation> {
    if ps == [] then []
    else
      var p := ps[|ps| - 1];
      var prev := PredictionCandidates(route, ps[..|ps| - 1], reason);
      if p.poiId !in route then prev + [PredictionRec(p, reason)] else prev
  }

  /** The transitions out of the last stop that lead off the route to a POI of
      the table. */
  function TransitionCandidates(route: seq<int>, pois: seq<Poi>, ts: seq<TransitionEntry>): seq<Recommendation> {
    if ts == [] then []
    else
      var t := ts[|ts| - 1];
      var prev := TransitionCandidates(route, pois, ts[..|ts| - 1]);
      if t.poi in route then prev
      else match PoiInfo(pois, t.poi)
        case None => prev
        case Some(info) => prev + [TransitionRec(t, info)]
  }

  /** The candidates of a non-empty route before real-time BERT is asked:
      the cached predictions for exactly this route, then the transitions. */
  function Informed(k: Knowledge, route: seq<int>): seq<Recommendation>
    requires route != []
  {
    (if route in k.bertCache then PredictionCandidates(route, k.bertCache[route], CachedPrediction) else [])
    + match Lookup(k.tables.transitions, route[|route| - 1])
      case None => []
      case Some(ts) => TransitionCandidates(route, k.pois, ts)
  }

  /** All of `recommendations` before the duplicate pass.  `realtime` is
      `None` when no BERT model is loaded. */
  function Candidates(k: Knowledge, route: seq<int>, n: nat, realtime: Option<seq<Prediction>>): seq<Recommendation> {
    if route == [] then StartCandidates(k.tables.startingPois, k.pois)
    else
      var c := Informed(k, route);
      if |c| < n && realtime.Some? then c + PredictionCandidates(route, realtime.value, RealtimePrediction) else c
  }

  // ---------------------------------------------------------------------
  // The duplicate pass
  // ---------------------------------------------------------------------

  /** The loop over the sorted candidates: a POI not seen yet is kept and
      marked seen, and the loop stops as soon as `n` are kept. */
  function Dedup(unique: seq<Recommendation>, seen: set<int>, rows: seq<Recommendation>, n: nat): seq<Recommendation>
    decreases |rows|
  {
    if rows == [] then unique
    else if rows[0].poiId in seen then Dedup(unique, seen, rows[1..], n)
    else
      var next := unique + [rows[0]];
      if |next| >= n then next else Dedup(next, seen + {rows[0].poiId}, rows[1..], n)
  }

  /** `recommend_next_pois`. */
  function Recommend(k: Knowledge, route: seq<int>, n: nat, realtime: Option<seq<Prediction>>): seq<Recommendation> {
    Take(Dedup([], {}, SortDesc(Candidates(k, route, n, realtime), RecScore), n), n)
  }

  // ---------------------------------------------------------------------
  // The loops
  // ---------------------------------------------------------------------

  method StartingLoop(groups: seq<(string, seq<StartEntry>)>, pois: seq<Poi>) returns (recs: seq<Recommendation>)
    ensures recs == StartCandidates(groups, pois)
  {
    recs := [];
    for i := 0 to |groups|
      invariant recs == StartCandidates(groups[..i], pois)
    {
      assert groups[..i + 1][..i] == groups[..i];
      var entries := Take(groups[i].1, 2);
      ghost var before := recs;
      for j := 0 to |entries|
        invariant recs == before + ThemeStarts(entries[..j], pois)
      {
        assert entries[..j + 1][..j] == entries[..j];
        var info := PoiInfo(pois, entries[j].poi);
        if info.Some? {
          recs := recs + [StartRec(entries[j], info.value)];
        }
      }
      assert entries[..|entries|] == entries;
    }
    assert groups[..|groups|] == groups;
  }

  method PredictionLoop(recs0: seq<Recommendation>, route: seq<int>, ps: seq<Prediction>, reason: Reason)
    returns (recs: seq<Recommendation>)
    ensures recs == recs0 + PredictionCandidates(route, ps, reason)
  {
    recs := recs0;
    for i := 0 to |ps|
      invariant recs == recs0 + PredictionCandidates(route, ps[..i], reason)
    {
      assert ps[..i + 1][..i] == ps[..i];
      if ps[i].poiId !in route {
        recs := recs + [PredictionRec(ps[i], reason)];
      }
    }
    assert ps[..|ps|] == ps;
  }

  method TransitionLoop(recs0: seq<Recommendation>, route: seq<int>, pois: seq<Poi>, ts: seq<TransitionEntry>)
    returns (recs: seq<Recommendation>)
    ensures recs == recs0 + TransitionCandidates(route, pois, ts)
  {
    recs := recs0;
    for i := 0 to |ts|
      invariant recs == recs0 + TransitionCandidates(route, pois, ts[..i])
    {
      assert ts[..i + 1][..i] == ts[..i];
      if ts[i].poi !in route {
        var info := PoiInfo(pois, ts[i].poi);
        if info.Some? {
          recs := recs + [TransitionRec(ts[i], info.value)];
        }
      }
    }
    assert ts[..|ts|] == ts;
  }

  method DedupLoop(rows: seq<Recommendation>, n: nat) returns (unique: seq<Recommendation>)
    ensures unique == Dedup([], {}, rows, n)
  {
    unique := [];
    var seen: set<int> := {};
    var i := 0;
    while i < |rows|
      invariant 0 <= i <= |rows|
      invariant Dedup(unique, seen, rows[i..], n) == Dedup([], {}, rows, n)
    {
      assert rows[i..][0] == rows[i] && rows[i..][1..] == rows[i + 1..];
      if rows[i].poiId !in seen {
        unique := unique + [rows[i]];
        seen := seen + {rows[i].poiId};
        if |unique| >= n {
          break;
        }
      }
      i := i + 1;
    }
  }

  // ---------------------------------------------------------------------
  // What the candidate lists hold
  // ---------------------------------------------------------------------

  /** A theme contributes one candidate per entry whose POI is in the table. */
  lemma {:induction false} ThemeStartsSpec(entries: seq<StartEntry>, pois: seq<Poi>)
    ensures |ThemeStarts(entries, pois)| <= |entries|
    ensures forall r :: r in ThemeStarts(entries, pois) <==>
      exists j :: 0 <= j < |entries| && PoiInfo(pois, entries[j].poi).Some?
                  && r == StartRec(entries[j], PoiInfo(pois, entries[j].poi).value)
  {
    if entries != [] {
      var m := |entries| - 1;
      ThemeStartsSpec(entries[..m], pois);
      assert forall j :: 0 <= j < m ==> entries[..m][j] == entries[j];
    }
  }

  /** The empty route draws at most two candidates per theme: each candidate
      is one of the first two entries of some theme whose POI is in the
      table, and every such entry is a candidate. */
  lemma {:induction false} StartCandidatesSpec(groups: seq<(string, seq<StartEntry>)>, pois: seq<Poi>)
    ensures |StartCandidates(groups, pois)| <= 2 * |groups|
    ensures forall r :: r in StartCandidates(groups, pois) <==>
      exists g, j :: 0 <= g < |groups| && 0 <= j < 2 && j < |groups[g].1|
                     && PoiInfo(pois, groups[g].1[j].poi).Some?
                     && r == StartRec(groups[g].1[j], PoiInfo(pois, groups[g].1[j].poi).value)
  {
    if groups != [] {
      var n := |groups| - 1;
      StartCandidatesSpec(groups[..n], pois);
      var entries := Take(groups[n].1, 2);
      ThemeStartsSpec(entries, pois);
      assert forall g :: 0 <= g < n ==> groups[..n][g] == groups[g];
      assert forall j :: 0 <= j < |entries| ==> entries[j] == groups[n].1[j];
    }
  }

  /** Exactly the predictions off the route become candidates, unchanged. */
  lemma {:induction false} PredictionCandidatesSpec(route: seq<int>, ps: seq<Prediction>, reason: Reason)
    ensures forall r :: r in PredictionCandidates(route, ps, reason) <==>
      r.reason == reason && r.poiId !in route && Prediction(r.poiId, r.name, r.theme, r.score) in ps
  {
    if ps != [] {
      var m := |ps| - 1;
      PredictionCandidatesSpec(route, ps[..m], reason);
      assert ps == ps[..m] + [ps[m]];
    }
  }

  /** Exactly the transitions off the route to a POI of the table become
      candidates, named and themed as the table says. */
  lemma {:induction false} TransitionCandidatesSpec(route: seq<int>, pois: seq<Poi>, ts: seq<TransitionEntry>)
    ensures forall r :: r in TransitionCandidates(route, pois, ts) <==>
      exists t :: t in ts && t.poi !in route && PoiInfo(pois, t.poi).Some?
                  && r == TransitionRec(t, PoiInfo(pois, t.poi).value)
  {
    if ts != [] {
      var m := |ts| - 1;
      TransitionCandidatesSpec(route, pois, ts[..m]);
      assert ts == ts[..m] + [ts[m]];
    }
  }

  /** No candidate of a non-empty route is on the route, and real-time
      predictions are among the candidates only when the cached predictions
      and the transitions gave fewer than `n` and a model is loaded. */
  lemma CandidatesOffRoute(k: Knowledge, route: seq<int>, n: nat, realtime: Option<seq<Prediction>>)
    requires route != []
    ensures forall r :: r in Candidates(k, route, n, realtime) ==> r.poiId !in route
    ensures forall r :: r in Candidates(k, route, n, realtime) && r.reason == RealtimePrediction ==>
      |Informed(k, route)| < n && realtime.Some?
  {
    if route in k.bertCache {
      PredictionCandidatesSpec(route, k.bertCache[route], CachedPrediction);
    }
    var ts := Lookup(k.tables.transitions, route[|route| - 1]);
    if ts.Some? {
      TransitionCandidatesSpec(route, k.pois, ts.value);
    }
    if realtime.Some? {
      PredictionCandidatesSpec(route, realtime.value, RealtimePrediction);
    }
  }

  // ---------------------------------------------------------------------
  // What the duplicate pass keeps
  // ---------------------------------------------------------------------

  lemma IdSetSnoc(unique: seq<Recommendation>, r: Recommendation)
    ensures IdSet(unique + [r]) == IdSet(unique) + {r.poiId}
  {
    assert forall x :: x in unique + [r] <==> x in unique || x == r;
  }

  /** The pass keeps ids distinct, keeps only what it was given, never drops
      an id already kept, and when it ends with fewer than `n` it has kept
      every id it was given. */
  lemma {:induction false} DedupDistinct(unique: seq<Recommendation>, seen: set<int>, rows: seq<Recommendation>, n: nat)
    requires seen == IdSet(unique) && DistinctBy(unique, RecId)
    ensures var r := Dedup(unique, seen, rows, n);
      && DistinctBy(r, RecId)
      && (forall x :: x in r ==> x in unique || x in rows)
      && IdSet(unique) <= IdSet(r)
      && (|r| < n ==> forall c :: c in rows ==> c.poiId in IdSet(r))
    decreases |rows|
  {
    if rows != [] {
      var x := rows[0];
      assert forall c :: c in rows ==> c == x || c in rows[1..];
      if x.poiId in seen {
        DedupDistinct(unique, seen, rows[1..], n);
      } else {
        var next := unique + [x];
        IdSetSnoc(unique, x);
        forall i, j | 0 <= i < j < |next| ensures RecId(next[i]) != RecId(next[j]) {
          if j == |unique| {
            assert next[i] in unique;
          }
        }
        if |next| < n {
          DedupDistinct(next, seen + {x.poiId}, rows[1..], n);
        }
      }
    }
  }

  /** Taking from a list sorted best first, with everything kept so far at
      least as good as what is left, keeps the result sorted. */
  lemma {:induction false} DedupSorted(unique: seq<Recommendation>, seen: set<int>, rows: seq<Recommendation>, n: nat)
    requires SortedDesc(rows, RecScore) && SortedDesc(unique, RecScore)
    requires forall a, c :: a in unique && c in rows ==> a.score >= c.score
    ensures SortedDesc(Dedup(unique, seen, rows, n), RecScore)
    decreases |rows|
  {
    if rows != [] {
      var x := rows[0];
      assert forall c :: c in rows[1..] ==> c in rows;
      if x.poiId in seen {
        DedupSorted(unique, seen, rows[1..], n);
      } else {
        var next := unique + [x];
        assert forall c :: c in rows[1..] ==> x.score >= c.score;
        assert forall a :: a in next ==> a in unique || a == x;
        if |next| < n {
          DedupSorted(next, seen + {x.poiId}, rows[1..], n);
        }
      }
    }
  }

  /** Each newly kept candidate is the first of its POI in the sorted list,
      so no other candidate for that POI scores higher. */
  lemma {:induction false} DedupBest(unique: seq<Recommendation>, seen: set<int>, rows: seq<Recommendation>, n: nat)
    requires SortedDesc(rows, RecScore)
    ensures forall r :: r in Dedup(unique, seen, rows, n) && r !in unique ==>
      r.poiId !in seen && r in rows && forall c :: c in rows && c.poiId == r.poiId ==> c.score <= r.score
    decreases |rows|
  {
    if rows != [] {
      var x := rows[0];
      assert forall c :: c in rows ==> c == x || c in rows[1..];
      assert forall c :: c in rows ==> c.score <= x.score;
      if x.poiId in seen {
        DedupBest(unique, seen, rows[1..], n);
      } else {
        var next := unique + [x];
        if |next| < n {
          DedupBest(next, seen + {x.poiId}, rows[1..], n);
        }
      }
    }
  }

  /** Starting below `n`, the pass stops at `n`. */
  lemma {:induction false} DedupLength(unique: seq<Recommendation>, seen: set<int>, rows: seq<Recommendation>, n: nat)
    requires |unique| < n
    ensures |Dedup(unique, seen, rows, n)| <= n
    decreases |rows|
  {
    if rows != [] {
      if rows[0].poiId in seen {
        DedupLength(unique, seen, rows[1..], n);
      } else if |unique| + 1 < n {
        DedupLength(unique + [rows[0]], seen + {rows[0].poiId}, rows[1..], n);
      }
    }
  }

  /** The pass only appends to what it has kept. */
  lemma {:induction false} DedupExtends(unique: seq<Recommendation>, seen: set<int>, rows: seq<Recommendation>, n: nat)
    ensures var r := Dedup(unique, seen, rows, n);
      |unique| <= |r| && r[..|unique|] == unique
    decreases |rows|
  {
    if rows != [] {
      var next := unique + [rows[0]];
      if rows[0].poiId in seen {
        DedupExtends(unique, seen, rows[1..], n);
      } else if |next| < n {
        DedupExtends(next, seen + {rows[0].poiId}, rows[1..], n);
        assert next[..|unique|] == unique;
      }
    }
  }

  /** Taking from a list sorted best first, a candidate whose POI the pass
      leaves out scores no higher than anything it keeps. */
  lemma {:induction false} DedupTop(unique: seq<Recommendation>, seen: set<int>, rows: seq<Recommendation>, n: nat)
    requires SortedDesc(rows, RecScore) && seen == IdSet(unique)
    requires forall a, c :: a in unique && c in rows ==> a.score >= c.score
    ensures var r := Dedup(unique, seen, rows, n);
      forall c, x :: c in rows && c.poiId !in IdSet(r) && x in r ==> c.score <= x.score
    decreases |rows|
  {
    if rows != [] {
      var x0 := rows[0];
      var r := Dedup(unique, seen, rows, n);
      var next := unique + [x0];
      assert forall c :: c in rows ==> c == x0 || c in rows[1..];
      assert forall c :: c in rows ==> c.score <= x0.score;
      if x0.poiId in seen {
        DedupTop(unique, seen, rows[1..], n);
        DedupExtends(unique, seen, rows[1..], n);
        assert IdSet(unique) <= IdSet(r) by {
          forall a | a in unique ensures a in r {
            assert a in r[..|unique|];
          }
        }
      } else if |next| < n {
        IdSetSnoc(unique, x0);
        assert forall a :: a in next ==> a in unique || a == x0;
        DedupTop(next, seen + {x0.poiId}, rows[1..], n);
        DedupExtends(next, seen + {x0.poiId}, rows[1..], n);
        assert x0 in r by {
          assert r[..|next|] == next && next[|unique|] == x0;
        }
      } else {
        assert forall a :: a in next ==> a in unique || a == x0;
      }
    }
  }

  /** With `n == 0` the pass still keeps the first candidate before it checks
      the count; only the final `[:num_recommendations]` empties the result. */
  lemma DedupZero(k: Knowledge, route: seq<int>, realtime: Option<seq<Prediction>>)
    requires Candidates(k, route, 0, realtime) != []
    ensures |Dedup([], {}, SortDesc(Candidates(k, route, 0, realtime), RecScore), 0)| == 1
    ensures Recommend(k, route, 0, realtime) == []
  {
  }

  /** The result has at most `n` entries, best first, no POI twice, each a
      candidate scored at least as high as any other candidate for its POI;
      a candidate whose POI is left out scores no higher than anything kept;
      and when it has fewer than `n`, every candidate's POI is in it. */
  lemma RecommendSpec(k: Knowledge, route: seq<int>, n: nat, realtime: Option<seq<Prediction>>)
    ensures var recs := Recommend(k, route, n, realtime);
      var cands := Candidates(k, route, n, realtime);
      && |recs| <= n
      && SortedDesc(recs, RecScore)
      && DistinctBy(recs, RecId)
      && (forall r :: r in recs ==> r in cands)
      && (forall r, c :: r in recs && c in cands && c.poiId == r.poiId ==> c.score <= r.score)
      && (|recs| < n ==> forall c :: c in cands ==> c.poiId in IdSet(recs))
      && forall c, r :: c in cands && c.poiId !in IdSet(recs) && r in recs ==> c.score <= r.score
  {
    var cands := Candidates(k, route, n, realtime);
    var sorted := SortDesc(cands, RecScore);
    var unique := Dedup([], {}, sorted, n);
    SortDescSorted(cands, RecScore);
    SortDescMembers(cands, RecScore);
    assert forall c :: c in cands ==> c in multiset(sorted);
    DedupDistinct([], {}, sorted, n);
    DedupSorted([], {}, sorted, n);
    DedupBest([], {}, sorted, n);
    DedupTop([], {}, sorted, n);
    if n > 0 {
      DedupLength([], {}, sorted, n);
      assert Recommend(k, route, n, realtime) == unique;
    }
  }

  /** For a non-empty route nothing on the route is recommended. */
  lemma RecommendOffRoute(k: Knowledge, route: seq<int>, n: nat, realtime: Option<seq<Prediction>>)
    requires route != []
    ensures forall r :: r in Recommend(k, route, n, realtime) ==> r.poiId !in route
  {
    RecommendSpec(k, route, n, realtime);
    CandidatesOffRoute(k, route, n, realtime);
  }

  // ---------------------------------------------------------------------
  // The recommender object
  // ---------------------------------------------------------------------

  class HybridSmartRecommender {
    var pois: seq<Poi>
    var userVisits: seq<Visit>
    var poi2theme: map<int, string>
    var themeGroups: seq<(string, seq<int>)>
    var distanceMatrix: map<(int, int), real>
    var bertPredictionsCache: map<seq<int>, seq<Prediction>>
    var popularRoutesFromData: PatternTables

    /** Every derived table agrees with the POI table and the visits. */
    ghost predicate Valid()
      reads this
    {
      && ThemeGroupsOf(pois, themeGroups)
      && distanceMatrix == Matrix(pois, pois)
      && popularRoutesFromData == Analyze(userVisits, poi2theme)
    }

    function State(): Knowledge
      reads this
    {
      Knowledge(pois, popularRoutesFromData, bertPredictionsCache)
    }

    /** `__init__` and `initialize` with the data already loaded, then
        `build_smart_cache`: the visit patterns, the BERT predictions
        (`bertPredictions` stands for what `precompute_bert_predictions`
        would cache), then the theme groups and the distance matrix. Each
        reads only the inputs, so the order they are computed in here does not
        matter. */
    constructor (pois: seq<Poi>, userVisits: seq<Visit>, poi2theme: map<int, string>,
                 bertPredictions: map<seq<int>, seq<Prediction>>)
      ensures Valid()
      ensures this.pois == pois && this.userVisits == userVisits && this.poi2theme == poi2theme
      ensures bertPredictionsCache == bertPredictions
    {
      var matrix := ComputeDistanceMatrix(pois);
      var groups := ComputeThemeGroups(pois);
      var tables := AnalyzeRealUserPatterns(userVisits, poi2theme);
      this.pois, this.userVisits, this.poi2theme := pois, userVisits, poi2theme;
      popularRoutesFromData, bertPredictionsCache := tables, bertPredictions;
      themeGroups, distanceMatrix := groups, matrix;
    }

    /** `recommend_next_pois`.  `realtime` is `None` when no BERT model is
        loaded, and otherwise what `get_bert_predictions_for_route` returns. */
    method RecommendNextPois(route: seq<int>, n: nat, realtime: Option<seq<Prediction>>)
      returns (recs: seq<Recommendation>)
      ensures recs == Recommend(State(), route, n, realtime)
    {
      var recommendations: seq<Recommendation>;
      if route == [] {
        recommendations := StartingLoop(popularRoutesFromData.startingPois, pois);
      } else {
        recommendations := [];
        if route in bertPredictionsCache {
          recommendations := PredictionLoop(recommendations, route, bertPredictionsCache[route], CachedPrediction);
        }
        var ts := Lookup(popularRoutesFromData.transitions, route[|route| - 1]);
        if ts.Some? {
          recommendations := TransitionLoop(recommendations, route, pois, ts.value);
        }
        assert recommendations == Informed(State(), route);
        if |recommendations| < n && realtime.Some? {
          recommendations := PredictionLoop(recommendations, route, realtime.value, RealtimePrediction);
        }
      }
      var unique := DedupLoop(SortDesc(recommendations, RecScore), n);
      recs := Take(unique, n);
    }
  }
}
