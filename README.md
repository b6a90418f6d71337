# LAKBAI in Dafny

LAKBAI is a trip planner for Legazpi and Albay. Travellers pick points of
interest (POIs) on a map, arrange them into a dated itinerary and ask for the
next stop. This project models the parts of it that decide what the traveller
sees, and proves properties of that model.

**The routing service** (`backend/routing_api.py`)
- It maps travel profiles to the three OSRM engines.
- It memoises every engine request with `lru_cache(maxsize=1000)`.
- It answers one segment (`/api/route`) or a batch of segments (`/api/routes/batch`).
- It reports cache statistics.
- The model's `Memo`/`Served` pair follows the documented semantics of Python's `lru_cache`:
  - hits and misses;
  - least-recently-used order;
  - eviction on a full cache;
  - a cached `None`.
- The `RouteCache` class keeps the same state and is proved to move exactly as `Served` says.

**The two recommenders** (`backend/hybrid_smart_recommender.py` and `backend/lakbai_hybrid_smart_recommender.py`)
- Both build the same "smart cache" from the visit log:
  - starting POIs per theme;
  - transitions between POIs;
  - popular sequences;
  - theme groups;
  - a Manhattan distance matrix.
- `recommend_next_pois` then ranks candidates drawn from the cache, from cached BERT predictions and from real-time BERT predictions.
- The second recommender also:
  - numbers themes (`get_themes_ids`);
  - scores five strategies with merging;
  - offers the popular-start fallback;
  - formats routes as BERT input text.

**Data preparation**
- `cluster_pois.py`: OSM tags become a category by the first matching entry of `CATEGORY_MAP`, plus a name-based popularity prior.
- `modules/tag_filter.py`: filters POIs by category.
- `lakbai/src/lib/poiData.ts`: the web client's CSV loader.

**The clients' state transitions**
- The web map page (`lakbai/src/pages/Map.tsx`).
- The mobile map screen (`lakbai-mobile/src/screens/MapScreen.tsx`).
- The two plan pages (`src/app/plan/page.tsx`, `src/features/PlanPage/index.tsx`).

Each client component is a class whose fields are the component's state variables. Each handler is a method proved to move that state as a pure function says. The properties are lemmas about those functions.

Module layout:

| module | file | models |
|---|---|---|
| `Wrappers` | wrappers.dfy | `Option` |
| `Text` | text.dfy | decimal printing, JavaScript `parseInt`, `trim`, `split`, `includes` |
| `Dicts` | dicts.dfy | Python dictionaries as insertion-ordered item lists, counters, list-valued groups |
| `Sorting` | sorting.dfy | stable descending `sorted`, slicing, `sorted(set(...))` on strings |
| `Routing` | routing.dfy | `backend/routing_api.py` |
| `PoiTables` | poi_tables.dfy | `get_poi_info`, `compute_basic_structures` (shared by both recommenders) |
| `Patterns` | patterns.dfy | `analyze_real_user_patterns` (shared by both recommenders) |
| `HybridRecommender` | hybrid_recommender.dfy | `backend/hybrid_smart_recommender.py` |
| `LakbaiRecommender` | lakbai_recommender.dfy | `backend/lakbai_hybrid_smart_recommender.py` |
| `PoiData` | poi_data.dfy | `lakbai/src/lib/poiData.ts` |
| `ClusterPois` | cluster_pois.dfy | `cluster_pois.py` |
| `TagFilter` | tag_filter.dfy | `modules/tag_filter.py` |
| `Itinerary` | itinerary.dfy | location records, time edits, removal, batch segments, duration labels (shared by both map clients) |
| `WebItinerary` | web_itinerary.dfy | `lakbai/src/pages/Map.tsx` |
| `MobileItinerary` | mobile_itinerary.dfy | `lakbai-mobile/src/screens/MapScreen.tsx` |
| `Planner` | planner.dfy | `src/app/plan/page.tsx`, `src/features/PlanPage/index.tsx` |

The routing service, as written:
- does not round coordinates in its cache keys;
- does not deduplicate segments;
- caches failures (`None`) like any other value;
- takes the distance label from the last profile that succeeded, not from the car route.

## Model

| member | source | states |
|---|---|---|
| Routing.Lower | backend/routing_api.py:31 | `profile.lower()` keeps the length and lower-cases each ASCII letter in place |
| Routing.OsrmUrlCases | backend/routing_api.py:21-31 | the lookup ignores case; `car`/`driving` go to the car engine, `bicycle`/`cycling` to the bicycle engine, `foot`/`walking` to the foot engine, and every other name falls back to the car engine |
| Routing.EngineProfileCases | backend/routing_api.py:89-94 | the handlers' table sends every requested name to one of `driving`, `cycling`, `foot`; only `bicycle` gives `cycling` and only `foot` gives `foot`; any other name, a differently-cased one included, silently becomes `driving` |
| Routing.RoundHalfEvenSpec | backend/routing_api.py:50 | Python's `round` gives the nearest integer, ties to the even one |
| Routing.TranslateSpec | backend/routing_api.py:42-58 | a record comes back exactly for an `Ok` reply with at least one route; it holds the first route's duration in whole minutes (within half a minute), its distance and its geometry |
| Routing.RemoveKey | backend/routing_api.py:33 | dropping a key from the recency order keeps every other key, keeps the order distinct and shortens it by one when the key was there |
| Routing.ServedKeepsWf | backend/routing_api.py:33-34 | a call keeps the memo invariant (each cached key once in the order, never more than `maxsize` entries) and counts exactly one hit or one miss |
| Routing.EvictKeepsWf | backend/routing_api.py:33-34 | a miss on a full cache drops the least recently used entry, adds the new one and keeps the memo invariant |
| Routing.HitIgnoresEngine | backend/routing_api.py:33-34 | a cached key returns its stored value, a stored failure included, whatever the engine would answer now |
| Routing.EntryStableUnlessEvicted | backend/routing_api.py:33 | an entry keeps its value through any call unless that call is a miss on a full cache and the entry was the least recently used |
| Routing.RepeatIsHit | backend/routing_api.py:33-58 | two identical calls in a row cost at most one engine request, and the second returns what the first returned |
| Routing.Engine.constructor | backend/routing_api.py:43 | a new engine answers with the given reply function and has served no request |
| Routing.Engine.Request | backend/routing_api.py:43-45 | a request is logged and answered by the engine's reply function for that endpoint, key and request count |
| Routing.HitRateBounds | backend/routing_api.py:197 | the hit rate is "0%" exactly before the first lookup; otherwise it is the share of hits times 100, between 0 and 100, and 100 only without a miss |
| Routing.RouteCache.constructor | backend/routing_api.py:33 | a new cache of `maxsize` 1000 or any other size is empty, with no hit and no miss |
| Routing.ServiceCache | backend/routing_api.py:33 | the service's cache is created empty with `maxsize` 1000 |
| Routing.RouteCache.Fetch | backend/routing_api.py:33-58 | a hit returns the stored value without a request; a miss sends one request to the endpoint `get_osrm_url` picks and stores the translated reply; the state moves exactly as `Served` |
| Routing.RouteCache.Clear | backend/routing_api.py:185 | `cache_clear` empties the memo and zeroes both counters |
| Routing.RouteCache.Info | backend/routing_api.py:191-198 | the statistics report the hits, the misses, a size at most `maxsize`, and the hit rate |
| Routing.LastSuccess | backend/routing_api.py:96-99 | finds the last profile whose fetch succeeded, or reports that none did |
| Routing.LabelFromLastSuccess | backend/routing_api.py:86-102 | the distance label comes from the last profile, in request order, whose fetch succeeded; it is "0 m" when none did |
| Routing.ProfileKeyIffSuccess | backend/routing_api.py:89-99 | a profile name is a key of the answer exactly when one of its fetches succeeded, and it then holds the last such record |
| Routing.ServeProfiles | backend/routing_api.py:89-96 | the handler makes one fetch per requested profile, in order |
| Routing.RouteSegment | backend/routing_api.py:85-102 | the profile loop moves the cache and the engine log as `ServeProfiles` says, and returns the answer those fetches make |
| Routing.ProfileStep | backend/routing_api.py:89-99 | one pass of the profile loop advances the run by one memoised fetch and updates the results and the distance as `Collect` does |
| Routing.GetRoute | backend/routing_api.py:61-107 | `get_route` runs the profile loop for its segment, with the three profiles by default |
| Routing.ServeSegments | backend/routing_api.py:142-166 | the batch makes one fetch run and one answer per segment, in order |
| Routing.SegmentResultsAreOwn | backend/routing_api.py:147-164 | each segment's answer is built from that segment's own fetches alone; the distance restarts at 0 |
| Routing.ByIdLastWins | backend/routing_api.py:166 | the batch answers once per distinct segment id, with the answer of the last segment carrying that id |
| Routing.GetRoutesBatch | backend/routing_api.py:110-168 | `get_routes_batch` runs the profile loop for each segment, sharing one memo; the result is keyed by segment id, last wins |
| Routing.ClearCache | backend/routing_api.py:183-186 | clearing leaves an empty memo with zero counters |
| Routing.CacheInfo | backend/routing_api.py:189-198 | `cache_info` reports the cache's own counters, size and capacity |
| PoiTables.PoiInfo | backend/hybrid_smart_recommender.py:364-377 | `get_poi_info` returns a row with the asked id, or `None` exactly when there is none (the same function is at lines 474-487 of `backend/lakbai_hybrid_smart_recommender.py`) |
| PoiTables.PoiInfoFirst | backend/hybrid_smart_recommender.py:366-370 | the row returned is the first with that id |
| PoiTables.UniqueInOrder | backend/hybrid_smart_recommender.py:315 | `unique()` keeps each value once, in order of first appearance, and drops none |
| PoiTables.Themes | backend/hybrid_smart_recommender.py:315 | the themes of the table, each once |
| PoiTables.IdsWithTheme | backend/hybrid_smart_recommender.py:316 | a theme's id list holds exactly the ids of the rows with that theme, in table order |
| PoiTables.ComputeThemeGroups | backend/hybrid_smart_recommender.py:313-317 | the theme-group loop builds one group per distinct theme, each holding that theme's ids |
| PoiTables.ThemeGroupsPartition | backend/hybrid_smart_recommender.py:313-317 | the groups partition the table: each POI's id is in its own theme's group and only there; each group holds only ids of its theme |
| PoiTables.Dist | backend/hybrid_smart_recommender.py:324 | the distance is `abs(dlat) + abs(dlong)`, never negative and symmetric |
| PoiTables.LastWithId | backend/hybrid_smart_recommender.py:321-325 | the last row with the id, since later rows overwrite earlier ones |
| PoiTables.ComputeDistanceMatrix | backend/hybrid_smart_recommender.py:319-325 | the double loop builds the distance matrix |
| PoiTables.RowSpec | backend/hybrid_smart_recommender.py:322-325 | one row of the inner loop adds entries only for other ids and leaves the rest alone |
| PoiTables.MatrixSpec | backend/hybrid_smart_recommender.py:319-325 | the matrix has an entry exactly for each ordered pair of distinct ids, holding the distance between the last rows with those ids |
| PoiTables.MatrixSymmetric | backend/hybrid_smart_recommender.py:324 | the matrix is symmetric and never negative |
| Patterns.VisitsOf | backend/hybrid_smart_recommender.py:124-136 | a user's sequence holds exactly the POIs of that user's visits with that sequence id, in table order |
| Patterns.GroupedUsers | backend/hybrid_smart_recommender.py:124-136 | the grouping has a user exactly when some visit is theirs (the same loop is at lines 160-172 of `backend/lakbai_hybrid_smart_recommender.py`) |
| Patterns.GroupedLists | backend/hybrid_smart_recommender.py:124-136 | the list under a user and sequence id is exactly that user's POIs in that sequence, in table order, and is absent when there are none |
| Patterns.GroupVisits | backend/hybrid_smart_recommender.py:124-136 | the grouping loop computes the grouping |
| Patterns.LongOnly | backend/hybrid_smart_recommender.py:145 | the lists counted are those with at least two POIs, in order |
| Patterns.CountTransitionsSpec | backend/hybrid_smart_recommender.py:150-151 | counting the pairs of a list adds one per consecutive pair, to that pair's count |
| Patterns.CountThemesPositive | backend/hybrid_smart_recommender.py:156-160 | the theme-preference counts stay positive |
| Patterns.TallyPatterns | backend/hybrid_smart_recommender.py:154 | `sequence_patterns` holds exactly the lists with at least two POIs |
| Patterns.LongOnlyMember | backend/hybrid_smart_recommender.py:145 | a stored pattern is one of the lists and has at least two POIs |
| Patterns.TallyTotals | backend/hybrid_smart_recommender.py:143-160 | the starting counts add up to the number of counted lists, and the transition counts to the number of consecutive pairs; every stored count is positive |
| Patterns.TallyStartKeys | backend/hybrid_smart_recommender.py:145-147 | a POI has a starting count exactly when some counted list starts there |
| Patterns.TallySequence | backend/hybrid_smart_recommender.py:145-160 | the loop body for one POI list computes that list's tally |
| Patterns.TallySequences | backend/hybrid_smart_recommender.py:143-160 | the counting loops over users and their sequences compute the tally of every list |
| Patterns.TallyUser | backend/hybrid_smart_recommender.py:144-160 | the loop over one user's sequences extends the tally by each of them, in order |
| Patterns.CountTransitionLoop | backend/hybrid_smart_recommender.py:150-151 | the transition loop counts each consecutive pair of the list once |
| Patterns.CountThemeLoop | backend/hybrid_smart_recommender.py:157-160 | the theme loop counts the theme of each POI of the list that has one |
| Patterns.TotalRanked | backend/hybrid_smart_recommender.py:164 | ranking neither adds nor drops a count |
| Patterns.TotalTake | backend/hybrid_smart_recommender.py:165 | the top `k` counts add up to no more than all counts |
| Patterns.RankedItem | backend/hybrid_smart_recommender.py:164-165 | every ranked item is an item of the counter, with a count at most the total |
| Patterns.PopularSequences | backend/hybrid_smart_recommender.py:191-197 | every popular sequence is one of the top sequences, scored by its count over the number of patterns |
| Patterns.AnalyzeWellDefined | backend/hybrid_smart_recommender.py:170 | no score divides by zero: a table has rows only when a list was counted, and then there is a user, a transition and a pattern |
| Patterns.BuildStartingPois | backend/hybrid_smart_recommender.py:164-172 | the loop fills `starting_pois` as the specification function says |
| Patterns.BuildTransitions | backend/hybrid_smart_recommender.py:175-182 | the loop fills `transitions` as the specification function says |
| Patterns.CountSequences | backend/hybrid_smart_recommender.py:185-189 | the loop fills `sequence_counts` as the specification function says |
| Patterns.BuildPopularSequences | backend/hybrid_smart_recommender.py:191-197 | the loop fills `popular_sequences` as the specification function says |
| Patterns.AnalyzeRealUserPatterns | backend/hybrid_smart_recommender.py:113-199 | the whole analysis returns the tables of `Analyze` |
| Patterns.StartingPoisSpec | backend/hybrid_smart_recommender.py:164-172 | a theme's starting list holds only top POIs of that theme, with their counts, scored by count over users, in rank order |
| Patterns.TransitionsSpec | backend/hybrid_smart_recommender.py:175-182 | a source POI's list holds only top transitions out of it, with their counts, scored by their share of all transitions, labelled with the target's theme or "Unknown" |
| Patterns.TransitionsSorted | backend/hybrid_smart_recommender.py:175-182 | each source POI's list is most frequent first |
| Patterns.TransitionsSum | backend/hybrid_smart_recommender.py:176-179 | the scores over all lists add up to the share of all transitions that the top ones carry |
| Patterns.TopFacts | backend/hybrid_smart_recommender.py:164-165 | the top `k` items are items of the counter, in rank order, with no larger total |
| Patterns.PositiveMember | backend/hybrid_smart_recommender.py:147 | an item of a counter that only counts upwards has a positive count |
| Patterns.SequenceCountsSpec | backend/hybrid_smart_recommender.py:185-189 | only lists of at most six POIs are counted; each counted list is a pattern; counts are positive and add up to at most the number of patterns |
| Patterns.StartingPoisProps | backend/hybrid_smart_recommender.py:164-172 | `starting_pois` keeps at most 20 POIs, each under its own theme, scored by count over users, most frequent first |
| Patterns.StartingPoisObserved | backend/hybrid_smart_recommender.py:143-172 | every starting POI starts some user's list of two or more visits |
| Patterns.StartSeen | backend/hybrid_smart_recommender.py:145-147 | a counted starting POI starts some list of two or more visits |
| Patterns.TransitionsProps | backend/hybrid_smart_recommender.py:175-182 | `transitions` keeps at most 100 entries, each labelled with its target's theme, scored by its share, each list most frequent first |
| Patterns.TransitionsObserved | backend/hybrid_smart_recommender.py:150-151 | every stored transition was observed at least once |
| Patterns.TransitionScoresSum | backend/hybrid_smart_recommender.py:179 | the transition scores over all source POIs add up to at most one |
| Patterns.PopularSequencesProps | backend/hybrid_smart_recommender.py:191-197 | `popular_sequences` keeps at most 50 lists, most frequent first, each scored by its share of all patterns |
| Patterns.PopularSequencesObserved | backend/hybrid_smart_recommender.py:184-197 | each popular sequence is a user's actual list of two to six POIs, seen at least once, with a score in (0, 1] |
| Patterns.PopularSequencesSeen | backend/hybrid_smart_recommender.py:185-197 | each popular sequence was counted from the patterns |
| Patterns.SequenceSeen | backend/hybrid_smart_recommender.py:185-189 | a counted sequence is one of the lists, of two to six POIs, counted at least once and at most once per list |
| Dicts.Lookup | backend/hybrid_smart_recommender.py:181 | `d.get(k)` finds the item with that key, or `None` exactly when there is none |
| Dicts.Set | backend/lakbai_hybrid_smart_recommender.py:596 | `d[k] = v` keeps an existing key in its place and appends a new one; afterwards the key maps to `v` |
| Dicts.LookupSet | backend/lakbai_hybrid_smart_recommender.py:596 | after `d[k] = v`, `k` maps to `v` and every other key to what it mapped to |
| Dicts.SetItems | backend/lakbai_hybrid_smart_recommender.py:596 | after `d[k] = v` every item is `(k, v)` or an item the dictionary already had |
| Dicts.SetNew | backend/lakbai_hybrid_smart_recommender.py:596 | assigning a new key appends it |
| Dicts.LookupDistinct | backend/lakbai_hybrid_smart_recommender.py:606 | in a dictionary with distinct keys, looking up a stored key finds its item |
| Dicts.Values | backend/lakbai_hybrid_smart_recommender.py:721 | `values()` lists the values in item order |
| Dicts.BumpSpec | backend/hybrid_smart_recommender.py:147 | `counter[k] += 1` raises that count by one, leaves every other count alone and raises the total by one |
| Dicts.BumpPositive | backend/hybrid_smart_recommender.py:151 | every stored count is at least one |
| Dicts.EntryAtMostTotal | backend/hybrid_smart_recommender.py:179 | no single count exceeds `sum(counter.values())` |
| Dicts.AppendToSpec | backend/hybrid_smart_recommender.py:168 | `groups[k].append(e)` puts `e` at the end of its key's list, leaves the other lists alone and grows the total size by one |
| Dicts.AppendToSum | backend/hybrid_smart_recommender.py:177-179 | appending an entry adds its weight to the grand total |
| Sorting.InsertDesc | backend/hybrid_smart_recommender.py:164 | inserting keeps the elements and puts the new one after every larger key |
| Sorting.SortDesc | backend/hybrid_smart_recommender.py:164 | `sorted(..., reverse=True)` is a permutation of its input |
| Sorting.SortDescSorted | backend/hybrid_smart_recommender.py:164 | the result is in descending key order |
| Sorting.SortDescMembers | backend/hybrid_smart_recommender.py:164 | sorting adds and drops nothing |
| Sorting.InsertDescWithKey | backend/hybrid_smart_recommender.py:164 | inserting puts the new element ahead of every element with its own key and leaves their order alone |
| Sorting.SortDescStable | backend/lakbai_hybrid_smart_recommender.py:558 | the sort is stable: the elements with any one key come out in their input order |
| Sorting.TakeSplits | backend/hybrid_smart_recommender.py:165 | what `xs[:k]` keeps and what it drops together make up `xs` |
| Sorting.TopCount | backend/lakbai_hybrid_smart_recommender.py:720-724 | `sorted(...)[:k]` keeps `min(k, len)` elements, all from the input |
| Sorting.TopLeftOut | backend/lakbai_hybrid_smart_recommender.py:720-724 | an element dropped by `sorted(...)[:k]` has a key no higher than any element kept |
| Sorting.TopSpec | backend/lakbai_hybrid_smart_recommender.py:720-724 | `sorted(..., reverse=True)[:k]` is the best `k`: `min(k, len)` input elements, best first, and nothing dropped outranks anything kept |
| Sorting.SortDescDistinct | backend/lakbai_hybrid_smart_recommender.py:720-724 | sorting keeps distinct ids distinct |
| Sorting.Take | backend/hybrid_smart_recommender.py:165 | `xs[:k]` is the first `min(k, len)` elements |
| Sorting.TakeSorted | backend/hybrid_smart_recommender.py:165 | a prefix of a sorted list is sorted |
| Sorting.StrLtTotal | backend/lakbai_hybrid_smart_recommender.py:25 | Python's string order is total; `StrLtIrreflexive` and `StrLtTransitive` give the rest of a strict order |
| Sorting.StrLtIrreflexive | backend/lakbai_hybrid_smart_recommender.py:25 | no string is less than itself |
| Sorting.StrLtTransitive | backend/lakbai_hybrid_smart_recommender.py:25 | the string order is transitive |
| Sorting.InsertUnique | backend/lakbai_hybrid_smart_recommender.py:25 | inserting into a strictly increasing list keeps exactly the old members plus the new one |
| Sorting.SortedUnique | backend/lakbai_hybrid_smart_recommender.py:25 | `sorted(unique())` holds exactly the distinct strings of its input |
| Sorting.SortedUniqueSorted | backend/lakbai_hybrid_smart_recommender.py:25 | and in strictly increasing order |
| Sorting.StrictlySortedDistinct | backend/lakbai_hybrid_smart_recommender.py:25-28 | a strictly increasing list has no repeats, so the theme numbering is one-to-one |
| HybridRecommender.StartingLoop | backend/hybrid_smart_recommender.py:388-398 | the empty-route loop builds exactly the starting candidates |
| HybridRecommender.PredictionLoop | backend/hybrid_smart_recommender.py:405-413 | the BERT loop appends exactly the predictions off the route |
| HybridRecommender.TransitionLoop | backend/hybrid_smart_recommender.py:419-429 | the transition loop appends exactly the transitions off the route to POIs of the table |
| HybridRecommender.DedupLoop | backend/hybrid_smart_recommender.py:449-458 | the duplicate pass computes `Dedup` |
| HybridRecommender.ThemeStartsSpec | backend/hybrid_smart_recommender.py:389-398 | a theme contributes one candidate per entry whose POI is in the table |
| HybridRecommender.StartCandidatesSpec | backend/hybrid_smart_recommender.py:388-398 | an empty route draws its candidates from the first two entries of each theme, each with its POI in the table, and every such entry is a candidate |
| HybridRecommender.PredictionCandidatesSpec | backend/hybrid_smart_recommender.py:405-413 | exactly the predictions off the route become candidates, unchanged |
| HybridRecommender.TransitionCandidatesSpec | backend/hybrid_smart_recommender.py:419-429 | exactly the transitions off the route to POIs of the table become candidates, named and themed as the table says |
| HybridRecommender.CandidatesOffRoute | backend/hybrid_smart_recommender.py:399-446 | no candidate of a non-empty route is on the route; real-time predictions appear only when fewer than `n` candidates came before and a model is loaded |
| HybridRecommender.DedupDistinct | backend/hybrid_smart_recommender.py:449-458 | the pass keeps ids distinct and only what it was given; ending short of `n`, it has kept every id it saw |
| HybridRecommender.DedupSorted | backend/hybrid_smart_recommender.py:452-455 | taking from a list sorted best first keeps the result sorted |
| HybridRecommender.DedupBest | backend/hybrid_smart_recommender.py:452-455 | each kept candidate is the best-scored one for its POI |
| HybridRecommender.DedupExtends | backend/hybrid_smart_recommender.py:452-455 | the pass only appends to what it has kept |
| HybridRecommender.DedupTop | backend/hybrid_smart_recommender.py:449-458 | over a list sorted best first, a candidate whose POI the pass leaves out scores no higher than anything kept |
| HybridRecommender.DedupLength | backend/hybrid_smart_recommender.py:457-458 | starting below `n`, the pass stops at `n` |
| HybridRecommender.DedupZero | backend/hybrid_smart_recommender.py:452-463 | with `n == 0` the pass still keeps one candidate, and only the final slice empties the result |
| HybridRecommender.RecommendSpec | backend/hybrid_smart_recommender.py:379-463 | at most `n` recommendations, best first, no POI twice, each the best candidate for its POI; a candidate whose POI is left out scores no higher than any recommendation (the best `n` POIs are chosen); with fewer than `n`, every candidate's POI is present |
| HybridRecommender.RecommendOffRoute | backend/hybrid_smart_recommender.py:399-446 | nothing on a non-empty route is recommended |
| HybridRecommender.HybridSmartRecommender.constructor | backend/hybrid_smart_recommender.py:40-65 | initialisation with loaded data builds the smart cache, so every derived table agrees with the POIs and the visits |
| HybridRecommender.HybridSmartRecommender.RecommendNextPois | backend/hybrid_smart_recommender.py:379-463 | the method returns `Recommend` of the recommender's state |
| LakbaiRecommender.PoiThemes | backend/lakbai_hybrid_smart_recommender.py:30-36 | `poi2theme` has exactly the table's ids, each mapped to the theme of its last row |
| LakbaiRecommender.GetThemesIds | backend/lakbai_hybrid_smart_recommender.py:18-41 | the distinct themes are numbered `0..k-1` in sorted order, `num2theme` inverts `theme2num`, and every POI id maps to its theme |
| LakbaiRecommender.NumberThemes | backend/lakbai_hybrid_smart_recommender.py:25-28 | theme `allthemes[i]` gets number `i` and back |
| LakbaiRecommender.ThemeNumbersFollowOrder | backend/lakbai_hybrid_smart_recommender.py:25-28 | the numbering follows the sorted order of the themes |
| LakbaiRecommender.ThemeOfEachPoi | backend/lakbai_hybrid_smart_recommender.py:33-40 | the second loop maps each id to its theme and never takes the branch for an unnumbered theme |
| LakbaiRecommender.BuildSmartCache | backend/lakbai_hybrid_smart_recommender.py:129-147 | the cache holds the visit patterns, the theme groups and the distance matrix of the data |
| LakbaiRecommender.MaxCount | backend/lakbai_hybrid_smart_recommender.py:499 | the maximum is at least every count and is one of them |
| LakbaiRecommender.LastResort | backend/lakbai_hybrid_smart_recommender.py:544-555 | the last resort recommends the first `n` rows, each scored 0.5 |
| LakbaiRecommender.VisitLoop | backend/lakbai_hybrid_smart_recommender.py:501-517 | the visit loop computes `VisitPhase` |
| LakbaiRecommender.FallbackThemeLoop | backend/lakbai_hybrid_smart_recommender.py:524-539 | one theme's fallback loop computes `FallbackTheme` |
| LakbaiRecommender.FallbackLoop | backend/lakbai_hybrid_smart_recommender.py:522-541 | the fallback loops compute `FallbackPhase` |
| LakbaiRecommender.LastResortLoop | backend/lakbai_hybrid_smart_recommender.py:544-555 | the last-resort loop computes `LastResort` |
| LakbaiRecommender.VisitPhaseEntries | backend/lakbai_hybrid_smart_recommender.py:501-517 | each recommendation of the visit loop is one it was given or a visited POI of the table, scored by its count over the largest count |
| LakbaiRecommender.FallbackThemeEntries | backend/lakbai_hybrid_smart_recommender.py:524-539 | one theme's fallback adds only POIs of the table, as starting points |
| LakbaiRecommender.FallbackPhaseEntries | backend/lakbai_hybrid_smart_recommender.py:522-541 | the fallback adds only POIs of the table, as starting points |
| LakbaiRecommender.PopularStartsShape | backend/lakbai_hybrid_smart_recommender.py:557-566 | for an empty route, the best `n` of what the three phases collected, best first: exactly `min(n, collected)` of them, each collected, and nothing collected but dropped scores higher than anything returned |
| LakbaiRecommender.RecsTop | backend/lakbai_hybrid_smart_recommender.py:558-566 | the same facts for any list of recommendations sorted by score and cut to `n` |
| LakbaiRecommender.LastResortEntry | backend/lakbai_hybrid_smart_recommender.py:546-555 | the last resort recommends rows of the table |
| LakbaiRecommender.ShareOfMax | backend/lakbai_hybrid_smart_recommender.py:506 | a count over the largest count is in (0, 1] |
| LakbaiRecommender.CollectEntry | backend/lakbai_hybrid_smart_recommender.py:489-556 | each collected recommendation is a POI of the table; one drawn from the visits is scored by its count over the largest count |
| LakbaiRecommender.PopularStartsEntries | backend/lakbai_hybrid_smart_recommender.py:489-566 | for an empty route every recommendation is a POI of the table; one drawn from the visits has a score in (0, 1] |
| LakbaiRecommender.VisitCountsPositive | backend/lakbai_hybrid_smart_recommender.py:496-497 | every ranked visit count is at least one |
| LakbaiRecommender.PositiveCounts | backend/lakbai_hybrid_smart_recommender.py:496 | `groupby().size()` counts are positive |
| LakbaiRecommender.Distance | backend/lakbai_hybrid_smart_recommender.py:620 | `distance_matrix.get(key, 999)` is never negative when the matrix is not |
| LakbaiRecommender.MatrixNonNegative | backend/lakbai_hybrid_smart_recommender.py:430-435 | every stored distance is at least zero |
| LakbaiRecommender.Closeness | backend/lakbai_hybrid_smart_recommender.py:621 | `1 / (1 + distance * factor)` is in (0, 1] |
| LakbaiRecommender.ThemeBonus | backend/lakbai_hybrid_smart_recommender.py:619-627 | the theme-continuity boost is in (0, 0.015] |
| LakbaiRecommender.ThemeMarked | backend/lakbai_hybrid_smart_recommender.py:627-629 | a boosted POI keeps its id, gains the bonus and is marked `theme_match` |
| LakbaiRecommender.NearbyCandidates | backend/lakbai_hybrid_smart_recommender.py:658-670 | nearby candidates are unscored POIs of the table, off the route, closer than 0.5 to the last stop |
| LakbaiRecommender.NearbyScore | backend/lakbai_hybrid_smart_recommender.py:682-684 | a nearby score is in (0, 0.7], and above 0.2 for a new theme |
| LakbaiRecommender.NearbySorted | backend/lakbai_hybrid_smart_recommender.py:673 | the sorted nearby list is closest first and holds only nearby candidates |
| LakbaiRecommender.MergeTransitions | backend/lakbai_hybrid_smart_recommender.py:586-607 | strategy 1's loop computes `Transitions` |
| LakbaiRecommender.BoostThemeMatches | backend/lakbai_hybrid_smart_recommender.py:611-629 | strategy 2's loop computes `ThemeBoost` |
| LakbaiRecommender.MergeCachedBert | backend/lakbai_hybrid_smart_recommender.py:632-652 | strategy 3's loop computes `CachedBert` |
| LakbaiRecommender.CollectNearby | backend/lakbai_hybrid_smart_recommender.py:658-670 | strategy 4's collection loop computes `NearbyCandidates` |
| LakbaiRecommender.AddNearbyLoop | backend/lakbai_hybrid_smart_recommender.py:674-694 | strategy 4's second loop computes `AddNearby` |
| LakbaiRecommender.MergeRealtimeBert | backend/lakbai_hybrid_smart_recommender.py:697-715 | strategy 5's loop computes `Realtime` |
| LakbaiRecommender.FinishLoop | backend/lakbai_hybrid_smart_recommender.py:720-731 | the clean-up loop computes `Finish` |
| LakbaiRecommender.ScoreRoute | backend/lakbai_hybrid_smart_recommender.py:585-717 | the five strategies in turn compute `Scores` |
| LakbaiRecommender.InformedLoop | backend/lakbai_hybrid_smart_recommender.py:585-652 | the first three strategies compute `Informed` |
| LakbaiRecommender.SetScoredOk | backend/lakbai_hybrid_smart_recommender.py:596 | storing a candidate off the route under its own id keeps every entry under its own id, once, off the route |
| LakbaiRecommender.MergeScoredOk | backend/lakbai_hybrid_smart_recommender.py:595-607 | merging keeps that invariant |
| LakbaiRecommender.TransitionsOk | backend/lakbai_hybrid_smart_recommender.py:586-607 | strategy 1 keeps that invariant |
| LakbaiRecommender.CachedBertOk | backend/lakbai_hybrid_smart_recommender.py:632-652 | strategy 3 keeps that invariant |
| LakbaiRecommender.RealtimeOk | backend/lakbai_hybrid_smart_recommender.py:697-715 | strategy 5 keeps that invariant |
| LakbaiRecommender.ThemeBoostKeeps | backend/lakbai_hybrid_smart_recommender.py:611-629 | theme continuity creates no entry, removes none, lowers no score and moves nothing |
| Dicts.SetReplaces | backend/lakbai_hybrid_smart_recommender.py:627 | assigning an existing key changes that item and no other, in place |
| LakbaiRecommender.ThemeBoostOk | backend/lakbai_hybrid_smart_recommender.py:611-629 | strategy 2 keeps the invariant |
| LakbaiRecommender.AddNearbySpec | backend/lakbai_hybrid_smart_recommender.py:674-694 | the nearby loop stops at `n`, and every POI it changes is one of the nearby ones, there for being nearby |
| LakbaiRecommender.AddNearbyOk | backend/lakbai_hybrid_smart_recommender.py:674-694 | the nearby loop, fed POIs off the route, keeps every entry under its own id, once, off the route |
| LakbaiRecommender.NearbyAdds | backend/lakbai_hybrid_smart_recommender.py:655-694 | every POI strategy 4 adds is in the table, off the route, closer than 0.5, there only for being nearby; the count never passes `n` |
| LakbaiRecommender.NearbyOk | backend/lakbai_hybrid_smart_recommender.py:655-694 | strategy 4 keeps the invariant |
| LakbaiRecommender.ScoresOk | backend/lakbai_hybrid_smart_recommender.py:585-717 | after the five strategies each scored POI is off the route and scored once |
| LakbaiRecommender.InformedOk | backend/lakbai_hybrid_smart_recommender.py:585-652 | the first three strategies keep the invariant |
| LakbaiRecommender.FinishSpec | backend/lakbai_hybrid_smart_recommender.py:720-731 | finishing returns exactly `min(n, scored)` recommendations, each a scored candidate presented, best first; no scored candidate left out scores higher than one returned; ids stay distinct and off the route |
| LakbaiRecommender.FinishTop | backend/lakbai_hybrid_smart_recommender.py:720-731 | the top-`n` facts of finishing: count `min(n, scored)`, each a scored candidate presented, nothing left out outranks anything kept |
| LakbaiRecommender.PresentTop | backend/lakbai_hybrid_smart_recommender.py:720-731 | the same facts for any candidate list sorted by score, cut to `n` and presented |
| LakbaiRecommender.PresentLeftOut | backend/lakbai_hybrid_smart_recommender.py:720-731 | a candidate whose presentation was cut scores no higher than any presentation kept |
| LakbaiRecommender.RecommendNextShape | backend/lakbai_hybrid_smart_recommender.py:568-736 | for a non-empty route, exactly `min(n, scored)` recommendations, each a scored candidate presented, best first; nothing scored but dropped outranks anything returned; none on the route, no POI twice |
| LakbaiRecommender.RouteWordsPairs | backend/lakbai_hybrid_smart_recommender.py:351-358 | the route text's words come in pairs: a printed id of a route stop in the table, which reads back as that id, then its theme |
| LakbaiRecommender.RouteTextEmpty | backend/lakbai_hybrid_smart_recommender.py:351-361 | the text is empty exactly when no stop is in the table |
| LakbaiRecommender.RouteWordsEmpty | backend/lakbai_hybrid_smart_recommender.py:353-358 | there are no words exactly when no stop is in the table |
| LakbaiRecommender.RouteTextSplits | backend/lakbai_hybrid_smart_recommender.py:360 | when no theme holds a space, splitting the text at spaces gives the words back |
| LakbaiRecommender.RouteWordsNoSpace | backend/lakbai_hybrid_smart_recommender.py:357-358 | when no theme holds a space, no word does |
| LakbaiRecommender.HybridSmartRecommender.constructor | backend/lakbai_hybrid_smart_recommender.py:44-94 | initialisation with loaded data numbers the themes and builds the smart cache, so every derived table agrees with the data |
| LakbaiRecommender.HybridSmartRecommender.GetPopularStartingPois | backend/lakbai_hybrid_smart_recommender.py:489-566 | the method returns `PopularStarts` of the state |
| LakbaiRecommender.CollectPopular | backend/lakbai_hybrid_smart_recommender.py:489-560 | the visit, fallback and last-resort phases run in order and collect what `Collect` says |
| LakbaiRecommender.HybridSmartRecommender.FormatRouteForBert | backend/lakbai_hybrid_smart_recommender.py:346-361 | the method returns the route text |
| LakbaiRecommender.HybridSmartRecommender.RecommendNextPois | backend/lakbai_hybrid_smart_recommender.py:568-736 | the method returns `Recommend` of the state |
| Text.NatToString | lakbai-mobile/src/screens/MapScreen.tsx:390 | decimal text is non-empty, all digits, without a leading zero |
| Text.IntToString | src/app/plan/page.tsx:95 | the text of an integer is never empty |
| Text.ParseIntRoundTrip | lakbai/src/lib/poiData.ts:26 | `parseInt` reads back every printed integer |
| Text.Split | lakbai/src/lib/poiData.ts:23 | `split` gives at least one part, no part holds the separator, and joining the parts gives the string back |
| Text.SplitJoinWith | lakbai/src/lib/poiData.ts:23 | splitting undoes joining when no part holds the separator |
| Text.SplitAppend | lakbai/src/lib/poiData.ts:23 | splitting at a separator between two strings splits each side |
| Text.TrimStart | lakbai/src/lib/poiData.ts:20 | the result is a suffix that does not start with white space |
| Text.TrimEnd | lakbai/src/lib/poiData.ts:20 | the result is a prefix that does not end with white space |
| Text.TrimFixed | lakbai/src/lib/poiData.ts:20 | `trim` leaves a string alone exactly when it neither starts nor ends with white space |
| Text.Includes | lakbai/src/pages/Map.tsx:624 | `includes` holds exactly when the substring occurs at some index |
| PoiData.Lines | lakbai/src/lib/poiData.ts:15 | the lines of the trimmed text, at least one, none holding a line break |
| PoiData.LoadPoiDataLoop | lakbai/src/lib/poiData.ts:10-40 | the loop from line 1 computes `LoadPoiData`, and nothing when the response could not be read |
| PoiData.KeepNext | lakbai/src/lib/poiData.ts:19-32 | one more line adds what the parser makes of it |
| PoiData.KeepAppend | lakbai/src/lib/poiData.ts:19-32 | parsing two runs of lines keeps line order |
| PoiData.KeepSpec | lakbai/src/lib/poiData.ts:19-32 | each POI comes from one line, at most one per line, and every line that parses gives its POI |
| PoiData.LoadSpec | lakbai/src/lib/poiData.ts:15-35 | the header never yields a POI; there are at most as many POIs as body lines; each is the parse of a body line |
| PoiData.SkippedLines | lakbai/src/lib/poiData.ts:20-24 | a line gives a POI exactly when it is non-blank after trimming and has at least five fields |
| PoiData.ExtraFieldsIgnored | lakbai/src/lib/poiData.ts:24-31 | fields after the fifth are ignored |
| PoiData.FormatLines | lakbai/src/lib/poiData.ts:15 | one written line per row |
| PoiData.FieldsClean | lakbai/src/lib/poiData.ts:23 | the fields of a writable row hold no separator and no line break |
| PoiData.FormatLineSplits | lakbai/src/lib/poiData.ts:23 | a written line holds no line break and splits back into its row's fields |
| PoiData.FormatLineTrimmed | lakbai/src/lib/poiData.ts:20 | a written line is non-empty and already trimmed |
| PoiData.LineRoundTrip | lakbai/src/lib/poiData.ts:20-31 | a written line parses back to its row |
| PoiData.ParseLineOf | lakbai/src/lib/poiData.ts:20-31 | a trimmed non-empty line with at least five fields parses to the POI of its first five fields |
| PoiData.LoadRoundTrip | lakbai/src/lib/poiData.ts:10-40 | loading a header and written rows gives exactly those rows back, in order |
| PoiData.TextTrimmed | lakbai/src/lib/poiData.ts:15 | the file text is already trimmed and its lines are the header and the rows |
| PoiData.KeepFormatted | lakbai/src/lib/poiData.ts:19-32 | written rows parse back in order |
| PoiData.KeepAll | lakbai/src/lib/poiData.ts:19-32 | when every line parses, each gives the POI at its own position |
| ClusterPois.FirstMatch | cluster_pois.py:36-38 | the first matching entry: it matches and no entry before it does; `None` exactly when no entry matches |
| ClusterPois.FirstMatchAt | cluster_pois.py:36-38 | a matching entry with no match before it is the one that decides |
| ClusterPois.AssignSpec | cluster_pois.py:34-39 | the result is "other" exactly when no entry matches, and otherwise some entry's category |
| ClusterPois.AssignCategorySpec | cluster_pois.py:12-39 | `assign_category` gives "other" exactly when no entry of `CATEGORY_MAP` matches, and always one of the five categories |
| ClusterPois.HistoricIsHeritage | cluster_pois.py:19 | any `historic` tag gives "heritage" unless a `tourism` entry matched first |
| ClusterPois.HistoricViewpoint | cluster_pois.py:14-19 | a historic viewpoint is "nature", because the `tourism` entries come first |
| ClusterPois.PopScoreNamed | cluster_pois.py:57-77 | the popularity prior is 1 exactly for a place whose tags or properties carry a non-empty name, and 0 otherwise |
| TagFilter.FilterMembers | modules/tag_filter.py:14 | a row is kept exactly when it is in the table and its category is preferred |
| TagFilter.FilterAppend | modules/tag_filter.py:14 | filtering keeps the relative order of the rows |
| TagFilter.FilterCounts | modules/tag_filter.py:14 | each preferred row is kept as often as it occurs, and no other row is kept |
| TagFilter.FilterIdempotent | modules/tag_filter.py:14 | filtering twice is filtering once |
| Itinerary.TimeChangeSpec | lakbai/src/pages/Map.tsx:494-502 | only the named field of the locations with that id changes; the length, order, ids and every other location stay (the mobile screen's handler at lines 426-434 of `lakbai-mobile/src/screens/MapScreen.tsx` is the same) |
| Itinerary.TimeChangeAlgebra | lakbai/src/pages/Map.tsx:494-502 | setting a value twice is setting it once, and edits of different fields commute |
| Itinerary.WithoutSpec | lakbai/src/pages/Map.tsx:618 | a location survives exactly when its id is another one; with distinct ids exactly one location goes when the id is present |
| Itinerary.WithoutRemovesOne | lakbai/src/pages/Map.tsx:618 | with distinct ids, removing a present id drops exactly that location and keeps the order |
| Itinerary.SegmentsSpec | lakbai/src/pages/Map.tsx:369-381 | there are n-1 segments for n >= 2 locations and none for fewer; the i-th joins location i to i+1 and is keyed `${from.id}-${to.id}` |
| Itinerary.BuildSegments | lakbai/src/pages/Map.tsx:372-381 | the request loop builds exactly those segments (the mobile screen's loop is at lines 186-195 of `lakbai-mobile/src/screens/MapScreen.tsx`) |
| Itinerary.BeforeDash | lakbai/src/pages/Map.tsx:377 | the text before the first dash is a prefix without a dash |
| Itinerary.BeforeDashOfPairKey | lakbai/src/pages/Map.tsx:377 | the text before the first dash of a key made from a dash-free id is that id |
| Itinerary.PairKeyInjective | lakbai/src/pages/Map.tsx:377 | dash-free ids give distinct keys to distinct pairs |
| Itinerary.SegmentIdsDistinct | lakbai/src/pages/Map.tsx:372-381 | distinct dash-free ids give distinct segment ids, so the batch answer has one entry per segment |
| Itinerary.DurationLabelSpec | lakbai/src/pages/Map.tsx:398-400 | a label is minutes followed by "m", reading back as the route's duration; "0m" stands both for a missing route and for a zero-minute one |
| WebItinerary.InfoOfSpec | lakbai/src/pages/Map.tsx:396-409 | a profile has a line exactly when the answer has a route for it, and the distance label is the answer's `distance_formatted` |
| WebItinerary.AddThenConfirm | lakbai/src/pages/Map.tsx:513-546 | adding then confirming appends one confirmed location with the POI's id, name and theme, 09:00-10:00 today, at `[long, lat]`; cancelling instead leaves the itinerary as it was |
| WebItinerary.PendingEditThenConfirm | lakbai/src/pages/Map.tsx:504-542 | an edit of the waiting location leaves the itinerary alone and reaches it through the confirmation |
| WebItinerary.PruneKeys | lakbai/src/pages/Map.tsx:621-649 | the delete loop keeps exactly the entries whose key does not contain the id |
| WebItinerary.DashInside | lakbai/src/pages/Map.tsx:624 | a window of an id's length that starts inside a key's first id, but not at its start, covers the dash |
| WebItinerary.PairKeyIncludes | lakbai/src/pages/Map.tsx:624 | for equal-length dash-free ids, a pair's key contains an id exactly when it is one of the pair's two ids |
| WebItinerary.RemoveSpec | lakbai/src/pages/Map.tsx:587-649 | no route label, line or display entry whose key contains the id remains, so the pairs into and out of it are gone from all three maps; an entry for a pair of other ids stays as it was in each |
| WebItinerary.ToggleCases | lakbai/src/pages/Map.tsx:663-758 | the shown profile hides the pair; another profile with a line (and the map) shows that one; one without a line changes nothing; only the pair's entry changes |
| WebItinerary.ToggleTwice | lakbai/src/pages/Map.tsx:663-758 | toggling a hidden pair's profile twice, when it has a line, hides it again |
| WebItinerary.BatchSpec | lakbai/src/pages/Map.tsx:392-482 | after a batch the maps hold exactly the returned pairs, and every one of them is shown by car, even one without a car route |
| WebItinerary.DeleteAllSpec | lakbai/src/pages/Map.tsx:777-803 | a confirmed delete empties the itinerary and the route maps and restores the default title, dates and description; after it a toggle changes nothing |
| WebItinerary.LabelAll | lakbai/src/pages/Map.tsx:396-409 | the loop over the batch answer builds the labels and lines of every entry |
| WebItinerary.ShowAllByCar | lakbai/src/pages/Map.tsx:478-481 | the loop over the keys marks every pair as shown by car |
| WebItinerary.MapPage.constructor | lakbai/src/pages/Map.tsx:57-76 | a new page starts with no location and "My Trip" |
| WebItinerary.MapPage.Set | lakbai/src/pages/Map.tsx:57-76 | the page's state variables take the given values together |
| WebItinerary.MapPage.HandleTimeChange | lakbai/src/pages/Map.tsx:494-502 | the state moves as `TimeChange` on the locations |
| WebItinerary.MapPage.HandlePendingTimeChange | lakbai/src/pages/Map.tsx:504-511 | the state moves as `PendingTimeChange` |
| WebItinerary.MapPage.AddPoiToItinerary | lakbai/src/pages/Map.tsx:513-528 | the state moves as `AddPoi` |
| WebItinerary.MapPage.ConfirmLocation | lakbai/src/pages/Map.tsx:530-542 | the state moves as `Confirm` |
| WebItinerary.MapPage.CancelPendingLocation | lakbai/src/pages/Map.tsx:544-546 | the state moves as `Cancel` |
| WebItinerary.MapPage.CalculateRoute | lakbai/src/pages/Map.tsx:262-364 | one pair's answer stores its labels and lines and shows the car route when there is one and the map exists; no answer changes nothing |
| WebItinerary.MapPage.CalculateRoutes | lakbai/src/pages/Map.tsx:367-492 | the effect requests the consecutive pairs and applies the batch answer as `BatchApplied`; fewer than two locations change nothing |
| WebItinerary.MapPage.RemoveLocation | lakbai/src/pages/Map.tsx:587-649 | the state moves as `Remove` |
| WebItinerary.MapPage.ToggleRouteDisplay | lakbai/src/pages/Map.tsx:663-758 | the state moves as `Toggle` |
| WebItinerary.MapPage.DeleteAllItinerary | lakbai/src/pages/Map.tsx:777-803 | the state moves as `DeleteAll`, only when the user confirms |
| MobileItinerary.PolylineSpec | lakbai-mobile/src/screens/MapScreen.tsx:218-225 | a polyline exists exactly for a route of the chosen mode with coordinates, one point per coordinate, latitude and longitude swapped into place |
| MobileItinerary.CoordinatesStep | lakbai-mobile/src/screens/MapScreen.tsx:218-225 | handling one more entry adds exactly its polyline |
| MobileItinerary.ProcessBatch | lakbai-mobile/src/screens/MapScreen.tsx:205-226 | the loop over the batch answer builds every entry's labels and, for the chosen mode, its polyline |
| MobileItinerary.RoutesCalculatedSpec | lakbai-mobile/src/screens/MapScreen.tsx:177-236 | fewer than two locations leave no route; otherwise every label and polyline belongs to a returned pair, every returned pair has its labels, and a pair has a polyline exactly when its route for the mode has coordinates |
| MobileItinerary.ConfirmedIdsAppend | lakbai-mobile/src/screens/MapScreen.tsx:154-156 | the recommendation route keeps itinerary order |
| MobileItinerary.ConfirmedIdsSpec | lakbai-mobile/src/screens/MapScreen.tsx:154-156 | an id is requested exactly when a confirmed location carries it; with every location confirmed, the route is all their ids in order |
| MobileItinerary.PendingEditThenConfirm | lakbai-mobile/src/screens/MapScreen.tsx:405-424 | an edit of the waiting location leaves the itinerary alone and reaches it through the confirmation; cancelling leaves the itinerary as it was |
| MobileItinerary.AllConfirmedKept | lakbai-mobile/src/screens/MapScreen.tsx:405-446 | confirming, removing and editing keep every location confirmed, so the recommendation route is every POI id of the itinerary |
| MobileItinerary.AddThenConfirm | lakbai-mobile/src/screens/MapScreen.tsx:387-411 | confirming the POI just added appends it, confirmed, at `[long, lat]`, 09:00-10:00, and appends its id to the recommendation route |
| MobileItinerary.SaveSpec | lakbai-mobile/src/screens/MapScreen.tsx:448-530 | a save inserts rows only for a signed-in user with at least one location; the rows are the locations in order, `order_index` from 0, latitude and longitude from the coordinates, empty dates and times as null |
| MobileItinerary.SaveThenLoad | lakbai-mobile/src/screens/MapScreen.tsx:260-276 | saving then loading gives the locations back in order with the same POI, name, coordinates, date and times; the id, the tags, an empty category and `confirmed` change as the loader says |
| MobileItinerary.LoadThenSave | lakbai-mobile/src/screens/MapScreen.tsx:504-515 | loading saved rows and saving them again writes the same rows, when no category was empty and no date or time was an empty string |
| MobileItinerary.LoadSpec | lakbai-mobile/src/screens/MapScreen.tsx:238-287 | a loaded itinerary is all confirmed, in the rows' order, at the rows' `[longitude, latitude]`, with the metadata defaults, and the pending location is left alone |
| MobileItinerary.MapScreen.constructor | lakbai-mobile/src/screens/MapScreen.tsx:49-79 | a new screen starts with no location, "My Trip" and the car mode |
| MobileItinerary.MapScreen.CalculateRoutes | lakbai-mobile/src/screens/MapScreen.tsx:177-236 | the effect moves the state as `RoutesCalculated` of the backend's answer to the consecutive pairs |
| MobileItinerary.MapScreen.SetTransportMode | lakbai-mobile/src/screens/MapScreen.tsx:79 | changing the mode changes only the mode |
| MobileItinerary.MapScreen.AddPoiToItinerary | lakbai-mobile/src/screens/MapScreen.tsx:387-403 | the state moves as `AddPoi` |
| MobileItinerary.MapScreen.HandlePendingTimeChange | lakbai-mobile/src/screens/MapScreen.tsx:417-424 | the state moves as `PendingTimeChange` |
| MobileItinerary.MapScreen.CancelPendingLocation | lakbai-mobile/src/screens/MapScreen.tsx:413-415 | the state moves as `Cancel` |
| MobileItinerary.MapScreen.ConfirmLocation | lakbai-mobile/src/screens/MapScreen.tsx:405-411 | the state moves as `Confirm`, keeping every location confirmed |
| MobileItinerary.MapScreen.RemoveLocation | lakbai-mobile/src/screens/MapScreen.tsx:444-446 | the state moves as `Remove`, keeping every location confirmed |
| MobileItinerary.MapScreen.HandleTimeChange | lakbai-mobile/src/screens/MapScreen.tsx:426-434 | the state moves as `TimeChanged`, keeping every location confirmed |
| MobileItinerary.MapScreen.SaveItinerary | lakbai-mobile/src/screens/MapScreen.tsx:448-530 | the outcome is `Save` of the sign-in and the locations |
| MobileItinerary.MapScreen.LoadItinerary | lakbai-mobile/src/screens/MapScreen.tsx:238-287 | the state moves as `Load`, all confirmed |
| Planner.FilterSpec | src/app/plan/page.tsx:106-107 | `filter` keeps exactly the accepted elements, adds none, and drops none when all are accepted |
| Planner.FilterSnoc | src/app/plan/page.tsx:106-107 | filtering a list with one more element at the end |
| Planner.AddPoiSpec | src/app/plan/page.tsx:88-103 | adding a selected POI changes nothing; otherwise the POI and its waypoint `poi-<id>` (named after it, at its place, 60 minutes) are appended and every earlier point stays; adding is idempotent (the same handler is at lines 63-70 of `src/features/PlanPage/index.tsx`) |
| Planner.RemovePoiSpec | src/app/plan/page.tsx:105-108 | afterwards no selected POI has the id and no point is its waypoint; every other POI and point stays, the start point included |
| Planner.AddThenRemove | src/app/plan/page.tsx:88-108 | removing a POI just added gives back the plan as it was |
| Planner.WaypointIdRoundTrip | src/app/plan/page.tsx:309 | the remove button reads a non-negative id back from its waypoint's id |
| Planner.NegativeWaypointIdLost | src/app/plan/page.tsx:309 | for a negative id the second part after splitting is empty and `parseInt` gives `NaN` |
| Planner.CalculateRouteSpec | src/app/plan/page.tsx:133-147 | with fewer than two points nothing changes; otherwise the route is `[lon, lat]` of each point in order (the same handler is at lines 77-81 of `src/features/PlanPage/index.tsx`) |
| Planner.RouteEndsAtNewPoi | src/app/plan/page.tsx:88-147 | after adding a POI to a plan with a start point, the route ends at the new POI |
| Planner.TogglePreferenceSpec | src/app/plan/page.tsx:222-226 | a toggle flips the category and leaves every other choice alone; toggling an unchosen category twice gives the choices back |
| Planner.SuggestibleSpec | src/app/plan/page.tsx:121-123 | with no interest every POI is kept; otherwise exactly those whose category (or "") is an interest |

## Left out

- Flask, CORS, HTTP and JSON: the handlers take decoded requests and return values.
- `health_check` only echoes the three engine URLs; it is not modelled.
- The engine's HTTP request, timeout and exceptions: any failure is the `Failed` reply, and the engine's answers are a function of the endpoint, the key and the request count.
- `distance_formatted`'s text and `hit_rate`'s text: only the label's branch (kilometres from 1000 m up, whole metres below) and its value are modelled, not the `.1f` formatting; `hit_rate` is the `Percent` value, not its `.2f` text with the `%` sign.
- Floating point: distances, scores and coordinates are reals. The division and rounding are exact.
- Concurrency: the Flask server and `lru_cache` are modelled as single-threaded.
- BERT: loading the model, `precompute_bert_predictions`, `get_bert_predictions_for_route` and the model's predictions. Cached predictions are a constructor parameter, and the real-time ones are a parameter of `RecommendNextPois`, `None` when no model is loaded.
- Pickle: `load_smart_cache` and `save_smart_cache` (file I/O). The cache is always built.
- `load_dataset`, and the printing and timing of every function.
- `get_recommendation_stats` and `main` only print or summarise; they are not modelled.
- The `get_themes_ids` that `backend/hybrid_smart_recommender.py` imports is not part of this model. Its `poi2theme` is a constructor parameter.
- `Routing.GetRoute`, `Routing.GetRoutesBatch`, `Routing.ProfileKeyIffSuccess`: a segment's answer is kept as the profile map plus a separate label. The service merges them into one dictionary with the label written last, so a requested profile literally named `distance_formatted` loses its route record to the label there; the model keeps that record.
- `LakbaiRecommender.RankedVisitCounts`: equal visit counts are ranked by ascending POI id, as a stable sort of `groupby`'s output gives. pandas' default `sort_values` (quicksort) does not promise that order beyond small tables, so which tied POIs fall inside `head(n*2)` may differ.
- `HybridRecommender.HybridSmartRecommender.RecommendNextPois`, `LakbaiRecommender.HybridSmartRecommender.RecommendNextPois`: the count is a `nat`. The recommendation endpoint passes `num_recommendations` on unchecked, and a negative count (which Python slices from the end and `head` treats as "all but the last") is not modelled.
- `LakbaiRecommender.RouteTextSplits`: assumes no theme contains a space, which the code does not check.
- `HybridRecommender.StartCandidatesSpec`: states "at most two per theme" as "drawn from the first two entries of each theme".
- pandas is modelled on sequences of rows: `iterrows`, `groupby().size()`, `unique`, `isin`, `head`, `sort_values`.
- Exceptions raised by pandas inside `_get_popular_starting_pois` are not modelled.
- `cluster_pois.py`: reading the GeoJSON, shapely centroids, KMeans, `dropna` and writing the CSV are not modelled. Only the category, the name and the popularity prior are.
- Strings have no Unicode case folding: `lower()` is modelled on ASCII letters.
- `parseFloat` is a parameter.
- `fetch` and the file read in `loadPOIData`: a response that could not be read is `None`.
- Map drawing: layers, sources, colours, arrows and fitting the view are not modelled. Whether the map exists is the `mapReady` parameter.
- `window.confirm` is the `confirmed` parameter.
- Clocks: `Date.now()` and today's date are parameters.
- The `setTimeout` reconnect in the web `removeLocation` is not modelled. It later calls `calculateRoute` for the neighbours, which is modelled as `MapPage.CalculateRoute`.
- The web page's confirmation calls `calculateRoute` with the last location after it. The model leaves that call to `MapPage.CalculateRoute`.
- UI-only state is not modelled: editing flags, menus, sidebar, settings, profile picture, loading flags, the recommendations list shown, and `handleRecommendationClick`.
- Supabase:
  - Authentication is the `signedIn` parameter.
  - The itinerary insert, the update, the delete of old rows and error alerts are not modelled.
  - Only the row shapes are modelled, and the `itinerary_id` column is left out.
  - The database's ordering by `order_index` is not modelled. `SaveThenLoad` shows the saved indexes are 0..n-1 in itinerary order.
- `createNewItinerary`, `deleteItinerary` and the saved-itinerary list are not modelled.
- The plan pages' `saveRoute` and geolocation are not modelled: the start point is part of the initial plan.
- `getAISuggestions`: the API call and the `slice(0, 3)` display are not modelled. Only the preference filter is.
- `transportMode` and `tripDuration` of the plan page are not modelled.
- `WebItinerary.PairKeyIncludes`: assumes equal-length, dash-free ids (as `Date.now()` strings are in practice). Otherwise the substring pruning in `removeLocation` may also remove entries of other pairs, which `WebItinerary.RemoveSpec` then does not rule out.
- `WebItinerary.RemoveSpec`: states the keeping of other pairs only for ids of the removed id's length without a dash, for the same reason.
