/** `analyze_real_user_patterns`, which both recommender files carry in the
    same form: visits are grouped into per-user, per-sequence POI lists;
    every list of at least two POIs adds one starting count, one count per
    consecutive pair and one theme count per POI with a known theme; the
    counts are ranked and the top ones become the pattern tables the
    recommenders read. */
module Patterns {
  import opened Wrappers
  import opened Dicts
  import opened Sorting

  /** A row of the visit table (`userID`, `seqID`, `poiID`). */
  datatype Visit = Visit(user: int, sequence: int, poi: int)

  /** `user_sequences[user]`: sequence id to the POIs visited, in visit order. */
  type Sequences = seq<(int, seq<int>)>

  /** `user_sequences`. */
  type Groups = seq<(int, Sequences)>

  // ---------------------------------------------------------------------
  // Grouping
  // ---------------------------------------------------------------------

  /** One pass of the grouping loop: the visit's POI goes at the end of
      `user_sequences[user][seq]`, creating the entries it needs. */
  function AddVisit(g: Groups, v: Visit): Groups {
    var sequences := Lookup(g, v.user).GetOr([]);
    Set(g, v.user, Set(sequences, v.sequence, Lookup(sequences, v.sequence).GetOr([]) + [v.poi]))
  }

  function Grouped(visits: seq<Visit>): Groups {
    if visits == [] then [] else AddVisit(Grouped(visits[..|visits| - 1]), visits[|visits| - 1])
  }

  /** The POIs of the visits of `user` in sequence `sid`, in table order. */
  function VisitsOf(visits: seq<Visit>, user: int, sid: int): (r: seq<int>)
    ensures r == [] <==> forall i :: 0 <= i < |visits| ==> visits[i].user != user || visits[i].sequence != sid
  {
    if visits == [] then []
    else
      var n := |visits| - 1;
      assert forall i :: 0 <= i < n ==> visits[..n][i] == visits[i];
      var prev := VisitsOf(visits[..n], user, sid);
      if visits[n].user == user && visits[n].sequence == sid then prev + [visits[n].poi] else prev
  }

  /** A visit adds its user to the grouping's users and nothing else. */
  lemma AddVisitKeys(g: Groups, v: Visit)
    ensures KeySet(AddVisit(g, v)) == KeySet(g) + {v.user}
  {
    var sequences := Lookup(g, v.user).GetOr([]);
    var updated := Set(sequences, v.sequence, Lookup(sequences, v.sequence).GetOr([]) + [v.poi]);
    assert AddVisit(g, v) == Set(g, v.user, updated);
  }

  /** The grouping has a user exactly when some visit is theirs. */
  lemma {:induction false} GroupedUsers(visits: seq<Visit>, user: int)
    ensures user in KeySet(Grouped(visits)) <==> exists i :: 0 <= i < |visits| && visits[i].user == user
  {
    if visits != [] {
      var n := |visits| - 1;
      var prefix := visits[..n];
      GroupedUsers(prefix, user);
      var inPrefix := exists i :: 0 <= i < |prefix| && prefix[i].user == user;
      var inAll := exists i :: 0 <= i < |visits| && visits[i].user == user;
      assert inAll <==> inPrefix || visits[n].user == user by {
        if inAll {
          var i :| 0 <= i < |visits| && visits[i].user == user;
          if i < n { assert prefix[i].user == user; }
        }
        if inPrefix {
          var i :| 0 <= i < |prefix| && prefix[i].user == user;
          assert visits[i].user == user;
        }
      }
      assert user in KeySet(Grouped(visits)) <==> user in KeySet(Grouped(prefix)) || user == visits[n].user by {
        assert Grouped(visits) == AddVisit(Grouped(prefix), visits[n]);
        AddVisitKeys(Grouped(prefix), visits[n]);
      }
    }
  }

  /** The list under a user and sequence id holds the POIs of exactly that
      user's visits with that sequence id, in table order, and is absent when
      there are none. */
  lemma {:induction false} GroupedLists(visits: seq<Visit>, user: int, sid: int)
    ensures Lookup(Lookup(Grouped(visits), user).GetOr([]), sid) ==
      if VisitsOf(visits, user, sid) == [] then None else Some(VisitsOf(visits, user, sid))
  {
    if visits != [] {
      var n := |visits| - 1;
      var v, g := visits[n], Grouped(visits[..n]);
      GroupedLists(visits[..n], user, sid);
      var sequences := Lookup(g, v.user).GetOr([]);
      var list := Lookup(sequences, v.sequence).GetOr([]) + [v.poi];
      var updated := Set(sequences, v.sequence, list);
      assert Grouped(visits) == Set(g, v.user, updated);
      LookupSet(g, v.user, updated, user);
      if user == v.user {
        LookupSet(sequences, v.sequence, list, sid);
      }
    }
  }

  /** The grouping loop of `analyze_real_user_patterns`. */
  method GroupVisits(visits: seq<Visit>) returns (userSequences: Groups)
    ensures userSequences == Grouped(visits)
  {
    userSequences := [];
    for i := 0 to |visits|
      invariant userSequences == Grouped(visits[..i])
    {
      assert visits[..i + 1][..i] == visits[..i];
      var v := visits[i];
      var sequences := Lookup(userSequences, v.user).GetOr([]);
      var pois := Lookup(sequences, v.sequence).GetOr([]);
      sequences := Set(sequences, v.sequence, pois + [v.poi]);
      userSequences := Set(userSequences, v.user, sequences);
    }
    assert visits[..|visits|] == visits;
  }

  /** Every POI list in the order the analysis loops visit them: users in
      order of their first visit, each user's sequences likewise. */
  function AllSequences(g: Groups): seq<seq<int>> {
    if g == [] then [] else AllSequences(g[..|g| - 1]) + Values(g[|g| - 1].1)
  }

  // ---------------------------------------------------------------------
  // Counting
  // ---------------------------------------------------------------------

  /** The four accumulators of the counting loop: `starting_poi_counts`,
      `transition_counts`, `sequence_patterns` and `theme_preferences`. */
  datatype Tally = Tally(starts: seq<(int, nat)>, transitions: seq<((int, int), nat)>,
                         patterns: seq<seq<int>>, themes: seq<(string, nat)>)

  /** The transition loop after its first `k` pairs. */
  function CountTransitions(c: seq<((int, int), nat)>, pois: seq<int>, k: nat): seq<((int, int), nat)>
    requires k < |pois|
  {
    if k == 0 then c else Bump(CountTransitions(c, pois, k - 1), (pois[k - 1], pois[k]))
  }

  /** The theme-preference loop after its first `k` POIs. */
  function CountThemes(c: seq<(string, nat)>, pois: seq<int>, k: nat, poi2theme: map<int, string>): seq<(string, nat)>
    requires k <= |pois|
  {
    if k == 0 then c
    else
      var prev := CountThemes(c, pois, k - 1, poi2theme);
      if pois[k - 1] in poi2theme then Bump(prev, poi2theme[pois[k - 1]]) else prev
  }

  /** What one POI list adds: nothing unless it has at least two POIs. */
  function TallyStep(t: Tally, pois: seq<int>, poi2theme: map<int, string>): Tally {
    if |pois| >= 2 then
      Tally(Bump(t.starts, pois[0]), CountTransitions(t.transitions, pois, |pois| - 1),
            t.patterns + [pois], CountThemes(t.themes, pois, |pois|, poi2theme))
    else t
  }

  function TallyOf(ss: seq<seq<int>>, poi2theme: map<int, string>): Tally {
    if ss == [] then Tally([], [], [], [])
    else TallyStep(TallyOf(ss[..|ss| - 1], poi2theme), ss[|ss| - 1], poi2theme)
  }

  /** The lists that are counted: those with at least two POIs, in order. */
  function LongOnly(ss: seq<seq<int>>): (r: seq<seq<int>>)
    ensures forall i :: 0 <= i < |r| ==> |r[i]| >= 2
    ensures |r| <= |ss|
  {
    if ss == [] then []
    else
      var prev := LongOnly(ss[..|ss| - 1]);
      if |ss[|ss| - 1]| >= 2 then prev + [ss[|ss| - 1]] else prev
  }

  /** The number of consecutive pairs over the lists. */
  function Steps(ss: seq<seq<int>>): nat
    requires forall i :: 0 <= i < |ss| ==> |ss[i]| >= 1
  {
    if ss == [] then 0 else Steps(ss[..|ss| - 1]) + |ss[|ss| - 1]| - 1
  }

  lemma {:induction false} CountTransitionsSpec(c: seq<((int, int), nat)>, pois: seq<int>, k: nat)
    requires k < |pois|
    ensures Total(CountTransitions(c, pois, k)) == Total(c) + k
    ensures Positive(c) ==> Positive(CountTransitions(c, pois, k))
  {
    if k > 0 {
      CountTransitionsSpec(c, pois, k - 1);
      var prev := CountTransitions(c, pois, k - 1);
      BumpSpec(prev, (pois[k - 1], pois[k]));
      if Positive(c) { BumpPositive(prev, (pois[k - 1], pois[k])); }
    }
  }

  lemma {:induction false} CountThemesPositive(c: seq<(string, nat)>, pois: seq<int>, k: nat, poi2theme: map<int, string>)
    requires k <= |pois| && Positive(c)
    ensures Positive(CountThemes(c, pois, k, poi2theme))
  {
    if k > 0 {
      CountThemesPositive(c, pois, k - 1, poi2theme);
      if pois[k - 1] in poi2theme {
        BumpPositive(CountThemes(c, pois, k - 1, poi2theme), poi2theme[pois[k - 1]]);
      }
    }
  }

  /** The lists kept as `sequence_patterns` are exactly those with at least two POIs. */
  lemma {:induction false} TallyPatterns(ss: seq<seq<int>>, poi2theme: map<int, string>)
    ensures TallyOf(ss, poi2theme).patterns == LongOnly(ss)
  {
    if ss != [] {
      TallyPatterns(ss[..|ss| - 1], poi2theme);
    }
  }

  lemma {:induction false} LongOnlyMember(ss: seq<seq<int>>, s: seq<int>)
    requires s in LongOnly(ss)
    ensures s in ss && |s| >= 2
  {
    var n := |ss| - 1;
    if s != ss[n] || |ss[n]| < 2 {
      LongOnlyMember(ss[..n], s);
    }
  }

  /** Each counted list adds exactly one starting count and one transition
      count per consecutive pair: the totals are the number of counted lists
      and the sum of their lengths minus one.  Every stored count is positive. */
  lemma {:induction false} TallyTotals(ss: seq<seq<int>>, poi2theme: map<int, string>)
    ensures var t := TallyOf(ss, poi2theme);
      && |t.patterns| <= |ss|
      && (forall i :: 0 <= i < |t.patterns| ==> |t.patterns[i]| >= 2)
      && Total(t.starts) == |t.patterns|
      && Total(t.transitions) == Steps(t.patterns)
      && Positive(t.starts) && Positive(t.transitions) && Positive(t.themes)
  {
    if ss != [] {
      var n := |ss| - 1;
      TallyTotals(ss[..n], poi2theme);
      TallyStepTotals(TallyOf(ss[..n], poi2theme), ss[n], poi2theme);
    }
  }

  /** One step of the count keeps the totals of `TallyTotals`. */
  lemma TallyStepTotals(prev: Tally, pois: seq<int>, poi2theme: map<int, string>)
    requires forall i :: 0 <= i < |prev.patterns| ==> |prev.patterns[i]| >= 2
    requires Total(prev.starts) == |prev.patterns| && Total(prev.transitions) == Steps(prev.patterns)
    requires Positive(prev.starts) && Positive(prev.transitions) && Positive(prev.themes)
    ensures var t := TallyStep(prev, pois, poi2theme);
      && |t.patterns| <= |prev.patterns| + 1
      && (forall i :: 0 <= i < |t.patterns| ==> |t.patterns[i]| >= 2)
      && Total(t.starts) == |t.patterns|
      && Total(t.transitions) == Steps(t.patterns)
      && Positive(t.starts) && Positive(t.transitions) && Positive(t.themes)
  {
    if |pois| >= 2 {
      BumpTotal(prev.starts, pois[0]);
      BumpPositive(prev.starts, pois[0]);
      CountTransitionsSpec(prev.transitions, pois, |pois| - 1);
      CountThemesPositive(prev.themes, pois, |pois|, poi2theme);
      StepsSnoc(prev.patterns, pois);
    }
  }

  /** `Steps` of a sequence with one more list at the end. */
  lemma StepsSnoc(ss: seq<seq<int>>, pois: seq<int>)
    requires forall i :: 0 <= i < |ss| ==> |ss[i]| >= 1
    requires |pois| >= 1
    ensures Steps(ss + [pois]) == Steps(ss) + |pois| - 1
  {
    assert (ss + [pois])[..|ss|] == ss;
  }

  /** A POI has a starting count exactly when some counted list starts there. */
  lemma {:induction false} TallyStartKeys(ss: seq<seq<int>>, poi2theme: map<int, string>, poi: int)
    ensures var t := TallyOf(ss, poi2theme);
      poi in KeySet(t.starts) <==> exists i :: 0 <= i < |ss| && |ss[i]| >= 2 && ss[i][0] == poi
  {
    if ss != [] {
      var n := |ss| - 1;
      var prev, pois := TallyOf(ss[..n], poi2theme), ss[n];
      TallyStartKeys(ss[..n], poi2theme, poi);
      assert forall i :: 0 <= i < n ==> ss[..n][i] == ss[i];
    }
  }

  /** The body of the counting loop for one POI list. */
  method TallySequence(t: Tally, pois: seq<int>, poi2theme: map<int, string>) returns (r: Tally)
    ensures r == TallyStep(t, pois, poi2theme)
  {
    r := t;
    if |pois| >= 2 {
      var transitionCounts := CountTransitionLoop(t.transitions, pois);
      var themePreferences := CountThemeLoop(t.themes, pois, poi2theme);
      r := Tally(Bump(t.starts, pois[0]), transitionCounts, t.patterns + [pois], themePreferences);
    }
  }

  /** The loop counting each consecutive pair of a POI list. */
  method CountTransitionLoop(c: seq<((int, int), nat)>, pois: seq<int>) returns (r: seq<((int, int), nat)>)
    requires |pois| >= 1
    ensures r == CountTransitions(c, pois, |pois| - 1)
  {
    r := c;
    for i := 0 to |pois| - 1
      invariant r == CountTransitions(c, pois, i)
    {
      r := Bump(r, (pois[i], pois[i + 1]));
    }
  }

  /** The loop counting the theme of each POI of a list that has one. */
  method CountThemeLoop(c: seq<(string, nat)>, pois: seq<int>, poi2theme: map<int, string>) returns (r: seq<(string, nat)>)
    ensures r == CountThemes(c, pois, |pois|, poi2theme)
  {
    r := c;
    for i := 0 to |pois|
      invariant r == CountThemes(c, pois, i, poi2theme)
    {
      if pois[i] in poi2theme {
        r := Bump(r, poi2theme[pois[i]]);
      }
    }
  }

  /** The counting loops of `analyze_real_user_patterns`, over users, then
      their sequences. */
  method TallySequences(userSequences: Groups, poi2theme: map<int, string>) returns (t: Tally)
    ensures t == TallyOf(AllSequences(userSequences), poi2theme)
  {
    t := Tally([], [], [], []);
    for u := 0 to |userSequences|
      invariant t == TallyOf(AllSequences(userSequences[..u]), poi2theme)
    {
      t := TallyUser(t, AllSequences(userSequences[..u]), userSequences[u].1, poi2theme);
      assert userSequences[..u + 1][..u] == userSequences[..u];
    }
    assert userSequences[..|userSequences|] == userSequences;
  }

  /** The inner loop, over one user's sequences. */
  method TallyUser(t: Tally, ghost before: seq<seq<int>>, sequences: Sequences, poi2theme: map<int, string>)
    returns (r: Tally)
    requires t == TallyOf(before, poi2theme)
    ensures r == TallyOf(before + Values(sequences), poi2theme)
  {
    r := t;
    assert before + Values(sequences)[..0] == before;
    for s := 0 to |sequences|
      invariant r == TallyOf(before + Values(sequences)[..s], poi2theme)
    {
      assert (before + Values(sequences)[..s + 1])[..|before| + s] == before + Values(sequences)[..s];
      r := TallySequence(r, sequences[s].1, poi2theme);
    }
    assert Values(sequences)[..|sequences|] == Values(sequences);
  }

  // ---------------------------------------------------------------------
  // Ranking and the pattern tables
  // ---------------------------------------------------------------------

  function CountKey<K>(e: (K, nat)): real { e.1 as real }

  /** `sorted(counter.items(), key=lambda x: x[1], reverse=True)`. */
  function Ranked<K>(c: seq<(K, nat)>): seq<(K, nat)> {
    SortDesc(c, CountKey)
  }

  lemma {:induction false} TotalInsertDesc<K>(x: (K, nat), xs: seq<(K, nat)>)
    ensures Total(InsertDesc(x, xs, CountKey)) == Total(xs) + x.1
  {
    if xs != [] && CountKey(x) < CountKey(xs[0]) {
      TotalInsertDesc(x, xs[1..]);
    }
  }

  /** Ranking neither adds nor drops a count. */
  lemma {:induction false} TotalRanked<K>(c: seq<(K, nat)>)
    ensures Total(Ranked(c)) == Total(c)
  {
    if c != [] {
      TotalRanked(c[1..]);
      TotalInsertDesc(c[0], Ranked(c[1..]));
    }
  }

  lemma TotalTake<K>(xs: seq<(K, nat)>, k: nat)
    ensures Total(Take(xs, k)) <= Total(xs)
  {
    var t := Take(xs, k);
    assert xs == t + xs[|t|..];
    TotalAppend(t, xs[|t|..]);
  }

  /** Every ranked item is an item of the counter, so its key is a key of
      the counter and its count is at most the counter's total. */
  lemma RankedItem<K>(c: seq<(K, nat)>, x: (K, nat))
    requires x in Ranked(c)
    ensures x in c && x.0 in KeySet(c) && x.1 <= Total(c)
  {
    assert x in multiset(Ranked(c));
    var j :| 0 <= j < |c| && c[j] == x;
    EntryAtMostTotal(c, j);
  }

  /** How many of each kind the tables keep, and the longest sequence counted. */
  const TopStarts: nat := 20
  const TopTransitions: nat := 100
  const TopSequences: nat := 50
  const MaxPatternLength: nat := 6

  datatype StartEntry = StartEntry(poi: int, score: real, count: nat)
  datatype TransitionEntry = TransitionEntry(poi: int, score: real, count: nat, theme: string)
  datatype SequenceEntry = SequenceEntry(sequence: seq<int>, score: real, count: nat)

  function StartCount(e: StartEntry): real { e.count as real }
  function TransitionCount(e: TransitionEntry): real { e.count as real }
  function TransitionScore(e: TransitionEntry): real { e.score }
  function SequenceCount(e: SequenceEntry): real { e.count as real }

  /** `starting_pois`: each top starting POI with a known theme, appended to
      its theme's list with score `count / len(user_sequences)`. */
  function StartingPois(top: seq<(int, nat)>, poi2theme: map<int, string>, users: nat): seq<(string, seq<StartEntry>)>
    requires top != [] ==> users > 0
  {
    if top == [] then []
    else
      var n := |top| - 1;
      var prev := StartingPois(top[..n], poi2theme, users);
      var poi, count := top[n].0, top[n].1;
      if poi in poi2theme then AppendTo(prev, poi2theme[poi], StartEntry(poi, count as real / users as real, count))
      else prev
  }

  /** `transitions`: each top transition appended to the list of its source
      POI with score `count / sum(transition_counts.values())` and the target's
      theme, or "Unknown". */
  function TransitionsFrom(top: seq<((int, int), nat)>, total: nat, poi2theme: map<int, string>)
    : seq<(int, seq<TransitionEntry>)>
    requires top != [] ==> total > 0
  {
    if top == [] then []
    else
      var n := |top| - 1;
      var prev := TransitionsFrom(top[..n], total, poi2theme);
      var from, to, count := top[n].0.0, top[n].0.1, top[n].1;
      AppendTo(prev, from, TransitionEntry(to, count as real / total as real, count,
                                           if to in poi2theme then poi2theme[to] else "Unknown"))
  }

  /** `sequence_counts`: how often each counted list of at most six POIs occurs. */
  function SequenceCounts(patterns: seq<seq<int>>): seq<(seq<int>, nat)> {
    if patterns == [] then []
    else
      var n := |patterns| - 1;
      var prev := SequenceCounts(patterns[..n]);
      if |patterns[n]| <= MaxPatternLength then Bump(prev, patterns[n]) else prev
  }

  /** `popular_sequences`: the top sequences with score `count / len(sequence_patterns)`. */
  function PopularSequences(top: seq<(seq<int>, nat)>, patterns: nat): (r: seq<SequenceEntry>)
    requires top != [] ==> patterns > 0
    ensures |r| == |top|
  {
    seq(|top|, i requires 0 <= i < |top| => SequenceEntry(top[i].0, top[i].1 as real / patterns as real, top[i].1))
  }

  /** `popular_routes_from_data`. */
  datatype PatternTables = PatternTables(startingPois: seq<(string, seq<StartEntry>)>,
                                         transitions: seq<(int, seq<TransitionEntry>)>,
                                         popularSequences: seq<SequenceEntry>,
                                         themePreferences: seq<(string, nat)>)

  /** The divisions in the tables are never by zero: a table has rows only
      when some list was counted, and then there is at least one user, one
      transition and one counted list. */
  lemma AnalyzeWellDefined(g: Groups, poi2theme: map<int, string>)
    ensures var t := TallyOf(AllSequences(g), poi2theme);
      && (Take(Ranked(t.starts), TopStarts) != [] ==> |g| > 0)
      && (Take(Ranked(t.transitions), TopTransitions) != [] ==> Total(t.transitions) > 0)
      && (Take(Ranked(SequenceCounts(t.patterns)), TopSequences) != [] ==> |t.patterns| > 0)
  {
    var t := TallyOf(AllSequences(g), poi2theme);
    TallyTotals(AllSequences(g), poi2theme);
    if t.starts != [] {
      EntryAtMostTotal(t.starts, 0);
    }
    if t.transitions != [] {
      EntryAtMostTotal(t.transitions, 0);
    }
  }

  /** The whole of `analyze_real_user_patterns`. */
  function Analyze(visits: seq<Visit>, poi2theme: map<int, string>): PatternTables {
    var g := Grouped(visits);
    var t := TallyOf(AllSequences(g), poi2theme);
    AnalyzeWellDefined(g, poi2theme);
    PatternTables(
      StartingPois(Take(Ranked(t.starts), TopStarts), poi2theme, |g|),
      TransitionsFrom(Take(Ranked(t.transitions), TopTransitions), Total(t.transitions), poi2theme),
      PopularSequences(Take(Ranked(SequenceCounts(t.patterns)), TopSequences), |t.patterns|),
      t.themes)
  }

  /** The loop that fills `starting_pois`. */
  method BuildStartingPois(top: seq<(int, nat)>, poi2theme: map<int, string>, users: nat)
    returns (startingPois: seq<(string, seq<StartEntry>)>)
    requires top != [] ==> users > 0
    ensures startingPois == StartingPois(top, poi2theme, users)
  {
    startingPois := [];
    for k := 0 to |top|
      invariant startingPois == StartingPois(top[..k], poi2theme, users)
    {
      assert top[..k + 1][..k] == top[..k];
      var poi, count := top[k].0, top[k].1;
      if poi in poi2theme {
        startingPois := AppendTo(startingPois, poi2theme[poi], StartEntry(poi, count as real / users as real, count));
      }
    }
    assert top[..|top|] == top;
  }

  /** The loop that fills `transitions`. */
  method BuildTransitions(top: seq<((int, int), nat)>, total: nat, poi2theme: map<int, string>)
    returns (transitions: seq<(int, seq<TransitionEntry>)>)
    requires top != [] ==> total > 0
    ensures transitions == TransitionsFrom(top, total, poi2theme)
  {
    transitions := [];
    for k := 0 to |top|
      invariant transitions == TransitionsFrom(top[..k], total, poi2theme)
    {
      assert top[..k + 1][..k] == top[..k];
      var from, to, count := top[k].0.0, top[k].0.1, top[k].1;
      transitions := AppendTo(transitions, from,
                              TransitionEntry(to, count as real / total as real, count,
                                              if to in poi2theme then poi2theme[to] else "Unknown"));
    }
    assert top[..|top|] == top;
  }

  /** The loop that fills `sequence_counts`. */
  method CountSequences(patterns: seq<seq<int>>) returns (counts: seq<(seq<int>, nat)>)
    ensures counts == SequenceCounts(patterns)
  {
    counts := [];
    for k := 0 to |patterns|
      invariant counts == SequenceCounts(patterns[..k])
    {
      assert patterns[..k + 1][..k] == patterns[..k];
      if |patterns[k]| <= MaxPatternLength {
        counts := Bump(counts, patterns[k]);
      }
    }
    assert patterns[..|patterns|] == patterns;
  }

  /** The loop that fills `popular_sequences`. */
  method BuildPopularSequences(top: seq<(seq<int>, nat)>, patterns: nat) returns (popular: seq<SequenceEntry>)
    requires top != [] ==> patterns > 0
    ensures popular == PopularSequences(top, patterns)
  {
    popular := [];
    for k := 0 to |top|
      invariant popular == PopularSequences(top[..k], patterns)
    {
      popular := popular + [SequenceEntry(top[k].0, top[k].1 as real / patterns as real, top[k].1)];
    }
    assert top[..|top|] == top;
  }

  /** `analyze_real_user_patterns`. */
  method AnalyzeRealUserPatterns(visits: seq<Visit>, poi2theme: map<int, string>) returns (tables: PatternTables)
    ensures tables == Analyze(visits, poi2theme)
  {
    var userSequences := GroupVisits(visits);
    var t := TallySequences(userSequences, poi2theme);
    AnalyzeWellDefined(userSequences, poi2theme);
    var startingPois := BuildStartingPois(Take(Ranked(t.starts), TopStarts), poi2theme, |userSequences|);
    var transitions := BuildTransitions(Take(Ranked(t.transitions), TopTransitions), Total(t.transitions), poi2theme);
    var counts := CountSequences(t.patterns);
    var popular := BuildPopularSequences(Take(Ranked(counts), TopSequences), |t.patterns|);
    tables := PatternTables(startingPois, transitions, popular, t.themes);
  }

  // ---------------------------------------------------------------------
  // What the tables promise
  // ---------------------------------------------------------------------

  /** A theme's list of starting POIs holds only top POIs of that theme with
      their counts, each scored by its share of users, in rank order. */
  lemma StartingPoisSpec(top: seq<(int, nat)>, poi2theme: map<int, string>, users: nat, theme: string)
    requires top != [] ==> users > 0
    ensures var sp := StartingPois(top, poi2theme, users);
      var list := Lookup(sp, theme).GetOr([]);
      && Size(sp) <= |top|
      && (forall e :: e in list ==>
            e.poi in poi2theme && poi2theme[e.poi] == theme && (e.poi, e.count) in top
            && e.score == e.count as real / users as real)
      && (SortedDesc(top, CountKey) ==> SortedDesc(list, StartCount))
  {
    StartingPoisEntries(top, poi2theme, users, theme);
    if SortedDesc(top, CountKey) {
      StartingPoisSorted(top, poi2theme, users, theme);
    }
  }

  lemma {:induction false} StartingPoisEntries(top: seq<(int, nat)>, poi2theme: map<int, string>, users: nat, theme: string)
    requires top != [] ==> users > 0
    ensures var sp := StartingPois(top, poi2theme, users);
      && Size(sp) <= |top|
      && (forall e :: e in Lookup(sp, theme).GetOr([]) ==>
            e.poi in poi2theme && poi2theme[e.poi] == theme && (e.poi, e.count) in top
            && e.score == e.count as real / users as real)
  {
    if top != [] {
      var n := |top| - 1;
      var prefix := top[..n];
      StartingPoisEntries(prefix, poi2theme, users, theme);
      var prev := StartingPois(prefix, poi2theme, users);
      assert forall x :: x in prefix ==> x in top;
      var poi, count := top[n].0, top[n].1;
      if poi in poi2theme {
        var e := StartEntry(poi, count as real / users as real, count);
        assert StartingPois(top, poi2theme, users) == AppendTo(prev, poi2theme[poi], e);
        AppendToSpec(prev, poi2theme[poi], e);
      }
    }
  }

  lemma {:induction false} StartingPoisSorted(top: seq<(int, nat)>, poi2theme: map<int, string>, users: nat, theme: string)
    requires top != [] ==> users > 0
    requires SortedDesc(top, CountKey)
    ensures SortedDesc(Lookup(StartingPois(top, poi2theme, users), theme).GetOr([]), StartCount)
  {
    if top != [] {
      var n := |top| - 1;
      var prefix := top[..n];
      assert SortedDesc(prefix, CountKey);
      StartingPoisSorted(prefix, poi2theme, users, theme);
      var prev := StartingPois(prefix, poi2theme, users);
      var pl := Lookup(prev, theme).GetOr([]);
      var poi, count := top[n].0, top[n].1;
      if poi in poi2theme {
        var e := StartEntry(poi, count as real / users as real, count);
        assert StartingPois(top, poi2theme, users) == AppendTo(prev, poi2theme[poi], e);
        AppendToSpec(prev, poi2theme[poi], e);
        if theme == poi2theme[poi] {
          assert forall x :: x in pl ==> StartCount(x) >= StartCount(e) by {
            StartingPoisEntries(prefix, poi2theme, users, theme);
            forall x: StartEntry | x in pl ensures x.count >= count {
              var i :| 0 <= i < n && prefix[i] == (x.poi, x.count);
              assert CountKey(top[i]) >= CountKey(top[n]);
            }
          }
          SortedDescSnoc(pl, e, StartCount);
        }
      }
    }
  }

  /** A source POI's list of transitions holds only top transitions out of it
      with their counts, each scored by its share of all transitions and
      labelled with the target's theme. */
  lemma {:induction false} TransitionsSpec(top: seq<((int, int), nat)>, total: nat, poi2theme: map<int, string>, from: int)
    requires top != [] ==> total > 0
    ensures var tr := TransitionsFrom(top, total, poi2theme);
      && Size(tr) <= |top|
      && (forall e :: e in Lookup(tr, from).GetOr([]) ==>
            ((from, e.poi), e.count) in top && e.score == e.count as real / total as real
            && e.theme == (if e.poi in poi2theme then poi2theme[e.poi] else "Unknown"))
  {
    if top != [] {
      var n := |top| - 1;
      TransitionsSpec(top[..n], total, poi2theme, from);
      var prev := TransitionsFrom(top[..n], total, poi2theme);
      assert forall x :: x in top[..n] ==> x in top;
      var to, count := top[n].0.1, top[n].1;
      AppendToSpec(prev, top[n].0.0, TransitionEntry(to, count as real / total as real, count,
                                                     if to in poi2theme then poi2theme[to] else "Unknown"));
    }
  }

  /** When the top transitions are in rank order, so is each source POI's list. */
  lemma {:induction false} TransitionsSorted(top: seq<((int, int), nat)>, total: nat, poi2theme: map<int, string>, from: int)
    requires top != [] ==> total > 0
    requires SortedDesc(top, CountKey)
    ensures SortedDesc(Lookup(TransitionsFrom(top, total, poi2theme), from).GetOr([]), TransitionCount)
  {
    if top != [] {
      var n := |top| - 1;
      var prefix := top[..n];
      assert SortedDesc(prefix, CountKey);
      TransitionsSorted(prefix, total, poi2theme, from);
      var prev := TransitionsFrom(prefix, total, poi2theme);
      var pl := Lookup(prev, from).GetOr([]);
      var to, count := top[n].0.1, top[n].1;
      var e := TransitionEntry(to, count as real / total as real, count,
                               if to in poi2theme then poi2theme[to] else "Unknown");
      assert TransitionsFrom(top, total, poi2theme) == AppendTo(prev, top[n].0.0, e);
      AppendToSpec(prev, top[n].0.0, e);
      if from == top[n].0.0 {
        assert forall x :: x in pl ==> TransitionCount(x) >= TransitionCount(e) by {
          TransitionsSpec(prefix, total, poi2theme, from);
          forall x: TransitionEntry | x in pl ensures x.count >= count {
            var i :| 0 <= i < n && prefix[i] == ((from, x.poi), x.count);
            assert CountKey(top[i]) >= CountKey(top[n]);
          }
        }
        SortedDescSnoc(pl, e, TransitionCount);
      }
    }
  }

  /** The scores of all the transition lists add up to the share of all
      transitions that the top ones carry. */
  lemma {:induction false} TransitionsSum(top: seq<((int, int), nat)>, total: nat, poi2theme: map<int, string>)
    requires total > 0
    ensures GroupSum(TransitionsFrom(top, total, poi2theme), TransitionScore) == Total(top) as real / total as real
  {
    if top != [] {
      var n := |top| - 1;
      var prefix := top[..n];
      TransitionsSum(prefix, total, poi2theme);
      var prev := TransitionsFrom(prefix, total, poi2theme);
      var count := top[n].1;
      var e := TransitionEntry(top[n].0.1, count as real / total as real, count,
                               if top[n].0.1 in poi2theme then poi2theme[top[n].0.1] else "Unknown");
      assert GroupSum(TransitionsFrom(top, total, poi2theme), TransitionScore)
             == GroupSum(prev, TransitionScore) + count as real / total as real by {
        assert TransitionsFrom(top, total, poi2theme) == AppendTo(prev, top[n].0.0, e);
        AppendToSum(prev, top[n].0.0, e, TransitionScore);
      }
      TotalLast(top);
      var a, b, t := Total(prefix) as real, count as real, total as real;
      DivAdd(a, b, t);
      assert Total(top) as real / t == (a + b) / t;
    }
  }

  lemma DivAdd(a: real, b: real, t: real)
    requires t > 0.0
    ensures a / t + b / t == (a + b) / t
  {
  }

  /** The top `k` items of a counter are its items, in rank order, with no
      larger total than the whole counter. */
  lemma TopFacts<K>(c: seq<(K, nat)>, k: nat)
    ensures var top := Take(Ranked(c), k);
      && SortedDesc(top, CountKey)
      && Total(top) <= Total(c)
      && forall x :: x in top ==> x in c && x.1 <= Total(c)
  {
    SortDescSorted(c, CountKey);
    TakeSorted(Ranked(c), k, CountKey);
    TotalTake(Ranked(c), k);
    TotalRanked(c);
    forall x | x in Take(Ranked(c), k) ensures x in c && x.1 <= Total(c) {
      RankedItem(c, x);
    }
  }

  /** A member of a positive counter has a positive count. */
  lemma PositiveMember<K>(c: seq<(K, nat)>, x: (K, nat))
    requires Positive(c) && x in c
    ensures x.1 >= 1
  {
    var j :| 0 <= j < |c| && c[j] == x;
  }

  /** Only lists of at most six POIs are counted, each counted list is one of
      the patterns, every count is positive and the counts add up to at most
      the number of patterns. */
  lemma {:induction false} SequenceCountsSpec(patterns: seq<seq<int>>)
    ensures var c := SequenceCounts(patterns);
      && Positive(c)
      && Total(c) <= |patterns|
      && forall s :: s in KeySet(c) ==> s in patterns && |s| <= MaxPatternLength
  {
    if patterns != [] {
      var n := |patterns| - 1;
      SequenceCountsSpec(patterns[..n]);
      var prev := SequenceCounts(patterns[..n]);
      assert forall x :: x in patterns[..n] ==> x in patterns;
      if |patterns[n]| <= MaxPatternLength {
        BumpSpec(prev, patterns[n]);
        BumpPositive(prev, patterns[n]);
      }
    }
  }

  /** `starting_pois` keeps at most 20 POIs, each under its own theme, with a
      score that is its count over the number of users, most frequent first. */
  lemma StartingPoisProps(visits: seq<Visit>, poi2theme: map<int, string>, theme: string)
    ensures var list := Lookup(Analyze(visits, poi2theme).startingPois, theme).GetOr([]);
      && Size(Analyze(visits, poi2theme).startingPois) <= TopStarts
      && (forall e :: e in list ==>
            e.poi in poi2theme && poi2theme[e.poi] == theme && e.score == e.count as real / |Grouped(visits)| as real)
      && SortedDesc(list, StartCount)
  {
    var g := Grouped(visits);
    var t := TallyOf(AllSequences(g), poi2theme);
    AnalyzeWellDefined(g, poi2theme);
    var top := Take(Ranked(t.starts), TopStarts);
    StartingPoisSpec(top, poi2theme, |g|, theme);
    TopFacts(t.starts, TopStarts);
  }

  /** Every starting POI was seen at least once at the start of some user's
      list of two or more visits. */
  lemma StartingPoisObserved(visits: seq<Visit>, poi2theme: map<int, string>, theme: string)
    ensures forall e :: e in Lookup(Analyze(visits, poi2theme).startingPois, theme).GetOr([]) ==>
      e.count >= 1 && StartsSomeList(AllSequences(Grouped(visits)), e.poi)
  {
    var g := Grouped(visits);
    var t := TallyOf(AllSequences(g), poi2theme);
    AnalyzeWellDefined(g, poi2theme);
    var top := Take(Ranked(t.starts), TopStarts);
    StartingPoisSpec(top, poi2theme, |g|, theme);
    TopFacts(t.starts, TopStarts);
    var list := Lookup(StartingPois(top, poi2theme, |g|), theme).GetOr([]);
    forall e | e in list
      ensures e.count >= 1 && StartsSomeList(AllSequences(g), e.poi)
    {
      StartSeen(AllSequences(g), poi2theme, (e.poi, e.count));
    }
  }

  /** Some list of two or more visits starts at `poi`. */
  ghost predicate StartsSomeList(ss: seq<seq<int>>, poi: int) {
    exists i :: 0 <= i < |ss| && |ss[i]| >= 2 && ss[i][0] == poi
  }

  /** A counted starting POI starts some list of two or more visits. */
  lemma StartSeen(ss: seq<seq<int>>, poi2theme: map<int, string>, x: (int, nat))
    requires x in TallyOf(ss, poi2theme).starts
    ensures x.1 >= 1 && StartsSomeList(ss, x.0)
  {
    var t := TallyOf(ss, poi2theme);
    TallyTotals(ss, poi2theme);
    PositiveMember(t.starts, x);
    var j :| 0 <= j < |t.starts| && t.starts[j] == x;
    assert x.0 in KeySet(t.starts);
    TallyStartKeys(ss, poi2theme, x.0);
  }

  /** `transitions` keeps at most 100 entries, each labelled with its
      target's theme and scored by its share of all transitions, each list
      most frequent first. */
  lemma TransitionsProps(visits: seq<Visit>, poi2theme: map<int, string>, from: int)
    ensures var tables := Analyze(visits, poi2theme);
      var t := TallyOf(AllSequences(Grouped(visits)), poi2theme);
      var list := Lookup(tables.transitions, from).GetOr([]);
      && Size(tables.transitions) <= TopTransitions
      && (forall e :: e in list ==>
            e.theme == (if e.poi in poi2theme then poi2theme[e.poi] else "Unknown")
            && Total(t.transitions) > 0 && e.score == e.count as real / Total(t.transitions) as real)
      && SortedDesc(list, TransitionCount)
  {
    var g := Grouped(visits);
    var t := TallyOf(AllSequences(g), poi2theme);
    AnalyzeWellDefined(g, poi2theme);
    var top := Take(Ranked(t.transitions), TopTransitions);
    TransitionsSpec(top, Total(t.transitions), poi2theme, from);
    TopFacts(t.transitions, TopTransitions);
    TransitionsSorted(top, Total(t.transitions), poi2theme, from);
  }

  /** Every stored transition was observed at least once. */
  lemma TransitionsObserved(visits: seq<Visit>, poi2theme: map<int, string>, from: int)
    ensures forall e :: e in Lookup(Analyze(visits, poi2theme).transitions, from).GetOr([]) ==> e.count >= 1
  {
    var g := Grouped(visits);
    var t := TallyOf(AllSequences(g), poi2theme);
    AnalyzeWellDefined(g, poi2theme);
    var top := Take(Ranked(t.transitions), TopTransitions);
    TransitionsSpec(top, Total(t.transitions), poi2theme, from);
    TopFacts(t.transitions, TopTransitions);
    TallyTotals(AllSequences(g), poi2theme);
    var list := Lookup(TransitionsFrom(top, Total(t.transitions), poi2theme), from).GetOr([]);
    forall e | e in list ensures e.count >= 1 {
      PositiveMember(t.transitions, ((from, e.poi), e.count));
    }
  }

  /** The transition scores over all source POIs add up to at most one. */
  lemma TransitionScoresSum(visits: seq<Visit>, poi2theme: map<int, string>)
    ensures GroupSum(Analyze(visits, poi2theme).transitions, TransitionScore) <= 1.0
  {
    var g := Grouped(visits);
    var t := TallyOf(AllSequences(g), poi2theme);
    AnalyzeWellDefined(g, poi2theme);
    var top := Take(Ranked(t.transitions), TopTransitions);
    var total := Total(t.transitions);
    TopFacts(t.transitions, TopTransitions);
    if total > 0 {
      TransitionsSum(top, total, poi2theme);
      DivAtMostOne(Total(top) as real, total as real);
    }
  }

  lemma DivAtMostOne(a: real, t: real)
    requires 0.0 <= a <= t && t > 0.0
    ensures 0.0 <= a / t <= 1.0
    ensures a > 0.0 ==> a / t > 0.0
  {
    assert (a / t) * t == a;
  }

  /** `popular_sequences` keeps at most 50 lists, most frequent first, each
      scored by its share of all the lists of two or more visits. */
  lemma PopularSequencesProps(visits: seq<Visit>, poi2theme: map<int, string>)
    ensures var ps := Analyze(visits, poi2theme).popularSequences;
      var t := TallyOf(AllSequences(Grouped(visits)), poi2theme);
      && |ps| <= TopSequences
      && (forall i :: 0 <= i < |ps| ==> ps[i].score == ps[i].count as real / |t.patterns| as real)
      && SortedDesc(ps, SequenceCount)
  {
    var g := Grouped(visits);
    var t := TallyOf(AllSequences(g), poi2theme);
    AnalyzeWellDefined(g, poi2theme);
    var c := SequenceCounts(t.patterns);
    var top := Take(Ranked(c), TopSequences);
    TopFacts(c, TopSequences);
    var ps := PopularSequences(top, |t.patterns|);
    forall i, j | 0 <= i < j < |ps| ensures SequenceCount(ps[i]) >= SequenceCount(ps[j]) {
      assert CountKey(top[i]) >= CountKey(top[j]);
    }
  }

  /** Each popular sequence is a user's actual list of two to six POIs, seen
      at least once, with a score in (0, 1]. */
  lemma PopularSequencesObserved(visits: seq<Visit>, poi2theme: map<int, string>)
    ensures var ps := Analyze(visits, poi2theme).popularSequences;
      forall i :: 0 <= i < |ps| ==>
        2 <= |ps[i].sequence| <= MaxPatternLength && ps[i].sequence in AllSequences(Grouped(visits))
        && ps[i].count >= 1 && 0.0 < ps[i].score <= 1.0
  {
    var g := Grouped(visits);
    var t := TallyOf(AllSequences(g), poi2theme);
    AnalyzeWellDefined(g, poi2theme);
    assert Analyze(visits, poi2theme).popularSequences
        == PopularSequences(Take(Ranked(SequenceCounts(t.patterns)), TopSequences), |t.patterns|);
    PopularSequencesSeen(AllSequences(g), poi2theme);
  }

  lemma PopularSequencesSeen(ss: seq<seq<int>>, poi2theme: map<int, string>)
    requires var patterns := TallyOf(ss, poi2theme).patterns;
      Take(Ranked(SequenceCounts(patterns)), TopSequences) != [] ==> |patterns| > 0
    ensures var t := TallyOf(ss, poi2theme);
      var ps := PopularSequences(Take(Ranked(SequenceCounts(t.patterns)), TopSequences), |t.patterns|);
      forall i :: 0 <= i < |ps| ==>
        2 <= |ps[i].sequence| <= MaxPatternLength && ps[i].sequence in ss
        && ps[i].count >= 1 && 0.0 < ps[i].score <= 1.0
  {
    var t := TallyOf(ss, poi2theme);
    var c := SequenceCounts(t.patterns);
    var top := Take(Ranked(c), TopSequences);
    TopFacts(c, TopSequences);
    var ps := PopularSequences(top, |t.patterns|);
    forall i | 0 <= i < |ps|
      ensures 2 <= |ps[i].sequence| <= MaxPatternLength && ps[i].sequence in ss
      ensures ps[i].count >= 1 && 0.0 < ps[i].score <= 1.0
    {
      assert top[i] in top;
      SequenceSeen(ss, poi2theme, top[i]);
      DivAtMostOne(top[i].1 as real, |t.patterns| as real);
    }
  }

  /** A counted sequence is one of the lists, of two to six POIs, counted at
      least once and at most once per list. */
  lemma SequenceSeen(ss: seq<seq<int>>, poi2theme: map<int, string>, x: (seq<int>, nat))
    requires x in SequenceCounts(TallyOf(ss, poi2theme).patterns)
    ensures 2 <= |x.0| <= MaxPatternLength && x.0 in ss
    ensures 1 <= x.1 <= |TallyOf(ss, poi2theme).patterns|
  {
    var t := TallyOf(ss, poi2theme);
    TallyPatterns(ss, poi2theme);
    var c := SequenceCounts(t.patterns);
    SequenceCountsSpec(t.patterns);
    PositiveMember(c, x);
    var j :| 0 <= j < |c| && c[j] == x;
    EntryAtMostTotal(c, j);
    assert x.0 in KeySet(c);
    LongOnlyMember(ss, x.0);
  }
}
