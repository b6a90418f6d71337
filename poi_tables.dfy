/** The POI table both recommenders load, and what they derive from it alone:
    `get_poi_info` and `compute_basic_structures` (the theme groups and the
    distance matrix).  The two recommender files carry identical copies of
    these methods. */
module PoiTables {
  import opened Wrappers
  import opened Dicts

  /** A row of the POI table (`poiID`, `poiName`, `lat`, `long`, `theme`). */
  datatype Poi = Poi(id: int, name: string, lat: real, long: real, theme: string)

  /** A prediction of the BERT model for a route, as both recommenders cache
      it and read it back. */
  datatype Prediction = Prediction(poiId: int, name: string, theme: string, score: real)

  /** `get_poi_info`: the first row whose id matches, or `None`. */
  function PoiInfo(pois: seq<Poi>, id: int): (r: Option<Poi>)
    ensures r.None? <==> forall i :: 0 <= i < |pois| ==> pois[i].id != id
  {
    if pois == [] then None
    else if pois[0].id == id then Some(pois[0])
    else
      assert forall i :: 1 <= i < |pois| ==> pois[i] == pois[1..][i - 1];
      PoiInfo(pois[1..], id)
  }

  /** The row `get_poi_info` returns is the first with that id. */
  lemma {:induction false} PoiInfoFirst(pois: seq<Poi>, id: int)
    requires PoiInfo(pois, id).Some?
    ensures exists i :: (0 <= i < |pois| && pois[i] == PoiInfo(pois, id).value && pois[i].id == id
                         && forall j :: 0 <= j < i ==> pois[j].id != id)
  {
    if pois[0].id != id {
      PoiInfoFirst(pois[1..], id);
      var i :| 0 <= i < |pois[1..]| && pois[1..][i] == PoiInfo(pois, id).value && pois[1..][i].id == id
        && forall j :: 0 <= j < i ==> pois[1..][j].id != id;
      assert pois[i + 1] == PoiInfo(pois, id).value;
      assert forall j :: 1 <= j < i + 1 ==> pois[j] == pois[1..][j - 1];
    } else {
      assert pois[0] == PoiInfo(pois, id).value;
    }
  }

  // ---------------------------------------------------------------------
  // Theme groups
  // ---------------------------------------------------------------------

  /** `Series.unique()`: each value once, in order of first appearance. */
  function UniqueInOrder(xs: seq<string>): (r: seq<string>)
    ensures forall t :: t in r <==> t in xs
    ensures forall i, j :: 0 <= i < j < |r| ==> r[i] != r[j]
  {
    if xs == [] then []
    else
      var prev := UniqueInOrder(xs[..|xs| - 1]);
      assert forall t :: t in xs <==> t in xs[..|xs| - 1] || t == xs[|xs| - 1];
      if xs[|xs| - 1] in prev then prev else prev + [xs[|xs| - 1]]
  }

  function Themes(pois: seq<Poi>): (r: seq<string>)
    ensures |r| == |pois| && forall i :: 0 <= i < |pois| ==> r[i] == pois[i].theme
  {
    seq(|pois|, i requires 0 <= i < |pois| => pois[i].theme)
  }

  /** `pois[pois['theme'] == theme]['poiID'].tolist()`. */
  function IdsWithTheme(pois: seq<Poi>, theme: string): (r: seq<int>)
    ensures forall id :: id in r <==> exists i :: 0 <= i < |pois| && pois[i].theme == theme && pois[i].id == id
  {
    if pois == [] then []
    else
      var n := |pois| - 1;
      var prev := IdsWithTheme(pois[..n], theme);
      assert forall i :: 0 <= i < n ==> pois[..n][i] == pois[i];
      if pois[n].theme == theme then prev + [pois[n].id] else prev
  }

  /** `groups` holds, for each theme in order of first appearance, the ids
      of its POIs in table order. */
  ghost predicate ThemeGroupsOf(pois: seq<Poi>, groups: seq<(string, seq<int>)>) {
    var themes := UniqueInOrder(Themes(pois));
    |groups| == |themes|
    && forall i :: 0 <= i < |groups| ==> groups[i] == (themes[i], IdsWithTheme(pois, themes[i]))
  }

  /** The theme-group half of `compute_basic_structures`. */
  method ComputeThemeGroups(pois: seq<Poi>) returns (groups: seq<(string, seq<int>)>)
    ensures ThemeGroupsOf(pois, groups)
  {
    var themes := UniqueInOrder(Themes(pois));
    groups := [];
    for i := 0 to |themes|
      invariant |groups| == i
      invariant forall k :: 0 <= k < i ==> groups[k] == (themes[k], IdsWithTheme(pois, themes[k]))
    {
      var ids: seq<int> := [];
      for j := 0 to |pois|
        invariant ids == IdsWithTheme(pois[..j], themes[i])
      {
        assert pois[..j + 1][..j] == pois[..j];
        if pois[j].theme == themes[i] {
          ids := ids + [pois[j].id];
        }
      }
      assert pois[..|pois|] == pois;
      assert themes[i] !in KeySet(groups);
      SetNew(groups, themes[i], ids);
      groups := Set(groups, themes[i], ids);
    }
  }

  /** The theme groups partition the table: each POI's id is in its own
      theme's group, each group holds only ids of POIs with that theme, and
      there is exactly one group per distinct theme. */
  lemma ThemeGroupsPartition(pois: seq<Poi>, groups: seq<(string, seq<int>)>)
    requires ThemeGroupsOf(pois, groups)
    ensures DistinctKeys(groups)
    ensures forall i :: 0 <= i < |pois| ==>
      (Lookup(groups, pois[i].theme).Some? && pois[i].id in Lookup(groups, pois[i].theme).value)
    ensures forall k, id :: 0 <= k < |groups| && id in groups[k].1 ==>
      exists i :: 0 <= i < |pois| && pois[i].id == id && pois[i].theme == groups[k].0
  {
    var themes := UniqueInOrder(Themes(pois));
    forall i | 0 <= i < |pois|
      ensures Lookup(groups, pois[i].theme).Some? && pois[i].id in Lookup(groups, pois[i].theme).value
    {
      assert Themes(pois)[i] == pois[i].theme;
      assert pois[i].theme in Themes(pois);
      var k :| 0 <= k < |themes| && themes[k] == pois[i].theme;
      LookupDistinct(groups, k);
    }
  }

  // ---------------------------------------------------------------------
  // Distance matrix
  // ---------------------------------------------------------------------

  function Abs(x: real): real { if x < 0.0 then -x else x }

  /** `abs(Δlat) + abs(Δlong)`. */
  function Dist(p: Poi, q: Poi): (d: real)
    ensures d >= 0.0 && d == Abs(q.lat - p.lat) + Abs(q.long - p.long)
  {
    Abs(p.lat - q.lat) + Abs(p.long - q.long)
  }

  /** The last row with id `id` (later rows overwrite earlier ones in the matrix). */
  function LastWithId(pois: seq<Poi>, id: int): (r: Option<Poi>)
    ensures r.Some? <==> exists i :: 0 <= i < |pois| && pois[i].id == id
    ensures r.Some? ==> r.value.id == id
  {
    if pois == [] then None
    else
      var n := |pois| - 1;
      assert forall i :: 0 <= i < n ==> pois[..n][i] == pois[i];
      if pois[n].id == id then Some(pois[n]) else LastWithId(pois[..n], id)
  }

  /** The inner loop for the row of `p`, over the rows `qs`. */
  function Row(m: map<(int, int), real>, p: Poi, qs: seq<Poi>): map<(int, int), real> {
    if qs == [] then m
    else
      var n := |qs| - 1;
      var prev := Row(m, p, qs[..n]);
      if p.id != qs[n].id then prev[(p.id, qs[n].id) := Dist(p, qs[n])] else prev
  }

  /** Both loops, the outer one over the rows `ps`. */
  function Matrix(ps: seq<Poi>, qs: seq<Poi>): map<(int, int), real> {
    if ps == [] then map[]
    else
      var n := |ps| - 1;
      Row(Matrix(ps[..n], qs), ps[n], qs)
  }

  /** The distance half of `compute_basic_structures`. */
  method ComputeDistanceMatrix(pois: seq<Poi>) returns (matrix: map<(int, int), real>)
    ensures matrix == Matrix(pois, pois)
    ensures forall a, b :: (a, b) in matrix <==> a != b && LastWithId(pois, a).Some? && LastWithId(pois, b).Some?
    ensures forall a, b :: (a, b) in matrix ==>
      matrix[(a, b)] == Dist(LastWithId(pois, a).value, LastWithId(pois, b).value)
  {
    matrix := map[];
    for i := 0 to |pois|
      invariant matrix == Matrix(pois[..i], pois)
    {
      assert pois[..i + 1][..i] == pois[..i];
      for j := 0 to |pois|
        invariant matrix == Row(Matrix(pois[..i], pois), pois[i], pois[..j])
      {
        assert pois[..j + 1][..j] == pois[..j];
        if pois[i].id != pois[j].id {
          matrix := matrix[(pois[i].id, pois[j].id) := Dist(pois[i], pois[j])];
        }
      }
      assert pois[..|pois|] == pois;
    }
    assert pois[..|pois|] == pois;
    forall a, b
      ensures (a, b) in matrix <==> a != b && LastWithId(pois, a).Some? && LastWithId(pois, b).Some?
      ensures (a, b) in matrix ==> matrix[(a, b)] == Dist(LastWithId(pois, a).value, LastWithId(pois, b).value)
    {
      MatrixSpec(pois, pois, a, b);
    }
  }

  lemma {:induction false} RowSpec(m: map<(int, int), real>, p: Poi, qs: seq<Poi>, a: int, b: int)
    ensures (a, b) in Row(m, p, qs) <==> (a, b) in m || (a == p.id && a != b && LastWithId(qs, b).Some?)
    ensures (a, b) in Row(m, p, qs) ==>
      Row(m, p, qs)[(a, b)] ==
        if a == p.id && a != b && LastWithId(qs, b).Some? then Dist(p, LastWithId(qs, b).value) else m[(a, b)]
  {
    if qs != [] {
      RowSpec(m, p, qs[..|qs| - 1], a, b);
    }
  }

  /** The matrix has an entry exactly for each ordered pair of distinct ids
      in the table, holding the distance between the last rows with those ids. */
  lemma {:induction false} MatrixSpec(ps: seq<Poi>, qs: seq<Poi>, a: int, b: int)
    ensures (a, b) in Matrix(ps, qs) <==> a != b && LastWithId(ps, a).Some? && LastWithId(qs, b).Some?
    ensures (a, b) in Matrix(ps, qs) ==>
      Matrix(ps, qs)[(a, b)] == Dist(LastWithId(ps, a).value, LastWithId(qs, b).value)
  {
    if ps != [] {
      var n := |ps| - 1;
      MatrixSpec(ps[..n], qs, a, b);
      RowSpec(Matrix(ps[..n], qs), ps[n], qs, a, b);
    }
  }

  /** The distance matrix is symmetric and its values are never negative. */
  lemma MatrixSymmetric(pois: seq<Poi>, a: int, b: int)
    requires (a, b) in Matrix(pois, pois)
    ensures (b, a) in Matrix(pois, pois)
    ensures Matrix(pois, pois)[(a, b)] == Matrix(pois, pois)[(b, a)] >= 0.0
  {
    MatrixSpec(pois, pois, a, b);
    MatrixSpec(pois, pois, b, a);
  }
}
