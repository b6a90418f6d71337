/** The categoriser of `cluster_pois.py`: OpenStreetMap tags are mapped to
    one of the project's high-level categories by the first matching entry
    of `CATEGORY_MAP`, and a POI's popularity prior is whether it has a name.
    Reading the GeoJSON file, the centroids, KMeans and writing the CSV are
    not part of this model. */
module ClusterPois {
  import opened Wrappers

  /** An entry of `CATEGORY_MAP`: the tag key, the tag value (`"*"` matches
      any value) and the category. */
  datatype Rule = Rule(key: string, value: string, category: string)

  /** `CATEGORY_MAP`, in insertion order. */
  const CategoryMap: seq<Rule> := [
    Rule("tourism", "attraction", "heritage"),
    Rule("tourism", "viewpoint", "nature"),
    Rule("tourism", "museum", "heritage"),
    Rule("tourism", "theme_park", "adventure"),
    Rule("historic", "*", "heritage"),
    Rule("natural", "beach", "nature"),
    Rule("natural", "peak", "nature"),
    Rule("natural", "volcano", "nature"),
    Rule("natural", "waterfall", "nature"),
    Rule("leisure", "park", "nature"),
    Rule("amenity", "restaurant", "gastronomy"),
    Rule("amenity", "cafe", "gastronomy"),
    Rule("amenity", "fast_food", "gastronomy"),
    Rule("amenity", "bar", "gastronomy")
  ]

  /** The categories a POI can end up in. */
  const Categories: set<string> := {"heritage", "nature", "adventure", "gastronomy", "other"}

  /** `k in tags and (v == "*" or tags[k] == v)`. */
  predicate Matches(r: Rule, tags: map<string, string>) {
    r.key in tags && (r.value == "*" || tags[r.key] == r.value)
  }

  /** The index of the first rule that matches, if any. */
  function FirstMatch(rules: seq<Rule>, tags: map<string, string>): (r: Option<nat>)
    ensures r.Some? ==> r.value < |rules| && Matches(rules[r.value], tags)
                        && forall j :: 0 <= j < r.value ==> !Matches(rules[j], tags)
    ensures r.None? <==> forall j :: 0 <= j < |rules| ==> !Matches(rules[j], tags)
  {
    if rules == [] then None
    else if Matches(rules[0], tags) then Some(0)
    else
      match FirstMatch(rules[1..], tags)
      case None => None
      case Some(i) => Some(i + 1)
  }

  /** The first matching rule's category, or "other". */
  function Assign(rules: seq<Rule>, tags: map<string, string>): string {
    match FirstMatch(rules, tags)
    case None => "other"
    case Some(i) => rules[i].category
  }

  /** `assign_category`. */
  function AssignCategory(tags: map<string, string>): string {
    Assign(CategoryMap, tags)
  }

  /** A matching rule with no match before it is the one that decides. */
  lemma FirstMatchAt(rules: seq<Rule>, tags: map<string, string>, i: nat)
    requires i < |rules| && Matches(rules[i], tags)
    requires forall j :: 0 <= j < i ==> !Matches(rules[j], tags)
    ensures FirstMatch(rules, tags) == Some(i)
  {
  }

  /** With no rule naming "other", the result is "other" exactly when no rule
      matches, and otherwise the category of some rule. */
  lemma AssignSpec(rules: seq<Rule>, tags: map<string, string>)
    requires forall j :: 0 <= j < |rules| ==> rules[j].category != "other"
    ensures Assign(rules, tags) == "other" <==> forall j :: 0 <= j < |rules| ==> !Matches(rules[j], tags)
    ensures Assign(rules, tags) == "other" || exists j :: 0 <= j < |rules| && Assign(rules, tags) == rules[j].category
  {
  }

  /** `assign_category` gives "other" exactly when no entry of
      `CATEGORY_MAP` matches, and always one of the five categories. */
  lemma AssignCategorySpec(tags: map<string, string>)
    ensures AssignCategory(tags) == "other" <==> forall j :: 0 <= j < |CategoryMap| ==> !Matches(CategoryMap[j], tags)
    ensures AssignCategory(tags) in Categories
  {
    assert forall j :: 0 <= j < |CategoryMap| ==> CategoryMap[j].category in Categories - {"other"};
    AssignSpec(CategoryMap, tags);
  }

  /** Any `historic` key gives "heritage" unless one of the four `tourism`
      entries matched first. */
  lemma HistoricIsHeritage(tags: map<string, string>)
    requires "historic" in tags
    requires forall j :: 0 <= j < 4 ==> !Matches(CategoryMap[j], tags)
    ensures AssignCategory(tags) == "heritage"
  {
    FirstMatchAt(CategoryMap, tags, 4);
  }

  /** A historic viewpoint counts as nature: the `tourism` entry comes first. */
  lemma HistoricViewpoint()
    ensures AssignCategory(map["tourism" := "viewpoint", "historic" := "yes"]) == "nature"
  {
    var tags := map["tourism" := "viewpoint", "historic" := "yes"];
    assert !Matches(CategoryMap[0], tags);
    FirstMatchAt(CategoryMap, tags, 1);
  }

  // ---------------------------------------------------------------------
  // Names and the popularity prior
  // ---------------------------------------------------------------------

  /** A GeoJSON feature's `properties`: its own keys and, when the exporter
      nested them, a `tags` dictionary. */
  datatype Properties = Properties(own: map<string, string>, tags: Option<map<string, string>>)

  /** `props.get("tags") or props`: an empty nested dictionary counts as
      absent. */
  function Tags(props: Properties): map<string, string> {
    if props.tags.Some? && props.tags.value != map[] then props.tags.value else props.own
  }

  /** `d.get(k) or ""` for a string-valued dictionary. */
  function NonEmptyOr(d: map<string, string>, k: string, default: string): string {
    if k in d && d[k] != "" then d[k] else default
  }

  /** `tags.get("name") or props.get("name") or ""`. */
  function Name(props: Properties): string {
    NonEmptyOr(Tags(props), "name", NonEmptyOr(props.own, "name", ""))
  }

  /** `(df["name"].str.len() > 0).astype(int)`. */
  function PopScore(name: string): nat {
    if |name| > 0 then 1 else 0
  }

  /** The popularity prior is 1 exactly for named places: the tags or the
      properties carry a non-empty name; otherwise it is 0. */
  lemma PopScoreNamed(props: Properties)
    ensures PopScore(Name(props)) <= 1
    ensures PopScore(Name(props)) == 1 <==>
      ("name" in Tags(props) && Tags(props)["name"] != "") || ("name" in props.own && props.own["name"] != "")
  {
  }
}
