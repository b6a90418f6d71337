/** `filter_by_tags` of `modules/tag_filter.py`: the rows of a POI table
    whose `category` is one of the preferred categories, as a new table.
    Tables are values here, so the input table is never modified. */
module TagFilter {

  /** `df[df['category'].isin(preferred_categories)].copy()`, over rows of
      any shape given how to read a row's category. */
  function FilterByTags<R>(df: seq<R>, category: R -> string, preferred: seq<string>): seq<R> {
    if df == [] then []
    else
      var prev := FilterByTags(df[..|df| - 1], category, preferred);
      if category(df[|df| - 1]) in preferred then prev + [df[|df| - 1]] else prev
  }

  /** A row is in the result exactly when it is in the table and its
      category is preferred; the result is never longer than the table. */
  lemma {:induction false} FilterMembers<R>(df: seq<R>, category: R -> string, preferred: seq<string>)
    ensures |FilterByTags(df, category, preferred)| <= |df|
    ensures forall r :: r in FilterByTags(df, category, preferred) <==> r in df && category(r) in preferred
  {
    if df != [] {
      var m := |df| - 1;
      FilterMembers(df[..m], category, preferred);
      assert df == df[..m] + [df[m]];
    }
  }

  /** Filtering two tables one after the other is filtering each: the
      relative order of the rows is kept. */
  lemma {:induction false} FilterAppend<R>(a: seq<R>, b: seq<R>, category: R -> string, preferred: seq<string>)
    ensures FilterByTags(a + b, category, preferred) == FilterByTags(a, category, preferred) + FilterByTags(b, category, preferred)
  {
    if b == [] {
      assert a + b == a;
    } else {
      var m := |b| - 1;
      assert (a + b)[..|a + b| - 1] == a + b[..m];
      assert (a + b)[|a + b| - 1] == b[m];
      FilterAppend(a, b[..m], category, preferred);
    }
  }

  /** Each preferred row is kept as many times as it occurs, and no other row
      is kept. */
  lemma {:induction false} FilterCounts<R>(df: seq<R>, category: R -> string, preferred: seq<string>)
    ensures forall r ::
              multiset(FilterByTags(df, category, preferred))[r] == if category(r) in preferred then multiset(df)[r] else 0
  {
    if df != [] {
      var m := |df| - 1;
      FilterCounts(df[..m], category, preferred);
      assert df == df[..m] + [df[m]];
    }
  }

  /** Filtering twice by the same categories changes nothing more. */
  lemma {:induction false} FilterIdempotent<R>(df: seq<R>, category: R -> string, preferred: seq<string>)
    ensures FilterByTags(FilterByTags(df, category, preferred), category, preferred) == FilterByTags(df, category, preferred)
  {
    if df != [] {
      var m := |df| - 1;
      var prev := FilterByTags(df[..m], category, preferred);
      FilterIdempotent(df[..m], category, preferred);
      if category(df[m]) in preferred {
        FilterAppend(prev, [df[m]], category, preferred);
        assert FilterByTags([df[m]], category, preferred) == [df[m]] by {
          assert [df[m]][..0] == [];
        }
      }
    }
  }
}
