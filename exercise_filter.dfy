/**
 * The exercises page's filter: a category filter, unless the category is
 * "all", followed by a case-insensitive text search over name and
 * description when the query is non-empty.
 */
module ExerciseFilter {
  import opened Text
  import opened Subsequences
  import opened ExerciseCatalogue

  /** The lower-cased name or description contains the lower-cased query. */
  predicate MatchesQuery(e: Exercise, query: string) {
    Includes(Lower(e.name), Lower(query)) || Includes(Lower(e.record.description), Lower(query))
  }

  /** The search pass: the exercises that match `query`, in order. */
  function KeepMatching(s: seq<Exercise>, query: string): (r: seq<Exercise>)
    ensures SubsequenceOf(r, s)
    ensures forall e :: e in r ==> MatchesQuery(e, query)
    ensures forall e :: e in s && MatchesQuery(e, query) ==> e in r
  {
    if s == [] then []
    else if MatchesQuery(s[0], query) then [s[0]] + KeepMatching(s[1..], query)
    else KeepMatching(s[1..], query)
  }

  /** The filter effect of the exercises page. */
  function FilterExercises(exercises: seq<Exercise>, category: string, query: string): (r: seq<Exercise>)
    ensures category == "all" && query == "" ==> r == exercises
    ensures SubsequenceOf(r, exercises)
    ensures category != "all" ==> forall e :: e in r ==> category in e.record.categories
    ensures query != "" ==> forall e :: e in r ==> MatchesQuery(e, query)
    ensures forall e :: (e in exercises
      && (category == "all" || category in e.record.categories)
      && (query == "" || MatchesQuery(e, query))) ==> e in r
  {
    var byCategory := if category == "all" then exercises else FilterByCategory(exercises, category);
    SubsequenceOfSelf(exercises);
    assert SubsequenceOf(byCategory, exercises);
    assert forall e :: e in exercises && (category == "all" || category in e.record.categories) ==> e in byCategory;
    if query != "" then
      var r := KeepMatching(byCategory, query);
      SubsequenceTransitive(r, byCategory, exercises);
      SubsequenceMembers(r, byCategory);
      r
    else byCategory
  }

  lemma {:induction false} KeepMatchingAllMatch(s: seq<Exercise>, query: string)
    requires forall e :: e in s ==> MatchesQuery(e, query)
    ensures KeepMatching(s, query) == s
  {
    if s != [] {
      assert s[0] in s;
      KeepMatchingAllMatch(s[1..], query);
    }
  }

  lemma {:induction false} FilterByCategoryAllListed(s: seq<Exercise>, category: string)
    requires forall e :: e in s ==> category in e.record.categories
    ensures FilterByCategory(s, category) == s
  {
    if s != [] {
      assert s[0] in s;
      FilterByCategoryAllListed(s[1..], category);
    }
  }

  /** Applying the same category and query to the filtered list changes nothing. */
  lemma FilterIsIdempotent(exercises: seq<Exercise>, category: string, query: string)
    ensures var r := FilterExercises(exercises, category, query);
      FilterExercises(r, category, query) == r
  {
    var r := FilterExercises(exercises, category, query);
    if category != "all" {
      FilterByCategoryAllListed(r, category);
    }
    if query != "" {
      KeepMatchingAllMatch(r, query);
    }
  }
}
