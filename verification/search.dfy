/**
 * The search/category filter shared, line for line, by both front-ends'
 * applyFilters: a facility passes when the lowercased search term occurs in its
 * lowercased name, description or address (or the term is empty), AND the
 * selected category is empty or equals the facility's category exactly.
 */
module Search {
  import opened Wrappers
  import opened Text
  import opened Sequences
  import opened Facilities

  /** What applyFilters reads from the page: the lowercased search term and the selected category. */
  datatype Criteria = Criteria(term: string, category: string)

  /** The criteria with nothing typed and nothing selected. */
  const NoCriteria := Criteria("", "")

  /**
   * `input?.value.toLowerCase() || ''` and `select?.value || ''`; a missing
   * element (`None`) reads as the empty string.
   */
  function ReadCriteria(searchInput: Option<string>, categoryInput: Option<string>): (c: Criteria)
    ensures c.term == "" <==> searchInput.None? || searchInput.value == ""
    ensures searchInput.Some? ==> c.term == Lower(searchInput.value)
    ensures c.category == "" <==> categoryInput.None? || categoryInput.value == ""
    ensures categoryInput.Some? ==> c.category == categoryInput.value
  {
    var term := if searchInput.Some? then Lower(searchInput.value) else "";
    LowerEmpty(if searchInput.Some? then searchInput.value else "");
    Criteria(term, categoryInput.GetOr(""))
  }

  /** `field && field.toLowerCase().includes(term)` for an optional text field. */
  predicate FieldIncludes(field: Option<string>, term: string) {
    field.Some? && field.value != "" && Includes(Lower(field.value), term)
  }

  predicate MatchesSearch(f: Facility, term: string) {
    term == "" || Includes(Lower(f.name), term) || FieldIncludes(f.description, term) || FieldIncludes(f.address, term)
  }

  predicate MatchesCategory(f: Facility, category: string) {
    category == "" || f.category == category
  }

  predicate Passes(f: Facility, c: Criteria) {
    MatchesSearch(f, c.term) && MatchesCategory(f, c.category)
  }

  /** The filter callback as a function value, so that every use names the same predicate. */
  function Pred(c: Criteria): Facility -> bool {
    (f: Facility) => Passes(f, c)
  }

  /** `allFacilities.filter(...)` in applyFilters. */
  function Filter(all: seq<Facility>, c: Criteria): seq<Facility> {
    Keep(all, Pred(c))
  }

  /** The texts the search looks at: the name, and the description and address when they are non-empty. */
  function SearchedTexts(f: Facility): seq<string> {
    [f.name]
    + (if f.description.Some? && f.description.value != "" then [f.description.value] else [])
    + (if f.address.Some? && f.address.value != "" then [f.address.value] else [])
  }

  /**
   * A facility passes iff (the term is empty or occurs in the lowercase form of
   * one of its searched texts) and (no category is selected or it is the
   * facility's category).
   */
  lemma PassesIff(f: Facility, c: Criteria)
    ensures Passes(f, c) <==>
      (c.term == "" || exists s :: s in SearchedTexts(f) && Occurs(Lower(s), c.term))
      && (c.category == "" || c.category == f.category)
  {
    IncludesIff(Lower(f.name), c.term);
    if f.description.Some? {
      IncludesIff(Lower(f.description.value), c.term);
    }
    if f.address.Some? {
      IncludesIff(Lower(f.address.value), c.term);
    }
    var texts := SearchedTexts(f);
    assert f.name in texts;
    assert f.description.Some? && f.description.value != "" ==> f.description.value in texts;
    assert f.address.Some? && f.address.value != "" ==> f.address.value in texts;
  }

  /**
   * The filtered list is a subsequence of the full list, holds only passing
   * facilities, and holds every passing facility as often as the full list does.
   */
  lemma FilterSpec(all: seq<Facility>, c: Criteria)
    ensures IsSubsequence(Filter(all, c), all)
    ensures forall i :: 0 <= i < |Filter(all, c)| ==> Passes(Filter(all, c)[i], c)
    ensures forall f :: multiset(Filter(all, c))[f] == if Passes(f, c) then multiset(all)[f] else 0
  {
    KeepIsSubsequence(all, Pred(c));
    forall f ensures multiset(Filter(all, c))[f] == if Passes(f, c) then multiset(all)[f] else 0 {
      KeepCount(all, Pred(c), f);
    }
  }

  /** A facility is shown exactly when it is in the full list and passes. */
  lemma FilterMember(all: seq<Facility>, c: Criteria, f: Facility)
    ensures f in Filter(all, c) <==> f in all && Passes(f, c)
  {
    KeepMember(all, Pred(c), f);
  }

  /** Those three properties determine the filtered list: any list that has them is it. */
  lemma FilterCharacterized(all: seq<Facility>, c: Criteria, r: seq<Facility>)
    requires IsSubsequence(r, all)
    requires forall i :: 0 <= i < |r| ==> Passes(r[i], c)
    requires forall f :: Passes(f, c) ==> multiset(r)[f] == multiset(all)[f]
    ensures r == Filter(all, c)
  {
    KeepUnique(all, Pred(c), r);
  }

  /** Filtering the filtered list again with the same criteria changes nothing. */
  lemma FilterIdempotent(all: seq<Facility>, c: Criteria)
    ensures Filter(Filter(all, c), c) == Filter(all, c)
  {
    KeepIdempotent(all, Pred(c));
  }

  /** With nothing typed and nothing selected every facility is kept. */
  lemma NoCriteriaKeepsAll(all: seq<Facility>)
    ensures Filter(all, NoCriteria) == all
  {
    KeepAllPass(all, Pred(NoCriteria));
  }

  /** A selected category that no facility has leaves nothing to show. */
  lemma UnknownCategoryShowsNothing(all: seq<Facility>, c: Criteria)
    requires c.category != ""
    requires forall i :: 0 <= i < |all| ==> all[i].category != c.category
    ensures Filter(all, c) == []
  {
    if Filter(all, c) != [] {
      var f := Filter(all, c)[0];
      FilterMember(all, c, f);
      assert false;
    }
  }
}
