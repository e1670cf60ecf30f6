/** The course catalogue page (src/pages/dashboard/Courses.tsx): the catalogue
    narrowed by a search box, a category, a level and a price filter. */
module Courses {
  import opened Types
  import opened Seqs
  import opened Text

  /** The four filter controls; each is a free string in the source. */
  datatype FilterState = FilterState(search: string, category: string, level: string, price: string)

  /** The controls as the page first renders them. */
  const InitialFilters := FilterState("", "All Categories", "all", "all")

  /** The title or the description contains the query, ignoring case; the empty
      query matches every course, and a query longer than both matches none. */
  predicate MatchesSearch(c: Course, query: string)
    ensures query == "" ==> MatchesSearch(c, query)
    ensures MatchesSearch(c, query) ==> |query| <= |c.title| || |query| <= |c.description|
  {
    Contains(Lower(c.title), Lower(query)) || Contains(Lower(c.description), Lower(query))
  }

  /** "All Categories" matches every course, any other value exactly the courses of
      that category. */
  predicate MatchesCategory(c: Course, category: string)
    ensures category == "All Categories" ==> MatchesCategory(c, category)
    ensures category != "All Categories" ==> (MatchesCategory(c, category) <==> c.category == category)
  {
    category == "All Categories" || c.category == category
  }

  /** "all" matches every course; any other value matches the courses whose level it
      names, so a value that names no level matches none. */
  predicate MatchesLevel(c: Course, level: string)
    ensures level == "all" ==> MatchesLevel(c, level)
    ensures level != "all" ==> (MatchesLevel(c, level) <==> ParseLevel(level) == Some(c.level))
  {
    LevelNameRoundTrip(c.level);
    level == "all" || LevelName(c.level) == level
  }

  /** "all" keeps every course, "free" exactly those with price 0, "paid" exactly those
      with a positive price, and any other value none. */
  predicate MatchesPrice(c: Course, price: string)
    ensures price == "all" ==> MatchesPrice(c, price)
    ensures price == "free" ==> (MatchesPrice(c, price) <==> c.price == 0)
    ensures price == "paid" ==> (MatchesPrice(c, price) <==> c.price > 0)
    ensures price !in {"all", "free", "paid"} ==> !MatchesPrice(c, price)
  {
    price == "all" || (price == "free" && c.price == 0) || (price == "paid" && c.price > 0)
  }

  /** A course is kept when all four matchers hold. */
  predicate Matches(c: Course, f: FilterState)
  {
    MatchesSearch(c, f.search) && MatchesCategory(c, f.category)
      && MatchesLevel(c, f.level) && MatchesPrice(c, f.price)
  }

  function MatchesFor(f: FilterState): Course -> bool
  {
    c => Matches(c, f)
  }

  /** `filteredCourses`: the catalogue courses every matcher accepts, in catalogue
      order. */
  function FilteredCourses(catalogue: seq<Course>, f: FilterState): (r: seq<Course>)
    ensures SubsequenceOf(r, catalogue)
    ensures forall i :: 0 <= i < |r| ==> Matches(r[i], f)
    ensures forall i :: 0 <= i < |catalogue| ==> (catalogue[i] in r <==> Matches(catalogue[i], f))
    ensures forall c {:trigger multiset(r)[c]} :: multiset(r)[c] == if Matches(c, f) then multiset(catalogue)[c] else 0
  {
    FilterIsSubsequence(catalogue, MatchesFor(f));
    Filter(catalogue, MatchesFor(f))
  }

  /** The line above the results: the count and the right noun. */
  function ResultLabel(catalogue: seq<Course>, f: FilterState): (r: (nat, string))
    ensures r.0 == |FilteredCourses(catalogue, f)|
    ensures r.1 == "course" <==> |FilteredCourses(catalogue, f)| == 1
  {
    var n := |FilteredCourses(catalogue, f)|;
    (n, CourseNoun(n))
  }

  /** With the controls as first rendered, the whole catalogue is shown. */
  lemma InitialFiltersKeepAll(catalogue: seq<Course>)
    ensures FilteredCourses(catalogue, InitialFilters) == catalogue
  {
    FilterKeepsAll(catalogue, MatchesFor(InitialFilters));
  }

  /** An unknown price filter value empties the result. */
  lemma UnknownPriceFilterKeepsNothing(catalogue: seq<Course>, f: FilterState)
    requires f.price !in {"all", "free", "paid"}
    ensures FilteredCourses(catalogue, f) == []
  {
    FilterDropsAll(catalogue, MatchesFor(f));
  }

  /** The "free" and the "paid" results share no course, and together they hold every
      course the other three matchers accept. */
  lemma FreeAndPaidPartition(catalogue: seq<Course>, f: FilterState)
    ensures var free := FilteredCourses(catalogue, f.(price := "free"));
      var paid := FilteredCourses(catalogue, f.(price := "paid"));
      && (forall c :: c in free ==> c !in paid)
      && (forall i :: 0 <= i < |catalogue| && Matches(catalogue[i], f.(price := "all")) ==>
            catalogue[i] in free || catalogue[i] in paid)
  {
    var free := FilteredCourses(catalogue, f.(price := "free"));
    var paid := FilteredCourses(catalogue, f.(price := "paid"));
    forall c | c in free ensures c !in paid {
      var i :| 0 <= i < |free| && free[i] == c;
      assert c.price == 0;
    }
  }

  /** The search ignores the case of the query. */
  lemma SearchIgnoresQueryCase(catalogue: seq<Course>, f: FilterState, query: string)
    requires SameUpToCase(f.search, query)
    ensures FilteredCourses(catalogue, f) == FilteredCourses(catalogue, f.(search := query))
  {
    SameUpToCaseIffLowerEqual(f.search, query);
    FilterCongruent(catalogue, MatchesFor(f), MatchesFor(f.(search := query)));
  }

  /** Applying the same filters to the result changes nothing. */
  lemma FilterTwiceIsFilterOnce(catalogue: seq<Course>, f: FilterState)
    ensures FilteredCourses(FilteredCourses(catalogue, f), f) == FilteredCourses(catalogue, f)
  {
    FilterIdempotent(catalogue, MatchesFor(f));
  }
}
