/**
 * The home page's destination carousel: the catalog ordered by its
 * `featured` rank, the category and search filter, and the slide index the
 * arrows move three cards at a time.
 */
module Carousel {
  import opened JsValues
  import opened Lists
  import opened Records
  import opened Ordering

  /** `destination.featured || 0`. */
  function Rank(d: Obj): int
  {
    var f := Get(d, Featured);
    if f.VNum? then f.n else 0
  }

  /** The fetched catalog, `sort((a, b) => (b.featured || 0) - (a.featured || 0))`. */
  function ByFeatured(catalog: seq<Obj>): seq<Obj>
  {
    SortDesc(catalog, Rank)
  }

  /**
   * The carousel is ordered by rank, highest first, holds every destination
   * of the catalog as often as the catalog does, and keeps destinations of
   * equal rank in the catalog's order.
   */
  lemma ByFeaturedOrders(catalog: seq<Obj>, rank: int)
    ensures SortedDesc(ByFeatured(catalog), Rank)
    ensures multiset(ByFeatured(catalog)) == multiset(catalog)
    ensures Filter(ByFeatured(catalog), KeyIs(Rank, rank)) == Filter(catalog, KeyIs(Rank, rank))
  {
    SortDescSorts(catalog, Rank);
    SortDescStable(catalog, Rank, rank);
  }

  /** `destination.name.toLowerCase()` cannot throw: every name is a string. */
  predicate NamesAreStrings(ds: seq<Obj>)
  {
    forall i :: 0 <= i < |ds| ==> Get(ds[i], Name).VStr?
  }

  /** The card is shown: the active category, if any, and the search, if any, both match. */
  predicate Matches(d: Obj, active: Value, query: string)
  {
    (Truthy(active) ==> Get(d, Category) == active)
    && (query != "" ==> Get(d, Name).VStr? && ContainsIgnoreCase(Get(d, Name).s, query))
  }

  function Keep(active: Value, query: string): Obj -> bool
  {
    (d: Obj) => Matches(d, active, query)
  }

  /**
   * `filteredDestinations`. With a search, a destination whose name is not
   * a string makes `toLowerCase` throw: `None`.
   */
  function Filtered(ds: seq<Obj>, active: Value, query: string): (r: Option<seq<Obj>>)
    ensures r.None? <==> query != "" && !NamesAreStrings(ds)
    ensures r.Some? ==> forall x :: x in r.value <==> x in ds && Matches(x, active, query)
  {
    if query != "" && !NamesAreStrings(ds) then None
    else
      FilterMembers(ds, Keep(active, query));
      Some(Filter(ds, Keep(active, query)))
  }

  /** The cards shown are in the carousel's order. */
  lemma FilteredInOrder(ds: seq<Obj>, active: Value, query: string)
    requires Filtered(ds, active, query).Some?
    ensures Subsequence(Filtered(ds, active, query).value, ds)
  {
    FilterSubsequence(ds, Keep(active, query));
  }

  /** The index of the last slide of `n` cards shown three at a time: `Math.ceil(n / 3) - 1`. */
  function LastSlide(n: nat): (r: int)
    ensures n == 0 ==> r == -1
    ensures n > 0 ==> r >= 0 && 3 * r < n <= 3 * (r + 1)
  {
    (n + 2) / 3 - 1
  }

  function Max(a: int, b: int): int { if a >= b then a else b }
  function Min(a: int, b: int): int { if a <= b then a else b }

  /** The carousel for one catalog, with the filter props it was last given. */
  class Slides {
    const destinations: seq<Obj>
    var activeCategory: Value
    var searchQuery: string
    var currentSlide: int

    /** The slide is one of the filtered list's, or 0 when there is none. */
    predicate Valid()
      reads this
    {
      var f := Filtered(destinations, activeCategory, searchQuery);
      0 <= currentSlide && (f.Some? ==> currentSlide <= Max(0, LastSlide(|f.value|)))
    }

    constructor(catalog: seq<Obj>, active: Value, query: string)
      ensures Valid()
      ensures destinations == ByFeatured(catalog)
      ensures activeCategory == active && searchQuery == query && currentSlide == 0
    {
      destinations := ByFeatured(catalog);
      activeCategory := active;
      searchQuery := query;
      currentSlide := 0;
    }

    /** The left arrow, shown when there are cards: one slide back, never below 0. */
    method Previous()
      requires Valid()
      requires Filtered(destinations, activeCategory, searchQuery).Some?
      requires Filtered(destinations, activeCategory, searchQuery).value != []
      modifies this
      ensures Valid()
      ensures currentSlide == Max(old(currentSlide) - 1, 0)
      ensures activeCategory == old(activeCategory) && searchQuery == old(searchQuery)
    {
      currentSlide := Max(currentSlide - 1, 0);
    }

    /** The right arrow, shown when there are cards: one slide on, never past the last. */
    method Next()
      requires Valid()
      requires Filtered(destinations, activeCategory, searchQuery).Some?
      requires Filtered(destinations, activeCategory, searchQuery).value != []
      modifies this
      ensures Valid()
      ensures activeCategory == old(activeCategory) && searchQuery == old(searchQuery)
      ensures currentSlide == Min(old(currentSlide) + 1, LastSlide(|Filtered(destinations, activeCategory, searchQuery).value|))
      ensures 0 <= currentSlide <= LastSlide(|Filtered(destinations, activeCategory, searchQuery).value|)
    {
      var n := |Filtered(destinations, activeCategory, searchQuery).value|;
      currentSlide := Min(currentSlide + 1, LastSlide(n));
    }

    /** New filter props: when the category or the search changed, back to the first slide. */
    method SetFilters(active: Value, query: string)
      requires Valid()
      modifies this
      ensures Valid()
      ensures activeCategory == active && searchQuery == query
      ensures active != old(activeCategory) || query != old(searchQuery) ==> currentSlide == 0
      ensures active == old(activeCategory) && query == old(searchQuery) ==> currentSlide == old(currentSlide)
    {
      if active != activeCategory || query != searchQuery {
        currentSlide := 0;
      }
      activeCategory := active;
      searchQuery := query;
    }
  }
}
