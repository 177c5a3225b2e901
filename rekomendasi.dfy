/**
 * The recommendations page: ratings gathered per destination from the
 * reviews, the search and category filter over the catalog, the pages of
 * fifteen destinations with their numbered window, and the split of a
 * rating into full, half and empty stars.
 */
module Rekomendasi {
  import opened JsValues
  import opened Lists
  import opened Records

  // ---------------------------------------------------------------------------
  // Ratings per destination

  /** A review as the page reads it; `rating` is `parseFloat(rating)`, `None` where that is `NaN`. */
  datatype Review = Review(destinationId: Value, rating: Option<real>)

  /** `parseFloat(rating) || 0`. */
  function RatingValue(r: Review): real
  {
    if r.rating.Some? then r.rating.value else 0.0
  }

  /** The entry of `reviewsMap` for one destination: the sum of its ratings and how many there are. */
  datatype Agg = Agg(total: real, count: nat)

  /** `reviewsMap` after the reviews, in order; keys are the ids as property names. */
  function Aggregate(reviews: seq<Review>): map<string, Agg>
    decreases |reviews|
  {
    if reviews == [] then map[]
    else
      var m := Aggregate(reviews[..|reviews| - 1]);
      var r := reviews[|reviews| - 1];
      var k := ValueString(r.destinationId);
      var a := if k in m then m[k] else Agg(0.0, 0);
      m[k := Agg(a.total + RatingValue(r), a.count + 1)]
  }

  /** The number of reviews of the destination keyed `k`. */
  function CountFor(reviews: seq<Review>, k: string): nat
    decreases |reviews|
  {
    if reviews == [] then 0
    else CountFor(reviews[..|reviews| - 1], k) + if ValueString(reviews[|reviews| - 1].destinationId) == k then 1 else 0
  }

  /** The sum of the parsed ratings of the destination keyed `k`. */
  function TotalFor(reviews: seq<Review>, k: string): real
    decreases |reviews|
  {
    if reviews == [] then 0.0
    else TotalFor(reviews[..|reviews| - 1], k)
         + if ValueString(reviews[|reviews| - 1].destinationId) == k then RatingValue(reviews[|reviews| - 1]) else 0.0
  }

  /**
   * A destination has an entry exactly when it has a review, and its entry
   * holds the number of its reviews and the sum of their ratings.
   */
  lemma {:induction false} AggregateCounts(reviews: seq<Review>, k: string)
    ensures k in Aggregate(reviews) <==> CountFor(reviews, k) > 0
    ensures k !in Aggregate(reviews) ==> TotalFor(reviews, k) == 0.0
    ensures k in Aggregate(reviews) ==> Aggregate(reviews)[k] == Agg(TotalFor(reviews, k), CountFor(reviews, k))
    decreases |reviews|
  {
    if reviews != [] {
      AggregateCounts(reviews[..|reviews| - 1], k);
    }
  }

  /** The `forEach` over the review documents building `reviewsMap`. */
  method AggregateReviews(reviews: seq<Review>) returns (m: map<string, Agg>)
    ensures m == Aggregate(reviews)
  {
    m := map[];
    for i := 0 to |reviews|
      invariant m == Aggregate(reviews[..i])
    {
      assert reviews[..i + 1][..i] == reviews[..i];
      var k := ValueString(reviews[i].destinationId);
      if k !in m {
        m := m[k := Agg(0.0, 0)];
      }
      m := m[k := Agg(m[k].total + RatingValue(reviews[i]), m[k].count + 1)];
    }
    assert reviews[..|reviews|] == reviews;
  }

  /** `averageRating`: `totalRating / count`, or 0 without reviews. */
  function Average(a: Agg): real
  {
    if a.count > 0 then a.total / a.count as real else 0.0
  }

  lemma {:induction false} TotalBounds(reviews: seq<Review>, k: string)
    requires forall i :: 0 <= i < |reviews| ==> 0.0 <= RatingValue(reviews[i]) <= 5.0
    ensures 0.0 <= TotalFor(reviews, k) <= 5.0 * CountFor(reviews, k) as real
    decreases |reviews|
  {
    if reviews != [] {
      TotalBounds(reviews[..|reviews| - 1], k);
    }
  }

  /** With every rating between 0 and 5, so is every destination's average. */
  lemma AverageInRange(reviews: seq<Review>, k: string)
    requires forall i :: 0 <= i < |reviews| ==> 0.0 <= RatingValue(reviews[i]) <= 5.0
    requires k in Aggregate(reviews)
    ensures 0.0 <= Average(Aggregate(reviews)[k]) <= 5.0
  {
    AggregateCounts(reviews, k);
    TotalBounds(reviews, k);
    var a := Aggregate(reviews)[k];
    QuotientBound(a.total, a.count as real);
  }

  lemma QuotientBound(t: real, c: real)
    requires c > 0.0 && 0.0 <= t <= 5.0 * c
    ensures 0.0 <= t / c <= 5.0
  {
    var q := t / c;
    assert q * c == t;
  }

  // ---------------------------------------------------------------------------
  // Stars

  /** The stars drawn for a rating. */
  datatype Stars = Stars(full: int, half: bool, empty: int)

  /** `renderStarRating`'s split: whole stars, a half star for a fraction of at least one half, the rest empty. */
  function StarSplit(rating: real): Stars
  {
    var full := rating.Floor;
    var half := rating - full as real >= 0.5;
    Stars(full, half, 5 - full - if half then 1 else 0)
  }

  /** For a rating from 0 to 5 no count is negative and there are five stars in all. */
  lemma StarsSumToFive(rating: real)
    requires 0.0 <= rating <= 5.0
    ensures var s := StarSplit(rating);
            && 0 <= s.full <= 5 && s.empty >= 0
            && s.full + (if s.half then 1 else 0) + s.empty == 5
            && s.full as real <= rating < s.full as real + 1.0
  {
    var s := StarSplit(rating);
    if s.full == 5 {
      assert rating == 5.0;
      assert !s.half;
    }
  }

  /** `reviewsData[destinationId]`: the average and the review count, 0 and 0 without an entry. */
  function StarRating(data: map<string, Agg>, id: Value): (r: (real, nat))
    ensures ValueString(id) !in data ==> r == (0.0, 0)
  {
    var k := ValueString(id);
    if k in data then (Average(data[k]), data[k].count) else (0.0, 0)
  }

  /** Over reviews rated from 0 to 5, every destination's stars come to five, and its count is its number of reviews. */
  lemma StarsOfReviews(reviews: seq<Review>, id: Value)
    requires forall i :: 0 <= i < |reviews| ==> 0.0 <= RatingValue(reviews[i]) <= 5.0
    ensures var r := StarRating(Aggregate(reviews), id);
            var s := StarSplit(r.0);
            && r.1 == CountFor(reviews, ValueString(id))
            && s.empty >= 0 && s.full >= 0 && s.full + (if s.half then 1 else 0) + s.empty == 5
  {
    var k := ValueString(id);
    AggregateCounts(reviews, k);
    if k in Aggregate(reviews) {
      AverageInRange(reviews, k);
    }
    StarsSumToFive(StarRating(Aggregate(reviews), id).0);
  }

  // ---------------------------------------------------------------------------
  // Search and category filter

  /** `destination.name?.toLowerCase().includes(term.toLowerCase())`; a name that is a number throws. */
  function NameMatch(d: Obj, term: string): Option<bool>
  {
    match Get(d, Name)
    case VNone => Some(false)
    case VNum(_) => None
    case VStr(s) => Some(ContainsIgnoreCase(s, term))
  }

  function NameOk(term: string): Obj -> bool
  {
    (d: Obj) => NameMatch(d, term) == Some(true)
  }

  function CategoryOk(active: Value): Obj -> bool
  {
    (d: Obj) => Get(d, Category) == active
  }

  /** No destination's name is a number, so the name filter runs to its end. */
  predicate NamesReadable(ds: seq<Obj>)
  {
    forall i :: 0 <= i < |ds| ==> !Get(ds[i], Name).VNum?
  }

  /** What a destination has to meet to be listed. */
  predicate Listed(d: Obj, term: string, active: Value)
  {
    (term != "" ==> NameMatch(d, term) == Some(true)) && (Truthy(active) ==> Get(d, Category) == active)
  }

  /** The filter effect: by name when there is a search, then by category when one is active. */
  function FilterResults(ds: seq<Obj>, term: string, active: Value): (r: Option<seq<Obj>>)
    ensures r.None? <==> term != "" && !NamesReadable(ds)
  {
    if term != "" && !NamesReadable(ds) then None
    else
      var byName := if term != "" then Filter(ds, NameOk(term)) else ds;
      Some(if Truthy(active) then Filter(byName, CategoryOk(active)) else byName)
  }

  /**
   * The filtered list keeps the catalog's order and holds exactly the
   * destinations that match the search and the active category.
   */
  lemma FilterResultsMeaning(ds: seq<Obj>, term: string, active: Value)
    requires FilterResults(ds, term, active).Some?
    ensures var r := FilterResults(ds, term, active).value;
            && Subsequence(r, ds)
            && forall x :: x in r <==> x in ds && Listed(x, term, active)
  {
    if term != "" && Truthy(active) {
      TwoFilters(ds, NameOk(term), CategoryOk(active));
    } else if term != "" {
      FilterSubsequence(ds, NameOk(term));
      FilterMembers(ds, NameOk(term));
    } else if Truthy(active) {
      FilterSubsequence(ds, CategoryOk(active));
      FilterMembers(ds, CategoryOk(active));
    } else {
      SubsequenceRefl(ds);
    }
  }

  // ---------------------------------------------------------------------------
  // Pages

  const PerPage := 15

  /** `Math.ceil(n / destinationsPerPage)`. */
  function TotalPages(n: nat): (t: nat)
    ensures n == 0 <==> t == 0
    ensures n > 0 ==> (t - 1) * PerPage < n <= t * PerPage
  {
    (n + PerPage - 1) / PerPage
  }

  /** `filtered.slice((p - 1) * 15, p * 15)` for a page number from 1 on. */
  function PageSlice<T>(s: seq<T>, p: int): (r: seq<T>)
    requires p >= 1
    ensures |r| <= PerPage
    ensures r == [] || (p - 1) * PerPage + |r| <= |s|
    ensures forall j :: 0 <= j < |r| ==> r[j] == s[(p - 1) * PerPage + j]
    ensures p <= TotalPages(|s|) <==> r != []
  {
    var a := (p - 1) * PerPage;
    if a >= |s| then [] else s[a..if p * PerPage < |s| then p * PerPage else |s|]
  }

  /** Every destination of the list is shown: element `i` is at place `i % 15` of page `i / 15 + 1`. */
  lemma PagesCover<T>(s: seq<T>, i: int)
    requires 0 <= i < |s|
    ensures 1 <= i / PerPage + 1 <= TotalPages(|s|)
    ensures i % PerPage < |PageSlice(s, i / PerPage + 1)|
    ensures PageSlice(s, i / PerPage + 1)[i % PerPage] == s[i]
  {
    var p := i / PerPage + 1;
    assert (p - 1) * PerPage + i % PerPage == i;
    assert (p - 1) * PerPage <= i;
  }

  function Max(a: int, b: int): int { if a >= b then a else b }
  function Min(a: int, b: int): int { if a <= b then a else b }

  /** The page numbers `renderPagination` shows: none for a single page, else up to three around the current one. */
  function Window(p: int, total: int): seq<int>
  {
    if total <= 1 then []
    else
      var start := Max(1, p - 1);
      var end := Min(total, start + 2);
      var first := if end - start + 1 < 3 then Max(1, end - 2) else start;
      seq(end - first + 1, k => first + k)
  }

  /**
   * The window: empty for at most one page; otherwise `min(3, total)`
   * consecutive pages ascending within `1..total`, with the current page
   * among them whenever it is a page.
   */
  lemma WindowShape(p: int, total: int)
    ensures total <= 1 ==> Window(p, total) == []
    ensures total > 1 ==>
              var w := Window(p, total);
              && |w| == Min(3, total)
              && (forall k :: 0 <= k < |w| ==> w[k] == w[0] + k)
              && 1 <= w[0] && w[|w| - 1] <= total
              && (1 <= p <= total ==> p in w)
  {
    if total > 1 {
      var w := Window(p, total);
      var start := Max(1, p - 1);
      var end := Min(total, start + 2);
      var first := if end - start + 1 < 3 then Max(1, end - 2) else start;
      if 1 <= p <= total {
        assert w[p - first] == p;
      }
    }
  }

  /** `renderPagination`'s loop pushing the page numbers from `startPage` to `endPage`. */
  method RenderPagination(p: int, total: int) returns (pages: seq<int>)
    ensures pages == Window(p, total)
  {
    if total <= 1 {
      return [];
    }
    var start := Max(1, p - 1);
    var end := Min(total, start + 2);
    if end - start + 1 < 3 {
      start := Max(1, end - 2);
    }
    pages := [];
    for i := start to end + 1
      invariant pages == seq(i - start, k => start + k)
    {
      pages := pages + [i];
    }
  }

  /** The page's filter and paging state over the catalog read from the store. */
  class Page {
    var destinasi: seq<Obj>
    var searchTerm: string
    var activeCategory: Value
    var filtered: seq<Obj>
    var currentPage: int

    /** The page is always a page of the filtered list, or page 1 of an empty one. */
    predicate Valid()
      reads this
    {
      1 <= currentPage && (currentPage == 1 || currentPage <= TotalPages(|filtered|))
    }

    /** The page once the catalog is read: everything listed, page 1, no search, no category. */
    constructor(catalog: seq<Obj>)
      ensures Valid()
      ensures destinasi == catalog && filtered == catalog && currentPage == 1
      ensures searchTerm == "" && activeCategory == VNone
    {
      destinasi := catalog;
      filtered := catalog;
      searchTerm := "";
      activeCategory := VNone;
      currentPage := 1;
    }

    /**
     * The effect run when the search, the category or the catalog changes:
     * the filtered list is recomputed and the page goes back to 1. A name
     * filter that throws leaves everything as it was, and `ok` is false.
     */
    method ApplyFilters() returns (ok: bool)
      requires Valid()
      modifies this
      ensures Valid()
      ensures var r := FilterResults(destinasi, searchTerm, activeCategory);
              && (ok <==> r.Some?)
              && (ok ==> filtered == r.value && currentPage == 1)
              && (!ok ==> filtered == old(filtered) && currentPage == old(currentPage))
      ensures destinasi == old(destinasi) && searchTerm == old(searchTerm) && activeCategory == old(activeCategory)
    {
      var r := FilterResults(destinasi, searchTerm, activeCategory);
      if r.None? {
        return false;
      }
      filtered := r.value;
      currentPage := 1;
      ok := true;
    }

    /** `handleCategoryClick`: the active category is switched off, any other is switched on; the search is cleared. */
    method CategoryClick(category: Value)
      requires Valid()
      modifies this
      ensures Valid()
      ensures old(activeCategory) == category ==> activeCategory == VNone
      ensures old(activeCategory) != category ==> activeCategory == category
      ensures searchTerm == ""
      ensures destinasi == old(destinasi) && filtered == old(filtered) && currentPage == old(currentPage)
    {
      activeCategory := if activeCategory == category then VNone else category;
      searchTerm := "";
    }

    /** `handleSearchChange`. */
    method SearchChange(term: string)
      requires Valid()
      modifies this
      ensures Valid()
      ensures searchTerm == term
      ensures destinasi == old(destinasi) && activeCategory == old(activeCategory)
      ensures filtered == old(filtered) && currentPage == old(currentPage)
    {
      searchTerm := term;
    }

    /** `goToNextPage`: one page on, unless this is the last. */
    method NextPage()
      requires Valid()
      modifies this
      ensures Valid()
      ensures old(currentPage) < TotalPages(|filtered|) ==> currentPage == old(currentPage) + 1
      ensures old(currentPage) >= TotalPages(|filtered|) ==> currentPage == old(currentPage)
      ensures destinasi == old(destinasi) && searchTerm == old(searchTerm)
      ensures activeCategory == old(activeCategory) && filtered == old(filtered)
    {
      if currentPage < TotalPages(|filtered|) {
        currentPage := currentPage + 1;
      }
    }

    /** `goToPrevPage`: one page back, unless this is the first. */
    method PrevPage()
      requires Valid()
      modifies this
      ensures Valid()
      ensures old(currentPage) > 1 ==> currentPage == old(currentPage) - 1
      ensures old(currentPage) == 1 ==> currentPage == 1
      ensures destinasi == old(destinasi) && searchTerm == old(searchTerm)
      ensures activeCategory == old(activeCategory) && filtered == old(filtered)
    {
      if currentPage > 1 {
        currentPage := currentPage - 1;
      }
    }

    /** `goToPage` from one of the numbered buttons of the window. */
    method GoToPage(number: int)
      requires Valid()
      requires number in Window(currentPage, TotalPages(|filtered|))
      modifies this
      ensures Valid()
      ensures currentPage == number
      ensures destinasi == old(destinasi) && searchTerm == old(searchTerm)
      ensures activeCategory == old(activeCategory) && filtered == old(filtered)
    {
      WindowShape(currentPage, TotalPages(|filtered|));
      currentPage := number;
    }
  }
}
