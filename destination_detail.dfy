/**
 * The destination page's review panel: the rating statistics over the
 * destination's reviews, the price-type caption, the signed-in user's own
 * review, the order in which the other reviews are listed, and what
 * submitting the review form does.
 */
module DestinationDetail {
  import opened JsValues
  import opened Lists
  import opened Records
  import opened Ordering
  import Rekomendasi

  /** A review document of the destination; `timestamp` is `timestamp?.toDate?.()` in milliseconds. */
  datatype Review = Review(id: Value, userId: Value, username: string, comment: string, rating: Value, timestamp: Option<int>)

  /** `Number(v)` for the ratings the form writes: whole numbers and strings of digits; `None` is `NaN`. */
  function NumberOf(v: Value): (r: Option<real>)
    ensures v.VNum? ==> r == Some(v.n as real)
    ensures v.VNone? ==> r.None?
  {
    match v
    case VNone => None
    case VNum(n) => Some(n as real)
    case VStr(s) =>
      var t := Trim(s);
      if t == "" then Some(0.0) else if AllDigits(t) then Some(DigitsValue(t) as real) else None
  }

  // ---------------------------------------------------------------------------
  // Rating statistics

  /** A rating counted by `calculateRatingStats`: from 1 to 5. */
  predicate Counted(r: Option<real>)
  {
    r.Some? && 1.0 <= r.value <= 5.0
  }

  /** `{1: 0, 2: 0, 3: 0, 4: 0, 5: 0}`. */
  const NoCounts: map<int, nat> := map[1 := 0, 2 := 0, 3 := 0, 4 := 0, 5 := 0]

  /** The five counts of a distribution added up. */
  function CountsSum(m: map<int, nat>): nat
    requires forall k :: 1 <= k <= 5 ==> k in m
  {
    m[1] + m[2] + m[3] + m[4] + m[5]
  }

  /** `counts` after the ratings, in order: a whole rating from 1 to 5 adds one to its star. */
  function Counts(ratings: seq<Option<real>>): (m: map<int, nat>)
    ensures m.Keys == NoCounts.Keys
    decreases |ratings|
  {
    if ratings == [] then NoCounts
    else
      var m := Counts(ratings[..|ratings| - 1]);
      var r := ratings[|ratings| - 1];
      if Counted(r) && r.value.Floor as real == r.value then
        var k := r.value.Floor;
        assert k in NoCounts.Keys;
        m[k := m[k] + 1]
      else m
  }

  /** `total`: the counted ratings added up. */
  function CountedTotal(ratings: seq<Option<real>>): real
    decreases |ratings|
  {
    if ratings == [] then 0.0
    else
      var r := ratings[|ratings| - 1];
      CountedTotal(ratings[..|ratings| - 1]) + if Counted(r) then r.value else 0.0
  }

  /** How many ratings are counted. */
  function CountedNumber(ratings: seq<Option<real>>): nat
    decreases |ratings|
  {
    if ratings == [] then 0
    else CountedNumber(ratings[..|ratings| - 1]) + if Counted(ratings[|ratings| - 1]) then 1 else 0
  }

  /** The statistics shown: the average over all reviews and the distribution. */
  datatype Stats = Stats(average: real, counts: map<int, nat>)

  /** `calculateRatingStats`: with no reviews, average 0 and no stars; else the counted total over all reviews. */
  function RatingStats(ratings: seq<Option<real>>): (s: Stats)
    ensures ratings == [] ==> s == Stats(0.0, NoCounts)
  {
    if ratings == [] then Stats(0.0, NoCounts)
    else Stats(CountedTotal(ratings) / |ratings| as real, Counts(ratings))
  }

  /** The ratings of a list of reviews, through `Number`. */
  function Ratings(reviews: seq<Review>): (r: seq<Option<real>>)
    ensures |r| == |reviews| && forall i :: 0 <= i < |reviews| ==> r[i] == NumberOf(reviews[i].rating)
  {
    seq(|reviews|, i requires 0 <= i < |reviews| => NumberOf(reviews[i].rating))
  }

  /** The `forEach` of `calculateRatingStats`. */
  method CalculateRatingStats(ratings: seq<Option<real>>) returns (s: Stats)
    ensures s == RatingStats(ratings)
  {
    if |ratings| == 0 {
      return Stats(0.0, NoCounts);
    }
    var counts := NoCounts;
    var total := 0.0;
    for i := 0 to |ratings|
      invariant counts == Counts(ratings[..i]) && total == CountedTotal(ratings[..i])
    {
      assert ratings[..i + 1][..i] == ratings[..i];
      var r := ratings[i];
      if Counted(r) {
        if r.value.Floor as real == r.value {
          counts := counts[r.value.Floor := counts[r.value.Floor] + 1];
        }
        total := total + r.value;
      }
    }
    assert ratings[..|ratings|] == ratings;
    s := Stats(total / |ratings| as real, counts);
  }

  /** The stars of the distribution count only the ratings counted, so no more than there are reviews. */
  lemma {:induction false} CountsBound(ratings: seq<Option<real>>)
    ensures CountsSum(Counts(ratings)) <= CountedNumber(ratings) <= |ratings|
    decreases |ratings|
  {
    if ratings != [] {
      CountsBound(ratings[..|ratings| - 1]);
    }
  }

  lemma {:induction false} CountedTotalBounds(ratings: seq<Option<real>>)
    ensures 1.0 * CountedNumber(ratings) as real <= CountedTotal(ratings) <= 5.0 * CountedNumber(ratings) as real
    decreases |ratings|
  {
    if ratings != [] {
      CountedTotalBounds(ratings[..|ratings| - 1]);
    }
  }

  /**
   * The average is at most 5, and as it divides by every review, counted
   * or not, it is 0 only when no rating was counted.
   */
  lemma AverageBounds(ratings: seq<Option<real>>)
    ensures 0.0 <= RatingStats(ratings).average <= 5.0
    ensures RatingStats(ratings).average == 0.0 <==> CountedNumber(ratings) == 0
  {
    if ratings != [] {
      CountedTotalBounds(ratings);
      CountsBound(ratings);
      var t := CountedTotal(ratings);
      var n := |ratings| as real;
      assert t <= 5.0 * n;
      Rekomendasi.QuotientBound(t, n);
      if CountedNumber(ratings) > 0 {
        assert t / n > 0.0;
      }
    }
  }

  // ---------------------------------------------------------------------------
  // Price type

  /** `getPriceType`. */
  function PriceTypeCaption(dest: Option<Obj>): (r: string)
    ensures dest.None? || !Truthy(Get(dest.value, PriceType)) ==> r == "Tiket masuk"
    ensures dest.Some? && Get(dest.value, PriceType) == VStr("all-in") ==> r == "Harga all-inclusive"
    ensures dest.Some? && Truthy(Get(dest.value, PriceType)) && Get(dest.value, PriceType) != VStr("all-in") ==>
              r == "Tiket masuk saja"
  {
    if dest.None? || !Truthy(Get(dest.value, PriceType)) then "Tiket masuk"
    else if Get(dest.value, PriceType) == VStr("all-in") then "Harga all-inclusive"
    else "Tiket masuk saja"
  }

  // ---------------------------------------------------------------------------
  // The user's review and the list of the others

  function ByUser(uid: Value): Review -> bool
  {
    (r: Review) => r.userId == uid
  }

  /** `reviews.find(review => review.userId === user.uid)`. */
  function OwnReview(reviews: seq<Review>, uid: Value): (r: Option<Review>)
    ensures r.None? <==> forall i :: 0 <= i < |reviews| ==> reviews[i].userId != uid
    ensures r.Some? ==> exists k :: 0 <= k < |reviews| && r == Some(reviews[k]) && reviews[k].userId == uid
                                    && forall i :: 0 <= i < k ==> reviews[i].userId != uid
  {
    var r := Find(reviews, ByUser(uid));
    if r.Some? then
      FindIsFirst(reviews, ByUser(uid));
      r
    else r
  }

  /** `timestamp?.toDate?.() || 0`. */
  function Stamp(r: Review): int
  {
    if r.timestamp.Some? then r.timestamp.value else 0
  }

  function Shown(hasReviewed: bool, uid: Value): Review -> bool
  {
    (r: Review) => !hasReviewed || r.userId != uid
  }

  /** The listed reviews: the user's own left out once they have one, then newest first. */
  function Displayed(reviews: seq<Review>, hasReviewed: bool, uid: Value): seq<Review>
  {
    SortDesc(Filter(reviews, Shown(hasReviewed, uid)), Stamp)
  }

  /**
   * The list is ordered newest first and holds each review as often as the
   * reviews do, except the user's own once they have reviewed, which it
   * never holds.
   */
  lemma DisplayedMeaning(reviews: seq<Review>, hasReviewed: bool, uid: Value)
    ensures var d := Displayed(reviews, hasReviewed, uid);
            && SortedDesc(d, Stamp)
            && (forall x :: multiset(d)[x] == if hasReviewed && x.userId == uid then 0 else multiset(reviews)[x])
            && (hasReviewed ==> forall i :: 0 <= i < |d| ==> d[i].userId != uid)
  {
    var f := Filter(reviews, Shown(hasReviewed, uid));
    SortDescSorts(f, Stamp);
    forall x {
      FilterCount(reviews, Shown(hasReviewed, uid), x);
    }
    var d := Displayed(reviews, hasReviewed, uid);
    forall i | 0 <= i < |d|
      ensures Shown(hasReviewed, uid)(d[i])
    {
      assert d[i] in multiset(f);
    }
  }

  // ---------------------------------------------------------------------------
  // Submitting the form

  /** What `handleSubmitReview` does. */
  datatype Submit =
    | GoLogin
    | BlankError
    | Update(reviewId: Value, comment: string, rating: Value)
    | Add(review: Review)

  const BlankMessage := "Please enter a review comment"

  /**
   * The decision of `handleSubmitReview`: a signed-out user is sent to log
   * in; a blank comment is refused; a user with a review updates it;
   * anyone else adds one. `freshId` and `now` are the new document's id and
   * the server time.
   */
  function Decide(loggedIn: bool, text: string, hasReviewed: bool, own: Option<Review>, uid: Value,
                  username: string, rating: Value, freshId: Value, now: int): (d: Submit)
    ensures !loggedIn <==> d.GoLogin?
    ensures loggedIn ==> (d.BlankError? <==> Trim(text) == "")
    ensures d.Update? <==> loggedIn && Trim(text) != "" && hasReviewed && own.Some?
    ensures d.Update? ==> d.reviewId == own.value.id && d.comment == text && d.rating == rating
    ensures d.Add? ==> d.review.userId == uid && d.review.comment == text && d.review.rating == rating
  {
    if !loggedIn then GoLogin
    else if Trim(text) == "" then BlankError
    else if hasReviewed && own.Some? then Update(own.value.id, text, rating)
    else Add(Review(freshId, uid, if username != "" then username else "Anonymous User", text, rating, Some(now)))
  }

  /** The destination's review documents after the write of the decision. */
  function ApplySubmit(store: seq<Review>, d: Submit): (r: seq<Review>)
    ensures d.Add? ==> r == store + [d.review]
    ensures !d.Add? ==> |r| == |store|
    ensures d.Update? ==> forall i :: 0 <= i < |store| ==>
              r[i] == if store[i].id == d.reviewId then store[i].(comment := d.comment, rating := d.rating) else store[i]
    ensures d.GoLogin? || d.BlankError? ==> r == store
  {
    match d
    case GoLogin => store
    case BlankError => store
    case Update(rid, c, rt) =>
      seq(|store|, i requires 0 <= i < |store| =>
        if store[i].id == rid then store[i].(comment := c, rating := rt) else store[i])
    case Add(rv) => store + [rv]
  }

  function CountBy(store: seq<Review>, uid: Value): nat
  {
    |Filter(store, ByUser(uid))|
  }

  lemma {:induction false} UpdateKeepsCount(store: seq<Review>, rid: Value, c: string, rt: Value, uid: Value)
    ensures CountBy(ApplySubmit(store, Update(rid, c, rt)), uid) == CountBy(store, uid)
    decreases |store|
  {
    if store != [] {
      var r := ApplySubmit(store, Update(rid, c, rt));
      UpdateKeepsCount(store[1..], rid, c, rt, uid);
      assert r[1..] == ApplySubmit(store[1..], Update(rid, c, rt));
      assert r[0].userId == store[0].userId;
    }
  }

  /**
   * A user who already has a review never gets a second one: submitting
   * either changes nothing or rewrites that review in place.
   */
  lemma SubmitNoDuplicate(store: seq<Review>, loggedIn: bool, text: string, uid: Value,
                          username: string, rating: Value, freshId: Value, now: int)
    requires OwnReview(store, uid).Some?
    ensures var d := Decide(loggedIn, text, true, OwnReview(store, uid), uid, username, rating, freshId, now);
            && CountBy(ApplySubmit(store, d), uid) == CountBy(store, uid)
            && |ApplySubmit(store, d)| == |store|
  {
    var d := Decide(loggedIn, text, true, OwnReview(store, uid), uid, username, rating, freshId, now);
    if d.Update? {
      UpdateKeepsCount(store, d.reviewId, d.comment, d.rating, uid);
    }
  }

  /** A user without a review who submits a comment adds exactly one. */
  lemma SubmitFirstReview(store: seq<Review>, text: string, uid: Value,
                          username: string, rating: Value, freshId: Value, now: int)
    requires Trim(text) != ""
    requires OwnReview(store, uid).None?
    ensures var d := Decide(true, text, false, None, uid, username, rating, freshId, now);
            CountBy(ApplySubmit(store, d), uid) == CountBy(store, uid) + 1
  {
    var d := Decide(true, text, false, None, uid, username, rating, freshId, now);
    FilterAppend(store, [d.review], ByUser(uid));
  }

  /** The review panel's state, with the destination's review documents as `store`. */
  class ReviewPanel {
    var store: seq<Review>
    var reviews: seq<Review>
    var stats: Stats
    var userHasReviewed: bool
    var userReview: Option<Review>
    var newReview: string
    var newRating: Value
    var showReviewForm: bool
    var reviewError: Option<string>

    constructor(docs: seq<Review>)
      ensures store == docs && reviews == [] && stats == Stats(0.0, NoCounts)
      ensures !userHasReviewed && userReview.None? && newReview == "" && newRating == VNum(5)
      ensures !showReviewForm && reviewError.None?
    {
      store := docs;
      reviews := [];
      stats := Stats(0.0, NoCounts);
      userHasReviewed := false;
      userReview := None;
      newReview := "";
      newRating := VNum(5);
      showReviewForm := false;
      reviewError := None;
    }

    /** The list shown is the documents, with their statistics. */
    predicate Fetched()
      reads this
    {
      reviews == store && stats == RatingStats(Ratings(store))
    }

    /** `fetchReviews`: the documents become the list, and the statistics are computed over it. */
    method FetchReviews()
      modifies this
      ensures Fetched()
      ensures store == old(store) && userHasReviewed == old(userHasReviewed) && userReview == old(userReview)
      ensures newReview == old(newReview) && newRating == old(newRating)
      ensures showReviewForm == old(showReviewForm) && reviewError == old(reviewError)
    {
      reviews := store;
      stats := CalculateRatingStats(Ratings(store));
    }

    /**
     * `checkUserReview`: for a signed-in user and a non-empty list, whether
     * the user has a review and which; otherwise the flags stay as they were.
     */
    method CheckUserReview(user: Option<Value>)
      modifies this
      ensures user.Some? && reviews != [] ==>
                userReview == OwnReview(reviews, user.value) && (userHasReviewed <==> userReview.Some?)
      ensures !(user.Some? && reviews != []) ==>
                userReview == old(userReview) && userHasReviewed == old(userHasReviewed)
      ensures store == old(store) && reviews == old(reviews) && stats == old(stats)
      ensures newReview == old(newReview) && newRating == old(newRating)
      ensures showReviewForm == old(showReviewForm) && reviewError == old(reviewError)
    {
      if user.Some? && reviews != [] {
        userReview := OwnReview(reviews, user.value);
        userHasReviewed := userReview.Some?;
      }
    }

    /** `handleEditReview`: the form is opened on the user's own review. */
    method EditReview()
      modifies this
      ensures userReview.Some? ==>
                newReview == userReview.value.comment && newRating == userReview.value.rating && showReviewForm
      ensures userReview.None? ==>
                newReview == old(newReview) && newRating == old(newRating) && showReviewForm == old(showReviewForm)
      ensures store == old(store) && reviews == old(reviews) && stats == old(stats)
      ensures userHasReviewed == old(userHasReviewed) && userReview == old(userReview) && reviewError == old(reviewError)
    {
      if userReview.Some? {
        newReview := userReview.value.comment;
        newRating := userReview.value.rating;
        showReviewForm := true;
      }
    }

    /**
     * The `try` block of `handleSubmitReview`: the update or the addition is
     * written, the documents are read again and the form is reset.
     */
    method WriteReview(d: Submit)
      requires d.Update? || d.Add?
      modifies this
      ensures store == ApplySubmit(old(store), d)
      ensures Fetched()
      ensures newReview == "" && newRating == VNum(5) && !showReviewForm
      ensures reviewError == old(reviewError)
      ensures userHasReviewed == old(userHasReviewed) && userReview == old(userReview)
    {
      store := ApplySubmit(store, d);
      FetchReviews();
      newReview := "";
      newRating := VNum(5);
      showReviewForm := false;
    }

    /**
     * `handleSubmitReview`: the decision is taken and, for an update or an
     * addition, written to the documents, which are read again; then the
     * form is reset. A blank comment only sets the error.
     */
    method SubmitReview(user: Option<Value>, username: string, freshId: Value, now: int) returns (d: Submit)
      modifies this
      ensures d == Decide(user.Some?, old(newReview), old(userHasReviewed), old(userReview),
                          if user.Some? then user.value else VNone, username, old(newRating), freshId, now)
      ensures store == ApplySubmit(old(store), d)
      ensures d.BlankError? ==> reviewError == Some(BlankMessage) && newReview == old(newReview) && reviews == old(reviews)
      ensures d.Update? || d.Add? ==>
                && Fetched() && reviewError.None?
                && newReview == "" && newRating == VNum(5) && !showReviewForm
      ensures d.GoLogin? ==> reviews == old(reviews) && reviewError == old(reviewError) && newReview == old(newReview)
      ensures userHasReviewed == old(userHasReviewed) && userReview == old(userReview)
    {
      var uid := if user.Some? then user.value else VNone;
      d := Decide(user.Some?, newReview, userHasReviewed, userReview, uid, username, newRating, freshId, now);
      if d.GoLogin? {
      } else if d.BlankError? {
        reviewError := Some(BlankMessage);
      } else {
        reviewError := None;
        WriteReview(d);
      }
    }
  }
}
