/** The review panel of the selected shop: the fetched reviews with their
    loading flag and error, each review's overall rating, and the refresh
    after a post. */
module ReviewPanelUI {
  import opened Outcomes
  import opened Models
  import ReviewFormUI
  import opened JsText

  const ReviewsFetchFailed := "レビューの取得に失敗しました"

  /** A call the panel makes: the API's getReviews, then the parent's
      onReviewAdded callback. */
  datatype Call = GetReviews(shopId: string) | ReviewAdded

  // ----- overall rating -----

  function Total(review: Review): int {
    review.priceRating + review.tasteRating + review.atmosphereRating
  }

  /** `calculateOverallRating`: the share of the 15 possible rating points,
      as a whole percentage. The exact value 100 * total / 15 = 20 * total / 3
      never ends in one half, so `toFixed(0)` is rounding to the nearest
      integer, which this computes without fractions. */
  function OverallRating(review: Review): (percent: int)
    ensures -1 <= 3 * percent - 20 * Total(review) <= 1
  {
    (20 * Total(review) + 1) / 3
  }

  /** Rounding num / den to the nearest integer, halves upwards. */
  function RoundHalfUp(num: int, den: int): int
    requires den > 0
  {
    (2 * num + den) / (2 * den)
  }

  /** The overall rating is round((p + t + a) / 15 * 100), halves upwards. */
  lemma OverallRatingIsRoundHalfUp(review: Review)
    ensures OverallRating(review) == RoundHalfUp(100 * Total(review), 15)
  {
    var t := Total(review);
    var r := OverallRating(review);
    assert 30 * r + 5 <= 200 * t + 15 <= 30 * r + 25;
  }

  lemma OverallRatingOfExtremes(review: Review)
    ensures review.priceRating == review.tasteRating == review.atmosphereRating == 5 ==> OverallRating(review) == 100
    ensures review.priceRating == review.tasteRating == review.atmosphereRating == 1 ==> OverallRating(review) == 20
  {
  }

  /** With every rating from 1 to 5 the overall rating is from 20 to 100. */
  lemma OverallRatingRange(review: Review)
    requires 1 <= review.priceRating <= 5 && 1 <= review.tasteRating <= 5 && 1 <= review.atmosphereRating <= 5
    ensures 20 <= OverallRating(review) <= 100
  {
  }

  /** Raising any rating never lowers the overall rating. */
  lemma OverallRatingMonotone(a: Review, b: Review)
    requires a.priceRating <= b.priceRating && a.tasteRating <= b.tasteRating
    requires a.atmosphereRating <= b.atmosphereRating
    ensures OverallRating(a) <= OverallRating(b)
  {
  }

  // ----- fetched reviews -----

  class ReviewPanel {
    /** The selected shop, passed down by the coordinator. */
    var shop: Option<Shop>
    var reviews: seq<Review>
    var loading: bool
    var error: Option<string>

    /** Mounted with nothing selected. */
    constructor ()
      ensures shop == None && reviews == [] && !loading && error == None
    {
      shop := None;
      reviews := [];
      loading := false;
      error := None;
    }

    /** `fetchReviews`. With no shop it does nothing. Otherwise it loads the
        shop's reviews: a `null` list counts as empty, a failure empties the
        list and sets the error, and loading ends either way. Whatever the
        call returns is applied. */
    method FetchReviews(response: Settled<Option<seq<Review>>>) returns (calls: seq<Call>)
      modifies this`reviews, this`loading, this`error
      ensures shop.None? ==> calls == [] && reviews == old(reviews) && loading == old(loading) && error == old(error)
      ensures shop.Some? ==> calls == [GetReviews(shop.value.id)] && !loading
      ensures shop.Some? && response.Fulfilled? ==> reviews == OrEmpty(response.value) && error == None
      ensures shop.Some? && response.Rejected? ==> reviews == [] && error == Some(ReviewsFetchFailed)
    {
      if shop.None? {
        return [];
      }
      loading := true;
      error := None;
      calls := [GetReviews(shop.value.id)];
      if response.Fulfilled? {
        reviews := OrEmpty(response.value);
      } else {
        error := Some(ReviewsFetchFailed);
        reviews := [];
      }
      loading := false;
    }

    /** The coordinator passes a different shop: the effect keyed on the
        shop fetches its reviews if there is one. Deselecting fetches
        nothing and leaves the old list in place (the panel then shows its
        placeholder instead). Passing the same shop again runs no effect. */
    method ShopChanged(newShop: Option<Shop>, response: Settled<Option<seq<Review>>>) returns (calls: seq<Call>)
      modifies this`shop, this`reviews, this`loading, this`error
      ensures shop == newShop
      ensures newShop == old(shop) || newShop.None? ==>
        calls == [] && reviews == old(reviews) && loading == old(loading) && error == old(error)
      ensures newShop != old(shop) && newShop.Some? ==> calls == [GetReviews(newShop.value.id)] && !loading
      ensures newShop != old(shop) && newShop.Some? && response.Fulfilled? ==>
        reviews == OrEmpty(response.value) && error == None
      ensures newShop != old(shop) && newShop.Some? && response.Rejected? ==>
        reviews == [] && error == Some(ReviewsFetchFailed)
    {
      var changed := newShop != shop;
      shop := newShop;
      calls := [];
      if changed && shop.Some? {
        calls := FetchReviews(response);
      }
    }

    /** `handleReviewAdded`: refetch the current shop's reviews first, then
        tell the parent. */
    method HandleReviewAdded(response: Settled<Option<seq<Review>>>) returns (calls: seq<Call>)
      modifies this`reviews, this`loading, this`error
      ensures shop.None? ==> calls == [ReviewAdded] && reviews == old(reviews) && error == old(error)
      ensures shop.Some? ==> calls == [GetReviews(shop.value.id), ReviewAdded] && !loading
      ensures shop.Some? && response.Fulfilled? ==> reviews == OrEmpty(response.value) && error == None
      ensures shop.Some? && response.Rejected? ==> reviews == [] && error == Some(ReviewsFetchFailed)
    {
      calls := FetchReviews(response);
      calls := calls + [ReviewAdded];
    }
  }

  /** A post from the panel's form: on success the form resets and the
      panel refetches, so the list shown is what the server returned after
      the post; on failure or a blank reviewer the list is untouched. */
  method PostReview(panel: ReviewPanel, form: ReviewFormUI.ReviewForm, created: Settled<Review>,
                    refetched: Settled<Option<seq<Review>>>)
    returns (formCalls: seq<ReviewFormUI.Call>, panelCalls: seq<Call>)
    requires panel != form as object
    requires panel.shop.Some? && form.shopId == panel.shop.value.id
    requires form.Valid()
    modifies panel, form
    ensures form.Valid()
    ensures panel.shop == old(panel.shop) && form.shopId == old(form.shopId)
    ensures ReviewFormUI.ReviewAdded in formCalls <==> panelCalls != []
    ensures panelCalls != [] <==> !IsBlank(old(form.formData).reviewer) && created.Fulfilled?
    ensures IsBlank(old(form.formData).reviewer) ==>
      formCalls == [] && form.formData == old(form.formData) && form.error == Some(ReviewFormUI.ReviewerRequired)
    ensures !IsBlank(old(form.formData).reviewer) ==>
      formCalls != [] && formCalls[0] == ReviewFormUI.CreateReview(form.shopId, old(form.formData))
    ensures !IsBlank(old(form.formData).reviewer) && created.Rejected? ==>
      form.formData == old(form.formData) && form.error == Some(ReviewFormUI.PostFailed)
    ensures panelCalls != [] ==>
      panelCalls == [GetReviews(form.shopId), ReviewAdded] && form.formData == ReviewFormUI.InitialDraft
      && form.error == None && !panel.loading
    ensures panelCalls != [] && refetched.Fulfilled? ==> panel.reviews == OrEmpty(refetched.value) && panel.error == None
    ensures panelCalls != [] && refetched.Rejected? ==> panel.reviews == [] && panel.error == Some(ReviewsFetchFailed)
    ensures panelCalls == [] ==>
      panel.reviews == old(panel.reviews) && panel.loading == old(panel.loading) && panel.error == old(panel.error)
  {
    formCalls := form.HandleSubmit(created);
    panelCalls := [];
    if ReviewFormUI.ReviewAdded in formCalls {
      panelCalls := panel.HandleReviewAdded(refetched);
    }
  }
}
