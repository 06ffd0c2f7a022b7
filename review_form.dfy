/** The review form of the selected shop: a draft that starts from fixed
    defaults, the single-flight flag and the inline error. */
module ReviewFormUI {
  import opened Outcomes
  import opened Models
  import opened Decimal
  import opened JsText
  import opened ClientTypes
  import opened GoStrconv

  const ReviewerRequired := "名前を入力してください"
  const PostFailed := "レビューの投稿に失敗しました"

  /** The draft the form starts with and returns to after a post. */
  const InitialDraft := ReviewDraft("", Num(1), Num(3), Num(3), Num(3), "")

  /** The form's inputs, by their `name` attribute. */
  datatype Field = Reviewer | VisitCount | PriceRating | TasteRating | AtmosphereRating | Comment

  predicate IsRatingField(field: Field) {
    field == PriceRating || field == TasteRating || field == AtmosphereRating
  }

  /** The values a rating selector offers: the options 1 to 5. */
  predicate IsRatingOption(value: string) {
    value == "1" || value == "2" || value == "3" || value == "4" || value == "5"
  }

  /** A call the form makes: the API's createReview, then the parent's
      onReviewAdded callback. */
  datatype Call = CreateReview(shopId: string, input: ReviewDraft) | ReviewAdded

  /** The draft after the input named `field` reports `value`: the reviewer
      and the comment keep the text, the numeric fields take
      `parseInt(value, 10)`, and all other fields stay as they were. */
  function WithField(d: ReviewDraft, field: Field, value: string): (r: ReviewDraft)
    ensures field == Reviewer ==> r == d.(reviewer := value)
    ensures field == Comment ==> r == d.(comment := value)
    ensures field == VisitCount ==> r == d.(visitCount := ParseInt(value))
    ensures field == PriceRating ==> r == d.(priceRating := ParseInt(value))
    ensures field == TasteRating ==> r == d.(tasteRating := ParseInt(value))
    ensures field == AtmosphereRating ==> r == d.(atmosphereRating := ParseInt(value))
  {
    var parsed := ParseInt(value);
    match field
    case Reviewer => d.(reviewer := value)
    case Comment => d.(comment := value)
    case VisitCount => d.(visitCount := parsed)
    case PriceRating => d.(priceRating := parsed)
    case TasteRating => d.(tasteRating := parsed)
    case AtmosphereRating => d.(atmosphereRating := parsed)
  }

  predicate InRatingRange(x: JsNumber) {
    x.Num? && 1 <= x.n <= 5
  }

  /** The ratings are in range: they start at 3 and change only through
      selectors offering 1 to 5. */
  predicate RatingsInRange(d: ReviewDraft) {
    InRatingRange(d.priceRating) && InRatingRange(d.tasteRating) && InRatingRange(d.atmosphereRating)
  }

  /** Choosing a rating option keeps the ratings in range. */
  lemma RatingOptionKeepsRange(d: ReviewDraft, field: Field, value: string)
    requires RatingsInRange(d)
    requires IsRatingField(field) ==> IsRatingOption(value)
    ensures RatingsInRange(WithField(d, field, value))
  {
    if IsRatingField(field) {
      var n := if value == "1" then 1 else if value == "2" then 2 else if value == "3" then 3
               else if value == "4" then 4 else 5;
      assert value == FormatInt(n);
      ParseIntFormatInt(n);
    }
  }

  /** Whether the server binds and validates a posted draft. */
  predicate ServerAccepts(d: ReviewDraft) {
    ToWire(d).Some? && ValidReviewInput(ToWire(d).value)
  }

  /** The client checks only the reviewer. With the ratings in range, the
      server accepts the post exactly when, besides, the reviewer is not
      empty and the visit count is a number from 1 up to the largest 64-bit
      integer; an emptied or zero visit count passes the client and is
      refused by the validation, a larger one by the decoding. */
  lemma ServerAcceptance(d: ReviewDraft)
    requires RatingsInRange(d)
    ensures ServerAccepts(d) <==>
      d.reviewer != "" && d.visitCount.Num? && 1 <= d.visitCount.n <= MaxInt64
  {
  }

  /** A whitespace reviewer is stopped by the client though the server's
      rule would accept it; a cleared visit count, or one past the 64-bit
      range, is let through by the client though the server refuses it. */
  lemma ClientAndServerChecksDiffer()
    ensures IsBlank(" ") && ServerAccepts(InitialDraft.(reviewer := " "))
    ensures !IsBlank("A") && !ServerAccepts(InitialDraft.(reviewer := "A", visitCount := NaN))
    ensures !ServerAccepts(InitialDraft.(reviewer := "A", visitCount := Num(MaxInt64 + 1)))
  {
    assert !IsWhitespace("A"[0]);
  }

  class ReviewForm {
    /** The shop the form posts to; it follows the selected shop. */
    var shopId: string
    var formData: ReviewDraft
    var submitting: bool
    var error: Option<string>

    /** Ratings stay in range, and between events no post is in flight. */
    ghost predicate Valid()
      reads this
    {
      RatingsInRange(formData) && !submitting
    }

    /** The submit button is enabled only while no post is pending. */
    predicate SubmitEnabled()
      reads this
    {
      !submitting
    }

    constructor (shopId: string)
      ensures Valid()
      ensures this.shopId == shopId && formData == InitialDraft && error == None
    {
      this.shopId := shopId;
      formData := InitialDraft;
      submitting := false;
      error := None;
    }

    /** A different shop is selected: the form is not re-created, so the
        draft and the error stay and later posts go to the new shop. */
    method ChangeShop(shopId: string)
      modifies this`shopId
      ensures this.shopId == shopId
    {
      this.shopId := shopId;
    }

    /** `handleSubmit`. A reviewer that trims to nothing sets the name error
        and calls nothing. Otherwise the draft is posted as it is; on
        success the draft returns to the defaults and `onReviewAdded` is
        called once, on failure the draft is kept and the failure message
        shown. The flag is released on every path. */
    method HandleSubmit(created: Settled<Review>) returns (calls: seq<Call>)
      requires Valid() && SubmitEnabled()
      modifies this`submitting, this`error, this`formData
      ensures Valid() && SubmitEnabled()
      ensures IsBlank(old(formData).reviewer) ==>
        calls == [] && error == Some(ReviewerRequired) && formData == old(formData)
      ensures !IsBlank(old(formData).reviewer) && created.Fulfilled? ==>
        calls == [CreateReview(shopId, old(formData)), ReviewAdded] && formData == InitialDraft && error == None
      ensures !IsBlank(old(formData).reviewer) && created.Rejected? ==>
        calls == [CreateReview(shopId, old(formData))] && formData == old(formData) && error == Some(PostFailed)
    {
      var missing := TrimmedIsEmpty(formData.reviewer);
      if missing {
        error := Some(ReviewerRequired);
        return [];
      }
      submitting := true;
      error := None;
      calls := [CreateReview(shopId, formData)];
      if created.Fulfilled? {
        formData := InitialDraft;
        calls := calls + [ReviewAdded];
      } else {
        error := Some(PostFailed);
      }
      submitting := false;
    }

    /** `handleChange`, for the inputs the form renders: a rating selector
        only reports one of its options. */
    method HandleChange(field: Field, value: string)
      requires Valid()
      requires IsRatingField(field) ==> IsRatingOption(value)
      modifies this`formData
      ensures Valid()
      ensures formData == WithField(old(formData), field, value)
    {
      RatingOptionKeepsRange(formData, field, value);
      formData := WithField(formData, field, value);
    }
  }
}
