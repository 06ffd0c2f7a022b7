/** The server's records: a shop, a review, and the body a client posts to
    create a review together with the rules its binding tags impose. */
module Models {

  /** A `float64` coordinate in degrees. Nothing here computes with it; it is
      only stored, copied and compared. */
  type Coordinate = real

  /** A `time.Time`. Only stored and passed through. */
  type Timestamp = int

  datatype Shop = Shop(
    id: string,
    name: string,
    address: string,
    phone: string,
    url: string,
    latitude: Coordinate,
    longitude: Coordinate)

  datatype Review = Review(
    id: string,
    shopId: string,
    reviewer: string,
    visitCount: int,
    priceRating: int,
    tasteRating: int,
    atmosphereRating: int,
    comment: string,
    createdAt: Timestamp)

  datatype ReviewInput = ReviewInput(
    reviewer: string,
    visitCount: int,
    priceRating: int,
    tasteRating: int,
    atmosphereRating: int,
    comment: string)

  /** The fields of a review that the client supplied. */
  function InputOf(r: Review): ReviewInput {
    ReviewInput(r.reviewer, r.visitCount, r.priceRating, r.tasteRating, r.atmosphereRating, r.comment)
  }

  /** The review a server stores for `input`: the input's fields plus the
      identity, the shop and the creation time it assigns. */
  function NewReview(id: string, shopId: string, input: ReviewInput, createdAt: Timestamp): (r: Review)
    ensures InputOf(r) == input
    ensures r.id == id && r.shopId == shopId && r.createdAt == createdAt
  {
    Review(id, shopId, input.reviewer, input.visitCount, input.priceRating,
           input.tasteRating, input.atmosphereRating, input.comment, createdAt)
  }

  // The binding rules, one predicate per tag. "required" asks for a value
  // other than the type's zero value: a non-empty string, a non-zero int.

  predicate RequiredText(s: string) {
    s != ""
  }

  predicate RequiredInt(n: int) {
    n != 0
  }

  predicate Rating(n: int) {
    RequiredInt(n) && n >= 1 && n <= 5
  }

  /** The input passes `binding:"required"`, `"required,min=1"` and
      `"required,min=1,max=5"` on its fields; the comment has no rule. */
  predicate ValidReviewInput(input: ReviewInput) {
    && RequiredText(input.reviewer)
    && RequiredInt(input.visitCount) && input.visitCount >= 1
    && Rating(input.priceRating)
    && Rating(input.tasteRating)
    && Rating(input.atmosphereRating)
  }

  /** What the tags amount to: a non-empty reviewer, at least one visit and
      three ratings from 1 to 5. */
  lemma ValidReviewInputMeans(input: ReviewInput)
    ensures ValidReviewInput(input) <==>
      input.reviewer != "" && input.visitCount >= 1
      && 1 <= input.priceRating <= 5 && 1 <= input.tasteRating <= 5
      && 1 <= input.atmosphereRating <= 5
  {
  }

  /** "required" looks at emptiness only: a reviewer made of spaces and an
      empty comment are accepted. */
  lemma BlankReviewerAndEmptyCommentAccepted()
    ensures ValidReviewInput(ReviewInput(" ", 1, 1, 5, 3, ""))
  {
  }

  /** A zero visit count and a rating of 6 are each refused. */
  lemma OutOfRangeRefused(input: ReviewInput)
    requires input.visitCount == 0 || input.priceRating == 6
    ensures !ValidReviewInput(input)
  {
  }
}
