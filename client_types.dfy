/** The request bodies the client builds. Shops and reviews it receives have
    the server's shape (`Models.Shop`, `Models.Review`). */
module ClientTypes {
  import opened Models
  import opened JsText
  import opened Outcomes
  import opened GoStrconv

  /** The body of a shop registration. */
  datatype ShopInput = ShopInput(
    name: string,
    address: string,
    phone: string,
    url: string,
    latitude: Coordinate,
    longitude: Coordinate)

  /** The review form's draft. Its numbers come from `parseInt`, so each may
      be NaN. */
  datatype ReviewDraft = ReviewDraft(
    reviewer: string,
    visitCount: JsNumber,
    priceRating: JsNumber,
    tasteRating: JsNumber,
    atmosphereRating: JsNumber,
    comment: string)

  /** Whether a number can be decoded into the server's `int` field. NaN is
      sent as `null`, which leaves the Go field alone; a number outside the
      64-bit range makes the JSON decoding fail. */
  predicate FitsWire(x: JsNumber) {
    x.NaN? || IsInt64(x.n)
  }

  /** A number as the server's int field receives it: `null` leaves the
      field at its zero value. */
  function WireInt(x: JsNumber): (n: int)
    requires FitsWire(x)
    ensures IsInt64(n)
    ensures x.Num? ==> n == x.n
    ensures x.NaN? ==> n == 0
  {
    match x
    case Num(n) => n
    case NaN => 0
  }

  /** `ShouldBindJSON` of a posted draft: the `ReviewInput` the server binds,
      or None when a number does not fit Go's `int` and the handler answers
      400 before any validation. */
  function ToWire(d: ReviewDraft): (r: Option<ReviewInput>)
    ensures r.Some? <==> FitsWire(d.visitCount) && FitsWire(d.priceRating)
                         && FitsWire(d.tasteRating) && FitsWire(d.atmosphereRating)
    ensures r.Some? ==> r.value.reviewer == d.reviewer && r.value.comment == d.comment
  {
    if FitsWire(d.visitCount) && FitsWire(d.priceRating) && FitsWire(d.tasteRating) && FitsWire(d.atmosphereRating) then
      Some(ReviewInput(d.reviewer, WireInt(d.visitCount), WireInt(d.priceRating),
                       WireInt(d.tasteRating), WireInt(d.atmosphereRating), d.comment))
    else None
  }
}
