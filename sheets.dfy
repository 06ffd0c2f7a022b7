/** The spreadsheet-backed store. A sheet range arrives as a table of text
    cells (rows from row 2 on, so without the header row); reading it,
    generating ids and reading the clock are done by the caller, whose
    results are passed in. The sheet shows a float64 cell as `formatFloat`
    writes it and the decoder reads it back with `parseFloat`; a time cell is
    written with `formatTime` (RFC 3339) and read back with `parseTime`. */
module Sheets {
  import opened Outcomes
  import opened Models
  import opened Decimal
  import opened GoStrconv

  type Row = seq<string>
  type Table = seq<Row>

  /** Columns A to G of the "shops" sheet. */
  const ShopColumns: nat := 7
  /** Columns A to I of the "reviews" sheet. */
  const ReviewColumns: nat := 9

  const ShopsReadFailed := "unable to retrieve shops: "
  const ReviewsReadFailed := "unable to retrieve reviews: "
  const ShopNotFound := "shop not found: "
  const ShopWriteFailed := "unable to create shop: "
  const ReviewWriteFailed := "unable to create review: "

  // ----- shops -----

  /** The row CreateShop appends, in column order A to G. */
  function ShopRow(shop: Shop, formatFloat: Coordinate -> string): (row: Row)
    ensures |row| == ShopColumns
  {
    [shop.id, shop.name, shop.address, shop.phone, shop.url,
     formatFloat(shop.latitude), formatFloat(shop.longitude)]
  }

  /** One shop from a row of at least seven cells. */
  function DecodeShop(row: Row, parseFloat: string -> Coordinate): Shop
    requires |row| >= ShopColumns
  {
    Shop(row[0], row[1], row[2], row[3], row[4], parseFloat(row[5]), parseFloat(row[6]))
  }

  /** What GetShops lists for a fetched table: the decoded rows of at least
      seven cells, in row order. */
  function DecodeShops(rows: Table, parseFloat: string -> Coordinate): (shops: seq<Shop>)
    ensures |shops| <= |rows|
  {
    if rows == [] then []
    else
      var last := rows[|rows| - 1];
      DecodeShops(rows[..|rows| - 1], parseFloat)
        + (if |last| >= ShopColumns then [DecodeShop(last, parseFloat)] else [])
  }

  /** Decoding works row by row: a table split in two decodes to the two
      halves' shops, one after the other. */
  lemma {:induction false} DecodeShopsAppend(a: Table, b: Table, parseFloat: string -> Coordinate)
    ensures DecodeShops(a + b, parseFloat) == DecodeShops(a, parseFloat) + DecodeShops(b, parseFloat)
  {
    if b == [] {
      assert a + b == a;
    } else {
      var b' := b[..|b| - 1];
      assert (a + b)[..|a + b| - 1] == a + b';
      DecodeShopsAppend(a, b', parseFloat);
    }
  }

  /** A row with fewer than seven cells contributes nothing, wherever it is. */
  lemma ShortShopRowSkipped(a: Table, row: Row, b: Table, parseFloat: string -> Coordinate)
    requires |row| < ShopColumns
    ensures DecodeShops(a + [row] + b, parseFloat) == DecodeShops(a + b, parseFloat)
  {
    DecodeShopsAppend(a + [row], b, parseFloat);
    DecodeShopsAppend(a, [row], parseFloat);
    DecodeShopsAppend(a, b, parseFloat);
    assert DecodeShops([row], parseFloat) == DecodeShops([], parseFloat) + [];
  }

  /** When every row is long enough, there is exactly one shop per row, and
      shop k is row k decoded. */
  lemma {:induction false} OneShopPerRow(rows: Table, parseFloat: string -> Coordinate)
    requires forall i :: 0 <= i < |rows| ==> |rows[i]| >= ShopColumns
    ensures |DecodeShops(rows, parseFloat)| == |rows|
    ensures forall k :: 0 <= k < |rows| ==> DecodeShops(rows, parseFloat)[k] == DecodeShop(rows[k], parseFloat)
  {
    if rows != [] {
      OneShopPerRow(rows[..|rows| - 1], parseFloat);
    }
  }

  /** A written shop row reads back as the shop, provided the sheet shows
      each coordinate in a form that parses back to it. */
  lemma ShopRowRoundTrip(shop: Shop, formatFloat: Coordinate -> string, parseFloat: string -> Coordinate)
    requires parseFloat(formatFloat(shop.latitude)) == shop.latitude
    requires parseFloat(formatFloat(shop.longitude)) == shop.longitude
    ensures DecodeShop(ShopRow(shop, formatFloat), parseFloat) == shop
  {
  }

  /** The position of the first shop with the given id, if any. */
  function FirstShopIndex(shops: seq<Shop>, id: string): (r: Option<nat>)
    ensures r.Some? ==> r.value < |shops| && shops[r.value].id == id
    ensures r.Some? ==> forall j :: 0 <= j < r.value ==> shops[j].id != id
    ensures r.None? <==> forall j :: 0 <= j < |shops| ==> shops[j].id != id
  {
    if shops == [] then None
    else if shops[0].id == id then Some(0)
    else match FirstShopIndex(shops[1..], id)
      case None => None
      case Some(k) => Some(k + 1)
  }

  /** `GetShops`: a failed read is reported with the "retrieve shops" prefix;
      otherwise every row of at least seven cells becomes a shop. */
  method GetShops(response: Result<Table>, parseFloat: string -> Coordinate) returns (result: Result<seq<Shop>>)
    ensures response.Err? ==> result == Err(ShopsReadFailed + response.message)
    ensures response.Ok? ==> result == Ok(DecodeShops(response.value, parseFloat))
  {
    if response.Err? {
      return Err(ShopsReadFailed + response.message);
    }
    var rows := response.value;
    var shops: seq<Shop> := [];
    for i := 0 to |rows|
      invariant shops == DecodeShops(rows[..i], parseFloat)
    {
      assert rows[..i + 1][..i] == rows[..i];
      var row := rows[i];
      if |row| < ShopColumns {
        continue;
      }
      shops := shops + [DecodeShop(row, parseFloat)];
    }
    assert rows[..|rows|] == rows;
    return Ok(shops);
  }

  /** `GetShopByID`: the first listed shop with the id; "shop not found" when
      none has it; a failed read is passed on unchanged. */
  method GetShopByID(response: Result<Table>, id: string, parseFloat: string -> Coordinate) returns (result: Result<Shop>)
    ensures response.Err? ==> result == Err(ShopsReadFailed + response.message)
    ensures response.Ok? ==>
      var shops := DecodeShops(response.value, parseFloat);
      match FirstShopIndex(shops, id)
      case Some(k) => result == Ok(shops[k])
      case None => result == Err(ShopNotFound + id)
  {
    var listed := GetShops(response, parseFloat);
    if listed.Err? {
      return Err(listed.message);
    }
    var shops := listed.value;
    for i := 0 to |shops|
      invariant forall j :: 0 <= j < i ==> shops[j].id != id
    {
      if shops[i].id == id {
        return Ok(shops[i]);
      }
    }
    return Err(ShopNotFound + id);
  }

  /** `CreateShop`: the record gets the fresh id (written through the
      caller's pointer, whatever the append's outcome) and its row is
      appended; a failed append is reported. */
  method CreateShop(shop: Shop, freshId: string, appendError: Option<string>, formatFloat: Coordinate -> string)
    returns (saved: Shop, row: Row, error: Option<string>)
    ensures saved.id == freshId && saved.(id := shop.id) == shop
    ensures row == ShopRow(saved, formatFloat)
    ensures appendError.None? <==> error.None?
    ensures appendError.Some? ==> error == Some(ShopWriteFailed + appendError.value)
  {
    saved := shop.(id := freshId);
    row := [saved.id, saved.name, saved.address, saved.phone, saved.url,
            formatFloat(saved.latitude), formatFloat(saved.longitude)];
    if appendError.Some? {
      error := Some(ShopWriteFailed + appendError.value);
    } else {
      error := None;
    }
  }

  /** A shop created with an id no listed shop has is what GetShopByID then
      finds for that id: the stored record, coordinates included when the
      sheet shows them in a form that parses back. */
  lemma CreatedShopIsFound(rows: Table, shop: Shop, formatFloat: Coordinate -> string, parseFloat: string -> Coordinate)
    requires forall s :: s in DecodeShops(rows, parseFloat) ==> s.id != shop.id
    requires parseFloat(formatFloat(shop.latitude)) == shop.latitude
    requires parseFloat(formatFloat(shop.longitude)) == shop.longitude
    ensures var shops := DecodeShops(rows + [ShopRow(shop, formatFloat)], parseFloat);
      && FirstShopIndex(shops, shop.id) == Some(|DecodeShops(rows, parseFloat)|)
      && shops[|DecodeShops(rows, parseFloat)|] == shop
  {
    var before := DecodeShops(rows, parseFloat);
    var row := ShopRow(shop, formatFloat);
    DecodeShopsAppend(rows, [row], parseFloat);
    assert DecodeShops([row], parseFloat) == DecodeShops([], parseFloat) + [DecodeShop(row, parseFloat)];
    ShopRowRoundTrip(shop, formatFloat, parseFloat);
    FirstShopIndexOfAppended(before, shop);
  }

  /** A shop appended after shops that all carry other ids is found first at
      its own position. */
  lemma FirstShopIndexOfAppended(before: seq<Shop>, shop: Shop)
    requires forall s :: s in before ==> s.id != shop.id
    ensures FirstShopIndex(before + [shop], shop.id) == Some(|before|)
  {
    var shops := before + [shop];
    assert forall j :: 0 <= j < |before| ==> shops[j] == before[j] && before[j] in before;
    assert shops[|before|].id == shop.id;
  }

  // ----- reviews -----

  /** The row CreateReview appends, in column order A to I; whole numbers
      appear in the sheet as their decimal text. */
  function ReviewRow(review: Review, formatTime: Timestamp -> string): (row: Row)
    ensures |row| == ReviewColumns
  {
    [review.id, review.shopId, review.reviewer,
     FormatInt(review.visitCount), FormatInt(review.priceRating),
     FormatInt(review.tasteRating), FormatInt(review.atmosphereRating),
     review.comment, formatTime(review.createdAt)]
  }

  /** One review from a row of at least nine cells; a numeric cell that does
      not parse reads as 0, since the parse errors are dropped. */
  function DecodeReview(row: Row, parseTime: string -> Timestamp): Review
    requires |row| >= ReviewColumns
  {
    Review(row[0], row[1], row[2], Atoi(row[3]), Atoi(row[4]), Atoi(row[5]), Atoi(row[6]),
           row[7], parseTime(row[8]))
  }

  /** A row GetReviewsByShopID keeps for `shopId`. */
  predicate IsReviewRowOf(row: Row, shopId: string) {
    |row| >= ReviewColumns && row[1] == shopId
  }

  /** What GetReviewsByShopID lists: the decoded rows of at least nine cells
      whose shop column is `shopId`, in row order. */
  function DecodeReviews(rows: Table, shopId: string, parseTime: string -> Timestamp): (reviews: seq<Review>)
    ensures |reviews| <= |rows|
    ensures forall k :: 0 <= k < |reviews| ==> reviews[k].shopId == shopId
  {
    if rows == [] then []
    else
      var last := rows[|rows| - 1];
      DecodeReviews(rows[..|rows| - 1], shopId, parseTime)
        + (if IsReviewRowOf(last, shopId) then [DecodeReview(last, parseTime)] else [])
  }

  lemma {:induction false} DecodeReviewsAppend(a: Table, b: Table, shopId: string, parseTime: string -> Timestamp)
    ensures DecodeReviews(a + b, shopId, parseTime) == DecodeReviews(a, shopId, parseTime) + DecodeReviews(b, shopId, parseTime)
  {
    if b == [] {
      assert a + b == a;
    } else {
      var b' := b[..|b| - 1];
      assert (a + b)[..|a + b| - 1] == a + b';
      DecodeReviewsAppend(a, b', shopId, parseTime);
    }
  }

  /** A row is listed for a shop exactly when it is long enough and names
      that shop; then it is listed as its decoding. */
  lemma ReviewRowListed(a: Table, row: Row, b: Table, shopId: string, parseTime: string -> Timestamp)
    ensures DecodeReviews(a + [row] + b, shopId, parseTime) ==
      DecodeReviews(a, shopId, parseTime)
      + (if IsReviewRowOf(row, shopId) then [DecodeReview(row, parseTime)] else [])
      + DecodeReviews(b, shopId, parseTime)
  {
    DecodeReviewsAppend(a + [row], b, shopId, parseTime);
    DecodeReviewsAppend(a, [row], shopId, parseTime);
    assert [row][..0] == [];
  }

  /** A numeric cell that is not integer text reads as 0. */
  lemma MalformedCountsReadAsZero(row: Row, parseTime: string -> Timestamp)
    requires |row| >= ReviewColumns
    requires !IsDecimalText(row[3]) && !IsDecimalText(row[4])
    ensures DecodeReview(row, parseTime).visitCount == 0
    ensures DecodeReview(row, parseTime).priceRating == 0
  {
    AtoiOfMalformed(row[3]);
    AtoiOfMalformed(row[4]);
  }

  /** A written review row reads back with the same id, shop, reviewer,
      counts, ratings and comment; the time is what the sheet's text of it
      parses to. Go ints are 64-bit, so the counts fit in int64. */
  lemma ReviewRowRoundTrip(review: Review, formatTime: Timestamp -> string, parseTime: string -> Timestamp)
    requires IsInt64(review.visitCount) && IsInt64(review.priceRating)
    requires IsInt64(review.tasteRating) && IsInt64(review.atmosphereRating)
    ensures DecodeReview(ReviewRow(review, formatTime), parseTime)
      == review.(createdAt := parseTime(formatTime(review.createdAt)))
  {
    AtoiFormatInt(review.visitCount);
    AtoiFormatInt(review.priceRating);
    AtoiFormatInt(review.tasteRating);
    AtoiFormatInt(review.atmosphereRating);
  }

  /** `GetReviewsByShopID`: a failed read is reported with the "retrieve
      reviews" prefix; otherwise the shop's reviews in row order. */
  method GetReviewsByShopID(response: Result<Table>, shopId: string, parseTime: string -> Timestamp)
    returns (result: Result<seq<Review>>)
    ensures response.Err? ==> result == Err(ReviewsReadFailed + response.message)
    ensures response.Ok? ==> result == Ok(DecodeReviews(response.value, shopId, parseTime))
  {
    if response.Err? {
      return Err(ReviewsReadFailed + response.message);
    }
    var rows := response.value;
    var reviews: seq<Review> := [];
    for i := 0 to |rows|
      invariant reviews == DecodeReviews(rows[..i], shopId, parseTime)
    {
      assert rows[..i + 1][..i] == rows[..i];
      var row := rows[i];
      if |row| < ReviewColumns {
        continue;
      }
      if row[1] != shopId {
        continue;
      }
      reviews := reviews + [DecodeReview(row, parseTime)];
    }
    assert rows[..|rows|] == rows;
    return Ok(reviews);
  }

  /** `CreateReview`: a review with a fresh id, the given shop, every input
      field unchanged and the current time; its row is appended, and a
      failed append is reported instead of the review. */
  method CreateReview(shopId: string, input: ReviewInput, freshId: string, now: Timestamp,
                      appendError: Option<string>, formatTime: Timestamp -> string)
    returns (result: Result<Review>, row: Row)
    ensures appendError.None? ==> result.Ok?
    ensures result.Ok? ==>
      && result.value.id == freshId && result.value.shopId == shopId
      && InputOf(result.value) == input && result.value.createdAt == now
      && row == ReviewRow(result.value, formatTime)
    ensures appendError.Some? ==> result == Err(ReviewWriteFailed + appendError.value)
    ensures row == ReviewRow(NewReview(freshId, shopId, input, now), formatTime)
  {
    var review := NewReview(freshId, shopId, input, now);
    row := [review.id, review.shopId, review.reviewer,
            FormatInt(review.visitCount), FormatInt(review.priceRating),
            FormatInt(review.tasteRating), FormatInt(review.atmosphereRating),
            review.comment, formatTime(review.createdAt)];
    if appendError.Some? {
      return Err(ReviewWriteFailed + appendError.value), row;
    }
    return Ok(review), row;
  }

  /** After CreateReview appends its row, listing that shop's reviews gives
      the earlier ones followed by the new review (its time as read back),
      and listing any other shop is unchanged. */
  lemma CreatedReviewIsListed(rows: Table, review: Review, other: string,
                              formatTime: Timestamp -> string, parseTime: string -> Timestamp)
    requires IsInt64(review.visitCount) && IsInt64(review.priceRating)
    requires IsInt64(review.tasteRating) && IsInt64(review.atmosphereRating)
    requires other != review.shopId
    ensures DecodeReviews(rows + [ReviewRow(review, formatTime)], review.shopId, parseTime)
      == DecodeReviews(rows, review.shopId, parseTime)
         + [review.(createdAt := parseTime(formatTime(review.createdAt)))]
    ensures DecodeReviews(rows + [ReviewRow(review, formatTime)], other, parseTime)
      == DecodeReviews(rows, other, parseTime)
  {
    var row := ReviewRow(review, formatTime);
    ReviewRowListed(rows, row, [], review.shopId, parseTime);
    ReviewRowListed(rows, row, [], other, parseTime);
    assert rows + [row] + [] == rows + [row];
    ReviewRowRoundTrip(review, formatTime, parseTime);
  }
}
