# LunchMap in Dafny

LunchMap is a map of lunch places with reviews. A React client shows shops as
map markers. Selecting a shop opens its reviews and a review form. In add
mode, clicking the map opens a form that registers a new shop at that point.
A Go server keeps shops and reviews as rows of a Google spreadsheet.

This project models the logic of both sides and proves properties of it:

- `AppState.App` is the coordinator from `App.tsx`. It holds the shop list,
  the selection, the loading flag, the banner error, add mode and the pending
  location. Its invariant is that add mode and a selection exclude each other,
  and that a location is pending only in add mode.
- `ShopFormUI.ShopForm` and `ReviewFormUI.ReviewForm` are the two forms. Each
  holds a draft, a single-flight `submitting` flag and an inline error. The
  shop form keeps the coordinates it was opened with. The review form keeps
  its ratings in 1..5.
- `ReviewPanelUI.ReviewPanel` fetches a shop's reviews and refreshes them after
  a post. `ReviewPanelUI.OverallRating` computes a review's overall rating.
- `Sheets` covers the server's sheet codec. It decodes rows into shops and
  reviews, filters reviews by shop, finds a shop by id, and encodes new rows.
  Each loop is a method proved against a recursive function. Lemmas prove the
  round trips: a created shop is then found by id, and a created review is
  then listed for its shop.
- `Models` holds the server records and the `ReviewInput` rules given by its
  binding tags.
- `GoStrconv` models Go's `strconv.Atoi`. `JsText` models JavaScript's `trim`
  and `parseInt(…, 10)`. `Decimal` is the decimal digit text they share.

Every handler that awaits a call is one atomic step. The outcome of the call
is a parameter: `Settled.Fulfilled(value)` or `Settled.Rejected`. The calls a
handler makes come back as a sequence, in order, so "never calls X" can be
stated. On the server, the fetched sheet range, the append's error, the fresh
uuid and the current time are parameters. The sheet's text for a float and a
time comes from function parameters, with their parsers.

## Model

| member | source | states |
|---|---|---|
| `GoStrconv.Atoi` | backend/services/sheets.go:113-116 | a numeric cell always reads as an int64; integer text within range reads as its value |
| `GoStrconv.AtoiFormatInt` | backend/services/sheets.go:113-116 | reading back the decimal text of any int64 gives the same int |
| `GoStrconv.AtoiOfMalformed` | backend/services/sheets.go:113-116 | a cell that is not integer text reads as 0, because the parse error is discarded |
| `JsText.TrimEmptyIffBlank` | frontend/src/components/ShopForm.tsx:34-37 | `trim()` yields the empty string exactly when the text is empty or all whitespace |
| `JsText.TrimmedIsEmpty` | frontend/src/components/ReviewForm.tsx:25 | the forms' `!text.trim()` test answers true exactly for empty or whitespace-only text |
| `JsText.ParseIntFormatInt` | frontend/src/components/ReviewForm.tsx:51-59 | `parseInt(…, 10)` reads back any integer written in decimal, e.g. a selector's option value |
| `Models.NewReview` | backend/models/review.go:5-15 | a stored review carries every input field unchanged, plus its id, shop id and creation time |
| `Models.ValidReviewInputMeans` | backend/models/review.go:17-24 | the binding tags accept exactly a non-empty reviewer, a visit count of at least 1 and three ratings in 1..5 |
| `Models.BlankReviewerAndEmptyCommentAccepted` | backend/models/review.go:18-23 | "required" checks emptiness only: a whitespace reviewer passes, and the comment may be empty |
| `Models.OutOfRangeRefused` | backend/models/review.go:19-20 | a visit count of 0 or a price rating of 6 is refused |
| `Sheets.ShopRow` | backend/services/sheets.go:80-82 | a created shop is written as exactly seven cells, columns A to G |
| `Sheets.DecodeShops` | backend/services/sheets.go:39-57 | a fetched table gives at most one shop per row |
| `Sheets.DecodeShopsAppend` | backend/services/sheets.go:40-57 | rows decode one at a time, in order: decoding `a + b` gives the shops of `a` followed by those of `b` |
| `Sheets.ShortShopRowSkipped` | backend/services/sheets.go:41-43 | a row of fewer than seven cells adds no shop, wherever it is |
| `Sheets.OneShopPerRow` | backend/services/sheets.go:40-56 | if every row has at least seven cells, shop k is row k decoded, and the counts match |
| `Sheets.ShopRowRoundTrip` | backend/services/sheets.go:45-56 | a written shop row decodes to the same shop (cells 0-4 verbatim), given coordinates that read back |
| `Sheets.FirstShopIndex` | backend/services/sheets.go:68-72 | finds the first shop with the id, with no earlier match; finds none exactly when no shop has the id |
| `Sheets.GetShops` | backend/services/sheets.go:33-60 | a failed read gives the "unable to retrieve shops" error; otherwise the loop lists exactly the decoded table |
| `Sheets.GetShopByID` | backend/services/sheets.go:62-75 | returns the first listed shop with the id, else "shop not found: id"; a read error is passed on unchanged |
| `Sheets.CreateShop` | backend/services/sheets.go:77-95 | assigns only the fresh id, even when the append fails; writes that record's row; an append error is reported |
| `Sheets.CreatedShopIsFound` | backend/services/sheets.go:77-82 | after the append, looking up the fresh id finds the new record, as the first match, after all earlier shops |
| `Sheets.FirstShopIndexOfAppended` | backend/services/sheets.go:68-70 | a shop appended after shops with other ids is the first match for its id, at its own position |
| `Sheets.ReviewRow` | backend/services/sheets.go:148-160 | a created review is written as exactly nine cells, columns A to I |
| `Sheets.DecodeReviews` | backend/services/sheets.go:103-130 | every review listed for a shop id has that shop id, and there is at most one per row |
| `Sheets.DecodeReviewsAppend` | backend/services/sheets.go:104-130 | review rows decode one at a time, in order, over concatenated tables |
| `Sheets.ReviewRowListed` | backend/services/sheets.go:104-111 | a row is listed for a shop exactly when it has at least nine cells and column B is that shop id |
| `Sheets.MalformedCountsReadAsZero` | backend/services/sheets.go:113-116 | a visit count or price cell that is not integer text decodes to 0 |
| `Sheets.ReviewRowRoundTrip` | backend/services/sheets.go:119-128 | a written review row decodes to the same id, shop id, reviewer, visit count, ratings and comment |
| `Sheets.GetReviewsByShopID` | backend/services/sheets.go:97-133 | a failed read gives the "unable to retrieve reviews" error; otherwise the loop lists exactly the shop's decoded rows |
| `Sheets.CreateReview` | backend/services/sheets.go:135-173 | the review has the fresh id, the given shop, every input field unchanged and the current time; its row is appended; an append error replaces it |
| `Sheets.CreatedReviewIsListed` | backend/services/sheets.go:148-166 | after the append, the shop's list is the earlier reviews plus the new one; other shops' lists are unchanged |
| `AppState.App.constructor` | frontend/src/App.tsx:9-14 | starts loading, browsing, with no shops, no selection, no error and no pending location |
| `AppState.App.FetchShops` | frontend/src/App.tsx:16-26 | success stores the list (null counts as empty) and clears the error; failure keeps the list and sets the banner; loading ends either way |
| `AppState.App.HandleShopSelect` | frontend/src/App.tsx:32-36 | a marker click selects its shop outside add mode and is ignored in add mode |
| `AppState.App.HandleMapClick` | frontend/src/App.tsx:42-46 | in add mode the click replaces the pending location; outside it the click is ignored |
| `AppState.App.HandleAddModeToggle` | frontend/src/App.tsx:48-54 | flips the mode and clears the pending location; entering add mode clears the selection, leaving it keeps the selection |
| `AppState.App.HandleShopSubmit` | frontend/src/App.tsx:56-61 | a failed create throws and changes nothing; otherwise it refetches, clears the location and returns to browsing, even if the refetch fails |
| `AppState.App.HandleShopFormCancel` | frontend/src/App.tsx:63-65 | clears the pending location and keeps the mode |
| `ShopFormUI.WithField` | frontend/src/components/ShopForm.tsx:51-57 | an input change sets its own field; every other field and both coordinates stay unchanged |
| `ShopFormUI.ShopForm.constructor` | frontend/src/components/ShopForm.tsx:20-29 | the draft starts empty with the opening coordinates; not submitting, no error |
| `ShopFormUI.ShopForm.HandleSubmit` | frontend/src/components/ShopForm.tsx:31-49 | a blank name sets the name error and sends nothing; otherwise the whole draft is sent and a failure sets the registration error; the draft is kept; the flag is released on every path |
| `ShopFormUI.ShopForm.HandleChange` | frontend/src/components/ShopForm.tsx:51-57 | updates exactly the named field; the coordinates never change |
| `ReviewFormUI.WithField` | frontend/src/components/ReviewForm.tsx:51-59 | reviewer and comment take the text; the numeric fields take `parseInt`, which may be NaN; other fields are unchanged |
| `ReviewFormUI.RatingOptionKeepsRange` | frontend/src/components/ReviewForm.tsx:91-137 | choosing a selector option keeps all three ratings in 1..5 |
| `ClientTypes.ToWire` | backend/handlers/review.go:34-38 | the posted draft binds exactly when every number is NaN (sent as `null`) or fits a 64-bit int, and keeps the reviewer and comment |
| `ReviewFormUI.ServerAcceptance` | frontend/src/components/ReviewForm.tsx:25-34 | with ratings in range, the server binds and accepts a posted draft exactly when the reviewer is non-empty and the visit count is a number from 1 up to the largest 64-bit integer |
| `ReviewFormUI.ClientAndServerChecksDiffer` | frontend/src/components/ReviewForm.tsx:25-28 | the client stops a whitespace reviewer that the server would accept, and lets through a cleared visit count, or one past 2^63 - 1, that the server refuses |
| `ReviewFormUI.ReviewForm.constructor` | frontend/src/components/ReviewForm.tsx:11-20 | the draft starts as reviewer "", visit count 1, ratings 3, comment ""; not submitting, no error |
| `ReviewFormUI.ReviewForm.ChangeShop` | frontend/src/components/ReviewPanel.tsx:124 | a new selection changes only the shop the form posts to |
| `ReviewFormUI.ReviewForm.HandleSubmit` | frontend/src/components/ReviewForm.tsx:22-49 | a blank reviewer sets the name error and calls nothing; success posts the draft as is, resets to the defaults and calls onReviewAdded once; failure keeps the draft and sets the error; the flag is released |
| `ReviewFormUI.ReviewForm.HandleChange` | frontend/src/components/ReviewForm.tsx:51-59 | the draft becomes the field update, and the ratings stay in range |
| `ReviewPanelUI.OverallRating` | frontend/src/components/ReviewPanel.tsx:43-47 | the result is the integer nearest to 100 * (p + t + a) / 15 |
| `ReviewPanelUI.OverallRatingIsRoundHalfUp` | frontend/src/components/ReviewPanel.tsx:43-47 | the result equals round((p + t + a) / 15 * 100) with halves rounded up |
| `ReviewPanelUI.OverallRatingOfExtremes` | frontend/src/components/ReviewPanel.tsx:43-47 | all fives give 100; all ones give 20 |
| `ReviewPanelUI.OverallRatingRange` | frontend/src/components/ReviewPanel.tsx:43-47 | with every rating in 1..5 the result is in 20..100 |
| `ReviewPanelUI.OverallRatingMonotone` | frontend/src/components/ReviewPanel.tsx:43-47 | raising any rating never lowers the result |
| `ReviewPanelUI.ReviewPanel.constructor` | frontend/src/components/ReviewPanel.tsx:11-14 | mounted with no shop, no reviews, not loading and no error |
| `ReviewPanelUI.ReviewPanel.FetchReviews` | frontend/src/components/ReviewPanel.tsx:22-36 | with no shop nothing happens and nothing is called; success stores the list (null counts as empty) and clears the error; failure empties the list and sets the error; loading ends |
| `ReviewPanelUI.ReviewPanel.ShopChanged` | frontend/src/components/ReviewPanel.tsx:16-20 | a newly passed shop has its reviews fetched; deselecting or passing the same shop fetches nothing |
| `ReviewPanelUI.ReviewPanel.HandleReviewAdded` | frontend/src/components/ReviewPanel.tsx:38-41 | refetches the current shop's reviews first, then notifies the parent |
| `ReviewPanelUI.PostReview` | frontend/src/components/ReviewPanel.tsx:38-41 | the panel refetches exactly when the reviewer is not blank and the post succeeds, and then the form is back at its defaults and the panel shows the server's list, or an empty list and the fetch error; a blank reviewer or a failed post leaves the panel as it was, with the form's message shown |

## Behaviour of the code worth knowing

Three things the code does that a reader might expect otherwise. The model
does what the code does.

- Stale review responses are applied. `fetchReviews`
  (frontend/src/components/ReviewPanel.tsx:22-36) applies every response;
  it has no check that the shop it asked about is still the selected one.
  `ReviewPanel.FetchReviews` does the same.
- The client validates only the reviewer
  (frontend/src/components/ReviewForm.tsx:25-28). The visit count and the
  ratings are checked only by the server's binding tags
  (backend/models/review.go:19-22).
  `ReviewFormUI.ClientAndServerChecksDiffer` shows the gap.
- Deselecting a shop does not empty the review list. The panel's effect does
  nothing when the shop becomes null
  (frontend/src/components/ReviewPanel.tsx:16-20). The old list stays in
  state, although it is not shown.

## Left out

- The HTTP client (frontend/src/api/client.ts), the gin handlers and routing
  (backend/handlers/shop.go, backend/handlers/review.go, backend/main.go) and
  environment configuration (backend/config/config.go). They are transport
  and wiring. Each API call is an outcome parameter instead. `ClientTypes.ToWire`
  covers the part of JSON binding the lemmas need: NaN becomes `null`,
  which leaves Go's int at 0, and a number outside the 64-bit range fails
  the decoding.
- `NewSheetsService` (backend/services/sheets.go:20-31): credential setup only.
- Google Sheets `Values.Get` and `Values.Append`, `uuid.New()` and `time.Now()`.
  The fetched rows (from row 2 on), the append error, the fresh id and the
  time are parameters. The round-trip lemmas assume that a later read
  returns the earlier rows followed by the appended row. They also assume
  the sheet shows an int as its decimal text.
- Floating point. Coordinates are opaque `real`s. The sheet's float text and
  its parse are function parameters. Round trips through them are
  hypotheses of the lemmas that need them. Coordinate display with
  `toFixed(6)` is not modelled.
- Times. `Timestamp` is opaque. RFC 3339 formatting and parsing are function
  parameters. Date display (`formatDate`) is not modelled.
- The map widget (frontend/src/components/Map.tsx): rendering only. Its click
  guard repeats the add-mode check in `HandleMapClick`.
- JSX rendering, except two predicates: the disabled submit buttons
  (`SubmitEnabled`) and the shop form's presence (`App.ShowsShopForm`).
- `App.handleReviewAdded` (frontend/src/App.tsx:38-40) has an empty body. It
  is modelled only as the `ReviewAdded` call that the panel makes.
- Async interleaving and React's render timing. Each handler is one atomic
  step. So the `submitting == true` state during an awaited call is never
  visible between events, and the forms' `Valid()` states this.
- `GoStrconv.Atoi`: a digit run that already overflows uint64 before a later
  invalid character makes Go return a clamped bound. The model returns 0
  for that text.
- `JsText.ParseInt`: JavaScript numbers lose precision above 2^53, and
  `parseInt("-0")` is negative zero. Both are modelled as exact integers.
