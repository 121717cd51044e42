# Ecommerce-Api in Dafny

A model of the core of the Ecommerce-Api service, an Express and MongoDB shop back end, with proofs
about that model. Each route handler is a Dafny method on one `Database.Db` object, which holds the
collections as fields: products, carts, cart items, users, orders, the sales ledger, feedbacks,
password-reset OTPs and reset tokens. Each method states the answer the client gets first and the
store afterwards. A `Reply` is a success, a failure with its HTTP error kind, or `Unanswered`: an
exception escaping an async handler or a form callback leaves the request without an answer.

What the model covers:

- The cart routes (`api/routes/cart.js`):
  - reading the cart;
  - adding, removing and stepping items;
  - the two-phase checkout: stock check and total, pending order, charge, settlement.
- The product routes (`api/routes/product.js`):
  - trending products;
  - search with cursor paging;
  - creating and updating a product;
  - the admin check.
- The two feedback routers:
  - `api/routes/feedback.js`, which the application mounts;
  - `api/routes/feedbackRoutes.js`, a second version that `index.js` does not mount.
- The password-reset router (`api/routes/password.js`), which `index.js` does not mount.
- The helpers `checkFileType.js` and `getTodayDate.js`.
- The Order schema with its payment-status code table (`api/models/order.js`).

`Database.Consistent` is the invariant every state-changing route keeps:

- a user's cart exists and is open;
- items name existing carts and products;
- an item in an open cart is open;
- quantities are within 1..5;
- item ids are unique;
- one open item per product per cart;
- open items carry their product's current price, name and description;
- e-mail addresses are unique;
- every stored feedback has its creation time.

`Ratings.RatingsTallied` states the invariant the product's `total_stars` and `total_reviews` are
meant to keep. Some routes keep it, and the model shows which do not.

These are inputs to the methods:

- fresh ids;
- the clock;
- random draws;
- the payment provider's answer;
- the mail service's failure;
- `validatePassword`;
- sha256;
- the name-matching regular expression;
- the images the upload service returns.

Where the service's design notes and the code disagree, the model follows the code:

- The checkout charges each item at the product's current price (cart.js:275), not at the price
  copied into the cart item.
- A failed stock check (cart.js:268-274) answers with an internal error, but the handler goes on:
  the order is still created, charged and settled. Nothing aborts the transaction.
- Settlement subtracts units without a floor (cart.js:332-348), so stock can go negative.
- The order's `order_status` is written (cart.js:289) but the schema has no such path, so it is
  never stored.
- `POST /product/new` accepts an empty array of files: it then stores a product without images.

## Model

| member | source | states |
|---|---|---|
| FileType.FileFilter | api/helper-methods/checkFileType.js:21-27 | a file is allowed exactly when its MIME type is image/jpg, image/jpeg or image/png |
| FileType.IsFileValid | api/helper-methods/checkFileType.js:1-6 | valid exactly when a file is present, of an allowed type and of positive size |
| FileType.AreFilesValid | api/helper-methods/checkFileType.js:8-20 | a missing upload is invalid; one file is judged by isFileValid; an array is valid exactly when every file has an allowed type (sizes are not checked) |
| TodayDate.FormatDate | api/helper-methods/getTodayDate.js:1-17 | `getTodayDate` for a given day, 0-based month and year: the day, the month's English name and the year joined by '-' (its properties are the lemmas below) |
| TodayDate.FormatDateSegments | api/helper-methods/getTodayDate.js:1-17 | the date string splits at '-' into the day, the English month name and the year |
| TodayDate.FormatDateDashes | api/helper-methods/getTodayDate.js:17 | a date with a non-negative year has exactly two dashes |
| TodayDate.NegativeYearDashes | api/helper-methods/getTodayDate.js:17 | a negative year adds a third dash, so the format cannot be split back |
| TodayDate.FormatDateRoundTrip | api/helper-methods/getTodayDate.js:1-17 | parsing the formatted date gives back day, month and year |
| TodayDate.MonthIndexOf | api/helper-methods/getTodayDate.js:2-15 | each month name maps back to its index |
| TodayDate.ParseNatToString | api/helper-methods/getTodayDate.js:17 | a number's decimal text reads back as that number |
| OrderModel.Code | api/models/order.js:59-65 | every payment state has a code in 1..6 |
| OrderModel.FromCode | api/models/order.js:59-65 | a number names a payment state exactly when it lies in 1..6 |
| OrderModel.CodeRoundTrip | api/models/order.js:59-65 | codes and payment states are in one-to-one correspondence, both ways |
| OrderModel.Validate | api/models/order.js:2-55 | a document is stored exactly when every required path is present, and the stored order carries the document's values |
| OrderModel.OrderStatusDropped | api/models/order.js:2-55 | an `order_status` value changes neither validation nor the stored order |
| Sorting.SortDesc | api/routes/product.js:75-77 | the result is ordered by non-increasing key and is a permutation of the input |
| Sorting.InsertBehind | api/routes/product.js:75-77 | an element placed behind a larger head keeps the sequence ordered, and the result holds exactly the old elements and the new one |
| Trending.SoldSince | api/routes/product.js:53-55 | a ledger line is kept exactly when it was ordered at or after the cut-off |
| Trending.CountSold | api/routes/product.js:57-67 | one entry per sold product, each holding the sum of that product's units, covering exactly the sold products |
| Trending.CountStep | api/routes/product.js:57-67 | one more ledger line keeps the map summing every product's units over the lines seen |
| Trending.SoldTotalAbsent | api/routes/product.js:57-67 | a product absent from the ledger has sold nothing |
| Trending.TopIds | api/routes/product.js:79-81 | the first min(n, length) ids of the sorted entries, in order |
| Trending.TopFacts | api/routes/product.js:75-81 | the first four ids are distinct, sold, in non-increasing order of units, and no product left out sold more than a listed one |
| Trending.TrendingProducts | api/routes/product.js:36-95 | exactly min(4, number of products sold since the cut-off) ids, each a sold product listed once, best sellers first, none left out outselling one listed |
| Trending.EntryCount | api/routes/product.js:57-67 | entries with distinct product ids name as many products as there are entries |
| Trending.EntryIdsCons | api/routes/product.js:57-67 | the products of a list of entries are the first one's and the rest's, and with distinct ids the first is not among the rest |
| Search.PageSize | api/routes/product.js:129-136 | a missing limit is 10, a limit outside 1..100 is refused, any other limit is kept |
| Search.Candidates | api/routes/product.js:139-151 | a product is a candidate exactly when its name matches and, given a cursor, it is older than the cursor |
| Search.Search | api/routes/product.js:123-166 | an empty query or bad limit is refused with an internal error; otherwise the page is the newest min(limit, candidates) candidates, newest first, with no left-out candidate newer than the last one shown, and the cursor is the last one's creation time, or none for an empty page |
| Search.SearchSelects | api/routes/product.js:139-151 | every product on a page is in the catalog, matches the query and is older than the cursor given |
| Search.Cursor | api/routes/product.js:156-160 | the cursor is present exactly for a non-empty page and is the last product's creation time |
| Search.FirstPage | api/routes/product.js:139-153 | sorting newest first and keeping n gives min(n, candidates) candidates, newest first, with none left out newer than the last one kept |
| Search.PageFacts | api/routes/product.js:143-144 | a prefix of the sorted candidates is sorted, drawn from them, and no left-out candidate is newer than its last element |
| Search.PrefixDrawn | api/routes/product.js:143-144 | a prefix of a rearrangement of the candidates is drawn from them |
| Search.PrefixNewest | api/routes/product.js:143-144 | no candidate left out of a prefix of the newest-first order is newer than the prefix's last element |
| ProductRoutes.CheckIfAdmin | api/routes/product.js:398-406 | the request passes exactly when the user is the admin; with no admin account the middleware throws and the request is unanswered; anyone else is forbidden |
| ProductRoutes.NewProduct | api/routes/product.js:177-222 | admin check first; no files or more than ten is an internal error, invalid files a bad request, and with every field given the product is stored with the uploaded images, no ratings and the current time; a stored product has at most ten images |
| ProductRoutes.MergeImages | api/routes/product.js:316-323 | the images after an update are the current and uploaded ones whose key is not being removed, no more than both together |
| ProductRoutes.Resync | api/routes/product.js:325-334 | every open item of the product gets its new price, name and description; every other item is untouched |
| ProductRoutes.UpdateRefusal | api/routes/product.js:260-297 | a missing product is an internal error; invalid files are a bad request; more than ten images with the uploads added is a bad request; image keys at least as many as those images are an internal error ("Cannot remove all images"); the update goes ahead exactly when none of these holds |
| ProductRoutes.UpdateProduct | api/routes/product.js:234-363 | admin check first; a non-positive quantity or price leaves the request unanswered; otherwise the answer and store are those of the update outcome, and the store stays consistent |
| ProductRoutes.ApplyUpdate | api/routes/product.js:260-361 | the checks, the product write, the item resync and the image deletion give exactly the update outcome |
| ProductRoutes.Store | api/routes/product.js:324-334 | the product is replaced and the open items of the product are resynced; nothing else changes |
| ProductRoutes.UpdateOutcome | api/routes/product.js:260-361 | the update's answer and store after the caller and field checks: a refusal leaves the store as it was; otherwise the product takes the given fields and merged images and its open items are resynced, and a failed image delete answers with an internal error although the update is stored |
| ProductRoutes.UpdateConsistent | api/routes/product.js:307-334 | an update keeps the store consistent |
| ProductRoutes.UpdateImagesBounded | api/routes/product.js:289-334 | an update changes only the named product, leaves it with at most ten images, and its open items agree with it |
| ProductRoutes.ResyncConsistent | api/routes/product.js:324-334 | writing a product and resyncing its open items keeps the store consistent |
| CheckoutSpec.OpenItemsOf | api/routes/cart.js:237-240 | the open items of a cart are exactly the stored items of that cart not checked out |
| CheckoutSpec.ChargedTotalNoShort | api/routes/cart.js:264-276 | when no item fails the stock check the charged sum covers every item |
| CheckoutSpec.ChargedTotalAtMostFull | api/routes/cart.js:264-276 | with non-negative prices and units the charged sum never exceeds the full price |
| CheckoutSpec.FullTotalSynced | api/routes/cart.js:275 | when items carry their product's price, pricing at the product equals pricing at the item |
| CheckoutSpec.Decrement | api/routes/cart.js:332-348 | settlement changes stock but keeps the same products |
| CheckoutSpec.DecrementAt | api/routes/cart.js:332-348 | each product loses exactly the units the items order of it |
| CheckoutSpec.OrderedDistinct | api/routes/cart.js:332-348 | with one item per product, the units ordered of a product are that item's units, or none |
| CheckoutSpec.DecrementNonNegative | api/routes/cart.js:264-276 | when every item passes the stock check, settlement leaves no stock negative |
| CheckoutSpec.SoldLines | api/routes/cart.js:341-346 | one sales line per item, with its product, units and the order time |
| CheckoutSpec.SoldLinesMatchStock | api/routes/cart.js:332-348 | the ledger records exactly the units taken from each product's stock |
| CheckoutSpec.CloseCart | api/routes/cart.js:367-370 | every item of the cart is checked out, every other item is untouched |
| CheckoutSpec.OpenItemsDistinct | api/routes/cart.js:237-240 | in a consistent store the open items of a cart name distinct products |
| CheckoutSpec.OpenItemsDistinctStep | api/routes/cart.js:237-240 | an open head item before distinct open items of its cart keeps them distinct |
| CheckoutSpec.HeadApart | api/routes/cart.js:237-240 | an open head item shares its product with no open item of its cart further on |
| CartRoutes.AppendItemConsistent | api/routes/cart.js:76-88 | adding an open, synced item with 1..5 units and a fresh id to an open cart keeps the store consistent |
| CartRoutes.NewCartConsistent | api/routes/cart.js:102-115 | giving a cartless user a fresh open cart keeps the store consistent |
| CartRoutes.RemoveAtConsistent | api/routes/cart.js:153-155 | deleting an item keeps the store consistent |
| CartRoutes.SetQuantityConsistent | api/routes/cart.js:198-200 | setting an item to 1..5 units keeps the store consistent |
| CartRoutes.GetCart | api/routes/cart.js:19-49 | an unknown user is a bad request; otherwise the answer is the open items of the user's open cart, or none |
| CartRoutes.Add | api/routes/cart.js:56-145 | the answer and new store are the add outcome: a quantity outside 1..5 is a bad request; an unknown user an internal error; a duplicate open item or an unavailable product a bad request; otherwise one item at the product's price, name and description is appended, in a new cart when the user had none; the store stays consistent |
| CartRoutes.AddOutcome | api/routes/cart.js:56-145 | the add route's answer and store: quantity, user, duplicate and stock refusals leave the store as it was; otherwise one snapshot item is appended, in a new cart when the user had none |
| CartRoutes.AddConsistent | api/routes/cart.js:56-145 | adding keeps the store consistent, and exactly a successful add appends one item |
| CartRoutes.AddItem | api/routes/cart.js:56-145 | the add route's answer and new store, as the add outcome describes them |
| CartRoutes.Remove | api/routes/cart.js:150-170 | an unknown item id is not found; otherwise exactly that item is deleted |
| CartRoutes.Update | api/routes/cart.js:177-214 | the answer and new store are the update outcome: only a step of 1 or -1 is accepted; an unknown user or a missing item is an internal error; otherwise the first item of the product in the user's cart gets the stepped units when they stay in 1..5, and the request is refused otherwise; the store stays consistent |
| CartRoutes.UpdateOutcome | api/routes/cart.js:177-214 | the update route's answer and store: a step other than 1 or -1, an unknown user, a missing item or units leaving 1..5 are refused with the store as it was; otherwise the first matching item gets the stepped units |
| CartRoutes.UpdateConsistent | api/routes/cart.js:177-214 | an update keeps the store consistent, changes only the cart items and keeps their number |
| CartRoutes.StepUnits | api/routes/cart.js:177-214 | the update route's answer and new store, as the update outcome describes them |
| CartRoutes.PriceItems | api/routes/cart.js:264-276 | the loop sums price times units over the items passing the stock check and reports whether any fails it |
| CartRoutes.TakeStockStep | api/routes/cart.js:332-348 | one more settled item takes its units from its product and adds one sales line |
| CartRoutes.TakeStock | api/routes/cart.js:332-348 | the settlement loop takes every item's units from its product and records one sales line per item |
| CartRoutes.OpenItemsLinked | api/routes/cart.js:237-240 | in a consistent store a cart's open items name existing products at their current price with 1..5 units |
| CartRoutes.ConsistentReady | api/routes/cart.js:236-276 | in a consistent store a user holding a cart can check out: the cart exists and its open items name existing products at their price |
| CartRoutes.DetachedConsistent | api/routes/cart.js:252-254 | detaching the user's cart keeps the store consistent |
| CartRoutes.CloseCartKeepsItems | api/routes/cart.js:367-370 | checking out a cart's items keeps the item-level invariants |
| CartRoutes.SettledConsistent | api/routes/cart.js:332-370 | settling a cart no user holds keeps the store consistent |
| CartRoutes.SettledLinked | api/routes/cart.js:332-370 | after settlement every item still names an existing cart and product, and the settled cart holds no open item |
| CartRoutes.SettledSynced | api/routes/cart.js:332-370 | after settlement every open item still carries its product's price, name and description |
| CartRoutes.CheckoutOutcome | api/routes/cart.js:236-399 | a checkout's first answer and store: the cart is detached; an order the schema rejects stops there with an internal error; otherwise the pending order is stored and the charge decides the rest |
| CartRoutes.AfterCharge | api/routes/cart.js:300-399 | after the pending order is stored: a thrown charge is a bad request and a declined one a payment-required answer, unless the stock check already failed; a paid charge settles the cart and answers with success unless the stock check failed |
| CartRoutes.CheckoutConsistent | api/routes/cart.js:236-399 | a consistent store is ready for checkout, and every checkout path leaves it consistent and the user without a cart |
| CartRoutes.CheckoutSuccessCharges | api/routes/cart.js:277-370 | a successful checkout stored the order as paid under the charge's transaction id, for the user's cart, at 100 times the item prices times units |
| CartRoutes.CheckoutStock | api/routes/cart.js:279-348 | a checkout takes every item's units from its product exactly when the pending order is stored and the charge is paid, and leaves the stock alone otherwise |
| CartRoutes.CheckoutUnfold | api/routes/cart.js:236-300 | a checkout whose pending order fails validation stops with the cart detached; otherwise it stores the order and goes on to the charge |
| CartRoutes.PaidTotal | api/routes/cart.js:277-370 | a successful charge stores the order as paid at 100 times the items' prices and units |
| CartRoutes.AfterChargePaid | api/routes/cart.js:300-370 | only a paid charge with no failed stock check answers with success, and it stores the order as paid with the provider's transaction and receipt |
| CartRoutes.AfterChargeStock | api/routes/cart.js:332-348 | a paid charge takes every item's units from stock; any other charge outcome leaves stock alone |
| CartRoutes.Checkout | api/routes/cart.js:228-417 | a missing payment token is a bad request, an unknown user unanswered, a cartless user a bad request, each with nothing changed; otherwise the answer and store are the checkout outcome, the store stays consistent, and a success mails the receipt unless mailing fails |
| CartRoutes.CheckoutCart | api/routes/cart.js:236-399 | the handler body gives exactly the checkout outcome: detach, price, save a pending order, charge, and settle when paid |
| CartRoutes.Charge | api/routes/cart.js:300-399 | the charge decides the answer unless the stock check failed; a paid charge settles the cart; a success mails the receipt unless mailing fails |
| CartRoutes.OversellWitness | api/routes/cart.js:264-348 | a cart of 2 lamps and 3 mugs with 2 mugs in stock fails the stock check, charges 1000 of the 1900 owed and leaves -1 mugs |
| CartRoutes.CheckoutGuarded | api/routes/cart.js:264-276 | with the stock check refusing the checkout, a shortfall is an internal error with nothing written, any other request goes as written, and no stock goes negative |
| Ratings.Share | api/models/product.js:41-48 | a feedback adds its stars and one review to its own product and nothing to others |
| Ratings.Tally | api/models/product.js:41-48 | the review count over a set of feedbacks is between 0 and their number |
| Ratings.TallyRemove | api/models/product.js:41-48 | the tally does not depend on the order the feedbacks are taken in |
| Ratings.TallyAgree | api/models/product.js:41-48 | the tally depends only on the feedbacks it counts |
| Ratings.TallyReplace | api/models/product.js:41-48 | replacing a feedback moves the totals by the difference of the two |
| Ratings.TallyInsert | api/models/product.js:41-48 | a new feedback adds its stars and one review |
| Ratings.TallyDelete | api/models/product.js:41-48 | deleting a feedback takes its stars and one review away |
| Ratings.AverageStorable | api/routes/feedback.js:88-92 | the average, stars over five times the reviews times five, can be saved unless both new totals are 0 (0 / 0 is NaN; a non-zero total over no review is an infinity, which is saved) |
| Ratings.TalliedReviews | api/routes/feedback.js:88-92 | in a tallied store no review count is negative and a product with a stored feedback has a review, so a revision or a first rating never leaves 0 stars over 0 reviews, the one NaN average |
| JsText.DigitValue | api/routes/feedback.js:176-178 | a decimal digit has its usual value, and every digit value is below 36 |
| JsText.TrimStart | api/routes/password.js:166 | the result is what follows the leading white space |
| JsText.LeadingSpace | api/routes/password.js:166 | the count of white-space characters before the first other character, or the whole length |
| JsText.TrimEnd | api/routes/password.js:166 | the result is a prefix, everything cut from the end is white space, and it does not end with white space |
| JsText.Trim | api/routes/password.js:166 | the result is the text after the leading white space with only white space cut from its end, and it neither starts nor ends with white space |
| JsText.TrimIdempotent | api/routes/password.js:166 | trimming twice is trimming once |
| JsText.DigitRun | api/routes/feedback.js:176-178 | the longest run of digits at the start |
| JsText.ConvertToInt | api/routes/feedback.js:176-178 | a missing value converts to NaN |
| JsText.Decimal | api/routes/feedback.js:176-178 | the decimal text of a number is digits without a leading zero |
| JsText.DecimalValue | api/routes/feedback.js:176-178 | the decimal text of a number reads back as that number |
| JsText.ReadDecimal | api/routes/feedback.js:176-178 | reading the decimal text of a number gives it back |
| JsText.ReadDigits | api/routes/feedback.js:176-178 | a non-empty run of decimal digits is read whole, as its decimal value |
| JsText.ReadRun | api/routes/feedback.js:176-178 | reading a run of digits gives NaN exactly when the text does not start with a digit of the radix |
| JsText.ParseIntString | api/routes/feedback.js:176-178 | converting the text of any integer gives that integer back |
| JsText.SpaceIgnored | api/routes/feedback.js:176-178 | leading white space does not change the conversion |
| JsText.TrailingIgnored | api/routes/feedbackRoutes.js:71-73 | anything after the leading decimal digits is ignored, leading zeros included, unless a lone "0" is followed by `x` or `X` |
| JsText.DigitRunAll | api/routes/feedback.js:176-178 | a string of digits is one digit run |
| JsText.DigitRunSplit | api/routes/feedback.js:176-178 | the digit run stops at the first non-digit |
| FeedbackRouter.CheckIfItemBought | api/routes/feedback.js:180-193 | the request passes exactly when the user has a checked-out item of the product; otherwise it is a bad request |
| FeedbackRouter.RerateConsistent | api/routes/feedback.js:72-86 | revising a feedback keeps the store consistent |
| FeedbackRouter.RerateKeepsTally | api/routes/feedback.js:72-88 | revising a feedback keeps every product's totals equal to its feedbacks' sum and count |
| FeedbackRouter.CreateOutcome | api/routes/feedback.js:36-118 | the create route's answer and store: purchase, star range and product checks; a first rating fails on the missing feedback; a low-to-low revision is refused; a revision that leaves the product at 0 stars over 0 reviews fails the save of its NaN average; otherwise the feedback is revised and the star total moves by the change |
| FeedbackRouter.CreateAnswers | api/routes/feedback.js:36-118 | the route succeeds exactly for a buyer revising an existing feedback, with stars in range, not both old and new at most 1, whose new star total and review count are not both 0; a refusal changes nothing, the set of feedbacks never changes, and a first rating with stars never succeeds |
| FeedbackRouter.CreateKeepsInvariants | api/routes/feedback.js:36-118 | the route keeps the store consistent and the totals tallied |
| FeedbackRouter.Create | api/routes/feedback.js:36-118 | the answer and store are the create outcome after converting the stars; the store stays consistent and the totals tallied |
| FeedbackRouter.Rate | api/routes/feedback.js:41-109 | the handler body gives exactly the create outcome |
| FeedbackRouter.FirstRatedConsistent | api/routes/feedback.js:63-101 | a stamped first rating keeps the store consistent |
| FeedbackRouter.FirstRatedKeepsTally | api/routes/feedback.js:63-101 | a first rating keeps the totals tallied |
| FeedbackRouter.CreateFixedOutcome | api/routes/feedback.js:63-101 | with the fix, a buyer's first rating in 1..5 of an existing product is stored stamped, adding its stars and one review; every other request goes as the route is written |
| FeedbackRouter.CreateFixedAnswers | api/routes/feedback.js:63-101 | with the fix, a first rating succeeds exactly for a buyer with stars in 1..5 on an existing product, and adds one stamped feedback, its stars and one review |
| FeedbackRouter.CreateFixedKeepsInvariants | api/routes/feedback.js:36-118 | the fixed route keeps the store consistent and the totals tallied |
| FeedbackRouter.CreateFixed | api/routes/feedback.js:36-118 | the fixed route gives the fixed outcome, keeping the store consistent and the totals tallied |
| FeedbackRouter.RateFixed | api/routes/feedback.js:41-109 | the fixed handler body gives exactly the fixed outcome |
| FeedbackRouter.RerateMovesTotals | api/routes/feedback.js:72-88 | a revision moves the star total by the change of stars, keeps the review count, stores the given stars and the given or old text |
| FeedbackRouter.Remove | api/routes/feedback.js:152-174 | the user's feedback on the product is deleted, or the request is not found; nothing else changes |
| FeedbackRouter.RemoveLeavesStaleTotals | api/routes/feedback.js:152-174 | after a removal the product counts one review more than its stored feedbacks, so the totals are no longer tallied |
| FeedbackRoutes.CheckIfItemBought | api/routes/feedbackRoutes.js:75-92 | stars outside 1..5 are refused first; otherwise the request passes exactly when the user has a checked-out item of the product |
| FeedbackRoutes.Posted | api/routes/feedbackRoutes.js:37-53 | the stored feedback has the new stars, the given text or "", and keeps its creation time, or gets the stamp when new |
| FeedbackRoutes.FirstRatingFails | api/routes/feedbackRoutes.js:45-56 | without a creation time no first rating is stored, and a buyer's first rating of an existing product is an internal error |
| FeedbackRoutes.FirstRatingWitness | api/routes/feedbackRoutes.js:45-56 | a buyer's first four-star rating fails as written and, stamped, is stored with totals 4 and 1 |
| FeedbackRoutes.CreateOutcome | api/routes/feedbackRoutes.js:8-69 | the create route's answer and store: the star-range and purchase check, the product check, the low-to-low refusal, NaN stars, a product left at 0 stars over 0 reviews and a first feedback without a creation time all fail with the store as it was; otherwise the rating is stored and the totals move |
| FeedbackRoutes.CreateAnswers | api/routes/feedbackRoutes.js:8-69 | a success stores the rating with stars in 1..5, moves the star total by the change, and adds a review only for a new feedback; a failure changes nothing |
| FeedbackRoutes.StampedSucceeds | api/routes/feedbackRoutes.js:8-69 | with every stored feedback stamped and a creation time for a first one, the route succeeds exactly for a buyer with stars, on an existing product, not revising low to low, whose new totals are not 0 stars over 0 reviews |
| FeedbackRoutes.RatedConsistent | api/routes/feedbackRoutes.js:28-56 | storing a stamped rating keeps the store consistent |
| FeedbackRoutes.RatedKeepsTally | api/routes/feedbackRoutes.js:28-56 | storing a rating keeps the totals tallied |
| FeedbackRoutes.CreateKeepsInvariants | api/routes/feedbackRoutes.js:8-69 | the stamped route keeps the store consistent and the totals tallied |
| FeedbackRoutes.Create | api/routes/feedbackRoutes.js:8-69 | the stamped route gives its outcome, keeping the store consistent and the totals tallied |
| FeedbackRoutes.CreateAsWritten | api/routes/feedbackRoutes.js:8-69 | the route as written gives the unstamped outcome |
| FeedbackRoutes.Post | api/routes/feedbackRoutes.js:13-60 | the handler body gives exactly the create outcome for the given stamp |
| ResetToken.GenerateToken | api/routes/password.js:197-206 | a token of the requested length, each character the alphabet entry of its draw |
| ResetToken.GetToken | api/routes/password.js:207-212 | "tk_" and three generated parts joined by '_', of length 3 times the part length plus 5 |
| PasswordRoutes.OtpFor | api/routes/password.js:26-33 | the OTP record is for the address and lives ten minutes |
| PasswordRoutes.SendResetOtpAsWritten | api/routes/password.js:16-51 | an unknown address is not found with nothing changed; otherwise the OTP is saved and the answer is always an internal error |
| PasswordRoutes.SendResetOtp | api/routes/password.js:16-51 | with the mail call fixed, a known address gets its OTP saved and a success unless mailing fails |
| PasswordRoutes.OtpLookup | api/routes/password.js:94-98 | the OTP query finds a record exactly when an unexpired OTP for the address and number is stored |
| PasswordRoutes.VerifyResetOtp | api/routes/password.js:76-120 | a missing OTP or address is a bad request; a stored unexpired OTP yields a "tk_" token of 197 characters, saved for ten minutes; any other OTP is not found with nothing changed |
| PasswordRoutes.TokenLookup | api/routes/password.js:145-149 | the token query finds a record exactly when an unexpired token for the address is stored |
| PasswordRoutes.WithPassword | api/routes/password.js:163-168 | every account with the address gets the new password, every other account is untouched |
| PasswordRoutes.WithPasswordConsistent | api/routes/password.js:163-168 | changing passwords keeps the store consistent |
| PasswordRoutes.Reset | api/routes/password.js:127-187 | a missing token or address or a weak password is forbidden; a valid token sets the account's password to the digest of the trimmed password and succeeds; any other token is forbidden; refusals change nothing |
| PasswordRoutes.TokenWindow | api/routes/password.js:104-110 | a freshly saved token opens a reset exactly until ten minutes after it was issued |

## Left out

- The HTTP layer, JSON parsing and `formidable` form parsing are not modelled, nor any error a parser reports. Requests arrive as typed parameters; a missing field is `None`.
- Authentication middleware (`authenticateUser`) is not modelled: the authenticated user id is a parameter.
- MongoDB sessions and transactions, concurrency and isolation are not modelled. Each route runs atomically; the store aborts a failed write as a whole.
- Amazon S3 uploads and deletes are not modelled: the uploaded images are a parameter, and a delete failure is a flag.
- Mail delivery, the Stripe client, the clock and `Math.random` are inputs, as listed above.
- Floating point is not modelled. Prices are whole currency units, so `Math.round(total.toFixed(2) * 100)` is an exact multiplication by 100. The value of `average_review`, a float derived from the two totals, is not stored; only whether it can be saved is modelled (`Ratings.AverageStorable`). It is NaN only when the new star total and review count are both 0, and then the product's save fails. A non-zero star total over no review gives "Infinity" or "-Infinity", which the schema accepts and the save stores.
- Quantities and prices arriving as strings, and the JavaScript comparisons of strings with numbers, are not modelled: they arrive as integers.
- `GET /product/`, `GET /product/single/:productId` and the feedback GET routes are not modelled. They only read.
- The other routers (login, sign-up, user, order) and the refund, transaction and cart schemas are not part of this model.
- The date arithmetic that builds the trending cut-off is not modelled (product.js:38-52): the cut-off is a parameter.
- Search does not model the regular expression: name matching is a parameter.
- The `$in` product lookups of the checkout (cart.js:260-262 and 328-330) are modelled under one assumption: they return the products in the order of the cart items. The consistency invariant keeps one open item per product, so the lookup has one product per item.
- JsText.ConvertToInt: its contract states only that a missing value is NaN. What it computes is stated by ParseIntString, SpaceIgnored and TrailingIgnored: the value of an integer's text, with leading white space and trailing text ignored. Fractions, exponents and non-decimal prefixes other than `0x` are not modelled.
- FeedbackRoutes.CheckIfItemBought compares the stars as `parseInt` reads them, where feedbackRoutes.js:77 compares the raw body value, which JavaScript turns into a number with `Number`. The two readings differ on many texts: "9abc" (NaN for `Number`, so the route lets it through; 9 for `parseInt`, refused here), "1e1" (10, refused by the route; 1 here), "5.5" (5.5, refused; 5 here), and "", " " and "Infinity" (0, 0 and Infinity, refused by the route; NaN here, which passes). They agree on a value that is absent, on the text of a whole number, and on any text whose `Number` and `parseInt` readings are the same.
- FeedbackRoutes.Post, through FeedbackRoutes.CreateOutcome, likewise compares the converted stars with 1 where feedbackRoutes.js:38 compares the raw `body.stars <= 1`; there "1.5" is above 1 as the route reads it but is 1 here, so a second low rating given as "1.5" is accepted by the route and refused here.
- The store refuses NaN totals: a NaN star value is `None`, and the save that would store it fails.
- PasswordRoutes.SendResetOtp: the OTP is an input within the bounds of `generateSixDigitOtp`. The random draw is not modelled.
- Search.PageSize: the limit and the cursor arrive as integers. The route compares the raw query text with 0 and 100 (product.js:132) and applies `parseInt` only afterwards (product.js:136 and 146), so texts that the comparison and `parseInt` read differently are not modelled: a limit of "0.5" passes the range test and becomes `.limit(0)`, which MongoDB reads as no limit, so the page holds every match, possibly more than 100; a limit of "abc" passes too, since comparisons with NaN are false, and reaches `.limit(NaN)`; a `last_time` of "abc" becomes `$lt: NaN`, whose cast error answers with an internal error.
- PasswordRoutes.VerifyResetOtp: the OTP arrives as an integer, so text and boolean OTPs are not modelled. For an integer OTP the check at password.js:89-92 never refuses, so it has no branch. A text OTP such as " ", ".5" or "-Infinity", or `true` or `[]`, passes `!otp` and is refused there ("OTP not valid"); a form-encoded "0" is a non-empty text, passes both checks and ends as not found, where the model reads it as the number 0 and answers with a bad request. The rate limiter is not modelled.
- The requires of the password router (`PasswordResetOtp` with a capital P) does not match the model file's name `passwordResetOtp.js`. Loading would fail on a case-sensitive file system; the model assumes the module loads.
- A user without a cart has `cart_id` equal to "" in the model. An undefined `cart_id` behaves the same in every modelled route.
- An e-mail address is given as a string, not an object or array.
- The upload parser's `files` field is one file, several files or none (`FileType.Upload`).
- The interaction of several requests is not modelled. Each lemma is about one route call on a consistent store.

## Findings

| source | as written | input that shows it | evidently intended | confidence | as-written member | corrected member |
|---|---|---|---|---|---|---|
| api/routes/cart.js:264-348 | a failed stock check only answers with an error; the handler still stores the order, charges the rest and subtracts every item's units | a cart with 2 lamps (5 in stock) and 3 mugs (2 in stock) is charged 1000 of 1900 and leaves -1 mugs | a shortfall refuses the checkout before anything is written, so stock never goes negative | high, not executed | CartRoutes.Checkout, CartRoutes.OversellWitness | CartRoutes.CheckoutGuarded |
| api/routes/feedbackRoutes.js:45-56 | a first feedback is created without `created_at`, which the Feedback schema requires (api/models/feedback.js:17-20), so the save fails and the transaction aborts | a buyer's first four-star rating of an existing product ends in an internal error | the first feedback is stored with its creation time | high, not executed | FeedbackRoutes.CreateAsWritten, FeedbackRoutes.FirstRatingFails, FeedbackRoutes.FirstRatingWitness | FeedbackRoutes.Create, FeedbackRoutes.CreateKeepsInvariants |
| api/routes/feedback.js:63-101 | on a first rating the text is written to the feedback that does not exist yet (line 82), before it is created at 94-101, and the record made there has no `created_at` either | a buyer's first four-star rating of an existing product ends in an internal error with nothing stored | the first rating is stored, adding its stars and one review to the product | high, not executed | FeedbackRouter.Create, FeedbackRouter.CreateAnswers | FeedbackRouter.CreateFixed, FeedbackRouter.CreateFixedAnswers, FeedbackRouter.CreateFixedKeepsInvariants |
| api/routes/password.js:35-43 | the mail call passes `from`, `subject` and `text`, which are never defined, so every request for a known address ends in an internal error after the OTP is saved | any registered address | the OTP is mailed and the request succeeds | high, not executed | PasswordRoutes.SendResetOtpAsWritten | PasswordRoutes.SendResetOtp |
