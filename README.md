# tech-ecommerce-api in Dafny

A model of the business logic of the tech-ecommerce-api Django REST backend
(an online shop for computer hardware): checkout and its pricing, the rules
for editing and cancelling an order, review likes, dislikes and reports, the
cart and favourites lists, the model-level `save` and `clean` rules, the
best-seller test and the product-list filters, the integer-list URL
converter and the password validator.

The files:

- `Basics.dfy`: `Option`, ASCII character classes, lower-casing, decimal
  digit strings and their values.
- `Models.dfy`: the rows of `api/models.py` as datatypes, the field
  bounds, the `clean` rules and what `OrderItem.save` writes.
- `Pricing.dfy`: how the checkout computes `paid`.
- `Tables.dfy`: the row-level rules of the tables as functions (the order
  caps, the vote toggles, image saving, order editing, the whole checkout
  as a function of the tables, and cancelling).
- `Store.dfy`: `class Store`, the database as fields (one map or set per
  table) with the handlers of `api/views.py` as methods that change it;
  each method is proved against the functions of `Tables.dfy` and
  `Models.dfy`, or states its new fields directly, and keeps
  the invariant `Valid()` (field bounds, uniqueness constraints, the
  caps, at most one default image per product, likes and dislikes never
  both held).
- `Utils.dfy`: `sold`, `is_best_seller` and `product_filters`.
- `Converters.dfy`: `IntListConverter`.
- `Validators.dfy`: `RegexPasswordValidator`.
- `Accounts.dfy`: `calculate_age` and the checks of sign-up.

Money is `real` (the source uses `Decimal`), dates of orders are day numbers,
and today's date is a parameter. The best-seller query orders products by
their number of order items and does not break ties, so the ranking is a
parameter that `Utils.IsRanking` constrains, and the lemmas hold whatever
order the ties come in.

The model follows the code where it departs from what its names and
comments suggest:

- The checkout runs without a transaction: the order row with `paid = 0`
  and the items of the lines before a failing one stay in the tables when
  a later line names an unknown product or the coupon is not the
  customer's (api/views.py:696-714, 743-746).
- Editing an order is refused only once it is on its way; a delivered
  order that is not flagged on its way can still be edited
  (api/views.py:823-827).
- The best-seller ranking counts order items, not quantities
  (api/utils.py:13-15).
- The quantity validators (1 to 10, api/models.py:225-227) never run on the
  checkout path, because `objects.create` skips validation; only the
  column's non-negative check applies, so the checkout stores any
  quantity of at least zero.
- Cancelling an order leaves its items in the table (see Findings).
- The daily account limit counts only users that joined at exactly
  midnight today (api/views.py:184-186, see Findings); `Accounts.SignUp`
  takes whatever count the query returns as `joinedCount`.
- A default image whose insert the uniqueness constraint refuses has
  already cleared the product's other defaults (api/models.py:123-132).
  This holds for `save()` called on its own; the admin (api/admin.py:63-66)
  checks uniqueness before saving and saves inside a transaction.
- The coupon is ignored unless its text is a non-empty string of ASCII
  digits; a missing or falsy coupon is the empty text.

## Model

| member | source | states |
|---|---|---|
| Models.OrderClean | api/models.py:212-220 | passes exactly when the customer's undelivered orders in the order table number fewer than 3; a failure carries the source's message |
| Models.OrderCleanKeepsCap | api/models.py:212-220 | a new order row for a customer whose `Order.clean` passes leaves them at most 3 undelivered orders |
| Models.CartItemClean | api/models.py:247-253 | passes exactly when the customer's rows in the cart table number fewer than 10; a failure carries the source's message |
| Models.CartItemCleanKeepsCap | api/models.py:247-253 | adding a product to a cart whose `CartItem.clean` passes leaves at most 10 products in it |
| Models.FavItemClean | api/models.py:266-274 | passes exactly when the customer's rows in the favourites table number fewer than 25; a failure carries the source's message |
| Models.FavItemCleanKeepsCap | api/models.py:266-274 | adding a product to favourites whose `FavItem.clean` passes leaves at most 25 products in them |
| Models.ReviewClean | api/models.py:157-160 | passes exactly when twice the rating is a whole number, that is on steps of 0.5; a failure carries the source's message |
| Models.HalfRemainder | api/models.py:159 | Python's `rating % 0.5` lies in [0, 0.5) and is zero exactly when the rating is a whole number of halves |
| Models.RatingsAreHalfSteps | api/models.py:139-160 | a rating passes its field validators (1 to 5) and `Review.clean` exactly when it is one of 1, 1.5, ..., 5 |
| Pricing.Subtotal | api/views.py:716-718 | the sum of `offer_price * quantity` over the lines; its properties are stated by `Pricing.SubtotalSnoc` and `Pricing.SubtotalNonNegative` |
| Pricing.Paid | api/views.py:716-730 | `paid` is the subtotal less the coupon amount, times (1 - lines/100) exactly when there is more than one line |
| Pricing.SubtotalNonNegative | api/views.py:716-718 | with non-negative offer prices and quantities the sum of `offer_price * quantity` is not negative |
| Pricing.SubtotalSnoc | api/views.py:716-718 | the sum over the lines grows by each line's `offer_price * quantity` |
| Pricing.PaidWithinSubtotal | api/views.py:716-732 | without a coupon and with at most 100 lines, `paid` lies between zero and the subtotal |
| Pricing.CouponCanMakePaidNegative | api/views.py:720-732 | with fewer than 100 lines, a coupon worth more than the subtotal makes `paid` negative: nothing clamps it |
| Pricing.ManyLinesMakePaidNegative | api/views.py:728-730 | more than 100 lines turn a positive total into a negative `paid` |
| Pricing.WorkedCheckout | api/views.py:716-730 | two units at 100, one at 50 and a coupon of 20 pay (250 - 20) * 0.98 = 225.4 |
| Tables.ActiveOrdersPut | api/models.py:212-220 | how writing one order row changes a customer's set of undelivered orders |
| Tables.OrdersOnPut | api/views.py:683-690 | how writing one order row changes the set of orders of a day |
| Tables.CapsAfterPut | api/views.py:665-690 | writing a new order below both caps, or rewriting an order without changing its customer, delivery flag or date, keeps every customer within 3 active orders and every day within 100 orders |
| Tables.CapsAfterRemove | api/views.py:873 | deleting an order keeps both caps |
| Tables.Like | api/views.py:1007-1034 | liking toggles the pair's like, removes its dislike when it adds a like, and changes no other pair |
| Tables.Dislike | api/views.py:1037-1065 | disliking toggles the pair's dislike, removes its like when it adds a dislike, and changes no other pair |
| Tables.LikeKeepsExclusive | api/views.py:1013-1030 | after a like or a dislike no (review, customer) pair is both liked and disliked |
| Tables.DislikeMirrorsLike | api/views.py:1043-1061 | a dislike is a like with the two tables swapped |
| Tables.LikeTwice | api/views.py:1013-1019 | liking twice leaves the pair unliked and not disliked |
| Tables.NothingToClear | api/models.py:124-131 | when the product has no default image the bulk update changes nothing |
| Tables.ClearingKeepsUrls | api/models.py:127-135 | clearing defaults changes no url, so it does not change whether the url is taken |
| Tables.WriteImage | api/models.py:123-135 | the row goes in exactly when the (url, product) pair is free; a default image leaves no other default for its product; a non-default one changes no row; other products' images are untouched; the table's constraints are kept |
| Tables.EditOrder | api/views.py:829-841 | each supplied (non-empty) field is overwritten and each empty one keeps its value, field by field; every other field (paid, flags, dates, customer) stays |
| Tables.Shell | api/views.py:696-705 | the order row written before any item: nothing paid, bought today, due three days later, not dispatched, on its way or delivered, for the customer |
| Tables.GoodPrefix | api/views.py:707-714 | the number of lines before the first whose product is unknown or whose quantity the column refuses |
| Tables.ItemFor | api/models.py:234-237 | the item of a line names its product, quantity and order, with `total_cost = offer_price * quantity` |
| Tables.AddRowsFacts | api/views.py:707-714 | the rows the comprehension writes: one item per line under consecutive keys from the first fresh one, every other row untouched |
| Tables.AddRowsKeeps | api/views.py:707-714 | each written item sits at its key, and every row below the first fresh key stays |
| Tables.AddRowsSnoc | api/views.py:707-714 | writing one more line's item extends the rows under the next key |
| Tables.LookupCoupon | api/views.py:720-726 | non-digit text is ignored; digit text finds the coupon only when it exists and belongs to the customer, and otherwise fails |
| Tables.OpenedRows | api/views.py:696-714 | when every line is good the opened tables hold one item per line |
| Tables.Checkout | api/views.py:660-746 | what a checkout answers and leaves behind; the reply is one of the four the handler gives, and a created order takes the next order key and one item key per line |
| Tables.CheckoutCapIsOrderClean | api/views.py:665-673 | the view's own count refuses a checkout for the active-order cap exactly when `Order.clean` (api/models.py:212-220) fails for the customer |
| Tables.RefusedCheckoutWritesNothing | api/views.py:665-690 | a checkout by an unknown customer, or at 3 active orders, or at 100 orders today, changes no table |
| Tables.CreatedTables | api/views.py:696-737 | a successful checkout leaves the items of every line, the order priced from the subtotal, the owned coupon and the line count, and the coupon table less the applied coupon |
| Tables.CheckoutCreatesOrder | api/views.py:692-737 | a successful checkout adds one order for the customer, due three days later, not dispatched, with one item per line and `paid` as the pricing rule gives it |
| Tables.CouponSpentOnlyOnSuccess | api/views.py:720-737 | the coupon table changes only when the order is created, and then loses exactly the customer's coupon whose key the request spelled in digits |
| Tables.FailedCheckoutLeavesShell | api/views.py:696-746 | a checkout that fails after the caps leaves the order with `paid = 0`, the coupons untouched, and the items of the lines before the failing one under consecutive fresh keys beside every earlier row |
| Tables.OpenedItems | api/views.py:696-714 | the written items are those of the good lines, under consecutive keys from the first fresh one, and every earlier row is unchanged |
| Tables.Detach | api/models.py:229 | deleting an order sets the order of its items to null and changes nothing else |
| Tables.WithoutItemsOf | api/views.py:874 | removes exactly the items that name the order |
| Tables.DetachedLeaveNothingToDelete | api/views.py:873-874 | once the items are detached, deleting the order's items removes nothing |
| Tables.CancelAsWrittenKeepsItems | api/views.py:858-874 | the handler's two deletes keep every item, detached, instead of removing the order's items |
| Tables.CancelWithItemsRemovesThem | api/views.py:862-874 | deleting the items before the order removes exactly them |
| Store.Store.constructor | api/models.py:79-92 | a shop whose catalogue meets the field bounds, with empty tables, is valid |
| Store.Store.SaveOrderItem | api/models.py:234-237 | every save sets `total_cost = offer_price * quantity`; the column refuses a negative quantity |
| Store.Store.CreateOrderItem | api/views.py:707-714 | `objects.create` writes the saved item under a fresh key, or nothing for a negative quantity |
| Store.Store.CreateOrder | api/views.py:696-705 | the order row goes in under a fresh key, keeping the caps |
| Store.Store.CreateItems | api/views.py:707-714 | the items of the lines up to the first failing one are written, and the result says whether every line was good |
| Store.Store.CreateLineItem | api/views.py:707-714 | one line's `Product.objects.get` and `OrderItem.objects.create`: the item is written, under the next key, exactly when the product exists and the quantity is not negative |
| Store.Store.SumItems | api/views.py:716-718 | the loop's total is the subtotal of the lines |
| Store.Store.ResaveItems | api/views.py:735 | saving the items again changes no row |
| Store.Store.OpenOrder | api/views.py:696-714 | the tables become those of an order shell with the items of the good lines |
| Store.Store.SettleOrder | api/views.py:716-737 | the order's `paid` and the coupon table become what the pricing rule and the coupon lookup give |
| Store.Store.Purchase | api/views.py:660-746 | the reply and the new tables are exactly those of `Tables.Checkout`, and the store stays valid |
| Store.Store.UpdateOrder | api/views.py:809-852 | unknown customer, foreign or missing order and an order on its way are refused unchanged; otherwise the order becomes `EditOrder` of it |
| Store.Store.CancelOrder | api/views.py:854-881 | as written: refused for a foreign order, an order without items or a dispatched order; otherwise the order goes and its items stay, detached |
| Store.Store.CancelOrderWithItems | api/views.py:854-881 | corrected: the same refusals; otherwise the order and exactly its items go |
| Store.Store.LikeReview | api/views.py:1007-1034 | the likes and dislikes become `Tables.Like` of them, with "removed" exactly when the pair was liked |
| Store.Store.DislikeReview | api/views.py:1037-1065 | the likes and dislikes become `Tables.Dislike` of them, with "removed" exactly when the pair was disliked |
| Store.Store.ReportReview | api/views.py:1068-1088 | a second report of a review by the same customer is refused and changes nothing; a first one is recorded |
| Store.Store.AddToCart | api/views.py:454-483 | the product is added exactly when the customer exists, has fewer than 10 items, and the product exists and is not in the cart yet; the cart-full reply exactly when `CartItem.clean` fails |
| Store.Store.AddToFavourites | api/views.py:562-591 | the same with 25 favourites; the favourites-full reply exactly when `FavItem.clean` fails |
| Store.Store.MoveCartToFavourites | api/views.py:509-545 | the favourite is added under the favourites rules, full exactly when `FavItem.clean` fails; the cart item is removed only when present, and a missing one fails while the new favourite stays |
| Store.Store.MoveFavouritesToCart | api/views.py:617-654 | the cart item is added under the cart rules, full exactly when `CartItem.clean` fails; the favourite is removed only when present, and a missing one fails while the new cart item stays |
| Store.Store.SaveImage | api/models.py:123-135 | the image table becomes `Tables.WriteImage` of it, and a key is handed out exactly when the row went in |
| Store.ListsValidPut | api/models.py:247-277 | giving a customer a set within the cap keeps the cart or favourites table valid |
| Utils.OrderCount | api/utils.py:13-14 | the number of the product's items; positive exactly when some item names the product |
| Utils.Sold | api/utils.py:34-39 | the sum of the quantities of the product's items: zero when no item names it, not negative when no quantity is |
| Utils.CountsAppend | api/utils.py:34-39 | `sold` and `order_count` add up over a split of the item table |
| Utils.SoldBracketsOrderCount | api/utils.py:34-39 | with quantities from 1 to 10, `sold` lies between `order_count` and ten times `order_count` |
| Utils.CountIsNotQuantity | api/utils.py:13-15 | a product can sell more units yet rank lower, because the ranking counts items |
| Utils.IsBestSeller | api/utils.py:9-21 | a product is a best seller exactly when it sits at one of the first 25 places of the ranking |
| Utils.BestSellers | api/utils.py:9-21 | a product is a best seller exactly when it is among the first 25 of the ranking; there are at most 25 |
| Utils.NeverOrderedNeverBestSeller | api/utils.py:13-21 | a product without order items is never a best seller |
| Utils.BestSellerHasFewAbove | api/utils.py:13-21 | fewer than 25 products are ordered strictly more often than a best seller |
| Utils.FewRivalsMakeBestSeller | api/utils.py:13-21 | an ordered product that fewer than 25 others match or beat is a best seller whatever the tie order |
| Utils.StrToBool | api/utils.py:61 | `strtobool` accepts exactly y, yes, t, true, on, 1 and n, no, f, false, off, 0, ignoring case |
| Utils.Where | api/utils.py:56-76 | one filter keeps exactly the products that satisfy it, and no more than it was given |
| Utils.Narrow | api/utils.py:56-76 | a filter whose parameter is missing or failed to parse keeps every product |
| Utils.ProductFilters | api/utils.py:48-78 | fails exactly when `is_gamer` is not a boolean spelling; otherwise the result is a subset of the input holding exactly the products that meet every supplied criterion (case-insensitive category and brand, inclusive price bounds, exact installments) |
| Utils.NoCriteriaKeepsAll | api/utils.py:48-78 | with no usable criterion the list comes back unchanged |
| Utils.GamerSpellings | api/utils.py:60-61 | "Yes" keeps the gamer products only, "maybe" fails |
| Converters.Split | api/converters.py:8 | `split(",")` gives one more piece than there are commas, none holding a comma |
| Converters.JoinSplit | api/converters.py:7-11 | joining the pieces of a split gives the text back |
| Converters.SplitJoin | api/converters.py:7-11 | splitting a join of comma-free pieces gives the pieces back |
| Converters.PatternSegments | api/converters.py:5 | the pattern `\d+(?:,\d+)*` holds exactly when every comma-separated segment is a non-empty digit string |
| Converters.ToPython | api/converters.py:7-8 | one non-negative int per segment, as many as commas plus one |
| Converters.ParseSegments | api/converters.py:8 | each int is the value of its segment |
| Converters.ShowInt | api/converters.py:11 | `str(n)` holds no comma and is a digit string exactly when n is not negative |
| Converters.ToUrl | api/converters.py:10-11 | the comma-separated pieces of the text are the renderings of the ints |
| Converters.RoundTrip | api/converters.py:5-11 | a non-empty list of non-negative ints renders to text the pattern accepts, and parses back to itself |
| Converters.UrlOutsidePattern | api/converters.py:5-11 | the empty list, or one holding a negative int, renders to text the pattern refuses |
| Validators.Validate | api/validators.py:7-15 | accepts exactly when the pattern matches, whatever the `user`; a rejection carries the code `invalid_password_format` |
| Validators.LookaheadOnFirstLine | api/validators.py:8 | a lookahead `(?=.*[...])` sees only the first line, and the special-character class also sees the line break |
| Validators.BodyOnFirstLine | api/validators.py:8 | `.+$` matches when the first line is non-empty and at most a final line break follows |
| Validators.AcceptedIffAllClasses | api/validators.py:8-9 | without line breaks a password is accepted exactly when it holds an upper-case letter, a lower-case letter, a digit and another character |
| Validators.AcceptedIsLong | api/validators.py:8-9 | an accepted password has at least four characters |
| Validators.ShortPasswordRejected | api/validators.py:8-15 | the empty password and every password shorter than four characters is rejected with the code |
| Validators.LineBreakExamples | api/validators.py:8-9 | a final line break counts as the special character; text after a line break is refused |
| Basics.ParseShowNat | api/converters.py:8-11 | `int(str(n)) == n` for a natural number |
| Accounts.CalculateAge | api/views.py:431-438 | the difference of the years, one less exactly when this year's birthday is still to come |
| Accounts.AgeCountsBirthdays | api/views.py:431-438 | the age is at least n exactly when the n-th birthday is on or before today |
| Accounts.AgeMonotone | api/views.py:431-438 | the age does not decrease as days go by |
| Accounts.LeapDayBirthday | api/views.py:431-438 | someone born on 29 February turns 18 on 1 March, not on 28 February |
| Accounts.SignUp | api/views.py:176-258 | each reply is given exactly when every earlier check passes and its own fails, in the source's order: daily limit, too short (below 8), too long (above 16), profanity, username taken, e-mail invalid, e-mail taken, password, unparseable birthdate, under 18; the account is created exactly when all pass |
| Accounts.JoinedAtMidnight | api/views.py:184-186 | what the query as written counts: the users that joined at today's midnight, never more than joined that day |
| Accounts.AfterMidnightUncounted | api/views.py:184-186 | users that joined today after midnight are all in the day's count and none in the query's |
| Accounts.MidnightCountMissesTheDay | api/views.py:184-193 | as written: 50 users that joined today at noon count as none, and a 51st account is created |
| Accounts.DailyLimitKeepsFifty | api/views.py:184-193 | counting the users that joined at any time today, an account is created only when at most 50 users have joined today with it |

## Left out

- Sub-second join times: `Accounts.Joined` keeps whole seconds, so the
  as-written midnight count counts a join anywhere in second 0, where the
  source compares to the microsecond.
- Request shape errors: missing keys in `request.data` and `int()` failures
  on the line fields end in the generic failure in the source and are not
  modelled; lines arrive already as ints.
- The lookups of the authenticated user's customer row: a request either
  names a customer in the table or fails with the generic reply.
- Decimal rounding to two places and the digit limits of the decimal
  columns (`paid`, `total_cost`, `amount`); money is unbounded `real`.
- The `max_length` of text columns and the upper range of small-integer
  columns.
- The count-then-create race between concurrent requests; handlers run one
  at a time.
- The clock: today's date is a parameter.
- Float parsing in `product_filters`: a numeric parameter arrives as
  absent, unparseable or parsed. Ratings are reals.
- Case folding beyond ASCII in `iexact` and `strtobool`; Unicode digits in
  `isdigit()` and `\d`.
- `profanity_filter`, Django's `validate_email` and `validate_password`,
  and the user-table lookups of sign-up: their outcomes are parameters of
  `Accounts.SignUp`, which does not write a user table.
- The list handlers of carts, favourites, orders and reviews, the order
  retrieve handler (api/views.py:772), the delete handlers of carts,
  favourites and reviews (api/views.py:486, 594, 989), review creation and
  editing, and the serialisation of products.
- Updating an existing image row: `Store.Store.SaveImage` saves a new
  image.
- `Accounts.SignUp`: states which reply each combination of check outcomes
  gives, not the message texts or HTTP statuses.
- `Store.Store.Purchase`: the order's `purchase_date` is today and no
  delivery man is assigned; the `delivery_man` column is not modelled.
- Deleting a review, a customer or a product and the cascades those
  trigger.

## Findings

| source | as written | input that shows it | evidently intended | confidence | as-written member | corrected member |
|---|---|---|---|---|---|---|
| api/views.py:858-874 | the item queryset is built from the order, then `order.delete()` sets the `order` of every item to null (api/models.py:229), so `order_items.delete()` deletes nothing | cancelling an order that is not dispatched and has one item: the handler answers "Order successfully canceled." and the item stays in the table with no order | the order and its items are removed | high, not executed | Tables.CancelAsWrittenKeepsItems | Store.Store.CancelOrderWithItems |
| api/views.py:184-186 | `date_joined` holds a date and a time, and `filter(date_joined=date.today())` compares it with today at midnight, so only users that joined at exactly 00:00:00 are counted | 50 users that joined today at noon: the count is 0 and a 51st account is created | at most 50 accounts a day: count the users whose `date_joined` falls on today | medium, not executed | Accounts.MidnightCountMissesTheDay | Accounts.DailyLimitKeepsFifty |
