/**
 * The row-level rules of the shop's tables, as functions over the tables
 * (maps from primary key to row, and sets of pairs for the link tables):
 * the counts the caps are checked against, the likes and dislikes of
 * reviews, the default image of a product, the fields an order edit may
 * change, what the checkout writes, and what cancelling an order leaves.
 * `Store.Store` applies them to its fields.
 */
module Tables {
  import opened Basics
  import opened Models
  import opened Pricing

  // ---------------------------------------------------------------------
  // Counts behind the order caps.

  const MAX_DAILY_ORDERS := 100
  const DELIVERY_DAYS := 3

  /** `Order.objects.filter(purchase_date=d)`. */
  function OrdersOn(orders: map<OrderId, Order>, d: Day): set<OrderId>
  {
    set o | o in orders && orders[o].purchaseDate == d
  }

  /** Writing one order row changes the active orders of a customer by that
      row alone. */
  lemma ActiveOrdersPut(orders: map<OrderId, Order>, oid: OrderId, o: Order, c: CustomerId)
    ensures ActiveOrders(orders[oid := o], c) ==
      (ActiveOrders(orders, c) - {oid}) + (if o.customer == Some(c) && !o.delivered then {oid} else {})
  {
  }

  lemma OrdersOnPut(orders: map<OrderId, Order>, oid: OrderId, o: Order, d: Day)
    ensures OrdersOn(orders[oid := o], d) ==
      (OrdersOn(orders, d) - {oid}) + (if o.purchaseDate == d then {oid} else {})
  {
  }

  /** No customer has more than 3 active orders and no day more than 100
      orders. */
  ghost predicate WithinCaps(orders: map<OrderId, Order>)
  {
    && (forall c :: |ActiveOrders(orders, c)| <= MAX_ACTIVE_ORDERS)
    && (forall d :: |OrdersOn(orders, d)| <= MAX_DAILY_ORDERS)
  }

  /** The caps are kept by writing a fresh row under counts below the caps,
      or by rewriting a row without moving it to another customer, day or
      delivery state. */
  lemma CapsAfterPut(orders: map<OrderId, Order>, oid: OrderId, o: Order)
    requires WithinCaps(orders)
    requires oid in orders ==>
      orders[oid].customer == o.customer && orders[oid].delivered == o.delivered &&
      orders[oid].purchaseDate == o.purchaseDate
    requires oid !in orders && o.customer.Some? && !o.delivered ==>
      |ActiveOrders(orders, o.customer.value)| < MAX_ACTIVE_ORDERS
    requires oid !in orders ==> |OrdersOn(orders, o.purchaseDate)| < MAX_DAILY_ORDERS
    ensures WithinCaps(orders[oid := o])
  {
    var after := orders[oid := o];
    forall c ensures |ActiveOrders(after, c)| <= MAX_ACTIVE_ORDERS {
      ActiveCapAfterPut(orders, oid, o, c);
    }
    forall d ensures |OrdersOn(after, d)| <= MAX_DAILY_ORDERS {
      DailyCapAfterPut(orders, oid, o, d);
    }
  }

  lemma ActiveCapAfterPut(orders: map<OrderId, Order>, oid: OrderId, o: Order, c: CustomerId)
    requires |ActiveOrders(orders, c)| <= MAX_ACTIVE_ORDERS
    requires oid in orders ==> orders[oid].customer == o.customer && orders[oid].delivered == o.delivered
    requires oid !in orders && o.customer == Some(c) && !o.delivered ==> |ActiveOrders(orders, c)| < MAX_ACTIVE_ORDERS
    ensures |ActiveOrders(orders[oid := o], c)| <= MAX_ACTIVE_ORDERS
  {
    var before := ActiveOrders(orders, c);
    ActiveOrdersPut(orders, oid, o, c);
    if oid in orders {
      assert ActiveOrders(orders[oid := o], c) == before;
    } else if o.customer == Some(c) && !o.delivered {
      assert oid !in before;
      assert ActiveOrders(orders[oid := o], c) == before + {oid};
    } else {
      assert ActiveOrders(orders[oid := o], c) == before;
    }
  }

  lemma DailyCapAfterPut(orders: map<OrderId, Order>, oid: OrderId, o: Order, d: Day)
    requires |OrdersOn(orders, d)| <= MAX_DAILY_ORDERS
    requires oid in orders ==> orders[oid].purchaseDate == o.purchaseDate
    requires oid !in orders && o.purchaseDate == d ==> |OrdersOn(orders, d)| < MAX_DAILY_ORDERS
    ensures |OrdersOn(orders[oid := o], d)| <= MAX_DAILY_ORDERS
  {
    var before := OrdersOn(orders, d);
    OrdersOnPut(orders, oid, o, d);
    if oid in orders {
      assert OrdersOn(orders[oid := o], d) == before;
    } else if o.purchaseDate == d {
      assert oid !in before;
      assert OrdersOn(orders[oid := o], d) == before + {oid};
    } else {
      assert OrdersOn(orders[oid := o], d) == before;
    }
  }

  lemma CapsAfterRemove(orders: map<OrderId, Order>, oid: OrderId)
    requires WithinCaps(orders)
    ensures WithinCaps(orders - {oid})
  {
    var after := orders - {oid};
    forall c ensures |ActiveOrders(after, c)| <= MAX_ACTIVE_ORDERS {
      SubsetCard(ActiveOrders(after, c), ActiveOrders(orders, c));
    }
    forall d ensures |OrdersOn(after, d)| <= MAX_DAILY_ORDERS {
      SubsetCard(OrdersOn(after, d), OrdersOn(orders, d));
    }
  }

  // ---------------------------------------------------------------------
  // Likes and dislikes of reviews (api/views.py:1007-1066).

  /** A row of ReviewLike, ReviewDislike or ReviewReport: unique per
      (review, customer), so each table is a set of pairs. */
  type Vote = (ReviewId, CustomerId)

  datatype Votes = Votes(likes: set<Vote>, dislikes: set<Vote>)

  /** `like`: an existing like is withdrawn; otherwise a dislike, if any,
      is withdrawn and a like recorded. */
  function Like(v: Votes, x: Vote): (r: Votes)
    ensures x in r.likes <==> x !in v.likes
    ensures x in v.likes ==> r.dislikes == v.dislikes
    ensures x !in v.likes ==> x !in r.dislikes
    ensures forall y :: y != x ==> (y in r.likes <==> y in v.likes) && (y in r.dislikes <==> y in v.dislikes)
  {
    if x in v.likes then Votes(v.likes - {x}, v.dislikes)
    else Votes(v.likes + {x}, v.dislikes - {x})
  }

  /** `dislike`: the same with the two tables exchanged. */
  function Dislike(v: Votes, x: Vote): (r: Votes)
    ensures x in r.dislikes <==> x !in v.dislikes
    ensures x in v.dislikes ==> r.likes == v.likes
    ensures x !in v.dislikes ==> x !in r.likes
    ensures forall y :: y != x ==> (y in r.likes <==> y in v.likes) && (y in r.dislikes <==> y in v.dislikes)
  {
    if x in v.dislikes then Votes(v.likes, v.dislikes - {x})
    else Votes(v.likes - {x}, v.dislikes + {x})
  }

  function Mirror(v: Votes): Votes
  {
    Votes(v.dislikes, v.likes)
  }

  /** No (review, customer) pair both likes and dislikes. */
  predicate Exclusive(v: Votes)
  {
    v.likes !! v.dislikes
  }

  lemma LikeKeepsExclusive(v: Votes, x: Vote)
    requires Exclusive(v)
    ensures Exclusive(Like(v, x)) && Exclusive(Dislike(v, x))
  {
  }

  /** Disliking is liking with the tables exchanged. */
  lemma DislikeMirrorsLike(v: Votes, x: Vote)
    ensures Dislike(v, x) == Mirror(Like(Mirror(v), x))
  {
  }

  /** Liking twice comes back to where it started, less any dislike. */
  lemma LikeTwice(v: Votes, x: Vote)
    requires x !in v.likes
    ensures Like(Like(v, x), x) == Votes(v.likes, v.dislikes - {x})
  {
    var once := Like(v, x);
    assert once.likes - {x} == v.likes;
  }

  // ---------------------------------------------------------------------
  // Product images (`ProductImage.save`, api/models.py:123-135).

  /** The images satisfy `unique_together = ("url", "product")`, and a
      product has at most one default image. */
  predicate ImagesValid(images: map<ImageId, ProductImage>)
  {
    && (forall i, j :: i in images && j in images && i != j && images[i].product == images[j].product ==>
          images[i].url != images[j].url)
    && (forall i, j ::
          (i in images && j in images && i != j && images[i].product == images[j].product && images[i].isDefault) ==>
          !images[j].isDefault)
  }

  /** Another image of the same product already has the url. */
  predicate UrlTaken(images: map<ImageId, ProductImage>, image: ProductImage)
  {
    exists i :: i in images && images[i].product == image.product && images[i].url == image.url
  }

  /** The bulk update `filter(product=..., is_default=True).update(is_default=False)`. */
  function ClearDefaults(images: map<ImageId, ProductImage>, product: ProductId): map<ImageId, ProductImage>
  {
    map i | i in images :: if images[i].product == product then images[i].(isDefault := false) else images[i]
  }

  /** With no default image for the product there is nothing to clear. */
  lemma NothingToClear(images: map<ImageId, ProductImage>, product: ProductId)
    requires !exists i :: i in images && images[i].product == product && images[i].isDefault
    ensures ClearDefaults(images, product) == images
  {
    var c := ClearDefaults(images, product);
    forall i | i in images
      ensures c[i] == images[i]
    {
      if images[i].product == product {
        assert !images[i].isDefault;
      }
    }
  }

  /** Clearing defaults changes no url, so it does not change whether a
      url is taken. */
  lemma ClearingKeepsUrls(images: map<ImageId, ProductImage>, image: ProductImage)
    ensures UrlTaken(ClearDefaults(images, image.product), image) == UrlTaken(images, image)
  {
    var c := ClearDefaults(images, image.product);
    if UrlTaken(images, image) {
      var i :| i in images && images[i].product == image.product && images[i].url == image.url;
      assert c[i].url == image.url && c[i].product == image.product;
    }
    if UrlTaken(c, image) {
      var i :| i in c && c[i].product == image.product && c[i].url == image.url;
      assert images[i].url == image.url;
    }
  }

  datatype ImageWrite = ImageWrite(images: map<ImageId, ProductImage>, inserted: bool)

  /** Saving a new image under a fresh key: a default image first clears
      the product's other defaults, then the row goes in unless the
      uniqueness constraint refuses it, in which case the clearing stays. */
  function WriteImage(images: map<ImageId, ProductImage>, id: ImageId, image: ProductImage): (r: ImageWrite)
    requires id !in images
    ensures r.inserted <==> !UrlTaken(images, image)
    ensures r.images.Keys == images.Keys + (if r.inserted then {id} else {})
    ensures r.inserted ==> r.images[id] == image
    ensures forall i :: i in images ==>
      r.images[i].url == images[i].url && r.images[i].product == images[i].product &&
      r.images[i].description == images[i].description
    ensures image.isDefault ==> forall i :: i in r.images && i != id && r.images[i].product == image.product ==>
      !r.images[i].isDefault
    ensures !image.isDefault ==> forall i :: i in images ==> r.images[i] == images[i]
    ensures forall i :: i in images && images[i].product != image.product ==> r.images[i] == images[i]
    ensures ImagesValid(images) ==> ImagesValid(r.images)
  {
    var cleared := if image.isDefault then ClearDefaults(images, image.product) else images;
    assert forall i :: i in images ==> cleared[i].url == images[i].url && cleared[i].product == images[i].product;
    if UrlTaken(images, image) then ImageWrite(cleared, false)
    else ImageWrite(cleared[id := image], true)
  }

  // ---------------------------------------------------------------------
  // Editing an order (`PurchaseViewSet.update`, api/views.py:829-841).

  /** The address fields of a request; empty text stands for a field that
      was not supplied (or was supplied empty), which leaves the order's
      value alone. */
  datatype OrderEdit = OrderEdit(country: string, city: string, address: string, notes: string)

  function EditOrder(o: Order, e: OrderEdit): (r: Order)
    ensures e.country != "" ==> r.country == e.country
    ensures e.city != "" ==> r.city == e.city
    ensures e.address != "" ==> r.address == e.address
    ensures e.notes != "" ==> r.notes == e.notes
    ensures e.country == "" ==> r.country == o.country
    ensures e.city == "" ==> r.city == o.city
    ensures e.address == "" ==> r.address == o.address
    ensures e.notes == "" ==> r.notes == o.notes
    ensures e == OrderEdit("", "", "", "") ==> r == o
    ensures r.(country := o.country, city := o.city, address := o.address, notes := o.notes) == o
  {
    o.(country := if e.country != "" then e.country else o.country,
       city := if e.city != "" then e.city else o.city,
       address := if e.address != "" then e.address else o.address,
       notes := if e.notes != "" then e.notes else o.notes)
  }

  // ---------------------------------------------------------------------
  // The checkout (`PurchaseViewSet.create`, api/views.py:660-746).

  /** The delivery details of a checkout request. */
  datatype Delivery = Delivery(paymentMethod: string, country: string, city: string, address: string, notes: string)

  /** A checkout request. `couponText` is `str(coupon)`, empty when the
      coupon is missing or falsy. */
  datatype CheckoutRequest = CheckoutRequest(
    customer: CustomerId,
    lines: seq<Line>,
    delivery: Delivery,
    couponText: string,
    today: Day)

  /** The order row created before any item: nothing paid yet, delivery
      three days from today. */
  function Shell(req: CheckoutRequest): (o: Order)
    ensures o.paid == 0.0 && o.purchaseDate == req.today && o.deliveryTerm == req.today + DELIVERY_DAYS
    ensures !o.dispatched && !o.onTheWay && !o.delivered && o.customer == Some(req.customer)
  {
    var d := req.delivery;
    Order(0.0, req.today, req.today + DELIVERY_DAYS, false, false, false,
          d.paymentMethod, d.country, d.city, d.address, d.notes, Some(req.customer))
  }

  /** A line the database accepts: its product exists (`Product.objects.get`)
      and its quantity passes the non-negative column check. */
  predicate LineOk(products: map<ProductId, Product>, line: Line)
  {
    line.productId in products && line.quantity >= 0
  }

  /** The number of lines before the first one that fails. */
  function GoodPrefix(products: map<ProductId, Product>, lines: seq<Line>): (k: nat)
    ensures k <= |lines|
    ensures forall i :: 0 <= i < k ==> LineOk(products, lines[i])
    ensures k < |lines| ==> !LineOk(products, lines[k])
  {
    if lines == [] || !LineOk(products, lines[0]) then 0
    else
      var k := 1 + GoodPrefix(products, lines[1..]);
      assert forall i :: 1 <= i < k ==> lines[i] == lines[1..][i - 1];
      k
  }

  /** The good prefix ends at the first failing line: the step that lets
      the item-writing loop of the checkout report its stopping point as
      `GoodPrefix`. */
  lemma GoodPrefixAt(products: map<ProductId, Product>, lines: seq<Line>, j: nat)
    requires j <= |lines|
    requires forall i :: 0 <= i < j ==> LineOk(products, lines[i])
    requires j < |lines| ==> !LineOk(products, lines[j])
    ensures GoodPrefix(products, lines) == j
  {
  }

  /** The row `OrderItem.objects.create` writes for a line: `save` sets
      `total_cost` to the offer price times the quantity. */
  function ItemFor(products: map<ProductId, Product>, line: Line, orderId: OrderId): (r: OrderItem)
    requires line.productId in products
    ensures r.product == line.productId && r.quantity == line.quantity && r.order == Some(orderId)
    ensures r.totalCost == LineTotal(products[r.product].offerPrice, r.quantity)
  {
    OrderItem(LineTotal(products[line.productId].offerPrice, line.quantity), line.quantity, line.productId, Some(orderId))
  }

  /** The item rows of the lines, under consecutive keys from `firstId`. */
  function AddRows(items: map<ItemId, OrderItem>, products: map<ProductId, Product>, lines: seq<Line>,
                   orderId: OrderId, firstId: ItemId): map<ItemId, OrderItem>
    requires LinesResolve(products, lines)
  {
    if lines == [] then items
    else
      var front := lines[..|lines| - 1];
      assert forall j :: 0 <= j < |front| ==> front[j] == lines[j];
      AddRows(items, products, front, orderId, firstId)[firstId + |lines| - 1 := ItemFor(products, lines[|lines| - 1], orderId)]
  }

  /** `AddRows` writes one item per line under the keys from `firstId` on
      and leaves every other row alone. */
  lemma {:induction false} AddRowsFacts(items: map<ItemId, OrderItem>, products: map<ProductId, Product>, lines: seq<Line>,
                                        orderId: OrderId, firstId: ItemId)
    requires LinesResolve(products, lines)
    ensures var r := AddRows(items, products, lines, orderId, firstId);
      && (forall i :: i in r <==> i in items || firstId <= i < firstId + |lines|)
      && (forall j :: 0 <= j < |lines| ==> r[firstId + j] == ItemFor(products, lines[j], orderId))
      && (forall i :: i in items && !(firstId <= i < firstId + |lines|) ==> r[i] == items[i])
  {
    if lines != [] {
      var front := lines[..|lines| - 1];
      assert forall j :: 0 <= j < |front| ==> front[j] == lines[j];
      AddRowsFacts(items, products, front, orderId, firstId);
    }
  }

  /** Writing one more line's row. */
  lemma AddRowsSnoc(items: map<ItemId, OrderItem>, products: map<ProductId, Product>, lines: seq<Line>,
                    line: Line, orderId: OrderId, firstId: ItemId)
    requires LinesResolve(products, lines) && line.productId in products
    ensures LinesResolve(products, lines + [line])
    ensures AddRows(items, products, lines + [line], orderId, firstId) ==
      AddRows(items, products, lines, orderId, firstId)[firstId + |lines| := ItemFor(products, line, orderId)]
  {
    assert (lines + [line])[..|lines|] == lines;
  }

  /** How a coupon parameter resolves: not all digits (ignored), the key
      of a coupon of this customer, or a key with no such coupon (the
      lookup raises). */
  datatype CouponLookup = Ignored | Found(id: CouponId) | Missing

  function LookupCoupon(coupons: map<CouponId, Coupon>, customer: CustomerId, text: string): (r: CouponLookup)
    ensures r.Ignored? <==> !IsDecimal(text)
    ensures r.Found? ==> IsDecimal(text) && r.id == ParseDigits(text) && r.id in coupons && coupons[r.id].customer == customer
    ensures r.Missing? ==> var id := ParseDigits(text); id !in coupons || coupons[id].customer != customer
  {
    if !IsDecimal(text) then Ignored
    else
      var id := ParseDigits(text);
      if id in coupons && coupons[id].customer == customer then Found(id) else Missing
  }

  datatype Reply =
    | SomethingWentWrong
    | ActiveOrderLimit
    | DailyOrderLimit
    | OrderCreated
    | OrderNotFound
    | OrderOnTheWay
    | OrderUpdated
    | OrderDispatched
    | OrderCancelled
    | CartFull
    | AddedToCart
    | MovedToFavourites
    | FavouritesFull
    | AddedToFavourites
    | MovedToCart
    | LikeRemoved
    | Liked
    | DislikeRemoved
    | Disliked
    | AlreadyReported
    | Reported

  /** The tables a checkout writes, and the next free keys. */
  datatype Sales = Sales(
    orders: map<OrderId, Order>,
    items: map<ItemId, OrderItem>,
    coupons: map<CouponId, Coupon>,
    nextOrderId: OrderId,
    nextItemId: ItemId)

  /** The item rows of the lines sit under consecutive keys from `first`. */
  predicate RowsAt(items: map<ItemId, OrderItem>, products: map<ProductId, Product>, first: ItemId,
                   lines: seq<Line>, orderId: OrderId)
    requires LinesResolve(products, lines)
  {
    forall j :: 0 <= j < |lines| ==> first + j in items && items[first + j] == ItemFor(products, lines[j], orderId)
  }

  /** The tables once the order row and the items of the lines up to the
      first failing one are written. */
  function Opened(products: map<ProductId, Product>, s: Sales, req: CheckoutRequest): Sales
  {
    var oid := s.nextOrderId;
    var k := GoodPrefix(products, req.lines);
    Sales(s.orders[oid := Shell(req)], AddRows(s.items, products, req.lines[..k], oid, s.nextItemId),
          s.coupons, oid + 1, s.nextItemId + k)
  }

  /** When every line is good, the opened tables hold one item per line
      under consecutive keys. */
  lemma OpenedRows(products: map<ProductId, Product>, s: Sales, req: CheckoutRequest)
    requires GoodPrefix(products, req.lines) == |req.lines|
    ensures LinesResolve(products, req.lines)
    ensures RowsAt(Opened(products, s, req).items, products, s.nextItemId, req.lines, s.nextOrderId)
  {
    assert req.lines[..|req.lines|] == req.lines;
    AddRowsFacts(s.items, products, req.lines, s.nextOrderId, s.nextItemId);
  }

  /** The rest of a checkout whose every line was good: the order is
      priced from the subtotal, the coupon and the line count, and an
      applied coupon is spent. `written` holds the tables after the rows
      were written, and `oid` is the key of the new order. */
  function Priced(products: map<ProductId, Product>, req: CheckoutRequest, oid: OrderId, written: Sales): (Reply, Sales)
    requires LinesResolve(products, req.lines)
  {
    var subtotal := Subtotal(products, req.lines);
    match LookupCoupon(written.coupons, req.customer, req.couponText)
    case Missing => (SomethingWentWrong, written)
    case Ignored =>
      (OrderCreated, written.(orders := written.orders[oid := Shell(req).(paid := Paid(subtotal, None, |req.lines|))]))
    case Found(cid) =>
      (OrderCreated, written.(
         orders := written.orders[oid := Shell(req).(paid := Paid(subtotal, Some(written.coupons[cid].amount), |req.lines|))],
         coupons := written.coupons - {cid}))
  }

  /** What a checkout answers and leaves behind. */
  function Checkout(customers: set<CustomerId>, products: map<ProductId, Product>, s: Sales, req: CheckoutRequest): (r: (Reply, Sales))
    ensures r.0 in {SomethingWentWrong, ActiveOrderLimit, DailyOrderLimit, OrderCreated}
    ensures r.0 == OrderCreated ==> r.1.nextOrderId == s.nextOrderId + 1 && r.1.nextItemId == s.nextItemId + |req.lines|
  {
    if req.customer !in customers then (SomethingWentWrong, s)
    else if |ActiveOrders(s.orders, req.customer)| >= MAX_ACTIVE_ORDERS then (ActiveOrderLimit, s)
    else if |OrdersOn(s.orders, req.today)| >= MAX_DAILY_ORDERS then (DailyOrderLimit, s)
    else if GoodPrefix(products, req.lines) < |req.lines| then (SomethingWentWrong, Opened(products, s, req))
    else
      OpenedRows(products, s, req);
      Priced(products, req, s.nextOrderId, Opened(products, s, req))
  }

  /** Keys in use lie below the next free key. */
  predicate KeysBelow(s: Sales)
  {
    && (forall o :: o in s.orders ==> o < s.nextOrderId)
    && (forall i :: i in s.items ==> i < s.nextItemId)
  }

  /** A checkout refused by a cap, or for an unknown customer, writes
      nothing. */
  lemma RefusedCheckoutWritesNothing(customers: set<CustomerId>, products: map<ProductId, Product>, s: Sales, req: CheckoutRequest)
    requires req.customer !in customers
      || |ActiveOrders(s.orders, req.customer)| >= MAX_ACTIVE_ORDERS
      || |OrdersOn(s.orders, req.today)| >= MAX_DAILY_ORDERS
    ensures Checkout(customers, products, s, req).1 == s
    ensures Checkout(customers, products, s, req).0 in {SomethingWentWrong, ActiveOrderLimit, DailyOrderLimit}
  {
  }

  /** The view's own count of undelivered orders refuses a checkout exactly
      when `Order.clean` would refuse the new order. */
  lemma CheckoutCapIsOrderClean(customers: set<CustomerId>, products: map<ProductId, Product>, s: Sales, req: CheckoutRequest)
    requires req.customer in customers
    ensures Checkout(customers, products, s, req).0 == ActiveOrderLimit <==> OrderClean(s.orders, req.customer).Fails?
  {
  }

  /** The tables a successful checkout leaves: the opened items, the order
      priced, and the applied coupon spent. */
  lemma CreatedTables(customers: set<CustomerId>, products: map<ProductId, Product>, s: Sales, req: CheckoutRequest)
    requires Checkout(customers, products, s, req).0 == OrderCreated
    ensures GoodPrefix(products, req.lines) == |req.lines| && LinesResolve(products, req.lines)
    ensures var t := Checkout(customers, products, s, req).1;
      var cl := LookupCoupon(s.coupons, req.customer, req.couponText);
      var paid := Paid(Subtotal(products, req.lines), if cl.Found? then Some(s.coupons[cl.id].amount) else None, |req.lines|);
      && !cl.Missing?
      && t.items == Opened(products, s, req).items
      && t.orders == s.orders[s.nextOrderId := Shell(req).(paid := paid)]
      && t.coupons == if cl.Found? then s.coupons - {cl.id} else s.coupons
  {
    OpenedRows(products, s, req);
  }

  /** A successful checkout records one new order for the customer,
      delivered three days later, with one item per line and `paid` as the
      pricing rule gives it. */
  lemma CheckoutCreatesOrder(customers: set<CustomerId>, products: map<ProductId, Product>, s: Sales, req: CheckoutRequest)
    requires KeysBelow(s)
    requires Checkout(customers, products, s, req).0 == OrderCreated
    ensures var (_, t) := Checkout(customers, products, s, req);
      var oid := s.nextOrderId;
      && LinesResolve(products, req.lines)
      && t.orders.Keys == s.orders.Keys + {oid} && oid !in s.orders
      && t.orders[oid].customer == Some(req.customer)
      && t.orders[oid].deliveryTerm == req.today + 3
      && !t.orders[oid].dispatched && !t.orders[oid].onTheWay && !t.orders[oid].delivered
      && (forall j :: 0 <= j < |req.lines| ==> s.nextItemId + j in t.items && t.items[s.nextItemId + j] == ItemFor(products, req.lines[j], oid))
      && t.orders[oid].paid == Paid(Subtotal(products, req.lines),
           if s.coupons == t.coupons then None else Some(s.coupons[ParseDigits(req.couponText)].amount),
           |req.lines|)
  {
    CreatedTables(customers, products, s, req);
    OpenedRows(products, s, req);
    assert req.lines[..|req.lines|] == req.lines;
    AddRowsFacts(s.items, products, req.lines, s.nextOrderId, s.nextItemId);
    var cl := LookupCoupon(s.coupons, req.customer, req.couponText);
    if cl.Found? {
      assert cl.id !in s.coupons - {cl.id};
    }
  }

  /** The coupon table changes only on success, and then by the deletion of
      the one coupon whose key the request spelled in digits and which
      belongs to the customer. */
  lemma CouponSpentOnlyOnSuccess(customers: set<CustomerId>, products: map<ProductId, Product>, s: Sales, req: CheckoutRequest)
    ensures var (reply, t) := Checkout(customers, products, s, req);
      t.coupons != s.coupons ==>
        && reply == OrderCreated
        && IsDecimal(req.couponText)
        && var cid := ParseDigits(req.couponText);
           cid in s.coupons && s.coupons[cid].customer == req.customer && t.coupons == s.coupons - {cid}
  {
  }

  /** A checkout that fails after the caps leaves the order with nothing
      paid, and the items of the lines before the failing one. */
  lemma FailedCheckoutLeavesShell(customers: set<CustomerId>, products: map<ProductId, Product>, s: Sales, req: CheckoutRequest)
    requires req.customer in customers
    requires |ActiveOrders(s.orders, req.customer)| < MAX_ACTIVE_ORDERS
    requires |OrdersOn(s.orders, req.today)| < MAX_DAILY_ORDERS
    requires Checkout(customers, products, s, req).0 == SomethingWentWrong
    ensures var (_, t) := Checkout(customers, products, s, req);
      var k := GoodPrefix(products, req.lines);
      && t.orders == s.orders[s.nextOrderId := Shell(req)]
      && t.orders[s.nextOrderId].paid == 0.0
      && t.coupons == s.coupons
      && t.nextItemId == s.nextItemId + k
      && (k < |req.lines| || LookupCoupon(s.coupons, req.customer, req.couponText).Missing?)
      && LinesResolve(products, req.lines[..k])
      && t.items == AddRows(s.items, products, req.lines[..k], s.nextOrderId, s.nextItemId)
      && RowsAt(t.items, products, s.nextItemId, req.lines[..k], s.nextOrderId)
      && (forall i :: i in s.items && i < s.nextItemId ==> i in t.items && t.items[i] == s.items[i])
  {
    assert Checkout(customers, products, s, req).1 == Opened(products, s, req);
    OpenedItems(products, s, req);
  }

  /** The opened tables hold the items of the good lines under consecutive
      keys from the first fresh one, and every earlier row unchanged. */
  lemma OpenedItems(products: map<ProductId, Product>, s: Sales, req: CheckoutRequest)
    ensures var k := GoodPrefix(products, req.lines);
      var items := Opened(products, s, req).items;
      && LinesResolve(products, req.lines[..k])
      && RowsAt(items, products, s.nextItemId, req.lines[..k], s.nextOrderId)
      && (forall i :: i in s.items && i < s.nextItemId ==> i in items && items[i] == s.items[i])
  {
    var k := GoodPrefix(products, req.lines);
    var good := req.lines[..k];
    assert LinesResolve(products, good) by {
      forall j | 0 <= j < |good| ensures good[j].productId in products {
        assert good[j] == req.lines[j];
      }
    }
    AddRowsKeeps(s.items, products, good, s.nextOrderId, s.nextItemId);
  }

  /** The rows `AddRows` writes sit at their keys, and the rows below the
      first key stay. */
  lemma AddRowsKeeps(items: map<ItemId, OrderItem>, products: map<ProductId, Product>, lines: seq<Line>,
                     orderId: OrderId, firstId: ItemId)
    requires LinesResolve(products, lines)
    ensures var r := AddRows(items, products, lines, orderId, firstId);
      && RowsAt(r, products, firstId, lines, orderId)
      && (forall i :: i in items && i < firstId ==> i in r && r[i] == items[i])
  {
    AddRowsFacts(items, products, lines, orderId, firstId);
  }

  // ---------------------------------------------------------------------
  // Cancelling an order (`PurchaseViewSet.delete`, api/views.py:854-881).

  /** The items that point at the order. */
  function ItemsOf(items: map<ItemId, OrderItem>, oid: OrderId): set<ItemId>
  {
    set i | i in items && items[i].order == Some(oid)
  }

  /** What deleting an order does to the item table: `on_delete=SET_NULL`
      detaches the order's items (api/models.py:229). */
  function Detach(items: map<ItemId, OrderItem>, oid: OrderId): (r: map<ItemId, OrderItem>)
    ensures r.Keys == items.Keys
    ensures ItemsOf(r, oid) == {}
    ensures forall i :: i in items && items[i].order != Some(oid) ==> r[i] == items[i]
    ensures forall i :: i in items && items[i].order == Some(oid) ==> r[i] == items[i].(order := None)
  {
    map i | i in items :: if items[i].order == Some(oid) then items[i].(order := None) else items[i]
  }

  /** The intended outcome: the order's items are gone and no other item is
      touched. */
  function WithoutItemsOf(items: map<ItemId, OrderItem>, oid: OrderId): (r: map<ItemId, OrderItem>)
    ensures r.Keys == items.Keys - ItemsOf(items, oid)
    ensures forall i :: i in r ==> r[i] == items[i]
  {
    map i | i in items && items[i].order != Some(oid) :: items[i]
  }

  /** Once detached, no item names the order any more. */
  lemma DetachedLeaveNothingToDelete(items: map<ItemId, OrderItem>, oid: OrderId)
    ensures WithoutItemsOf(Detach(items, oid), oid) == Detach(items, oid)
  {
  }

  /** The handler deletes the order first and then the queryset
      `OrderItem.objects.filter(order=order)`, whose key was fixed when
      the queryset was built; by then the SET_NULL cascade has detached
      every item, so the second delete finds nothing. Every item of a
      cancelled order stays in the table, with no order. */
  lemma CancelAsWrittenKeepsItems(items: map<ItemId, OrderItem>, oid: OrderId)
    requires exists i :: i in items && items[i].order == Some(oid)
    ensures var after := WithoutItemsOf(Detach(items, oid), oid);
      after == Detach(items, oid) && after.Keys == items.Keys && after != WithoutItemsOf(items, oid)
  {
    var i :| i in items && items[i].order == Some(oid);
    assert i !in WithoutItemsOf(items, oid);
    var detached := Detach(items, oid);
    assert forall j :: j in detached ==> detached[j].order != Some(oid);
  }

  /** Deleting the items while their key still names the order removes
      exactly them. */
  lemma CancelWithItemsRemovesThem(items: map<ItemId, OrderItem>, oid: OrderId)
    ensures ItemsOf(WithoutItemsOf(items, oid), oid) == {}
    ensures |WithoutItemsOf(items, oid)| == |items| - |ItemsOf(items, oid)|
  {
    var r := WithoutItemsOf(items, oid);
    assert r.Keys == items.Keys - ItemsOf(items, oid);
    assert ItemsOf(items, oid) <= items.Keys;
    assert |items.Keys - ItemsOf(items, oid)| == |items.Keys| - |ItemsOf(items, oid)| by {
      assert items.Keys == (items.Keys - ItemsOf(items, oid)) + ItemsOf(items, oid);
    }
  }
}
