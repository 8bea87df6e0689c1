/**
 * The shop's database and the handlers of api/views.py that write to it,
 * with the two model `save` overrides of api/models.py.
 *
 * Each table is a field: a map from primary key to row, or a set of pairs
 * for a link table whose pair is unique. The handlers run one at a time;
 * nothing wraps a handler in a transaction, so rows written before a
 * failure stay written.
 */
module Store {
  import opened Basics
  import opened Models
  import opened Pricing
  import opened Tables

  /** The bounds of the product fields (api/models.py:82-92). */
  predicate CatalogueValid(products: map<ProductId, Product>)
  {
    forall p :: p in products ==> ProductFieldsValid(products[p])
  }

  /** `unique_together = ("customer", "product")` on reviews. */
  predicate ReviewsValid(reviews: map<ReviewId, Review>)
  {
    forall r1, r2 :: r1 in reviews && r2 in reviews && r1 != r2 ==>
      reviews[r1].customer != reviews[r2].customer || reviews[r1].product != reviews[r2].product
  }

  /** The image table's constraints, its keys below the next free one and
      its products in the catalogue. */
  predicate ImageTableValid(images: map<ImageId, ProductImage>, nextImageId: ImageId, products: map<ProductId, Product>)
  {
    ImagesValid(images) && forall m :: m in images ==> m < nextImageId && images[m].product in products
  }

  /** Likes and dislikes exclude each other, and every vote and report
      names an existing review and customer. */
  predicate VotesValid(likes: set<Vote>, dislikes: set<Vote>, reports: set<Vote>,
                       reviews: map<ReviewId, Review>, customers: set<CustomerId>)
  {
    Exclusive(Votes(likes, dislikes)) &&
    forall x :: x in likes + dislikes + reports ==> x.0 in reviews && x.1 in customers
  }

  /** A cart or favourites table: customers' sets of catalogue products, at
      most `cap` each. */
  predicate ListsValid(m: map<CustomerId, set<ProductId>>, cap: nat, customers: set<CustomerId>, products: map<ProductId, Product>)
  {
    forall c :: c in m ==> c in customers && |m[c]| <= cap && m[c] <= products.Keys
  }

  /** Giving a customer a new set within the cap keeps the table valid. */
  lemma ListsValidPut(m: map<CustomerId, set<ProductId>>, cap: nat, customers: set<CustomerId>,
                      products: map<ProductId, Product>, c: CustomerId, held: set<ProductId>)
    requires ListsValid(m, cap, customers, products)
    requires c in customers && |held| <= cap && held <= products.Keys
    ensures ListsValid(m[c := held], cap, customers, products)
  {
  }

  /** The order caps, fresh keys, and items that name catalogue products,
      non-negative quantities and existing orders. */
  ghost predicate SalesValid(s: Sales, products: map<ProductId, Product>)
  {
    && WithinCaps(s.orders)
    && KeysBelow(s)
    && (forall i :: i in s.items ==> s.items[i].product in products && s.items[i].quantity >= 0)
    && (forall i :: i in s.items && s.items[i].order.Some? ==> s.items[i].order.value in s.orders)
  }

  class Store {
    var customers: set<CustomerId>
    var products: map<ProductId, Product>
    var reviews: map<ReviewId, Review>
    var images: map<ImageId, ProductImage>
    var likes: set<Vote>
    var dislikes: set<Vote>
    var reports: set<Vote>
    var cart: map<CustomerId, set<ProductId>>
    var favs: map<CustomerId, set<ProductId>>
    var orders: map<OrderId, Order>
    var items: map<ItemId, OrderItem>
    var coupons: map<CouponId, Coupon>
    var nextOrderId: OrderId
    var nextItemId: ItemId
    var nextImageId: ImageId

    /** The constraints of api/models.py together with the caps the
        handlers enforce. */
    ghost predicate Valid()
      reads this
    {
      && CatalogueValid(products)
      && ReviewsValid(reviews)
      && ImageTableValid(images, nextImageId, products)
      && VotesValid(likes, dislikes, reports, reviews, customers)
      && ListsValid(cart, MAX_CART_ITEMS, customers, products)
      && ListsValid(favs, MAX_FAV_ITEMS, customers, products)
      && SalesValid(Sales(orders, items, coupons, nextOrderId, nextItemId), products)
    }

    /** A shop with its customers and catalogue and nothing else yet. */
    constructor (customers: set<CustomerId>, products: map<ProductId, Product>)
      requires forall p :: p in products ==> ProductFieldsValid(products[p])
      ensures Valid()
      ensures this.customers == customers && this.products == products
      ensures reviews == map[] && images == map[] && orders == map[] && items == map[] && coupons == map[]
      ensures likes == {} && dislikes == {} && reports == {} && cart == map[] && favs == map[]
    {
      this.customers := customers;
      this.products := products;
      reviews := map[];
      images := map[];
      likes := {};
      dislikes := {};
      reports := {};
      cart := map[];
      favs := map[];
      orders := map[];
      items := map[];
      coupons := map[];
      nextOrderId := 0;
      nextItemId := 0;
      nextImageId := 0;
      assert forall c :: |ActiveOrders(map[], c)| == 0;
      assert forall d :: |OrdersOn(map[], d)| == 0;
    }

    // -------------------------------------------------------------------
    // `OrderItem.save` (api/models.py:234-237).

    /** Sets `total_cost` from the product's offer price and writes the row
        under `id`; the column check on the quantity refuses a negative
        one. */
    method SaveOrderItem(id: ItemId, row: OrderItem) returns (saved: bool)
      requires row.product in products
      modifies this`items
      ensures saved <==> row.quantity >= 0
      ensures saved ==> items == old(items)[id := row.(totalCost := LineTotal(products[row.product].offerPrice, row.quantity))]
      ensures !saved ==> items == old(items)
    {
      var written := row.(totalCost := LineTotal(products[row.product].offerPrice, row.quantity));
      if written.quantity < 0 {
        return false;
      }
      items := items[id := written];
      return true;
    }

    /** `OrderItem.objects.create`: a fresh key, then `save`. */
    method CreateOrderItem(quantity: int, product: ProductId, order: OrderId) returns (id: Option<ItemId>)
      requires SalesValid(Sales(orders, items, coupons, nextOrderId, nextItemId), products)
      requires product in products && order in orders
      modifies this`items, this`nextItemId
      ensures SalesValid(Sales(orders, items, coupons, nextOrderId, nextItemId), products)
      ensures quantity < 0 ==> id.None? && items == old(items) && nextItemId == old(nextItemId)
      ensures quantity >= 0 ==>
        && id == Some(old(nextItemId))
        && items == old(items)[old(nextItemId) := OrderItem(LineTotal(products[product].offerPrice, quantity), quantity, product, Some(order))]
        && nextItemId == old(nextItemId) + 1
    {
      var saved := SaveOrderItem(nextItemId, OrderItem(0.0, quantity, product, Some(order)));
      if !saved {
        return None;
      }
      id := Some(nextItemId);
      nextItemId := nextItemId + 1;
    }

    // -------------------------------------------------------------------
    // `PurchaseViewSet.create` (api/views.py:660-746).

    /** `Order.objects.create`: writes the row under a fresh key. The
        caller has checked the caps. */
    method CreateOrder(o: Order) returns (oid: OrderId)
      requires SalesValid(Sales(orders, items, coupons, nextOrderId, nextItemId), products)
      requires o.customer.Some? && !o.delivered ==> |ActiveOrders(orders, o.customer.value)| < MAX_ACTIVE_ORDERS
      requires |OrdersOn(orders, o.purchaseDate)| < MAX_DAILY_ORDERS
      modifies this`orders, this`nextOrderId
      ensures SalesValid(Sales(orders, items, coupons, nextOrderId, nextItemId), products)
      ensures oid == old(nextOrderId) && oid !in old(orders)
      ensures orders == old(orders)[oid := o] && nextOrderId == oid + 1
    {
      oid := nextOrderId;
      CapsAfterPut(orders, oid, o);
      orders := orders[oid := o];
      nextOrderId := nextOrderId + 1;
    }

    /** The comprehension that creates one item per line, stopping at the
        first line whose product is unknown or whose quantity the database
        refuses; the items created before it stay. */
    method CreateItems(lines: seq<Line>, oid: OrderId) returns (ok: bool)
      requires Valid() && oid in orders
      modifies this`items, this`nextItemId
      ensures Valid()
      ensures var k := GoodPrefix(products, lines);
        && ok == (k == |lines|)
        && LinesResolve(products, lines[..k])
        && items == AddRows(old(items), products, lines[..k], oid, old(nextItemId))
        && nextItemId == old(nextItemId) + k
    {
      var j := 0;
      while j < |lines|
        invariant 0 <= j <= |lines|
        invariant SalesValid(Sales(orders, items, coupons, nextOrderId, nextItemId), products)
        invariant forall i :: 0 <= i < j ==> LineOk(products, lines[i])
        invariant LinesResolve(products, lines[..j])
        invariant items == AddRows(old(items), products, lines[..j], oid, old(nextItemId))
        invariant nextItemId == old(nextItemId) + j
      {
        var added := CreateLineItem(lines[j], oid, lines[..j], old(items), old(nextItemId));
        if !added {
          GoodPrefixAt(products, lines, j);
          return false;
        }
        assert lines[..j + 1] == lines[..j] + [lines[j]];
        j := j + 1;
      }
      GoodPrefixAt(products, lines, j);
      assert lines[..j] == lines;
      return true;
    }

    /** One step of the comprehension: `Product.objects.get` for the line,
        then `OrderItem.objects.create`. `written` are the lines whose rows
        are already in, from key `first` on top of the table `base`. */
    method CreateLineItem(line: Line, oid: OrderId, ghost written: seq<Line>,
                          ghost base: map<ItemId, OrderItem>, ghost first: ItemId) returns (added: bool)
      requires SalesValid(Sales(orders, items, coupons, nextOrderId, nextItemId), products) && oid in orders
      requires LinesResolve(products, written)
      requires items == AddRows(base, products, written, oid, first)
      requires nextItemId == first + |written|
      modifies this`items, this`nextItemId
      ensures SalesValid(Sales(orders, items, coupons, nextOrderId, nextItemId), products)
      ensures added <==> LineOk(products, line)
      ensures added ==>
        && LinesResolve(products, written + [line])
        && items == AddRows(base, products, written + [line], oid, first)
        && nextItemId == first + |written| + 1
      ensures !added ==> items == old(items) && nextItemId == old(nextItemId)
    {
      if line.productId !in products {
        return false;
      }
      var id := CreateOrderItem(line.quantity, line.productId, oid);
      if id.None? {
        return false;
      }
      AddRowsSnoc(base, products, written, line, oid, first);
      return true;
    }

    /** `sum(item.product.offer_price * item.quantity for item in order_items)`. */
    method SumItems(first: ItemId, count: nat, ghost lines: seq<Line>, ghost oid: OrderId) returns (total: real)
      requires count == |lines| && LinesResolve(products, lines)
      requires RowsAt(items, products, first, lines, oid)
      ensures total == Subtotal(products, lines)
    {
      total := 0.0;
      var j := 0;
      while j < count
        invariant 0 <= j <= count
        invariant LinesResolve(products, lines[..j])
        invariant total == Subtotal(products, lines[..j])
      {
        ghost var line := lines[j];
        var item := items[first + j];
        SubtotalSnoc(products, lines[..j], lines[j]);
        assert lines[..j] + [lines[j]] == lines[..j + 1];
        total := total + LineTotal(products[item.product].offerPrice, item.quantity);
        j := j + 1;
      }
      assert lines[..j] == lines;
    }

    /** `[item.save() for item in order_items]`: every row is written again
        as it stands, which changes nothing. */
    method ResaveItems(first: ItemId, count: nat, ghost lines: seq<Line>, ghost oid: OrderId)
      requires count == |lines| && LinesResolve(products, lines)
      requires RowsAt(items, products, first, lines, oid)
      modifies this`items
      ensures items == old(items)
    {
      var j := 0;
      while j < count
        invariant 0 <= j <= count
        invariant items == old(items)
      {
        ghost var line := lines[j];
        var saved := SaveOrderItem(first + j, items[first + j]);
        assert items[first + j] == old(items)[first + j];
        j := j + 1;
      }
    }

    /** The checkout handler. */
    method Purchase(req: CheckoutRequest) returns (reply: Reply)
      requires Valid()
      modifies this`orders, this`items, this`coupons, this`nextOrderId, this`nextItemId
      ensures Valid()
      ensures (reply, Sales(orders, items, coupons, nextOrderId, nextItemId)) ==
        Checkout(customers, products, old(Sales(orders, items, coupons, nextOrderId, nextItemId)), req)
    {
      var customer := req.customer;
      if customer !in customers {
        return SomethingWentWrong;
      }
      if |ActiveOrders(orders, customer)| >= MAX_ACTIVE_ORDERS {
        return ActiveOrderLimit;
      }
      if |OrdersOn(orders, req.today)| >= MAX_DAILY_ORDERS {
        return DailyOrderLimit;
      }
      ghost var s0 := Sales(orders, items, coupons, nextOrderId, nextItemId);
      var first := nextItemId;
      var oid, ok := OpenOrder(req);
      if !ok {
        return SomethingWentWrong;
      }
      OpenedRows(products, s0, req);
      var total := SumItems(first, |req.lines|, req.lines, oid);
      reply := SettleOrder(req, oid, total, first);
    }

    /** Writes the order row and then one item per line, stopping at the
        first line that fails. */
    method OpenOrder(req: CheckoutRequest) returns (oid: OrderId, ok: bool)
      requires Valid()
      requires req.customer in customers
      requires |ActiveOrders(orders, req.customer)| < MAX_ACTIVE_ORDERS
      requires |OrdersOn(orders, req.today)| < MAX_DAILY_ORDERS
      modifies this`orders, this`items, this`nextOrderId, this`nextItemId
      ensures Valid()
      ensures oid == old(nextOrderId)
      ensures Sales(orders, items, coupons, nextOrderId, nextItemId) ==
        Opened(products, old(Sales(orders, items, coupons, nextOrderId, nextItemId)), req)
      ensures ok <==> GoodPrefix(products, req.lines) == |req.lines|
    {
      oid := CreateOrder(Shell(req));
      ok := CreateItems(req.lines, oid);
    }

    /** Prices the opened order from the sum of its items, applies the
        coupon and the cart discount, and spends the coupon. */
    method SettleOrder(req: CheckoutRequest, oid: OrderId, subtotal: real, first: ItemId) returns (reply: Reply)
      requires Valid()
      requires oid in orders && orders[oid] == Shell(req)
      requires LinesResolve(products, req.lines) && subtotal == Subtotal(products, req.lines)
      requires RowsAt(items, products, first, req.lines, oid)
      modifies this`orders, this`items, this`coupons
      ensures Valid()
      ensures items == old(items)
      ensures (reply, Sales(orders, items, coupons, nextOrderId, nextItemId)) ==
        Priced(products, req, oid, old(Sales(orders, items, coupons, nextOrderId, nextItemId)))
    {
      var lookup := LookupCoupon(coupons, req.customer, req.couponText);
      if lookup.Missing? {
        return SomethingWentWrong;
      }
      var total := subtotal;
      ghost var coupon := if lookup.Found? then Some(coupons[lookup.id].amount) else None;
      if lookup.Found? {
        total := total - coupons[lookup.id].amount;
      }
      if |req.lines| > 1 {
        total := total - total * |req.lines| as real / 100.0;
      }
      assert total == Paid(subtotal, coupon, |req.lines|);
      var paidOrder := orders[oid].(paid := total);
      CapsAfterPut(orders, oid, paidOrder);
      orders := orders[oid := paidOrder];
      ResaveItems(first, |req.lines|, req.lines, oid);
      if lookup.Found? {
        coupons := coupons - {lookup.id};
      }
      return OrderCreated;
    }

    // -------------------------------------------------------------------
    // `PurchaseViewSet.update` (api/views.py:809-852).

    /** Edits the address fields of one of the customer's orders unless it
        is on its way. */
    method UpdateOrder(customer: CustomerId, orderId: OrderId, edit: OrderEdit) returns (reply: Reply)
      requires Valid()
      modifies this`orders
      ensures Valid()
      ensures customer !in customers ==> reply == SomethingWentWrong && orders == old(orders)
      ensures customer in customers && (orderId !in old(orders) || old(orders)[orderId].customer != Some(customer)) ==>
        reply == OrderNotFound && orders == old(orders)
      ensures customer in customers && orderId in old(orders) && old(orders)[orderId].customer == Some(customer) ==>
        if old(orders)[orderId].onTheWay then reply == OrderOnTheWay && orders == old(orders)
        else reply == OrderUpdated && orders == old(orders)[orderId := EditOrder(old(orders)[orderId], edit)]
    {
      if customer !in customers {
        return SomethingWentWrong;
      }
      if orderId !in orders || orders[orderId].customer != Some(customer) {
        return OrderNotFound;
      }
      var order := orders[orderId];
      if order.onTheWay {
        return OrderOnTheWay;
      }
      var edited := EditOrder(order, edit);
      CapsAfterPut(orders, orderId, edited);
      orders := orders[orderId := edited];
      return OrderUpdated;
    }

    // -------------------------------------------------------------------
    // `PurchaseViewSet.delete` (api/views.py:854-881).

    /** The cancel handler as written: the order is deleted, which detaches
        its items, and the queryset of its items then deletes nothing. */
    method CancelOrder(customer: CustomerId, orderId: OrderId) returns (reply: Reply)
      requires Valid()
      modifies this`orders, this`items
      ensures Valid()
      ensures customer !in customers || orderId !in old(orders) || old(orders)[orderId].customer != Some(customer) ==>
        reply == SomethingWentWrong && orders == old(orders) && items == old(items)
      ensures customer in customers && orderId in old(orders) && old(orders)[orderId].customer == Some(customer) ==>
        if ItemsOf(old(items), orderId) == {} then
          reply == SomethingWentWrong && orders == old(orders) && items == old(items)
        else if old(orders)[orderId].dispatched then
          reply == OrderDispatched && orders == old(orders) && items == old(items)
        else
          reply == OrderCancelled && orders == old(orders) - {orderId} && items == Detach(old(items), orderId)
    {
      if customer !in customers || orderId !in orders || orders[orderId].customer != Some(customer) {
        return SomethingWentWrong;
      }
      if ItemsOf(items, orderId) == {} {
        return SomethingWentWrong;
      }
      if orders[orderId].dispatched {
        return OrderDispatched;
      }
      // order.delete(): on_delete=SET_NULL detaches the items first.
      CapsAfterRemove(orders, orderId);
      items := Detach(items, orderId);
      orders := orders - {orderId};
      // order_items.delete(): the rows that still name the order.
      DetachedLeaveNothingToDelete(old(items), orderId);
      items := WithoutItemsOf(items, orderId);
      return OrderCancelled;
    }

    /** The cancel handler as intended: the order and its items go. */
    method CancelOrderWithItems(customer: CustomerId, orderId: OrderId) returns (reply: Reply)
      requires Valid()
      modifies this`orders, this`items
      ensures Valid()
      ensures customer !in customers || orderId !in old(orders) || old(orders)[orderId].customer != Some(customer) ==>
        reply == SomethingWentWrong && orders == old(orders) && items == old(items)
      ensures customer in customers && orderId in old(orders) && old(orders)[orderId].customer == Some(customer) ==>
        if ItemsOf(old(items), orderId) == {} then
          reply == SomethingWentWrong && orders == old(orders) && items == old(items)
        else if old(orders)[orderId].dispatched then
          reply == OrderDispatched && orders == old(orders) && items == old(items)
        else
          reply == OrderCancelled && orders == old(orders) - {orderId} && items == WithoutItemsOf(old(items), orderId)
    {
      if customer !in customers || orderId !in orders || orders[orderId].customer != Some(customer) {
        return SomethingWentWrong;
      }
      if ItemsOf(items, orderId) == {} {
        return SomethingWentWrong;
      }
      if orders[orderId].dispatched {
        return OrderDispatched;
      }
      CapsAfterRemove(orders, orderId);
      items := WithoutItemsOf(items, orderId);
      orders := orders - {orderId};
      return OrderCancelled;
    }

    // -------------------------------------------------------------------
    // `ReviewViewSet.like`, `dislike` and `report` (api/views.py:1007-1088).

    method LikeReview(customer: CustomerId, review: ReviewId) returns (reply: Reply)
      requires Valid()
      modifies this`likes, this`dislikes
      ensures Valid()
      ensures customer !in customers || review !in reviews ==>
        reply == SomethingWentWrong && likes == old(likes) && dislikes == old(dislikes)
      ensures customer in customers && review in reviews ==>
        && Votes(likes, dislikes) == Like(old(Votes(likes, dislikes)), (review, customer))
        && reply == if (review, customer) in old(likes) then LikeRemoved else Liked
    {
      if customer !in customers || review !in reviews {
        return SomethingWentWrong;
      }
      var x := (review, customer);
      if x in likes {
        likes := likes - {x};
        return LikeRemoved;
      }
      if x in dislikes {
        dislikes := dislikes - {x};
      }
      likes := likes + {x};
      return Liked;
    }

    method DislikeReview(customer: CustomerId, review: ReviewId) returns (reply: Reply)
      requires Valid()
      modifies this`likes, this`dislikes
      ensures Valid()
      ensures customer !in customers || review !in reviews ==>
        reply == SomethingWentWrong && likes == old(likes) && dislikes == old(dislikes)
      ensures customer in customers && review in reviews ==>
        && Votes(likes, dislikes) == Dislike(old(Votes(likes, dislikes)), (review, customer))
        && reply == if (review, customer) in old(dislikes) then DislikeRemoved else Disliked
    {
      if customer !in customers || review !in reviews {
        return SomethingWentWrong;
      }
      var x := (review, customer);
      if x in dislikes {
        dislikes := dislikes - {x};
        return DislikeRemoved;
      }
      if x in likes {
        likes := likes - {x};
      }
      dislikes := dislikes + {x};
      return Disliked;
    }

    /** A customer reports a review at most once. */
    method ReportReview(customer: CustomerId, review: ReviewId) returns (reply: Reply)
      requires Valid()
      modifies this`reports
      ensures Valid()
      ensures customer !in customers || review !in reviews ==> reply == SomethingWentWrong && reports == old(reports)
      ensures customer in customers && review in reviews ==>
        if (review, customer) in old(reports) then reply == AlreadyReported && reports == old(reports)
        else reply == Reported && reports == old(reports) + {(review, customer)}
    {
      if customer !in customers || review !in reviews {
        return SomethingWentWrong;
      }
      var x := (review, customer);
      if x in reports {
        return AlreadyReported;
      }
      reports := reports + {x};
      return Reported;
    }

    // -------------------------------------------------------------------
    // Cart and favourites (api/views.py:454-654).

    /** `CartItemViewSet.create`. */
    method AddToCart(customer: CustomerId, product: ProductId) returns (reply: Reply)
      requires Valid()
      modifies this`cart
      ensures Valid()
      ensures reply == AddedToCart <==>
        && customer in customers && |Holding(old(cart), customer)| < MAX_CART_ITEMS
        && product in products && product !in Holding(old(cart), customer)
      ensures reply == AddedToCart ==> cart == old(cart)[customer := Holding(old(cart), customer) + {product}]
      ensures reply != AddedToCart ==> cart == old(cart)
      ensures reply == CartFull <==> customer in customers && CartItemClean(old(cart), customer).Fails?
      ensures reply in {AddedToCart, CartFull, SomethingWentWrong}
    {
      if customer !in customers {
        return SomethingWentWrong;
      }
      var held := Holding(cart, customer);
      if |held| >= MAX_CART_ITEMS {
        return CartFull;
      }
      if product !in products {
        return SomethingWentWrong;
      }
      if product in held {
        // unique_together ("product", "customer") refuses the insert.
        return SomethingWentWrong;
      }
      ListsValidPut(cart, MAX_CART_ITEMS, customers, products, customer, held + {product});
      cart := cart[customer := held + {product}];
      return AddedToCart;
    }

    /** `FavItemViewSet.create`. */
    method AddToFavourites(customer: CustomerId, product: ProductId) returns (reply: Reply)
      requires Valid()
      modifies this`favs
      ensures Valid()
      ensures reply == AddedToFavourites <==>
        && customer in customers && |Holding(old(favs), customer)| < MAX_FAV_ITEMS
        && product in products && product !in Holding(old(favs), customer)
      ensures reply == AddedToFavourites ==> favs == old(favs)[customer := Holding(old(favs), customer) + {product}]
      ensures reply != AddedToFavourites ==> favs == old(favs)
      ensures reply == FavouritesFull <==> customer in customers && FavItemClean(old(favs), customer).Fails?
      ensures reply in {AddedToFavourites, FavouritesFull, SomethingWentWrong}
    {
      if customer !in customers {
        return SomethingWentWrong;
      }
      var held := Holding(favs, customer);
      if |held| >= MAX_FAV_ITEMS {
        return FavouritesFull;
      }
      if product !in products {
        return SomethingWentWrong;
      }
      if product in held {
        return SomethingWentWrong;
      }
      ListsValidPut(favs, MAX_FAV_ITEMS, customers, products, customer, held + {product});
      favs := favs[customer := held + {product}];
      return AddedToFavourites;
    }

    /** `CartItemViewSet.update`: the favourite is created first and stays
        even when the cart item it replaces is missing. */
    method MoveCartToFavourites(customer: CustomerId, product: ProductId) returns (reply: Reply)
      requires Valid()
      modifies this`cart, this`favs
      ensures Valid()
      ensures var added := customer in customers && |Holding(old(favs), customer)| < MAX_FAV_ITEMS &&
                           product in products && product !in Holding(old(favs), customer);
        && (added ==> favs == old(favs)[customer := Holding(old(favs), customer) + {product}])
        && (!added ==> favs == old(favs) && cart == old(cart) && reply != MovedToFavourites)
        && (added && product !in Holding(old(cart), customer) ==> reply == SomethingWentWrong && cart == old(cart))
        && (added && product in Holding(old(cart), customer) ==>
              reply == MovedToFavourites && cart == old(cart)[customer := Holding(old(cart), customer) - {product}])
      ensures reply == FavouritesFull <==> customer in customers && FavItemClean(old(favs), customer).Fails?
      ensures reply in {MovedToFavourites, FavouritesFull, SomethingWentWrong}
    {
      if customer !in customers {
        return SomethingWentWrong;
      }
      var held := Holding(favs, customer);
      if |held| >= MAX_FAV_ITEMS {
        return FavouritesFull;
      }
      if product !in products {
        return SomethingWentWrong;
      }
      if product in held {
        return SomethingWentWrong;
      }
      ListsValidPut(favs, MAX_FAV_ITEMS, customers, products, customer, held + {product});
      favs := favs[customer := held + {product}];
      var inCart := Holding(cart, customer);
      if product !in inCart {
        // CartItem.objects.get raises; the new favourite stays.
        return SomethingWentWrong;
      }
      assert |inCart - {product}| <= |inCart| <= MAX_CART_ITEMS;
      ListsValidPut(cart, MAX_CART_ITEMS, customers, products, customer, inCart - {product});
      cart := cart[customer := inCart - {product}];
      return MovedToFavourites;
    }

    /** `FavItemViewSet.update`: the cart item is created first and stays
        even when the favourite it replaces is missing. */
    method MoveFavouritesToCart(customer: CustomerId, product: ProductId) returns (reply: Reply)
      requires Valid()
      modifies this`cart, this`favs
      ensures Valid()
      ensures var added := customer in customers && |Holding(old(cart), customer)| < MAX_CART_ITEMS &&
                           product in products && product !in Holding(old(cart), customer);
        && (added ==> cart == old(cart)[customer := Holding(old(cart), customer) + {product}])
        && (!added ==> favs == old(favs) && cart == old(cart) && reply != MovedToCart)
        && (added && product !in Holding(old(favs), customer) ==> reply == SomethingWentWrong && favs == old(favs))
        && (added && product in Holding(old(favs), customer) ==>
              reply == MovedToCart && favs == old(favs)[customer := Holding(old(favs), customer) - {product}])
      ensures reply == CartFull <==> customer in customers && CartItemClean(old(cart), customer).Fails?
      ensures reply in {MovedToCart, CartFull, SomethingWentWrong}
    {
      if customer !in customers {
        return SomethingWentWrong;
      }
      var held := Holding(cart, customer);
      if |held| >= MAX_CART_ITEMS {
        return CartFull;
      }
      if product !in products {
        return SomethingWentWrong;
      }
      if product in held {
        return SomethingWentWrong;
      }
      ListsValidPut(cart, MAX_CART_ITEMS, customers, products, customer, held + {product});
      cart := cart[customer := held + {product}];
      var inFavs := Holding(favs, customer);
      if product !in inFavs {
        // FavItem.objects.get raises; the new cart item stays.
        return SomethingWentWrong;
      }
      assert |inFavs - {product}| <= |inFavs| <= MAX_FAV_ITEMS;
      ListsValidPut(favs, MAX_FAV_ITEMS, customers, products, customer, inFavs - {product});
      favs := favs[customer := inFavs - {product}];
      return MovedToCart;
    }

    // -------------------------------------------------------------------
    // `ProductImage.save` (api/models.py:123-132), for a new image, called
    // on its own. The admin (api/admin.py:63-66), the one place that saves
    // images, checks uniqueness first and saves inside a transaction, so a
    // refused insert never reaches the table there.

    method SaveImage(image: ProductImage) returns (id: Option<ImageId>)
      requires Valid()
      requires image.product in products
      modifies this`images, this`nextImageId
      ensures Valid()
      ensures var w := WriteImage(old(images), old(nextImageId), image);
        && images == w.images
        && (w.inserted ==> id == Some(old(nextImageId)) && nextImageId == old(nextImageId) + 1)
        && (!w.inserted ==> id.None? && nextImageId == old(nextImageId))
    {
      ghost var w := WriteImage(images, nextImageId, image);
      ghost var before := images;
      if image.isDefault {
        if exists i :: i in images && images[i].product == image.product && images[i].isDefault {
          images := ClearDefaults(images, image.product);
        } else {
          NothingToClear(images, image.product);
        }
      }
      assert images == if image.isDefault then ClearDefaults(before, image.product) else before;
      ClearingKeepsUrls(before, image);
      if UrlTaken(images, image) {
        // unique_together ("url", "product") refuses the insert; the
        // cleared defaults stay cleared.
        assert ImageTableValid(images, nextImageId, products) by {
          assert images == w.images;
        }
        return None;
      }
      images := images[nextImageId := image];
      assert images == w.images;
      id := Some(nextImageId);
      nextImageId := nextImageId + 1;
    }
  }
}
