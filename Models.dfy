/**
 * The shop's persisted entities (api/models.py) as values, the bounds their
 * field validators impose, and the `clean` rules.
 *
 * Rows are identified by integer keys; the tables themselves live in
 * `Store.Store`. Money is `real` (the source uses `Decimal`), calendar days
 * are day numbers.
 */
module Models {
  import opened Basics

  type CustomerId = int
  type ProductId = int
  type OrderId = int
  type ItemId = int
  type CouponId = int
  type ReviewId = int
  type ImageId = int

  /** A calendar day, as a day number. */
  type Day = int

  datatype Category = Category(title: string)

  datatype Brand = Brand(name: string)

  datatype Product = Product(
    name: string,
    price: real,
    offerPrice: real,
    installments: int,
    stock: int,
    monthsWarranty: int,
    isGamer: bool,
    brand: Brand,
    category: Category)

  datatype ProductImage = ProductImage(url: string, description: string, product: ProductId, isDefault: bool)

  datatype Review = Review(rating: real, content: string, customer: CustomerId, product: ProductId)

  datatype Order = Order(
    paid: real,
    purchaseDate: Day,
    deliveryTerm: Day,
    dispatched: bool,
    onTheWay: bool,
    delivered: bool,
    paymentMethod: string,
    country: string,
    city: string,
    address: string,
    notes: string,
    customer: Option<CustomerId>)

  datatype OrderItem = OrderItem(totalCost: real, quantity: int, product: ProductId, order: Option<OrderId>)

  datatype Coupon = Coupon(title: string, amount: real, customer: CustomerId)

  // Field bounds of Product.

  const MAX_INSTALLMENTS := 24
  const MAX_STOCK := 10000
  const MAX_WARRANTY_MONTHS := 36

  /** A `DecimalField(max_digits=8, decimal_places=2)` holds less than a
      million, in whole cents. */
  const PRICE_LIMIT: real := 1000000.0

  predicate WholeCents(x: real)
  {
    (x * 100.0).Floor as real == x * 100.0
  }

  /** The validators of `price` and `offer_price`: at least zero, and what the
      decimal column can hold. */
  predicate PriceFieldValid(x: real)
  {
    0.0 <= x < PRICE_LIMIT && WholeCents(x)
  }

  /** The field validators of Product: prices at least zero, installments at
      most 24, stock at most 10000 and warranty at most 36 months, all
      counts being positive (that is, non-negative) small integers. */
  predicate ProductFieldsValid(p: Product)
  {
    && PriceFieldValid(p.price)
    && PriceFieldValid(p.offerPrice)
    && 0 <= p.installments <= MAX_INSTALLMENTS
    && 0 <= p.stock <= MAX_STOCK
    && 0 <= p.monthsWarranty <= MAX_WARRANTY_MONTHS
  }

  /** The validators of `OrderItem.quantity`: from 1 to 10. They run only
      when a row is fully cleaned, which the checkout never does. */
  predicate QuantityFieldValid(quantity: int)
  {
    1 <= quantity <= 10
  }

  /** What `OrderItem.save` writes into `total_cost`. */
  function LineTotal(offerPrice: real, quantity: int): real
  {
    offerPrice * quantity as real
  }

  // The clean rules of Order, CartItem and FavItem. Each counts the rows of
  // its table that belong to the customer.

  datatype Check = Passes | Fails(message: string)

  const MAX_ACTIVE_ORDERS := 3
  const MAX_CART_ITEMS := 10
  const MAX_FAV_ITEMS := 25

  /** `Order.objects.filter(customer=c, delivered=False)`. */
  function ActiveOrders(orders: map<OrderId, Order>, c: CustomerId): set<OrderId>
  {
    set o | o in orders && orders[o].customer == Some(c) && !orders[o].delivered
  }

  /** `CartItem.objects.filter(customer=c)` or `FavItem.objects.filter(customer=c)`:
      the cart and the favourites are each a set of products per customer,
      one row per product (`unique_together`). */
  function Holding(m: map<CustomerId, set<ProductId>>, c: CustomerId): set<ProductId>
  {
    if c in m then m[c] else {}
  }

  /** `Order.clean`: refuses once the customer has 3 orders not yet delivered. */
  function OrderClean(orders: map<OrderId, Order>, c: CustomerId): (r: Check)
    ensures r.Passes? <==> |ActiveOrders(orders, c)| < MAX_ACTIVE_ORDERS
    ensures r.Fails? ==> r.message == "You cannot have more than 3 active orders."
  {
    if |ActiveOrders(orders, c)| >= MAX_ACTIVE_ORDERS then Fails("You cannot have more than 3 active orders.")
    else Passes
  }

  /** `CartItem.clean`: refuses once the customer has 10 cart items. */
  function CartItemClean(cart: map<CustomerId, set<ProductId>>, c: CustomerId): (r: Check)
    ensures r.Passes? <==> |Holding(cart, c)| < MAX_CART_ITEMS
    ensures r.Fails? ==> r.message == "You cannot add more than 10 products to your cart."
  {
    if |Holding(cart, c)| >= MAX_CART_ITEMS then Fails("You cannot add more than 10 products to your cart.")
    else Passes
  }

  /** `FavItem.clean`: refuses once the customer has 25 favourites. */
  function FavItemClean(favs: map<CustomerId, set<ProductId>>, c: CustomerId): (r: Check)
    ensures r.Passes? <==> |Holding(favs, c)| < MAX_FAV_ITEMS
    ensures r.Fails? ==> r.message == "You cannot add more than 25 products to your favorites."
  {
    if |Holding(favs, c)| >= MAX_FAV_ITEMS then Fails("You cannot add more than 25 products to your favorites.")
    else Passes
  }

  /** A new order row for a customer whose `Order.clean` passes leaves
      them at most 3 undelivered orders. */
  lemma OrderCleanKeepsCap(orders: map<OrderId, Order>, c: CustomerId, oid: OrderId, o: Order)
    requires OrderClean(orders, c).Passes?
    requires oid !in orders
    ensures |ActiveOrders(orders[oid := o], c)| <= MAX_ACTIVE_ORDERS
  {
    var after := ActiveOrders(orders[oid := o], c);
    var extra: set<OrderId> := if o.customer == Some(c) && !o.delivered then {oid} else {};
    assert after <= ActiveOrders(orders, c) + extra;
    SubsetCard(after, ActiveOrders(orders, c) + extra);
  }

  /** Adding a product to the cart of a customer whose `CartItem.clean`
      passes leaves at most 10 products in it. */
  lemma CartItemCleanKeepsCap(cart: map<CustomerId, set<ProductId>>, c: CustomerId, p: ProductId)
    requires CartItemClean(cart, c).Passes?
    ensures |Holding(cart[c := Holding(cart, c) + {p}], c)| <= MAX_CART_ITEMS
  {
    var held := Holding(cart, c);
    if p !in held {
      assert |held + {p}| == |held| + 1;
    }
  }

  /** Adding a product to the favourites of a customer whose `FavItem.clean`
      passes leaves at most 25 products in them. */
  lemma FavItemCleanKeepsCap(favs: map<CustomerId, set<ProductId>>, c: CustomerId, p: ProductId)
    requires FavItemClean(favs, c).Passes?
    ensures |Holding(favs[c := Holding(favs, c) + {p}], c)| <= MAX_FAV_ITEMS
  {
    var held := Holding(favs, c);
    if p !in held {
      assert |held + {p}| == |held| + 1;
    }
  }

  /** Python's `rating % 0.5` on a float: the floored remainder. */
  function HalfRemainder(rating: real): (r: real)
    ensures 0.0 <= r < 0.5
    ensures r == 0.0 <==> rating * 2.0 == (rating * 2.0).Floor as real
  {
    rating - (rating * 2.0).Floor as real / 2.0
  }

  /** `Review.clean`: the rating must be a multiple of 0.5. */
  function ReviewClean(rating: real): (r: Check)
    ensures r.Passes? <==> rating * 2.0 == (rating * 2.0).Floor as real
    ensures r.Fails? ==> r.message == "Rating can only be incremented by 0.5."
  {
    if HalfRemainder(rating) != 0.0 then Fails("Rating can only be incremented by 0.5.") else Passes
  }

  /** The validators of `Review.rating`: from 1 to 5. */
  predicate RatingFieldValid(rating: real)
  {
    1.0 <= rating <= 5.0
  }

  /** A rating passes both its field validators and `Review.clean` exactly
      when it is one of 1, 1.5, 2, ..., 5. */
  lemma RatingsAreHalfSteps(rating: real)
    ensures RatingFieldValid(rating) && ReviewClean(rating).Passes? <==>
      rating in {1.0, 1.5, 2.0, 2.5, 3.0, 3.5, 4.0, 4.5, 5.0}
  {
    var k := (rating * 2.0).Floor;
    if RatingFieldValid(rating) && ReviewClean(rating).Passes? {
      assert rating == k as real / 2.0;
      assert 2 <= k <= 10;
    }
    if rating in {1.0, 1.5, 2.0, 2.5, 3.0, 3.5, 4.0, 4.5, 5.0} {
      assert rating * 2.0 == (rating * 2.0).Floor as real;
    }
  }
}
