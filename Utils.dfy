/**
 * The catalogue queries of api/utils.py: the `sold` figure of a product,
 * the best-seller test and the query-string filters of the product list.
 *
 * The order-item table is given as a sequence of rows in any order.
 */
module Utils {
  import opened Basics
  import opened Models

  // ---------------------------------------------------------------------
  // `sold` (api/utils.py:34-39) and the `order_count` annotation.

  /** The sum of the quantities of the product's order items. */
  function Sold(items: seq<OrderItem>, p: ProductId): (n: int)
    ensures (forall i :: 0 <= i < |items| ==> items[i].product != p) ==> n == 0
    ensures (forall i :: 0 <= i < |items| ==> items[i].quantity >= 0) ==> n >= 0
  {
    if items == [] then 0
    else (if items[0].product == p then items[0].quantity else 0) + Sold(items[1..], p)
  }

  /** `Count("id")` grouped by product: the number of the product's order items. */
  function OrderCount(items: seq<OrderItem>, p: ProductId): (n: nat)
    ensures n <= |items|
    ensures n > 0 <==> exists i :: 0 <= i < |items| && items[i].product == p
  {
    if items == [] then 0
    else
      var n := (if items[0].product == p then 1 else 0) + OrderCount(items[1..], p);
      assert forall i :: 1 <= i < |items| ==> items[i] == items[1..][i - 1];
      assert forall i :: 0 <= i < |items[1..]| ==> items[1..][i] == items[i + 1];
      n
  }

  /** `sold` and `order_count` both add up over a split of the table. */
  lemma {:induction false} CountsAppend(a: seq<OrderItem>, b: seq<OrderItem>, p: ProductId)
    ensures Sold(a + b, p) == Sold(a, p) + Sold(b, p)
    ensures OrderCount(a + b, p) == OrderCount(a, p) + OrderCount(b, p)
  {
    if a != [] {
      assert (a + b)[1..] == a[1..] + b;
      CountsAppend(a[1..], b, p);
    } else {
      assert a + b == b;
    }
  }

  /** When every quantity satisfies the field validators (1 to 10), `sold`
      lies between `order_count` and ten times `order_count`. */
  lemma {:induction false} SoldBracketsOrderCount(items: seq<OrderItem>, p: ProductId)
    requires forall i :: 0 <= i < |items| ==> QuantityFieldValid(items[i].quantity)
    ensures OrderCount(items, p) <= Sold(items, p) <= 10 * OrderCount(items, p)
  {
    if items != [] {
      SoldBracketsOrderCount(items[1..], p);
    }
  }

  /** Ordering many units in one item raises `sold` but not `order_count`:
      five units of product 1 in one item and one unit of product 2 in each
      of two items leave product 2 ahead in the ranking while product 1 has
      sold more. */
  lemma CountIsNotQuantity()
    ensures var items := [OrderItem(50.0, 5, 1, None), OrderItem(10.0, 1, 2, None), OrderItem(10.0, 1, 2, None)];
            Sold(items, 1) == 5 && Sold(items, 2) == 2 &&
            OrderCount(items, 1) == 1 && OrderCount(items, 2) == 2
  {
    var items := [OrderItem(50.0, 5, 1, None), OrderItem(10.0, 1, 2, None), OrderItem(10.0, 1, 2, None)];
    assert items[1..] == [OrderItem(10.0, 1, 2, None), OrderItem(10.0, 1, 2, None)];
    assert items[1..][1..] == [OrderItem(10.0, 1, 2, None)];
    assert items[1..][1..][1..] == [];
  }

  // ---------------------------------------------------------------------
  // `is_best_seller` (api/utils.py:9-21).

  const BEST_SELLER_COUNT := 25

  /** The products that have at least one order item. */
  function Products(items: seq<OrderItem>): set<ProductId>
  {
    set i | 0 <= i < |items| :: items[i].product
  }

  /** What the grouped query returns: every ordered product exactly once,
      in non-increasing order of `order_count`. Ties may come in any order;
      the query does not break them. */
  ghost predicate IsRanking(items: seq<OrderItem>, ranking: seq<ProductId>)
  {
    && (forall i, j :: 0 <= i < j < |ranking| ==> ranking[i] != ranking[j])
    && (forall p :: p in ranking <==> p in Products(items))
    && (forall i, j :: 0 <= i < j < |ranking| ==> OrderCount(items, ranking[i]) >= OrderCount(items, ranking[j]))
  }

  /** The first 25 entries of the ranking, the slice `[:25]`. */
  function Top(ranking: seq<ProductId>): seq<ProductId>
  {
    ranking[..Min(BEST_SELLER_COUNT, |ranking|)]
  }

  /** The product is among the first 25 of the ranking. */
  predicate IsBestSeller(ranking: seq<ProductId>, p: ProductId)
    ensures IsBestSeller(ranking, p) <==> exists i :: 0 <= i < |ranking| && i < BEST_SELLER_COUNT && ranking[i] == p
  {
    p in Top(ranking)
  }

  /** The best sellers as a set. */
  function BestSellers(ranking: seq<ProductId>): (r: set<ProductId>)
    ensures forall p :: p in r <==> IsBestSeller(ranking, p)
    ensures |r| <= BEST_SELLER_COUNT
  {
    var top := Top(ranking);
    CardinalityOfElements(top);
    Elements(top)
  }

  function Elements(s: seq<ProductId>): set<ProductId>
  {
    set x | x in s
  }

  lemma {:induction false} CardinalityOfElements(s: seq<ProductId>)
    ensures |Elements(s)| <= |s|
  {
    if s != [] {
      var front := s[..|s| - 1];
      CardinalityOfElements(front);
      assert Elements(s) == Elements(front) + {s[|s| - 1]} by {
        assert s == front + [s[|s| - 1]];
      }
    }
  }

  /** A product that was never ordered is never a best seller. */
  lemma NeverOrderedNeverBestSeller(items: seq<OrderItem>, ranking: seq<ProductId>, p: ProductId)
    requires IsRanking(items, ranking)
    requires OrderCount(items, p) == 0
    ensures !IsBestSeller(ranking, p)
  {
    assert p !in Products(items);
    assert p !in ranking;
    var top := Top(ranking);
    forall k | 0 <= k < |top| ensures top[k] != p {
      assert top[k] == ranking[k];
    }
  }

  /** The products ordered strictly more often than `p`. */
  function Above(items: seq<OrderItem>, p: ProductId): set<ProductId>
  {
    set q | q in Products(items) && OrderCount(items, q) > OrderCount(items, p)
  }

  /** The other products ordered at least as often as `p`. */
  function AtLeastAsOften(items: seq<OrderItem>, p: ProductId): set<ProductId>
  {
    set q | q in Products(items) && q != p && OrderCount(items, q) >= OrderCount(items, p)
  }

  /** The positions before `k` hold distinct products, so a set that must
      contain them all has at least `k` members. */
  lemma {:induction false} PrefixInSet(ranking: seq<ProductId>, k: nat, s: set<ProductId>)
    requires k <= |ranking|
    requires forall i, j :: 0 <= i < j < |ranking| ==> ranking[i] != ranking[j]
    requires forall i :: 0 <= i < k ==> ranking[i] in s
    ensures k <= |s|
  {
    if k > 0 {
      var last := ranking[k - 1];
      PrefixInSet(ranking, k - 1, s - {last});
    }
  }

  /** Fewer than 25 products are ordered strictly more often than a best
      seller. */
  lemma BestSellerHasFewAbove(items: seq<OrderItem>, ranking: seq<ProductId>, p: ProductId)
    requires IsRanking(items, ranking)
    requires IsBestSeller(ranking, p)
    ensures |Above(items, p)| < BEST_SELLER_COUNT
  {
    var top := Top(ranking);
    var k :| 0 <= k < |top| && top[k] == p;
    assert ranking[k] == p;
    // Everything above p sits before position k.
    var before := Elements(ranking[..k]);
    forall j | k <= j < |ranking| ensures ranking[j] !in Above(items, p) {
      if j > k {
        assert OrderCount(items, ranking[k]) >= OrderCount(items, ranking[j]);
      }
    }
    assert Above(items, p) <= before by {
      forall q | q in Above(items, p) ensures q in before {
        assert q in ranking;
        var j :| 0 <= j < |ranking| && ranking[j] == q;
        assert j < k;
      }
    }
    CardinalityOfElements(ranking[..k]);
    SubsetCard(Above(items, p), before);
  }

  /** A product that was ordered, and that fewer than 25 other products
      match or beat, is a best seller whatever order the ties come in. */
  lemma FewRivalsMakeBestSeller(items: seq<OrderItem>, ranking: seq<ProductId>, p: ProductId)
    requires IsRanking(items, ranking)
    requires OrderCount(items, p) > 0
    requires |AtLeastAsOften(items, p)| < BEST_SELLER_COUNT
    ensures IsBestSeller(ranking, p)
  {
    var i0 :| 0 <= i0 < |items| && items[i0].product == p;
    assert p in Products(items);
    assert p in ranking;
    var k :| 0 <= k < |ranking| && ranking[k] == p;
    var rivals := AtLeastAsOften(items, p);
    // Every product before position k is a rival.
    forall i | 0 <= i < k ensures ranking[i] in rivals {
      var q := ranking[i];
      assert q in Products(items);
      assert q != p;
      assert OrderCount(items, q) >= OrderCount(items, p);
    }
    PrefixInSet(ranking, k, rivals);
    assert k < Min(BEST_SELLER_COUNT, |ranking|);
    assert Top(ranking)[k] == p;
  }

  // ---------------------------------------------------------------------
  // `product_filters` (api/utils.py:48-78).

  /** A numeric query parameter: missing or empty, present but rejected by
      `float()`/`int()`, or parsed. */
  datatype Param<T> = Absent | Unparseable | Given(value: T)

  /** The query parameters; empty text stands for a missing one. */
  datatype Criteria = Criteria(
    category: string,
    brand: string,
    isGamer: string,
    minPrice: Param<real>,
    maxPrice: Param<real>,
    installments: Param<int>)

  /** `strtobool`: the accepted spellings of true and false, compared after
      lower-casing; anything else raises. */
  function StrToBool(s: string): (r: Option<bool>)
    ensures r == Some(true) <==> LowerString(s) in {"y", "yes", "t", "true", "on", "1"}
    ensures r == Some(false) <==> LowerString(s) in {"n", "no", "f", "false", "off", "0"}
  {
    var v := LowerString(s);
    if v in {"y", "yes", "t", "true", "on", "1"} then Some(true)
    else if v in {"n", "no", "f", "false", "off", "0"} then Some(false)
    else None
  }

  /** The six filters, in the order they are applied. */
  datatype Stage = ByCategory | ByBrand | ByGamer | ByMinPrice | ByMaxPrice | ByInstallments

  /** Whether the parameter behind a filter was supplied (and parsed). */
  predicate Active(q: Criteria, st: Stage)
  {
    match st
    case ByCategory => q.category != ""
    case ByBrand => q.brand != ""
    case ByGamer => q.isGamer != ""
    case ByMinPrice => q.minPrice.Given?
    case ByMaxPrice => q.maxPrice.Given?
    case ByInstallments => q.installments.Given?
  }

  /** What a filter demands of a product: `iexact` on the category title
      and the brand name, equality with the parsed boolean and the parsed
      installments, and inclusive bounds on the offer price. */
  predicate Keeps(q: Criteria, st: Stage, p: Product)
  {
    match st
    case ByCategory => EqualsIgnoringCase(p.category.title, q.category)
    case ByBrand => EqualsIgnoringCase(p.brand.name, q.brand)
    case ByGamer => StrToBool(q.isGamer) == Some(p.isGamer)
    case ByMinPrice => q.minPrice.Given? && p.offerPrice >= q.minPrice.value
    case ByMaxPrice => q.maxPrice.Given? && p.offerPrice <= q.maxPrice.value
    case ByInstallments => q.installments.Given? && p.installments == q.installments.value
  }

  /** `queryset.filter(...)`: the products one filter keeps, in their order. */
  function Where(products: seq<Product>, q: Criteria, st: Stage): (r: seq<Product>)
    ensures |r| <= |products|
    ensures forall x :: x in r <==> x in products && Keeps(q, st, x)
  {
    if products == [] then []
    else (if Keeps(q, st, products[0]) then [products[0]] else []) + Where(products[1..], q, st)
  }

  /** One `if param:` step of the chain. */
  function Narrow(products: seq<Product>, q: Criteria, st: Stage): (r: seq<Product>)
    ensures |r| <= |products|
    ensures forall x :: x in r <==> x in products && (Active(q, st) ==> Keeps(q, st, x))
  {
    if Active(q, st) then Where(products, q, st) else products
  }

  /** The `is_gamer` parameter is absent or spells a boolean. */
  predicate GamerParamOk(q: Criteria)
  {
    q.isGamer == "" || StrToBool(q.isGamer).Some?
  }

  /** A product passes every supplied criterion; a parameter that failed to
      parse demands nothing. */
  predicate Selects(q: Criteria, p: Product)
  {
    && (Active(q, ByCategory) ==> Keeps(q, ByCategory, p))
    && (Active(q, ByBrand) ==> Keeps(q, ByBrand, p))
    && (Active(q, ByGamer) ==> Keeps(q, ByGamer, p))
    && (Active(q, ByMinPrice) ==> Keeps(q, ByMinPrice, p))
    && (Active(q, ByMaxPrice) ==> Keeps(q, ByMaxPrice, p))
    && (Active(q, ByInstallments) ==> Keeps(q, ByInstallments, p))
  }

  /** The filters applied in turn. `None` when `is_gamer` is not a boolean
      spelling, where `strtobool` raises and nothing catches it. */
  function ProductFilters(products: seq<Product>, q: Criteria): (r: Option<seq<Product>>)
    ensures r.None? <==> !GamerParamOk(q)
    ensures r.Some? ==> |r.value| <= |products|
    ensures r.Some? ==> forall p :: p in r.value <==> p in products && Selects(q, p)
  {
    var s1 := Narrow(products, q, ByCategory);
    var s2 := Narrow(s1, q, ByBrand);
    if !GamerParamOk(q) then None
    else
      var s3 := Narrow(s2, q, ByGamer);
      var s4 := Narrow(s3, q, ByMinPrice);
      var s5 := Narrow(s4, q, ByMaxPrice);
      var s6 := Narrow(s5, q, ByInstallments);
      Some(s6)
  }

  /** With no usable criterion the list comes back unchanged, and so it does
      when every numeric parameter failed to parse. */
  lemma NoCriteriaKeepsAll(products: seq<Product>, q: Criteria)
    requires q.category == "" && q.brand == "" && q.isGamer == ""
    requires !q.minPrice.Given? && !q.maxPrice.Given? && !q.installments.Given?
    ensures ProductFilters(products, q) == Some(products)
  {
  }

  /** Filtering on "Yes" keeps the gamer products only; filtering on "maybe"
      fails. */
  lemma GamerSpellings(products: seq<Product>)
    ensures var r := ProductFilters(products, Criteria("", "", "Yes", Absent, Absent, Absent));
            r.Some? && forall p :: p in r.value <==> p in products && p.isGamer
    ensures ProductFilters(products, Criteria("", "", "maybe", Absent, Absent, Absent)).None?
  {
    assert LowerString("Yes") == "yes";
    assert LowerString("maybe") == "maybe";
  }
}
