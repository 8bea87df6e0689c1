/**
 * How the checkout prices an order (api/views.py:716-730): the subtotal of
 * the lines at their offer prices, minus the amount of an applied coupon,
 * minus a "cart discount" of one percent per line when there is more than
 * one line. Nothing clamps the result at zero.
 */
module Pricing {
  import opened Basics
  import opened Models

  /** One requested line of a checkout, its fields already read as ints. */
  datatype Line = Line(productId: ProductId, quantity: int)

  predicate LinesResolve(products: map<ProductId, Product>, lines: seq<Line>)
  {
    forall i :: 0 <= i < |lines| ==> lines[i].productId in products
  }

  /** The sum of `offer_price * quantity` over the lines. */
  function Subtotal(products: map<ProductId, Product>, lines: seq<Line>): real
    requires LinesResolve(products, lines)
  {
    if lines == [] then 0.0
    else
      var last := lines[|lines| - 1];
      Subtotal(products, lines[..|lines| - 1]) + LineTotal(products[last.productId].offerPrice, last.quantity)
  }

  function CouponAmount(coupon: Option<real>): real
  {
    if coupon.Some? then coupon.value else 0.0
  }

  /** The amount written into `paid`, given the subtotal, the amount of the
      applied coupon (if any) and the number of lines. */
  function Paid(subtotal: real, coupon: Option<real>, lineCount: nat): (paid: real)
    ensures lineCount <= 1 ==> paid == subtotal - CouponAmount(coupon)
    ensures lineCount > 1 ==>
      paid == (subtotal - CouponAmount(coupon)) * (1.0 - lineCount as real / 100.0)
  {
    var total := subtotal - CouponAmount(coupon);
    if lineCount > 1 then total - total * lineCount as real / 100.0 else total
  }

  /** With non-negative offer prices and quantities the subtotal is not
      negative. */
  lemma {:induction false} SubtotalNonNegative(products: map<ProductId, Product>, lines: seq<Line>)
    requires LinesResolve(products, lines)
    requires forall p :: p in products ==> products[p].offerPrice >= 0.0
    requires forall i :: 0 <= i < |lines| ==> lines[i].quantity >= 0
    ensures Subtotal(products, lines) >= 0.0
  {
    if lines != [] {
      var last := lines[|lines| - 1];
      SubtotalNonNegative(products, lines[..|lines| - 1]);
      var price := products[last.productId].offerPrice;
      assert LineTotal(price, last.quantity) >= 0.0 by {
        assert price >= 0.0 && last.quantity as real >= 0.0;
      }
    }
  }

  /** Extending the lines by one adds that line's total. */
  lemma SubtotalSnoc(products: map<ProductId, Product>, lines: seq<Line>, line: Line)
    requires LinesResolve(products, lines) && line.productId in products
    ensures LinesResolve(products, lines + [line])
    ensures Subtotal(products, lines + [line]) ==
      Subtotal(products, lines) + LineTotal(products[line.productId].offerPrice, line.quantity)
  {
    assert (lines + [line])[..|lines|] == lines;
  }

  /** Without a coupon, with a non-negative subtotal and at most 100 lines,
      the amount paid lies between zero and the subtotal. */
  lemma PaidWithinSubtotal(subtotal: real, lineCount: nat)
    requires subtotal >= 0.0 && lineCount <= 100
    ensures 0.0 <= Paid(subtotal, None, lineCount) <= subtotal
  {
    if lineCount > 1 {
      var f := 1.0 - lineCount as real / 100.0;
      assert 0.0 <= f <= 1.0;
      assert CouponAmount(None) == 0.0;
      assert Paid(subtotal, None, lineCount) == subtotal * f;
      NonNegTimes(subtotal, f);
      NonNegTimes(subtotal, 1.0 - f);
      assert subtotal * f == subtotal - subtotal * (1.0 - f);
    }
  }

  lemma NonNegTimes(a: real, b: real)
    requires a >= 0.0 && b >= 0.0
    ensures a * b >= 0.0
  {
  }

  lemma NegTimesPos(t: real, f: real)
    requires t < 0.0 && f > 0.0
    ensures t * f < 0.0
  {
    assert (-t) * f > 0.0;
  }

  lemma PosTimesNeg(t: real, f: real)
    requires t > 0.0 && f < 0.0
    ensures t * f < 0.0
  {
    assert t * (-f) > 0.0;
  }

  /** A coupon worth more than the subtotal makes `paid` negative when there
      are fewer than 100 lines. */
  lemma CouponCanMakePaidNegative(subtotal: real, amount: real, lineCount: nat)
    requires amount > subtotal && lineCount < 100
    ensures Paid(subtotal, Some(amount), lineCount) < 0.0
  {
    if lineCount > 1 {
      var t := subtotal - amount;
      var f := 1.0 - lineCount as real / 100.0;
      assert CouponAmount(Some(amount)) == amount;
      assert Paid(subtotal, Some(amount), lineCount) == t * f;
      NegTimesPos(t, f);
    }
  }

  /** More than 100 lines turn a positive total into a negative payment. */
  lemma ManyLinesMakePaidNegative(subtotal: real, coupon: Option<real>, lineCount: nat)
    requires lineCount > 100 && subtotal - CouponAmount(coupon) > 0.0
    ensures Paid(subtotal, coupon, lineCount) < 0.0
  {
    var t := subtotal - CouponAmount(coupon);
    var f := 1.0 - lineCount as real / 100.0;
    assert Paid(subtotal, coupon, lineCount) == t * f;
    PosTimesNeg(t, f);
  }

  /** A worked checkout: two units of a product offered at 100 and one unit
      of a product offered at 50, with a coupon worth 20, pay
      (250 - 20) * 0.98 = 225.4. */
  lemma WorkedCheckout(a: Product, b: Product)
    requires a.offerPrice == 100.0 && b.offerPrice == 50.0
    ensures var products := map[1 := a, 2 := b];
            var lines := [Line(1, 2), Line(2, 1)];
            LinesResolve(products, lines) &&
            Paid(Subtotal(products, lines), Some(20.0), |lines|) == 225.4
  {
    var products := map[1 := a, 2 := b];
    var lines := [Line(1, 2), Line(2, 1)];
    SubtotalSnoc(products, [], Line(1, 2));
    SubtotalSnoc(products, [Line(1, 2)], Line(2, 1));
    assert [] + [Line(1, 2)] == [Line(1, 2)];
    assert [Line(1, 2)] + [Line(2, 1)] == lines;
  }
}
