/** The cart's money: tax, shipping, the total and the rounded cart summary.
    Amounts are exact reals; `Math.round(x * 100) / 100` is written out as
    `Round2`, which rounds half a cent up, as `Math.round` does. */
module Pricing {
  import opened Common
  import opened Cart
  import Catalog

  const TaxRate: real := 0.08
  const ShippingFee: real := 9.99
  /** Shipping is free strictly above this subtotal. */
  const FreeShippingThreshold: real := 100.0

  /** `Math.round(x * 100) / 100`: the nearest whole cent, halves going up. */
  function Round2(x: real): (r: real)
    ensures x - 0.005 < r <= x + 0.005
    ensures (r * 100.0).Floor as real == r * 100.0
  {
    var cents := (x * 100.0 + 0.5).Floor;
    assert cents as real / 100.0 * 100.0 == cents as real;
    cents as real / 100.0
  }

  /** Rounding to cents never reverses the order of two amounts. */
  lemma Round2Monotone(x: real, y: real)
    requires x <= y
    ensures Round2(x) <= Round2(y)
  {
    assert (x * 100.0 + 0.5).Floor <= (y * 100.0 + 0.5).Floor;
  }

  /** An amount already in whole cents is left as it is. */
  lemma Round2WholeCents(k: int)
    ensures Round2(k as real / 100.0) == k as real / 100.0
  {
    assert k as real / 100.0 * 100.0 + 0.5 == k as real + 0.5;
    assert (k as real + 0.5).Floor == k;
  }

  /** Rounding twice is rounding once. */
  lemma Round2Idempotent(x: real)
    ensures Round2(Round2(x)) == Round2(x)
  {
    var cents := (x * 100.0 + 0.5).Floor;
    assert Round2(x) == cents as real / 100.0;
    Round2WholeCents(cents);
  }

  /** `getTax`: 8% of the subtotal. */
  function Tax(subtotal: real): (r: real)
    ensures subtotal >= 0.0 ==> 0.0 <= r <= subtotal
    ensures r * 12.5 == subtotal
  {
    subtotal * TaxRate
  }

  /** `getShipping`: free above 100, a flat fee otherwise. */
  function Shipping(subtotal: real): (r: real)
    ensures r == 0.0 <==> subtotal > FreeShippingThreshold
    ensures r == 0.0 || r == ShippingFee
  {
    if subtotal > FreeShippingThreshold then 0.0 else ShippingFee
  }

  /** `getTotal`: subtotal, tax and shipping, unrounded. */
  function Total(items: seq<LineItem>): (r: real)
    ensures Subtotal(items) > FreeShippingThreshold ==> r == Subtotal(items) * 1.08
    ensures Subtotal(items) <= FreeShippingThreshold ==> r == Subtotal(items) * 1.08 + ShippingFee
  {
    var subtotal := Subtotal(items);
    subtotal + Tax(subtotal) + Shipping(subtotal)
  }

  datatype Summary = Summary(
    itemCount: int,
    subtotal: real,
    tax: real,
    shipping: real,
    total: real,
    freeShippingEligible: bool,
    freeShippingRemaining: real)

  /** `getCartSummary`: every amount rounded to cents, the total from the
      unrounded sum rather than from the rounded parts. */
  function CartSummary(items: seq<LineItem>): (r: Summary)
    ensures r.itemCount == ItemCount(items)
    ensures r.freeShippingEligible <==> Subtotal(items) > FreeShippingThreshold
    ensures r.freeShippingEligible <==> r.shipping == 0.0
    ensures !r.freeShippingEligible ==> r.shipping == ShippingFee
    ensures r.freeShippingEligible ==> r.freeShippingRemaining == 0.0
    ensures !r.freeShippingEligible ==> r.freeShippingRemaining == Round2(FreeShippingThreshold - Subtotal(items))
    ensures Subtotal(items) >= 0.0 ==> 0.0 <= r.freeShippingRemaining <= FreeShippingThreshold
    ensures r.subtotal == Round2(Subtotal(items))
    ensures r.tax == Round2(Tax(Subtotal(items)))
    ensures r.shipping == Round2(Shipping(Subtotal(items)))
    ensures r.total == Round2(Total(items))
    ensures Total(items) - 0.005 < r.total <= Total(items) + 0.005
    ensures Subtotal(items) - 0.005 < r.subtotal <= Subtotal(items) + 0.005
  {
    var subtotal := Subtotal(items);
    var tax := Tax(subtotal);
    var shipping := Shipping(subtotal);
    var total := subtotal + tax + shipping;
    var remaining := if subtotal > FreeShippingThreshold then 0.0 else Round2(FreeShippingThreshold - subtotal);
    RemainingBounds(subtotal);
    Round2WholeCents(999);
    Round2WholeCents(0);
    Summary(
      ItemCount(items),
      Round2(subtotal),
      Round2(tax),
      Round2(shipping),
      Round2(total),
      subtotal > FreeShippingThreshold,
      remaining)
  }

  /** Below the threshold the amount still needed rounds into [0, 100]. */
  lemma RemainingBounds(subtotal: real)
    ensures 0.0 <= subtotal <= FreeShippingThreshold ==>
              0.0 <= Round2(FreeShippingThreshold - subtotal) <= FreeShippingThreshold
  {
    if 0.0 <= subtotal <= FreeShippingThreshold {
      Round2Monotone(0.0, FreeShippingThreshold - subtotal);
      Round2Monotone(FreeShippingThreshold - subtotal, FreeShippingThreshold);
      Round2WholeCents(0);
      Round2WholeCents(10000);
    }
  }

  /** An empty cart owes only the shipping fee and is 100 short of free shipping. */
  lemma EmptyCartSummary()
    ensures CartSummary([]) == Summary(0, 0.0, 0.0, 9.99, 9.99, false, 100.0)
  {
    Round2WholeCents(0);
    Round2WholeCents(999);
    Round2WholeCents(10000);
    assert Total([]) == 9.99;
  }

  /** A cart line for a product with the given id and price. */
  function Line(id: string, price: real, quantity: int): LineItem {
    LineItem(Catalog.Product(id, id, price, "", "", "", "", None, false), quantity)
  }

  /** A one-line cart with the given price and quantity 1. */
  function OneLine(price: real): seq<LineItem> {
    [Line("p", price, 1)]
  }

  /** Two at 10, one at 5.50 and one at 100: 125.50, so 10.04 tax, free
      shipping and 135.54 in total. */
  lemma SummaryAboveThreshold()
    ensures CartSummary([Line("a", 10.0, 2), Line("b", 5.5, 1), Line("c", 100.0, 1)])
            == Summary(4, 125.5, 10.04, 0.0, 135.54, true, 0.0)
  {
    var items := [Line("a", 10.0, 2), Line("b", 5.5, 1), Line("c", 100.0, 1)];
    assert items[1..] == [Line("b", 5.5, 1), Line("c", 100.0, 1)] && items[1..][1..] == [Line("c", 100.0, 1)];
    assert Subtotal(items) == 125.5;
    assert ItemCount(items) == 4;
    Round2WholeCents(12550);
    Round2WholeCents(0);
    Round2WholeCents(13554);
    assert Round2(10.04) == 10.04;
  }

  /** A 20.00 cart: 1.60 tax, 9.99 shipping, 31.59 in total and 80 short of free shipping. */
  lemma SummaryBelowThreshold()
    ensures CartSummary(OneLine(20.0)) == Summary(1, 20.0, 1.6, 9.99, 31.59, false, 80.0)
  {
    assert Subtotal(OneLine(20.0)) == 20.0;
    Round2WholeCents(2000);
    Round2WholeCents(160);
    Round2WholeCents(999);
    Round2WholeCents(3159);
    Round2WholeCents(8000);
  }

  /** Rounding the unrounded sum is not the sum of the rounded parts: at a
      subtotal of 50.065 the parts shown are 50.07, 4.01 and 9.99, which add
      up to 64.07, while the total shown is 64.06. */
  lemma TotalIsNotSumOfShownParts()
    ensures var s := CartSummary(OneLine(50.065));
            s.subtotal == 50.07 && s.tax == 4.01 && s.shipping == 9.99 && s.total == 64.06
            && s.total != s.subtotal + s.tax + s.shipping
  {
    assert Subtotal(OneLine(50.065)) == 50.065;
    assert (50.065 * 100.0 + 0.5).Floor == 5007;
    assert (4.0052 * 100.0 + 0.5).Floor == 401;
    assert (64.0602 * 100.0 + 0.5).Floor == 6406;
    Round2WholeCents(999);
  }
}
