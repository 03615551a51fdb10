/**
 * The pricing rule shared by the storefront and the order builder
 * (`calculateDiscountedPrice`), the 8% tax, and the two roundings the source
 * applies to money: `toFixed(2)` when an amount is stored and `Math.round`
 * when the total is converted to cents for the payment processor.
 * Money is an exact `real`; the source's binary floating point is not modelled.
 */
module Pricing {
  import opened Wrappers

  const TAX_RATE: real := 0.08

  /** `calculateDiscountedPrice(price, discountPercent)`: an absent discount counts as 0. */
  function DiscountedPrice(price: real, discountPercent: Option<real>): real
  {
    var discount := if discountPercent.Some? then discountPercent.value / 100.0 else 0.0;
    price * (1.0 - discount)
  }

  /**
   * `calculateDiscountedPrice` as the storefront calls it, on the decimal text
   * the API sends; `parse` stands for `parseFloat`. A discount that is absent or
   * the empty string counts as none.
   */
  function ClientDiscountedPrice(price: string, discountPercent: Option<string>, parse: string -> real): real
  {
    var basePrice := parse(price);
    var discount := if Truthy(discountPercent) then parse(discountPercent.value) / 100.0 else 0.0;
    basePrice * (1.0 - discount)
  }

  /** The storefront's price is the shared rule applied to the parsed fields; an absent or empty discount leaves the price as parsed. */
  lemma ClientPriceIsDiscountedPrice(price: string, discountPercent: Option<string>, parse: string -> real)
    ensures Truthy(discountPercent) ==>
              ClientDiscountedPrice(price, discountPercent, parse) == DiscountedPrice(parse(price), Some(parse(discountPercent.value)))
    ensures !Truthy(discountPercent) ==> ClientDiscountedPrice(price, discountPercent, parse) == parse(price)
  {
    if !Truthy(discountPercent) {
      assert parse(price) * (1.0 - 0.0) == parse(price);
    }
  }

  /** With no discount the price is unchanged. */
  lemma NoDiscountKeepsPrice(price: real)
    ensures DiscountedPrice(price, None) == price
    ensures DiscountedPrice(price, Some(0.0)) == price
  {
  }

  /** For a price of at least 0 and a discount between 0 and 100 the result lies between 0 and the price. */
  lemma DiscountWithinPrice(price: real, d: real)
    requires price >= 0.0 && 0.0 <= d <= 100.0
    ensures 0.0 <= DiscountedPrice(price, Some(d)) <= price
    ensures d == 100.0 ==> DiscountedPrice(price, Some(d)) == 0.0
  {
    var f := 1.0 - d / 100.0;
    assert 0.0 <= f <= 1.0;
    assert price * f <= price * 1.0 by { MulMonotone(price, f, 1.0); }
    assert 0.0 * f <= price * f by { MulMonotone(f, 0.0, price); }
  }

  /** A larger discount never yields a larger price. */
  lemma DiscountAntitone(price: real, d1: real, d2: real)
    requires price >= 0.0 && d1 <= d2
    ensures DiscountedPrice(price, Some(d2)) <= DiscountedPrice(price, Some(d1))
  {
    MulMonotone(price, 1.0 - d2 / 100.0, 1.0 - d1 / 100.0);
  }

  /** A discount above 100 percent, which the product validator lets through, gives a negative price. */
  lemma DiscountAboveHundredIsNegative(price: real, d: real)
    requires price > 0.0 && d > 100.0
    ensures DiscountedPrice(price, Some(d)) < 0.0
  {
    var f := 1.0 - d / 100.0;
    assert f < 0.0;
    MulNegative(price, f);
  }

  lemma MulMonotone(c: real, a: real, b: real)
    requires c >= 0.0 && a <= b
    ensures c * a <= c * b
  {
    assert c * b - c * a == c * (b - a);
  }

  lemma MulNegative(c: real, f: real)
    requires c > 0.0 && f < 0.0
    ensures c * f < 0.0
  {
    assert c * (-f) > 0.0;
  }

  /** An amount that is a whole number of cents. */
  predicate IsCents(x: real)
  {
    (x * 100.0).Floor as real == x * 100.0
  }

  /** `Math.round(x)`: the nearest integer, halves rounded up. */
  function RoundHalfUp(x: real): (n: int)
    ensures x - 0.5 < n as real <= x + 0.5
  {
    (x + 0.5).Floor
  }

  /**
   * `x.toFixed(2)` read back as a number: the nearest whole number of cents,
   * halves rounded away from zero (toFixed works on the magnitude).
   */
  function ToFixed2(x: real): (r: real)
    ensures IsCents(r)
    ensures x - 0.005 <= r <= x + 0.005
    ensures x >= 0.0 ==> r >= 0.0
    ensures x <= 0.0 ==> r <= 0.0
  {
    if x >= 0.0 then
      var n := RoundHalfUp(x * 100.0);
      CentsAreCents(n);
      n as real / 100.0
    else
      var n := RoundHalfUp(-x * 100.0);
      CentsAreCents(-n);
      -(n as real / 100.0)
  }

  lemma CentsAreCents(n: int)
    ensures IsCents(n as real / 100.0)
  {
    assert (n as real / 100.0) * 100.0 == n as real;
  }

  /** A value that already is a whole number of cents is left alone by `toFixed(2)`. */
  lemma ToFixed2OfCents(x: real)
    requires IsCents(x)
    ensures ToFixed2(x) == x
  {
    var k := (x * 100.0).Floor;
    assert x == k as real / 100.0;
    if x >= 0.0 {
      assert RoundHalfUp(x * 100.0) == k;
    } else {
      assert RoundHalfUp(-x * 100.0) == -k;
    }
  }

  /** The amount in cents handed to the payment processor: `Math.round(total * 100)`. */
  function AmountInCents(total: real): int
  {
    RoundHalfUp(total * 100.0)
  }

  /** For a stored amount (whole cents) the conversion to cents is exact. */
  lemma AmountInCentsExact(total: real)
    requires IsCents(total)
    ensures AmountInCents(total) as real == total * 100.0
  {
    var k := (total * 100.0).Floor;
    assert total * 100.0 + 0.5 == k as real + 0.5;
    assert (k as real + 0.5).Floor == k;
  }

  function Tax(subtotal: real): real
  {
    subtotal * TAX_RATE
  }

  /** The three amounts an order stores, each `toFixed(2)` of the unrounded value. */
  datatype Amounts = Amounts(subtotal: real, taxAmount: real, total: real)

  /** The stored amounts for an unrounded subtotal: the total is rounded from subtotal + tax, not summed after rounding. */
  function StoredAmounts(rawSubtotal: real): (a: Amounts)
    ensures IsCents(a.subtotal) && IsCents(a.taxAmount) && IsCents(a.total)
    ensures a.total - 0.015 <= a.subtotal + a.taxAmount <= a.total + 0.015
  {
    Amounts(ToFixed2(rawSubtotal), ToFixed2(Tax(rawSubtotal)), ToFixed2(rawSubtotal + Tax(rawSubtotal)))
  }

  /**
   * The stored total need not equal the stored subtotal plus the stored tax: an
   * unrounded subtotal of 0.00465 stores 0.00 and 0.00 but a total of 0.01.
   */
  lemma StoredTotalMayDifferFromSum()
    ensures var a := StoredAmounts(0.00465); a.subtotal == 0.0 && a.taxAmount == 0.0 && a.total == 0.01
  {
    assert RoundHalfUp(0.00465 * 100.0) == 0;
    assert RoundHalfUp(Tax(0.00465) * 100.0) == 0;
    assert RoundHalfUp((0.00465 + Tax(0.00465)) * 100.0) == 1;
  }
}
