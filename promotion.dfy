/** Price promotions: each turns a unit price and a quantity into the total
    charged for that many units (promotion.py). */
module Promotions {
  import opened Outcomes
  import Products

  /** The three promotion kinds; every promotion carries its display name. */
  datatype Promotion =
    | SecondHalfPrice(name: string)
    | ThirdOneFree(name: string)
    | PercentDiscount(name: string, percent: real)
  {
    /** What construction guarantees: a percentage lies in [0, 100]. */
    predicate Valid()
    {
      PercentDiscount? ==> 0.0 <= percent <= 100.0
    }
  }

  /** PercentDiscount(member, percent): refuses a percentage outside [0, 100]. */
  function NewPercentDiscount(member: string, percent: real := 0.0): (r: Result<Promotion>)
    ensures r.Ok? <==> 0.0 <= percent <= 100.0
    ensures r.Ok? ==> r.value.Valid() && r.value == PercentDiscount(member, percent)
    ensures r.Err? ==> r.error == PercentOutOfRange
  {
    if percent < 0.0 || percent > 100.0 then Err(PercentOutOfRange)
    else Ok(PercentDiscount(member, percent))
  }

  // Integer division and remainder below are by a positive constant, where
  // Dafny's Euclidean operators agree with Python's floor division.

  /** Units paired off: one full price, one half price; an odd unit left over pays full price. */
  function SecondHalfPriceTotal(price: real, quantity: int): (total: real)
    ensures quantity % 2 == 0 ==> total == 0.75 * price * quantity as real
  {
    var fullPriceItems := quantity / 2;
    var halfPriceItems := fullPriceItems;
    var leftoverItems := quantity % 2;
    fullPriceItems as real * price + halfPriceItems as real * price * 0.5 + leftoverItems as real * price
  }

  /** Every third unit is free. */
  function ThirdOneFreeTotal(price: real, quantity: int): (total: real)
    ensures 0 <= quantity < 3 ==> total == quantity as real * price
  {
    var freeItems := quantity / 3;
    (quantity - freeItems) as real * price
  }

  /** A fixed percentage off the unit price, for every unit. */
  function PercentDiscountTotal(percent: real, price: real, quantity: int): (total: real)
    ensures percent == 0.0 ==> total == price * quantity as real
    ensures percent == 100.0 ==> total == 0.0
  {
    var discountAmount := (percent / 100.0) * price;
    (price - discountAmount) * quantity as real
  }

  /** apply_promotion, dispatched on the kind of promotion. */
  function Apply(promo: Promotion, price: real, quantity: int): real
  {
    match promo
    case SecondHalfPrice(_) => SecondHalfPriceTotal(price, quantity)
    case ThirdOneFree(_) => ThirdOneFreeTotal(price, quantity)
    case PercentDiscount(_, percent) => PercentDiscountTotal(percent, price, quantity)
  }

  /** apply_promotion(product, quantity): of the product it reads the price
      and nothing else, it changes nothing, and it never charges more than
      the undiscounted price of the units. */
  function ApplyTo(promo: Promotion, product: Products.Product, quantity: int): (total: real)
    reads product`price
    ensures promo.Valid() && product.price >= 0.0 && quantity >= 0 ==>
              0.0 <= total <= product.price * quantity as real
  {
    if promo.Valid() && product.price >= 0.0 && quantity >= 0 then
      ApplyBounded(promo, product.price, quantity);
      Apply(promo, product.price, quantity)
    else
      Apply(promo, product.price, quantity)
  }

  // ---------------------------------------------------------------------------
  // A reference definition: the charge for each unit, summed unit by unit
  // ---------------------------------------------------------------------------

  /** What the k-th unit bought (counting from 1) costs under the promotion. */
  function UnitCharge(promo: Promotion, price: real, k: nat): (c: real)
    requires k >= 1
    ensures promo.Valid() && price >= 0.0 ==> 0.0 <= c <= price
  {
    match promo
    case SecondHalfPrice(_) => if k % 2 == 0 then price * 0.5 else price
    case ThirdOneFree(_) => if k % 3 == 0 then 0.0 else price
    case PercentDiscount(_, percent) =>
      assert promo.Valid() && price >= 0.0 ==> 0.0 <= (percent / 100.0) * price <= price by {
        if promo.Valid() && price >= 0.0 {
          assert 0.0 <= percent / 100.0 <= 1.0;
        }
      }
      price - (percent / 100.0) * price
  }

  /** The charges of units 1 through quantity, added up. */
  function ByUnits(promo: Promotion, price: real, quantity: nat): real
  {
    if quantity == 0 then 0.0
    else ByUnits(promo, price, quantity - 1) + UnitCharge(promo, price, quantity)
  }

  lemma {:induction false} SecondHalfPriceByUnits(name: string, price: real, q: nat)
    ensures SecondHalfPriceTotal(price, q) == ByUnits(SecondHalfPrice(name), price, q)
  {
    if q > 0 {
      SecondHalfPriceByUnits(name, price, q - 1);
      var m := (q - 1) / 2;
      if q % 2 == 0 {
        assert q / 2 == m + 1 && (q - 1) % 2 == 1;
        assert (m + 1) as real * price == m as real * price + price;
      } else {
        assert q / 2 == m && (q - 1) % 2 == 0;
      }
    }
  }

  lemma {:induction false} ThirdOneFreeByUnits(name: string, price: real, q: nat)
    ensures ThirdOneFreeTotal(price, q) == ByUnits(ThirdOneFree(name), price, q)
  {
    if q > 0 {
      ThirdOneFreeByUnits(name, price, q - 1);
      var paid := q - q / 3;
      if q % 3 == 0 {
        assert q / 3 == (q - 1) / 3 + 1;
      } else {
        assert q / 3 == (q - 1) / 3;
        assert paid as real * price == (paid - 1) as real * price + price;
      }
    }
  }

  lemma {:induction false} PercentDiscountByUnits(name: string, percent: real, price: real, q: nat)
    ensures PercentDiscountTotal(percent, price, q) == ByUnits(PercentDiscount(name, percent), price, q)
  {
    if q > 0 {
      PercentDiscountByUnits(name, percent, price, q - 1);
      var unit := price - (percent / 100.0) * price;
      assert unit * q as real == unit * (q - 1) as real + unit;
    }
  }

  /** Every promotion's closed-form total is the sum of its per-unit charges. */
  lemma ApplyByUnits(promo: Promotion, price: real, q: nat)
    ensures Apply(promo, price, q) == ByUnits(promo, price, q)
  {
    match promo
    case SecondHalfPrice(name) => SecondHalfPriceByUnits(name, price, q);
    case ThirdOneFree(name) => ThirdOneFreeByUnits(name, price, q);
    case PercentDiscount(name, percent) => PercentDiscountByUnits(name, percent, price, q);
  }

  lemma {:induction false} ByUnitsBounded(promo: Promotion, price: real, q: nat)
    requires promo.Valid() && price >= 0.0
    ensures 0.0 <= ByUnits(promo, price, q) <= price * q as real
  {
    if q > 0 {
      ByUnitsBounded(promo, price, q - 1);
      assert price * q as real == price * (q - 1) as real + price;
    }
  }

  /** A promotion never charges less than nothing nor more than the
      undiscounted price * quantity. */
  lemma ApplyBounded(promo: Promotion, price: real, q: int)
    requires promo.Valid() && price >= 0.0 && q >= 0
    ensures 0.0 <= Apply(promo, price, q) <= price * q as real
  {
    ApplyByUnits(promo, price, q);
    ByUnitsBounded(promo, price, q);
  }

  /** The worked examples of the three promotions. */
  lemma WorkedExamples()
    ensures NewPercentDiscount("member") == Ok(PercentDiscount("member", 0.0))
    ensures SecondHalfPriceTotal(20.0, 3) == 50.0
    ensures ThirdOneFreeTotal(30.0, 3) == 60.0
    ensures PercentDiscountTotal(50.0, 100.0, 2) == 100.0
  {
  }
}
