// Catalog records and their computed properties: a product's stock record
// and whether it is in stock, available and low stock, the average review
// rating, and whether a coupon may be used at a given moment. Money is in
// integer cents (the source's two-decimal `Decimal`), times are integers.

module Products {
  import opened Seqs

  type ProductId = nat
  type CategoryId = nat

  /** An amount of money in cents. */
  type Cents = int

  /** One `Stock` row. The source keeps no invariant between its counters. */
  datatype Stock = Stock(quantity: nat, reservedQuantity: nat, reorderLevel: nat, maxStockLevel: nat)

  /** `Stock.available_quantity`: on-hand units not reserved (negative when over-reserved). */
  function AvailableQuantity(s: Stock): (a: int)
    ensures a + s.reservedQuantity == s.quantity
    ensures a <= s.quantity
  {
    s.quantity - s.reservedQuantity
  }

  /** `Stock.is_low_stock`. */
  predicate IsLowStock(s: Stock)
    ensures AvailableQuantity(s) <= 0 ==> IsLowStock(s)
  {
    AvailableQuantity(s) <= s.reorderLevel
  }

  /** Low stock, stated over the stored counters. */
  lemma LowStockMeans(s: Stock)
    ensures IsLowStock(s) <==> s.quantity <= s.reservedQuantity + s.reorderLevel
  {
  }

  /** A stock record created with the column defaults. */
  function NewStock(): (s: Stock)
    ensures s.quantity == 0 && s.reservedQuantity == 0
    ensures s.reorderLevel == 10 && s.maxStockLevel == 1000
    ensures AvailableQuantity(s) == 0 && IsLowStock(s)
  {
    Stock(0, 0, 10, 1000)
  }

  /** Reserving more units, or holding fewer, never lifts a record out of low stock. */
  lemma LowStockMonotone(s: Stock, t: Stock)
    requires t.reorderLevel == s.reorderLevel
    requires t.quantity <= s.quantity && t.reservedQuantity >= s.reservedQuantity
    ensures IsLowStock(s) ==> IsLowStock(t)
  {
  }

  datatype Product = Product(
    id: ProductId, name: string, description: string, shortDescription: string,
    category: CategoryId, sku: string, price: Cents, isActive: bool,
    stock: Option<Stock>)

  /** `Product.is_in_stock`: judged on on-hand quantity; false without a stock record. */
  function IsInStock(p: Product): (b: bool)
    ensures p.stock.None? ==> !b
    ensures p.stock.Some? ==> (b <==> p.stock.value.quantity > 0)
  {
    if p.stock.Some? then p.stock.value.quantity > 0 else false
  }

  /** Reservations do not count: a product whose every unit is reserved is still in stock. */
  lemma InStockIgnoresReservations(p: Product)
    requires p.stock.Some? && p.stock.value.quantity > 0
    requires p.stock.value.reservedQuantity == p.stock.value.quantity
    ensures IsInStock(p) && AvailableQuantity(p.stock.value) == 0
  {
  }

  // ---------------------------------------------------------------------
  // Reviews: `ProductReview.rating` is validated to lie in 1..5.

  predicate ValidRating(r: int) { 1 <= r <= 5 }

  function RatingSum(ratings: seq<int>): int {
    if ratings == [] then 0 else ratings[0] + RatingSum(ratings[1..])
  }

  lemma {:induction false} RatingSumBounds(ratings: seq<int>)
    requires forall i :: 0 <= i < |ratings| ==> ValidRating(ratings[i])
    ensures |ratings| <= RatingSum(ratings) <= 5 * |ratings|
  {
    if ratings != [] {
      RatingSumBounds(ratings[1..]);
    }
  }

  /** `Product.average_rating` over the ratings of all its reviews. */
  function AverageRating(ratings: seq<int>): (avg: real)
    ensures ratings == [] ==> avg == 0.0
    ensures ratings != [] ==> avg * (|ratings| as real) == RatingSum(ratings) as real
  {
    if ratings == [] then 0.0 else RatingSum(ratings) as real / |ratings| as real
  }

  /** With at least one review, the average lies between the lowest and highest rating allowed. */
  lemma AverageRatingInRange(ratings: seq<int>)
    requires ratings != []
    requires forall i :: 0 <= i < |ratings| ==> ValidRating(ratings[i])
    ensures 1.0 <= AverageRating(ratings) <= 5.0
  {
    RatingSumBounds(ratings);
    var count := |ratings|;
    var total := RatingSum(ratings);
    var n, t := count as real, total as real;
    assert 1.0 * n <= t by { assert count <= total; }
    assert t <= 5.0 * n by { assert total <= 5 * count; }
    QuotientBetween(t, n, 1.0, 5.0);
  }

  lemma QuotientBetween(t: real, n: real, lo: real, hi: real)
    requires n > 0.0 && lo * n <= t <= hi * n
    ensures lo <= t / n <= hi
  {
    var q := t / n;
    assert q * n == t;
    if q < lo {
      ScaleStrict(q, lo, n);
    }
    if q > hi {
      ScaleStrict(hi, q, n);
    }
  }

  lemma ScaleStrict(a: real, b: real, n: real)
    requires a < b && n > 0.0
    ensures a * n < b * n
  {
    assert b * n - a * n == (b - a) * n;
  }

  // ---------------------------------------------------------------------
  // Coupons.

  datatype DiscountType = Percentage | Fixed

  datatype Coupon = Coupon(
    code: string, discountType: DiscountType, discountValue: Cents, minimumAmount: Cents,
    maximumUses: Option<nat>, usedCount: nat, validFrom: int, validTo: int, isActive: bool)

  /** `Coupon.is_valid` at time `now`. */
  predicate IsValid(c: Coupon, now: int)
    ensures IsValid(c, now) ==> c.validFrom <= c.validTo && (c.maximumUses.Some? ==> c.maximumUses.value >= 1)
  {
    c.isActive && c.validFrom <= now <= c.validTo &&
    (c.maximumUses.None? || c.usedCount < c.maximumUses.value)
  }

  /** Without a usage cap the count of uses never matters: only the flag and the window do. */
  lemma UncappedCouponIgnoresUses(c: Coupon, now: int, uses: nat)
    requires c.maximumUses.None?
    ensures IsValid(c.(usedCount := uses), now) <==> c.isActive && c.validFrom <= now <= c.validTo
  {
  }

  /** A capped coupon that has been used as often as allowed is invalid at every moment. */
  lemma ExhaustedCouponInvalid(c: Coupon, now: int)
    requires c.maximumUses.Some? && c.usedCount >= c.maximumUses.value
    ensures !IsValid(c, now)
  {
  }

  /** Validity is an interval in time: valid at two moments means valid in between. */
  lemma ValidityIsInterval(c: Coupon, t1: int, t2: int, t: int)
    requires IsValid(c, t1) && IsValid(c, t2) && t1 <= t <= t2
    ensures IsValid(c, t)
  {
  }
}
