// Catalog endpoints: the product search with its successive filters, the
// coupon-validation decision, and the role filters on the stock and coupon
// lists. Querysets are sequences of rows; `.filter(...)` is `Filter`.

module ProductViews {
  import opened Seqs
  import opened Text
  import opened Accounts
  import opened Products

  // ---------------------------------------------------------------------
  // product_search

  /**
   * The query-string parameters of `product_search`. `q` is "" when absent;
   * a missing or empty `category`, `min_price` or `max_price` is `None`.
   */
  datatype SearchParams = SearchParams(
    q: string, category: Option<CategoryId>, minPrice: Option<Cents>, maxPrice: Option<Cents>)

  /** `name__icontains=q | description__icontains=q | short_description__icontains=q`. */
  predicate MatchesQuery(p: Product, q: string) {
    IContains(p.name, q) || IContains(p.description, q) || IContains(p.shortDescription, q)
  }

  /** The conditions a product must meet to be in the search result. */
  predicate SearchMatches(p: Product, params: SearchParams) {
    p.isActive &&
    (params.q != [] ==> MatchesQuery(p, params.q)) &&
    (params.category.Some? ==> p.category == params.category.value) &&
    (params.minPrice.Some? ==> p.price >= params.minPrice.value) &&
    (params.maxPrice.Some? ==> p.price <= params.maxPrice.value)
  }

  /** `product_search`: starts from the active products and narrows by each parameter given. */
  method ProductSearch(catalog: seq<Product>, params: SearchParams) returns (products: seq<Product>)
    ensures forall p :: p in products <==> p in catalog && SearchMatches(p, params)
    ensures forall p :: p in products ==> p.isActive
    ensures |products| <= |catalog|
  {
    products := Filter(catalog, (p: Product) => p.isActive);
    if params.q != [] {
      var q := params.q;
      products := Filter(products, (p: Product) => MatchesQuery(p, q));
    }
    if params.category.Some? {
      var category := params.category.value;
      products := Filter(products, (p: Product) => p.category == category);
    }
    if params.minPrice.Some? {
      var low := params.minPrice.value;
      products := Filter(products, (p: Product) => p.price >= low);
    }
    if params.maxPrice.Some? {
      var high := params.maxPrice.value;
      products := Filter(products, (p: Product) => p.price <= high);
    }
  }

  /**
   * A product found by a non-empty query has the query, case-folded, at some
   * position of its case-folded name, description or short description.
   */
  lemma SearchResultContainsQuery(p: Product, q: string)
    requires MatchesQuery(p, q)
    ensures Occurs(Lower(p.name), Lower(q)) || Occurs(Lower(p.description), Lower(q))
         || Occurs(Lower(p.shortDescription), Lower(q))
  {
    var needle := Lower(q);
    var name, description, short := Lower(p.name), Lower(p.description), Lower(p.shortDescription);
    ContainsIffOccurs(name, needle);
    ContainsIffOccurs(description, needle);
    ContainsIffOccurs(short, needle);
  }

  // ---------------------------------------------------------------------
  // Stock and coupon lists.

  /** `StockListView.get_queryset` and `StockDetailView.get_queryset`. */
  function StockQueryset(viewer: User, stocks: seq<Stock>): (r: seq<Stock>)
    ensures IsWarehouseManager(viewer) || IsAdmin(viewer) ==> r == stocks
    ensures IsCustomer(viewer) || IsModerator(viewer) ==> r == []
  {
    if IsWarehouseManager(viewer) || IsAdmin(viewer) then stocks else []
  }

  /** `CouponListView.get_queryset`: admins see every coupon, others the active ones. */
  function CouponQueryset(viewer: User, coupons: seq<Coupon>): (r: seq<Coupon>)
    ensures IsAdmin(viewer) ==> r == coupons
    ensures !IsAdmin(viewer) ==> forall c :: c in r <==> c in coupons && c.isActive
  {
    if IsAdmin(viewer) then coupons else Filter(coupons, (c: Coupon) => c.isActive)
  }

  // ---------------------------------------------------------------------
  // validate_coupon

  /** `Coupon.code` is unique. */
  predicate UniqueCodes(coupons: seq<Coupon>) {
    forall i, j :: 0 <= i < j < |coupons| ==> coupons[i].code != coupons[j].code
  }

  /** `Coupon.objects.get(code=code, is_active=True)`: the active coupon with this code, if any. */
  function FindActiveCoupon(coupons: seq<Coupon>, code: string): (r: Option<Coupon>)
    ensures r.Some? ==> r.value in coupons && r.value.code == code && r.value.isActive
    ensures r.None? <==> forall c :: c in coupons ==> !(c.code == code && c.isActive)
  {
    if coupons == [] then None
    else if coupons[0].code == code && coupons[0].isActive then Some(coupons[0])
    else
      assert forall c :: c in coupons <==> c == coupons[0] || c in coupons[1..];
      FindActiveCoupon(coupons[1..], code)
  }

  /** The request body; a missing key is `None` (defaults "" and 0). */
  datatype CouponRequest = CouponRequest(code: Option<string>, orderAmount: Option<Cents>)

  /** The response: the `valid` flag, the HTTP status, the message and the coupon when accepted. */
  datatype CouponAnswer = CouponAnswer(valid: bool, status: int, message: string, coupon: Option<Coupon>)

  /** `validate_coupon` at time `now`. */
  function ValidateCoupon(coupons: seq<Coupon>, request: CouponRequest, now: int): (r: CouponAnswer)
    requires UniqueCodes(coupons)
    ensures var code, amount := request.code.GetOr(""), request.orderAmount.GetOr(0);
      (r.status == 404 <==> forall c :: c in coupons ==> !(c.code == code && c.isActive)) &&
      (r.valid <==> exists c :: c in coupons && c.code == code && c.isActive &&
                                 IsValid(c, now) && amount >= c.minimumAmount) &&
      (r.valid ==> r.status == 200 && r.message == "Coupon is valid" &&
                   r.coupon.Some? && r.coupon.value in coupons && r.coupon.value.code == code) &&
      (!r.valid ==> r.coupon.None?) &&
      (r.status == 404 ==> r.message == "Coupon not found") &&
      (!r.valid && r.status != 404 ==>
         r.status == 400 && r.message == "Coupon is not valid or minimum amount not met")
  {
    var code, amount := request.code.GetOr(""), request.orderAmount.GetOr(0);
    match FindActiveCoupon(coupons, code)
    case None => CouponAnswer(false, 404, "Coupon not found", None)
    case Some(c) =>
      ActiveCodeDeterminesCoupon(coupons, code, c);
      if IsValid(c, now) && amount >= c.minimumAmount then
        CouponAnswer(true, 200, "Coupon is valid", Some(c))
      else
        CouponAnswer(false, 400, "Coupon is not valid or minimum amount not met", None)
  }

  /** With unique codes, at most one active coupon carries a given code. */
  lemma ActiveCodeDeterminesCoupon(coupons: seq<Coupon>, code: string, c: Coupon)
    requires UniqueCodes(coupons)
    requires c in coupons && c.code == code
    ensures forall d :: d in coupons && d.code == code ==> d == c
  {
    forall d | d in coupons && d.code == code ensures d == c {
      var i :| 0 <= i < |coupons| && coupons[i] == c;
      var j :| 0 <= j < |coupons| && coupons[j] == d;
      assert i == j;
    }
  }
}
