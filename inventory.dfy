/** The inventory view: per product, the units and cost purchased, the current
    stock and the estimated units sold. Ordinary products take their stock
    from a physical count (or assume nothing was sold when uncounted); the one
    anchor product, whose name contains the marker, gets its sales
    back-calculated from the revenue the ordinary products do not explain. */
module Inventory {
  import opened Wrappers
  import opened Seqs
  import opened Text
  import opened Types
  import opened DataManager

  /** The marker that designates the anchor product. */
  const AnchorName: string := "GELINHO"

  /** The estimated sell price is the unit cost times this factor. */
  const MarkupMultiplier: real := 2.0

  predicate IsAnchor(p: Product) {
    Contains(Upper(p.name), AnchorName)
  }

  predicate IsOrdinary(p: Product) {
    !IsAnchor(p)
  }

  /** Sum of `quantityPackages * unitsPerPackage` over the purchases. */
  function PurchasedUnits(ps: seq<Purchase>, unitsPerPackage: int): int
  {
    if ps == [] then 0
    else PurchasedUnits(ps[..|ps| - 1], unitsPerPackage) + ps[|ps| - 1].quantityPackages * unitsPerPackage
  }

  /** The purchased units are the purchased packages times the package size. */
  lemma {:induction false} PurchasedUnitsArePackagesTimesSize(ps: seq<Purchase>, unitsPerPackage: int)
    ensures PurchasedUnits(ps, unitsPerPackage) == SumInt(ps, PurchaseQuantity) * unitsPerPackage
  {
    if ps != [] {
      var init, last := ps[..|ps| - 1], ps[|ps| - 1];
      PurchasedUnitsArePackagesTimesSize(init, unitsPerPackage);
      calc {
        PurchasedUnits(ps, unitsPerPackage);
        SumInt(init, PurchaseQuantity) * unitsPerPackage + last.quantityPackages * unitsPerPackage;
        { assert SumInt(ps, PurchaseQuantity) == SumInt(init, PurchaseQuantity) + last.quantityPackages; }
        SumInt(ps, PurchaseQuantity) * unitsPerPackage;
      }
    }
  }

  /** The unit cost as the inventory computes it (not the stored `unitCost`). */
  function UnitCost(p: Product): real {
    if p.unitsPerPackage > 0 then p.packagePrice / p.unitsPerPackage as real else 0.0
  }

  function SellPrice(p: Product): real {
    UnitCost(p) * MarkupMultiplier
  }

  /** `sold / purchased > 0.8` evaluated as JavaScript numbers do: dividing a
      positive count by zero is Infinity (above the threshold), and 0 / 0 is
      NaN (no comparison holds). */
  predicate SoldRatioAbove(sold: int, purchased: int) {
    if purchased == 0 then sold > 0 else sold as real / purchased as real > 0.8
  }

  function OrdinaryStatus(stock: int, sold: int, purchased: int): StockStatus {
    if stock == 0 then Critical
    else if SoldRatioAbove(sold, purchased) then Low
    else Good
  }

  /** The row of an ordinary product. */
  function OrdinaryRow(product: Product, purchases: seq<Purchase>, checks: seq<InventoryCheck>): ProductStatus
  {
    var mine := WithKey(purchases, PurchaseProductId, product.id);
    var units := PurchasedUnits(mine, product.unitsPerPackage);
    var cost := Sum(mine, PurchaseCost);
    var check := FindByKey(checks, CheckProductId, product.id);
    var stock := if check.Some? then check.value.currentStock else units;
    var sold := if units - stock > 0 then units - stock else 0;
    ProductStatus(product, units, cost, sold, stock, 1, stock, OrdinaryStatus(stock, sold, units))
  }

  /** The estimated revenue of a row: units sold times the estimated sell price. */
  function RowRevenue(row: ProductStatus): real {
    row.estimatedSalesUnits as real * SellPrice(row.product)
  }

  /** `estimatedUnitSellPrice > 0 ? Math.floor(target / price) : 0`. */
  function AnchorUnitsSold(target: real, price: real): int {
    if price > 0.0 then (target / price).Floor else 0
  }

  /** The revenue left to the anchor: `Math.max(0, total - others)`. */
  function AnchorRevenueTarget(totalRealRevenue: real, othersRevenue: real): real {
    if totalRealRevenue - othersRevenue > 0.0 then totalRealRevenue - othersRevenue else 0.0
  }

  /** The row of the anchor product; its stock is not clamped. */
  function AnchorRow(product: Product, purchases: seq<Purchase>, totalRealRevenue: real, othersRevenue: real): ProductStatus
  {
    var mine := WithKey(purchases, PurchaseProductId, product.id);
    var units := PurchasedUnits(mine, product.unitsPerPackage);
    var cost := Sum(mine, PurchaseCost);
    var sold := AnchorUnitsSold(AnchorRevenueTarget(totalRealRevenue, othersRevenue), SellPrice(product));
    var stock := units - sold;
    ProductStatus(product, units, cost, sold, stock, 0, 0, if stock <= 0 then Critical else Good)
  }

  /** `ps.map(...)` with the ordinary computation, in order. */
  function OrdinaryRows(ps: seq<Product>, purchases: seq<Purchase>, checks: seq<InventoryCheck>): seq<ProductStatus>
  {
    if ps == [] then []
    else OrdinaryRows(ps[..|ps| - 1], purchases, checks) + [OrdinaryRow(ps[|ps| - 1], purchases, checks)]
  }

  /** The whole view: the anchor row (for the first product carrying the
      marker, if any) followed by one row per product without the marker. */
  function InventoryView(products: seq<Product>, purchases: seq<Purchase>, checks: seq<InventoryCheck>,
                         sales: seq<SaleRecord>): seq<ProductStatus>
  {
    var ordinary := OrdinaryRows(Filter(products, IsOrdinary), purchases, checks);
    match FindFirst(products, IsAnchor)
    case None => ordinary
    case Some(anchor) =>
      [AnchorRow(anchor, purchases, Sum(sales, SaleTotal), Sum(ordinary, RowRevenue))] + ordinary
  }

  /** The page's computation: the ordinary rows built one by one while their
      estimated revenue is accumulated, then the anchor row put in front. */
  method ComputeInventory(products: seq<Product>, purchases: seq<Purchase>, checks: seq<InventoryCheck>,
                          sales: seq<SaleRecord>) returns (rows: seq<ProductStatus>)
    ensures rows == InventoryView(products, purchases, checks, sales)
  {
    var totalRealRevenue := Sum(sales, SaleTotal);
    var anchor := FindFirst(products, IsAnchor);
    var others := Filter(products, IsOrdinary);

    var othersEstimatedRevenue := 0.0;
    var othersData: seq<ProductStatus> := [];
    for i := 0 to |others|
      invariant othersData == OrdinaryRows(others[..i], purchases, checks)
      invariant othersEstimatedRevenue == Sum(othersData, RowRevenue)
    {
      var row := OrdinaryRow(others[i], purchases, checks);
      othersEstimatedRevenue := othersEstimatedRevenue + RowRevenue(row);
      assert others[..i + 1][..i] == others[..i];
      othersData := othersData + [row];
    }
    assert others[..|others|] == others;

    var anchorData: Option<ProductStatus> := None;
    if anchor.Some? {
      anchorData := Some(AnchorRow(anchor.value, purchases, totalRealRevenue, othersEstimatedRevenue));
    }

    rows := othersData;
    if anchorData.Some? {
      rows := [anchorData.value] + rows;
    }
  }

  /** `handleStockUpdate`: a count is written only when the entry parsed as an
      integer. */
  method HandleStockUpdate(store: DataProvider, productId: Id, entry: Option<int>, now: string)
    returns (editing: Option<Id>)
    modifies store`inventoryChecks
    ensures entry.None? ==> store.inventoryChecks == old(store.inventoryChecks)
    ensures entry.Some? ==>
              store.inventoryChecks == UpsertCheck(old(store.inventoryChecks), InventoryCheck(productId, None, entry.value, now))
    ensures editing == None
  {
    if entry.Some? {
      store.UpdateInventoryCheck(InventoryCheck(productId, None, entry.value, now));
    }
    editing := None;
  }

  // ---------------------------------------------------------------------------
  // Ordinary products

  /** Units and cost are the sums over the product's own purchases; stock is
      the count when there is one and the purchased units otherwise. */
  lemma OrdinaryFigures(product: Product, purchases: seq<Purchase>, checks: seq<InventoryCheck>)
    ensures var r := OrdinaryRow(product, purchases, checks);
            var mine := WithKey(purchases, PurchaseProductId, product.id);
            var check := FindByKey(checks, CheckProductId, product.id);
            r.product == product &&
            r.totalPurchasedUnits == SumInt(mine, PurchaseQuantity) * product.unitsPerPackage &&
            r.totalPurchasedCost == Sum(mine, PurchaseCost) &&
            r.currentStock == (if check.Some? then check.value.currentStock else r.totalPurchasedUnits)
  {
    PurchasedUnitsArePackagesTimesSize(WithKey(purchases, PurchaseProductId, product.id), product.unitsPerPackage);
  }

  /** Estimated sales are never negative: they are what the count is short of
      the purchases, or zero when the count is not short. */
  lemma OrdinarySalesClamped(product: Product, purchases: seq<Purchase>, checks: seq<InventoryCheck>)
    ensures var r := OrdinaryRow(product, purchases, checks);
            r.estimatedSalesUnits >= 0 &&
            r.estimatedSalesUnits + r.currentStock >= r.totalPurchasedUnits &&
            (r.currentStock <= r.totalPurchasedUnits ==> r.estimatedSalesUnits + r.currentStock == r.totalPurchasedUnits) &&
            (r.currentStock >= r.totalPurchasedUnits ==> r.estimatedSalesUnits == 0)
  {
  }

  /** An uncounted product is reported as untouched: full stock, nothing sold. */
  lemma UncountedProductUntouched(product: Product, purchases: seq<Purchase>, checks: seq<InventoryCheck>)
    requires forall i :: 0 <= i < |checks| ==> checks[i].productId != product.id
    ensures var r := OrdinaryRow(product, purchases, checks);
            r.currentStock == r.totalPurchasedUnits && r.estimatedSalesUnits == 0
  {
  }

  /** Status of an ordinary row, stated with integers: Critical exactly at zero
      stock; otherwise Low exactly when more than four fifths of the purchased
      units are estimated sold (any sale at all when nothing was purchased);
      never Overstock. */
  lemma OrdinaryStatusClassification(product: Product, purchases: seq<Purchase>, checks: seq<InventoryCheck>)
    ensures var r := OrdinaryRow(product, purchases, checks);
            var sold, bought := r.estimatedSalesUnits, r.totalPurchasedUnits;
            r.status != Overstock &&
            (r.status == Critical <==> r.currentStock == 0) &&
            (bought > 0 ==> (r.status == Low <==> r.currentStock != 0 && 5 * sold > 4 * bought)) &&
            (bought == 0 ==> (r.status == Low <==> r.currentStock < 0)) &&
            (r.status == Good <==> r.currentStock != 0 && !SoldRatioAbove(sold, bought))
  {
    var r := OrdinaryRow(product, purchases, checks);
    var sold, bought := r.estimatedSalesUnits, r.totalPurchasedUnits;
    if bought > 0 {
      RatioThreshold(sold, bought);
    }
  }

  /** Multiplying by a positive factor keeps a strict order. */
  lemma ScaleStrict(x: real, y: real, c: real)
    requires c > 0.0
    ensures x < y <==> x * c < y * c
  {
    if x < y {
      assert (y - x) * c > 0.0;
    } else {
      assert (x - y) * c >= 0.0;
    }
  }

  /** For a positive denominator, `n / d > 0.8` is `5n > 4d`. */
  lemma RatioThreshold(n: int, d: int)
    requires d > 0
    ensures n as real / d as real > 0.8 <==> 5 * n > 4 * d
  {
    var dr := d as real;
    var q := n as real / dr;
    assert q * dr == n as real;
    ScaleStrict(0.8, q, dr);
    assert 0.8 < q <==> 0.8 * dr < n as real;
    assert 0.8 * dr < n as real <==> (4 * d) as real < (5 * n) as real;
  }

  /** After a count `v` is recorded for an ordinary product, its row shows `v`
      as stock and the shortfall against purchases as sales. */
  lemma CountedStockShown(product: Product, purchases: seq<Purchase>, checks: seq<InventoryCheck>, v: int, now: string)
    ensures var r := OrdinaryRow(product, purchases, UpsertCheck(checks, InventoryCheck(product.id, None, v, now)));
            r.currentStock == v &&
            r.estimatedSalesUnits == (if r.totalPurchasedUnits > v then r.totalPurchasedUnits - v else 0)
  {
  }

  /** A count recorded for one product does not change another product's row. */
  lemma CountIsPerProduct(product: Product, purchases: seq<Purchase>, checks: seq<InventoryCheck>, c: InventoryCheck)
    requires c.productId != product.id
    ensures OrdinaryRow(product, purchases, UpsertCheck(checks, c)) == OrdinaryRow(product, purchases, checks)
  {
    var after := UpsertCheck(checks, c);
    assert WithKey(after, CheckProductId, product.id) == WithKey(checks, CheckProductId, product.id);
    FirstWithKey(after, product.id);
    FirstWithKey(checks, product.id);
  }

  /** The first check with a product id is the first of the checks selected
      for that id. */
  lemma {:induction false} FirstWithKey(checks: seq<InventoryCheck>, id: Id)
    ensures FindByKey(checks, CheckProductId, id) == FindByKey(WithKey(checks, CheckProductId, id), CheckProductId, id)
  {
    if checks != [] {
      FirstWithKey(checks[1..], id);
      if checks[0].productId == id {
        assert WithKey(checks, CheckProductId, id) == [checks[0]] + WithKey(checks[1..], CheckProductId, id);
      } else {
        assert FindByKey(checks, CheckProductId, id) == FindByKey(checks[1..], CheckProductId, id);
      }
    }
  }

  /** A worked example: 240 units purchased and a count of 40 give 200
      estimated sales, more than four fifths of the purchase, hence Low. */
  lemma WorkedOrdinaryExample(product: Product, purchase: Purchase, now: string)
    requires product.unitsPerPackage == 240 && purchase.productId == product.id && purchase.quantityPackages == 1
    ensures var r := OrdinaryRow(product, [purchase], [InventoryCheck(product.id, None, 40, now)]);
            r.totalPurchasedUnits == 240 && r.currentStock == 40 && r.estimatedSalesUnits == 200 && r.status == Low
  {
    assert WithKey([purchase], PurchaseProductId, product.id) == [purchase];
    assert [purchase][..0] == [];
    assert PurchasedUnits([purchase], 240) == 240;
    RatioThreshold(200, 240);
  }

  // ---------------------------------------------------------------------------
  // The anchor product

  /** `Math.floor(target / price)` brackets the target between whole multiples
      of the price. */
  lemma FloorBracket(target: real, price: real)
    requires price > 0.0 && target >= 0.0
    ensures var n := AnchorUnitsSold(target, price);
            n >= 0 && n as real * price <= target < (n + 1) as real * price
  {
    var q := target / price;
    var n := q.Floor;
    var m := n as real;
    assert q * price == target;
    assert m <= q < m + 1.0;
    assert n == AnchorUnitsSold(target, price);
    assert q >= 0.0 by {
      if q < 0.0 {
        ScaleStrict(q, 0.0, price);
      }
    }
    ScaleStrict(q, m + 1.0, price);
    assert target < (m + 1.0) * price;
    if m < q {
      ScaleStrict(m, q, price);
    }
    assert m * price <= target;
    assert (n + 1) as real == m + 1.0;
  }

  /** The anchor's estimated sales are a non-negative whole number, 0 without a
      positive sell price and otherwise the most whole units whose estimated
      revenue fits the target; stock plus sales is exactly the purchased units,
      with no clamping; the status is Critical exactly at non-positive stock. */
  lemma AnchorFigures(product: Product, purchases: seq<Purchase>, totalRealRevenue: real, othersRevenue: real)
    ensures var r := AnchorRow(product, purchases, totalRealRevenue, othersRevenue);
            var target := AnchorRevenueTarget(totalRealRevenue, othersRevenue);
            var price := SellPrice(product);
            r.product == product &&
            target >= 0.0 && target >= totalRealRevenue - othersRevenue &&
            r.estimatedSalesUnits >= 0 &&
            (price <= 0.0 ==> r.estimatedSalesUnits == 0) &&
            (price > 0.0 ==> r.estimatedSalesUnits as real * price <= target < (r.estimatedSalesUnits + 1) as real * price) &&
            r.currentStock + r.estimatedSalesUnits == r.totalPurchasedUnits &&
            r.totalPurchasedUnits == SumInt(WithKey(purchases, PurchaseProductId, product.id), PurchaseQuantity) * product.unitsPerPackage &&
            (r.status == Critical <==> r.currentStock <= 0) &&
            (r.status == Good <==> r.currentStock > 0)
  {
    var target := AnchorRevenueTarget(totalRealRevenue, othersRevenue);
    if SellPrice(product) > 0.0 {
      FloorBracket(target, SellPrice(product));
    }
    PurchasedUnitsArePackagesTimesSize(WithKey(purchases, PurchaseProductId, product.id), product.unitsPerPackage);
  }

  /** The residual rule makes the estimates reconcile with the recorded
      revenue: when the other products do not already explain all of it, the
      anchor's estimated revenue brings the total to within one sell price
      below the recorded revenue, never above it; otherwise the anchor sold
      nothing. */
  lemma AnchorReconciles(product: Product, purchases: seq<Purchase>, totalRealRevenue: real, othersRevenue: real)
    ensures var r := AnchorRow(product, purchases, totalRealRevenue, othersRevenue);
            var price := SellPrice(product);
            var estimated := othersRevenue + RowRevenue(r);
            (totalRealRevenue <= othersRevenue ==> r.estimatedSalesUnits == 0) &&
            (totalRealRevenue >= othersRevenue && price > 0.0 ==>
               totalRealRevenue - price < estimated <= totalRealRevenue)
  {
    var target := AnchorRevenueTarget(totalRealRevenue, othersRevenue);
    if SellPrice(product) > 0.0 {
      FloorBracket(target, SellPrice(product));
      var n := AnchorUnitsSold(target, SellPrice(product));
      if totalRealRevenue <= othersRevenue {
        assert target == 0.0;
        assert n as real * SellPrice(product) <= 0.0;
      }
    }
  }

  /** The anchor row as the seed catalog gives it: 83.40 per box of 240, 55
      boxes bought, 4529.20 of recorded sales and nothing else estimated sold
      give 6516 units sold and 6684 left. */
  lemma SeedAnchorExample(product: Product, purchase: Purchase)
    requires product.packagePrice == 83.40 && product.unitsPerPackage == 240
    requires purchase.productId == product.id && purchase.quantityPackages == 55 && purchase.totalCost == 4587.00
    ensures var r := AnchorRow(product, [purchase], 4529.20, 0.0);
            r.totalPurchasedUnits == 13200 && r.totalPurchasedCost == 4587.00 &&
            r.estimatedSalesUnits == 6516 && r.currentStock == 6684 && r.status == Good
  {
    assert WithKey([purchase], PurchaseProductId, product.id) == [purchase];
    assert [purchase][..0] == [];
    assert PurchasedUnits([purchase], 240) == 13200;
    assert Sum([purchase], PurchaseCost) == 4587.00;
    assert SellPrice(product) == 0.695;
    FloorBracket(4529.20, 0.695);
  }

  // ---------------------------------------------------------------------------
  // The list of rows

  /** The ordinary rows are one row per product, in the products' order. */
  lemma {:induction false} OrdinaryRowsAt(ps: seq<Product>, purchases: seq<Purchase>, checks: seq<InventoryCheck>)
    ensures |OrdinaryRows(ps, purchases, checks)| == |ps|
    ensures forall i :: 0 <= i < |ps| ==> OrdinaryRows(ps, purchases, checks)[i] == OrdinaryRow(ps[i], purchases, checks)
  {
    if ps != [] {
      var init := ps[..|ps| - 1];
      OrdinaryRowsAt(init, purchases, checks);
      assert forall i :: 0 <= i < |init| ==> init[i] == ps[i];
    }
  }

  /** Without a product carrying the marker, the view is one ordinary row per
      product, in catalog order. */
  lemma RowsWithoutAnchor(products: seq<Product>, purchases: seq<Purchase>, checks: seq<InventoryCheck>, sales: seq<SaleRecord>)
    requires FindFirst(products, IsAnchor).None?
    ensures var rows := InventoryView(products, purchases, checks, sales);
            |rows| == |products| &&
            forall i :: 0 <= i < |products| ==> rows[i] == OrdinaryRow(products[i], purchases, checks)
  {
    FilterAllKept(products, IsOrdinary);
    OrdinaryRowsAt(products, purchases, checks);
  }

  /** With products carrying the marker, the first of them gets the first row,
      followed by one ordinary row per product without the marker, in catalog
      order; no other product carrying the marker gets a row. */
  lemma RowsWithAnchor(products: seq<Product>, purchases: seq<Purchase>, checks: seq<InventoryCheck>, sales: seq<SaleRecord>)
    requires FindFirst(products, IsAnchor).Some?
    ensures var rows := InventoryView(products, purchases, checks, sales);
            var others := Filter(products, IsOrdinary);
            var anchor := FindFirst(products, IsAnchor).value;
            |rows| == 1 + |others| &&
            rows[0].product == anchor && IsAnchor(anchor) &&
            (forall i :: 1 <= i < |rows| ==> rows[i] == OrdinaryRow(others[i - 1], purchases, checks)) &&
            (forall i :: 0 <= i < |rows| && IsAnchor(rows[i].product) ==> i == 0)
  {
    var others := Filter(products, IsOrdinary);
    var ordinary := OrdinaryRows(others, purchases, checks);
    OrdinaryRowsAt(others, purchases, checks);
    var rows := InventoryView(products, purchases, checks, sales);
    assert rows[1..] == ordinary;
    forall i | 1 <= i < |rows| ensures !IsAnchor(rows[i].product) {
      assert rows[i] == ordinary[i - 1];
      assert others[i - 1] in others;
    }
  }
  /** The page's whole view reconciles with the recorded sales: when the other
      products' estimates do not already exceed the recorded revenue and the
      anchor has a positive sell price, the estimated revenue of all rows lies
      within one anchor sell price below the recorded revenue, never above it;
      when they do exceed it, the anchor is shown as having sold nothing. */
  lemma ViewReconciles(products: seq<Product>, purchases: seq<Purchase>, checks: seq<InventoryCheck>, sales: seq<SaleRecord>)
    requires FindFirst(products, IsAnchor).Some?
    ensures var rows := InventoryView(products, purchases, checks, sales);
            var revenue := Sum(sales, SaleTotal);
            var others := Sum(rows[1..], RowRevenue);
            var price := SellPrice(FindFirst(products, IsAnchor).value);
            |rows| > 0 &&
            (revenue <= others ==> rows[0].estimatedSalesUnits == 0) &&
            (revenue >= others && price > 0.0 ==> revenue - price < Sum(rows, RowRevenue) <= revenue)
  {
    var rows := InventoryView(products, purchases, checks, sales);
    var anchor := FindFirst(products, IsAnchor).value;
    var ordinary := OrdinaryRows(Filter(products, IsOrdinary), purchases, checks);
    assert rows == [rows[0]] + ordinary;
    assert rows[1..] == ordinary;
    SumAppend([rows[0]], ordinary, RowRevenue);
    assert Sum([rows[0]], RowRevenue) == RowRevenue(rows[0]) by {
      assert [rows[0]][..0] == [];
    }
    AnchorReconciles(anchor, purchases, Sum(sales, SaleTotal), Sum(ordinary, RowRevenue));
  }
}
