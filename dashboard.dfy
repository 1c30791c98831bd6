/** The dashboard: the summary figures, the financial-flow list (revenue,
    purchases, expenses), the sales footer, and the purchases consolidated by
    catalog product and listed from the largest total cost down. */
module Dashboard {
  import opened Seqs
  import opened Types
  import opened DataManager
  import Inventory
  import Sales

  // ---------------------------------------------------------------------------
  // Purchases consolidated by product

  /** One line of the consolidated purchases table. */
  datatype ConsolidatedRow = ConsolidatedRow(
    id: Id,
    name: string,
    measureUnit: MeasureUnit,
    totalQty: int,
    totalCost: real,
    avgPrice: real)

  /** The line of one product: its packages and cost summed over the
      purchases of that product, and the average price per package, 0 when no
      package was bought. */
  function ConsolidateProduct(product: Product, purchases: seq<Purchase>): (r: ConsolidatedRow)
    ensures r.id == product.id && r.name == product.name && r.measureUnit == product.measureUnit
    ensures r.totalQty > 0 ==> r.avgPrice * r.totalQty as real == r.totalCost
    ensures r.totalQty <= 0 ==> r.avgPrice == 0.0
  {
    var mine := WithKey(purchases, PurchaseProductId, product.id);
    var qty := SumInt(mine, PurchaseQuantity);
    var cost := Sum(mine, PurchaseCost);
    ConsolidatedRow(product.id, product.name, product.measureUnit, qty, cost,
                    if qty > 0 then cost / qty as real else 0.0)
  }

  /** The consolidated figures agree with the inventory view: the packages
      are the sum over the product's own purchases, the same sum whose product
      with the package size is the purchased units, and the costs match. */
  lemma ConsolidationMatchesInventory(product: Product, purchases: seq<Purchase>, checks: seq<InventoryCheck>)
    ensures var c := ConsolidateProduct(product, purchases);
            var r := Inventory.OrdinaryRow(product, purchases, checks);
            c.totalQty == SumInt(WithKey(purchases, PurchaseProductId, product.id), PurchaseQuantity) &&
            c.totalQty * product.unitsPerPackage == r.totalPurchasedUnits && c.totalCost == r.totalPurchasedCost
  {
    Inventory.OrdinaryFigures(product, purchases, checks);
  }

  /** `products.map(...)`: one line per catalog product, in catalog order. */
  function RowsOf(products: seq<Product>, purchases: seq<Purchase>): (r: seq<ConsolidatedRow>)
    ensures |r| == |products|
    ensures forall i :: 0 <= i < |r| ==> r[i] == ConsolidateProduct(products[i], purchases)
  {
    if products == [] then []
    else [ConsolidateProduct(products[0], purchases)] + RowsOf(products[1..], purchases)
  }

  /** `.filter(item => item.totalCost > 0)`. */
  predicate HasCost(r: ConsolidatedRow) { r.totalCost > 0.0 }

  /** Descending by total cost. */
  predicate SortedByCost(s: seq<ConsolidatedRow>) {
    forall i, j :: 0 <= i < j < |s| ==> s[i].totalCost >= s[j].totalCost
  }

  /** Puts `x` after every line of `t` whose cost is at least its own. */
  function InsertByCost(x: ConsolidatedRow, t: seq<ConsolidatedRow>): seq<ConsolidatedRow> {
    if t == [] then [x]
    else if t[0].totalCost >= x.totalCost then [t[0]] + InsertByCost(x, t[1..])
    else [x] + t
  }

  /** `.sort((a, b) => b.totalCost - a.totalCost)`, as a stable insertion sort. */
  function SortByCost(s: seq<ConsolidatedRow>): seq<ConsolidatedRow> {
    if s == [] then [] else InsertByCost(s[|s| - 1], SortByCost(s[..|s| - 1]))
  }

  /** The consolidated purchases table. */
  function Consolidated(products: seq<Product>, purchases: seq<Purchase>): seq<ConsolidatedRow> {
    SortByCost(Filter(RowsOf(products, purchases), HasCost))
  }

  /** Inserting adds exactly the one line. */
  lemma {:induction false} InsertByCostPermutes(x: ConsolidatedRow, t: seq<ConsolidatedRow>)
    ensures multiset(InsertByCost(x, t)) == multiset(t) + multiset{x}
  {
    if t != [] && t[0].totalCost >= x.totalCost {
      InsertByCostPermutes(x, t[1..]);
      assert t == [t[0]] + t[1..];
    }
  }

  /** Every line of the result of an insertion is the inserted line or a
      line of the table. */
  lemma InsertByCostMembers(x: ConsolidatedRow, t: seq<ConsolidatedRow>)
    ensures forall y :: y in InsertByCost(x, t) ==> y == x || y in t
  {
    InsertByCostPermutes(x, t);
    forall y | y in InsertByCost(x, t) ensures y == x || y in t {
      assert y in multiset(InsertByCost(x, t));
    }
  }

  /** Putting in front of a sorted table a line that costs at least as much
      as each of its lines keeps it sorted. */
  lemma ConsSorted(d: ConsolidatedRow, t: seq<ConsolidatedRow>)
    requires SortedByCost(t)
    requires forall y :: y in t ==> d.totalCost >= y.totalCost
    ensures SortedByCost([d] + t)
  {
    var r := [d] + t;
    forall i, j | 0 <= i < j < |r| ensures r[i].totalCost >= r[j].totalCost {
      assert r[j] == t[j - 1];
      if i > 0 {
        assert r[i] == t[i - 1];
      }
    }
  }

  /** Inserting into a sorted table keeps it sorted. */
  lemma {:induction false} InsertByCostSorted(x: ConsolidatedRow, t: seq<ConsolidatedRow>)
    requires SortedByCost(t)
    ensures SortedByCost(InsertByCost(x, t))
  {
    if t == [] {
    } else if t[0].totalCost >= x.totalCost {
      var tail := t[1..];
      assert SortedByCost(tail) by {
        forall i, j | 0 <= i < j < |tail| ensures tail[i].totalCost >= tail[j].totalCost {
          assert tail[i] == t[i + 1] && tail[j] == t[j + 1];
        }
      }
      InsertByCostSorted(x, tail);
      InsertByCostMembers(x, tail);
      forall y | y in InsertByCost(x, tail) ensures t[0].totalCost >= y.totalCost {
        if y != x {
          var k :| 0 <= k < |tail| && tail[k] == y;
          assert t[k + 1] == y;
        }
      }
      ConsSorted(t[0], InsertByCost(x, tail));
    } else {
      forall y | y in t ensures x.totalCost >= y.totalCost {
        var k :| 0 <= k < |t| && t[k] == y;
        if k > 0 {
          assert t[0].totalCost >= t[k].totalCost;
        }
      }
      ConsSorted(x, t);
    }
  }

  /** Sorting orders the table and only reorders it. */
  lemma {:induction false} SortByCostFacts(s: seq<ConsolidatedRow>)
    ensures SortedByCost(SortByCost(s))
    ensures multiset(SortByCost(s)) == multiset(s)
  {
    if s != [] {
      var init, last := s[..|s| - 1], s[|s| - 1];
      SortByCostFacts(init);
      InsertByCostSorted(last, SortByCost(init));
      InsertByCostPermutes(last, SortByCost(init));
      assert s == init + [last];
    }
  }

  /** The table is ordered by total cost, largest first; it holds exactly the
      lines of the catalog products with a positive total cost, each as often
      as the filtered catalog lines hold it; so it is no longer than the
      catalog. */
  lemma ConsolidatedFacts(products: seq<Product>, purchases: seq<Purchase>)
    ensures var c := Consolidated(products, purchases);
            SortedByCost(c) &&
            multiset(c) == multiset(Filter(RowsOf(products, purchases), HasCost)) &&
            |c| <= |products| &&
            forall r :: r in c <==> r.totalCost > 0.0 &&
                                    exists i :: 0 <= i < |products| && r == ConsolidateProduct(products[i], purchases)
  {
    var rows := RowsOf(products, purchases);
    var kept := Filter(rows, HasCost);
    SortByCostFacts(kept);
    var c := Consolidated(products, purchases);
    assert |c| == |multiset(c)| == |multiset(kept)| == |kept|;
    forall r ensures r in c <==> r in kept {
      assert r in c <==> r in multiset(c);
      assert r in kept <==> r in multiset(kept);
    }
  }

  predicate DistinctProductIds(products: seq<Product>) {
    forall i, j :: 0 <= i < j < |products| ==> products[i].id != products[j].id
  }

  predicate DistinctRowIds(s: seq<ConsolidatedRow>) {
    forall i, j :: 0 <= i < j < |s| ==> s[i].id != s[j].id
  }

  /** Putting `d` in front of a table with distinct ids, none of them `d`'s,
      keeps the ids distinct. */
  lemma ConsDistinct(d: ConsolidatedRow, t: seq<ConsolidatedRow>)
    requires DistinctRowIds(t)
    requires forall y :: y in t ==> y.id != d.id
    ensures DistinctRowIds([d] + t)
  {
    var r := [d] + t;
    forall i, j | 0 <= i < j < |r| ensures r[i].id != r[j].id {
      assert r[j] == t[j - 1];
      if i > 0 {
        assert r[i] == t[i - 1];
      }
    }
  }

  /** Inserting a line whose id is new keeps the ids distinct. */
  lemma {:induction false} InsertByCostDistinct(x: ConsolidatedRow, t: seq<ConsolidatedRow>)
    requires DistinctRowIds(t)
    requires forall y :: y in t ==> y.id != x.id
    ensures DistinctRowIds(InsertByCost(x, t))
  {
    if t == [] {
    } else if t[0].totalCost >= x.totalCost {
      var rest := InsertByCost(x, t[1..]);
      assert DistinctRowIds(t[1..]) by {
        forall i, j | 0 <= i < j < |t[1..]| ensures t[1..][i].id != t[1..][j].id {
          assert t[1..][i] == t[i + 1] && t[1..][j] == t[j + 1];
        }
      }
      InsertByCostDistinct(x, t[1..]);
      InsertByCostPermutes(x, t[1..]);
      forall y | y in rest ensures y.id != t[0].id {
        assert y in multiset(rest);
        if y != x {
          var k :| 0 <= k < |t[1..]| && t[1..][k] == y;
          assert t[k + 1] == y;
        }
      }
      ConsDistinct(t[0], rest);
    } else {
      ConsDistinct(x, t);
    }
  }

  /** Sorting keeps the ids distinct. */
  lemma {:induction false} SortByCostDistinct(s: seq<ConsolidatedRow>)
    requires DistinctRowIds(s)
    ensures DistinctRowIds(SortByCost(s))
  {
    if s != [] {
      var init, last := s[..|s| - 1], s[|s| - 1];
      assert DistinctRowIds(init) by {
        forall i, j | 0 <= i < j < |init| ensures init[i].id != init[j].id {
          assert init[i] == s[i] && init[j] == s[j];
        }
      }
      SortByCostDistinct(init);
      SortByCostFacts(init);
      forall y | y in SortByCost(init) ensures y.id != last.id {
        assert y in multiset(SortByCost(init));
        var k :| 0 <= k < |init| && init[k] == y;
        assert s[k] == y;
      }
      InsertByCostDistinct(last, SortByCost(init));
    }
  }

  /** Filtering keeps the ids distinct. */
  lemma {:induction false} FilterDistinct(s: seq<ConsolidatedRow>)
    requires DistinctRowIds(s)
    ensures DistinctRowIds(Filter(s, HasCost))
  {
    if s != [] {
      var tail := s[1..];
      assert DistinctRowIds(tail) by {
        forall i, j | 0 <= i < j < |tail| ensures tail[i].id != tail[j].id {
          assert tail[i] == s[i + 1] && tail[j] == s[j + 1];
        }
      }
      FilterDistinct(tail);
      if HasCost(s[0]) {
        forall y | y in Filter(tail, HasCost) ensures y.id != s[0].id {
          var k :| 0 <= k < |tail| && tail[k] == y;
          assert s[k + 1] == y;
        }
        ConsDistinct(s[0], Filter(tail, HasCost));
      }
    }
  }

  /** With distinct product ids, each product has at most one line. */
  lemma ConsolidatedDistinct(products: seq<Product>, purchases: seq<Purchase>)
    requires DistinctProductIds(products)
    ensures DistinctRowIds(Consolidated(products, purchases))
  {
    var rows := RowsOf(products, purchases);
    FilterDistinct(rows);
    SortByCostDistinct(Filter(rows, HasCost));
  }

  // ---------------------------------------------------------------------------
  // Financial flow and footers

  datatype FlowEntry = FlowEntry(name: string, amount: real)

  /** The three bars of the financial-flow chart, in this order. */
  function FinancialFlow(summary: Summary): (r: seq<FlowEntry>)
    ensures |r| == 3
  {
    [FlowEntry("Entradas", summary.totalRevenue),
     FlowEntry("Saídas (Compras)", summary.totalPurchases),
     FlowEntry("Despesas", summary.totalExpenses)]
  }

  /** The flow lists revenue, purchases and expenses as summed from the
      records, and the first bar less the other two is the net result. */
  lemma FlowReconciles(sales: seq<SaleRecord>, expenses: seq<Expense>, purchases: seq<Purchase>)
    ensures var summary := ComputeSummary(sales, expenses, purchases);
            var f := FinancialFlow(summary);
            f[0].amount == Sum(sales, SaleTotal) && f[1].amount == Sum(purchases, PurchaseCost) &&
            f[2].amount == Sum(expenses, ExpenseAmount) &&
            f[0].amount - f[1].amount - f[2].amount == summary.netResult
  {
    SummaryNet(sales, expenses, purchases);
  }

  /** The dashboard's sales footer: cash and PIX summed from the records, the
      total column taken from the summary. */
  function SalesFooter(sales: seq<SaleRecord>, summary: Summary): Sales.Footer {
    Sales.Footer(Sum(sales, SaleCash), Sum(sales, SalePix), summary.totalRevenue)
  }

  /** The dashboard's sales footer is the sales page's footer. */
  lemma SalesFootersAgree(sales: seq<SaleRecord>, expenses: seq<Expense>, purchases: seq<Purchase>)
    ensures SalesFooter(sales, ComputeSummary(sales, expenses, purchases)) == Sales.SalesFooter(sales)
  {
  }
}
