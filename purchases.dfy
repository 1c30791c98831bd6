/** The purchase page: the form that records a purchase of some packages of a
    catalog product, the preview it shows while being filled in, and the unit
    cost shown for each recorded purchase. Numeric fields arrive already
    parsed: `None` is an empty field. A result of `None` for a quotient stands
    for a division by zero, whose value is not a finite number. */
module Purchases {
  import opened Wrappers
  import opened Seqs
  import opened Types
  import opened DataManager

  datatype PurchaseForm = PurchaseForm(
    date: string,
    productId: Id,
    supplierName: string,
    quantityPackages: Option<int>,
    costPerPackage: Option<real>)

  /** The form as it is opened and as it is reset after a submit. */
  function EmptyForm(today: string): PurchaseForm {
    PurchaseForm(today, "", "", None, None)
  }

  /** `x / d`, absent when `d` is zero. */
  function Quotient(x: real, d: int): (r: Option<real>)
    ensures r.Some? <==> d != 0
    ensures r.Some? ==> r.value * d as real == x
  {
    if d != 0 then Some(x / d as real) else None
  }

  // ---------------------------------------------------------------------------
  // Choosing the product

  /** Choosing a product: a known product fills in its default supplier and
      its catalog price; an unknown id keeps the supplier typed so far and
      clears the price. */
  function SelectProduct(form: PurchaseForm, products: seq<Product>, pId: Id): PurchaseForm {
    match FindByKey(products, ProductId, pId)
    case Some(p) => form.(productId := pId, supplierName := p.supplier, costPerPackage := Some(p.packagePrice))
    case None => form.(productId := pId, costPerPackage := None)
  }

  /** Choosing the product sets only the product, the supplier and the price;
      what is filled in comes from the first catalog product with that id. */
  lemma SelectProductEffect(form: PurchaseForm, products: seq<Product>, pId: Id)
    ensures var r := SelectProduct(form, products, pId);
            r.productId == pId && r.date == form.date && r.quantityPackages == form.quantityPackages &&
            ((forall i :: 0 <= i < |products| ==> products[i].id != pId) ==>
               r.supplierName == form.supplierName && r.costPerPackage == None) &&
            (forall i :: 0 <= i < |products| && products[i].id == pId &&
                         (forall j :: 0 <= j < i ==> products[j].id != pId) ==>
               r.supplierName == products[i].supplier && r.costPerPackage == Some(products[i].packagePrice))
  {
    var found := FindByKey(products, ProductId, pId);
    if found.Some? {
      FirstByKey(products, ProductId, pId);
    }
  }

  // ---------------------------------------------------------------------------
  // Submitting

  /** The purchase a submit records, if any. A submit is refused when the
      product is not in the catalog, the supplier or the price is empty, the
      quantity is empty (the field is `required`), the quantity is not
      positive or the price is negative. The total is quantity times price, and
      the unit cost is frozen from the product's package size at this moment. */
  function BuildPurchase(form: PurchaseForm, products: seq<Product>, newId: Id): (r: Option<Purchase>)
    ensures r.None? <==>
              (forall i :: 0 <= i < |products| ==> products[i].id != form.productId) ||
              form.supplierName == "" || form.costPerPackage.None? || form.quantityPackages.None? ||
              form.quantityPackages.value <= 0 || form.costPerPackage.value < 0.0
    ensures r.Some? ==>
              var p := r.value;
              p.id == newId && p.eventId == None && p.date == form.date &&
              p.productId == form.productId && p.supplierName == form.supplierName &&
              Some(p.quantityPackages) == form.quantityPackages && p.quantityPackages > 0 &&
              p.totalCost == p.quantityPackages as real * form.costPerPackage.value &&
              p.totalCost >= 0.0
  {
    var prod := FindByKey(products, ProductId, form.productId);
    if prod.None? || form.supplierName == "" || form.costPerPackage.None? || form.quantityPackages.None? then None
    else
      var qty := form.quantityPackages.value;
      var cost := form.costPerPackage.value;
      if qty <= 0 || cost < 0.0 then None
      else
        Some(Purchase(newId, None, form.date, form.productId, form.supplierName,
                      qty, qty as real * cost, Quotient(cost, prod.value.unitsPerPackage)))
  }

  /** The recorded unit cost is the price over the package size of the product
      chosen at submission; multiplied back by the package size and the
      quantity it gives the total. */
  lemma SnapshotReconstructsTotal(form: PurchaseForm, products: seq<Product>, newId: Id)
    requires BuildPurchase(form, products, newId).Some?
    ensures var p := BuildPurchase(form, products, newId).value;
            var prod := FindByKey(products, ProductId, form.productId).value;
            p.unitCostSnapshot == Quotient(form.costPerPackage.value, prod.unitsPerPackage) &&
            (p.unitCostSnapshot.Some? ==>
               p.unitCostSnapshot.value * prod.unitsPerPackage as real * p.quantityPackages as real == p.totalCost)
  {
    var p := BuildPurchase(form, products, newId).value;
    var prod := FindByKey(products, ProductId, form.productId).value;
    if p.unitCostSnapshot.Some? {
      var s := p.unitCostSnapshot.value;
      assert s * prod.unitsPerPackage as real == form.costPerPackage.value;
      calc {
        s * prod.unitsPerPackage as real * p.quantityPackages as real;
        form.costPerPackage.value * p.quantityPackages as real;
        p.totalCost;
      }
    }
  }

  /** The total shown on the form while it is filled in. */
  function PreviewTotal(form: PurchaseForm): real {
    if form.quantityPackages.Some? && form.costPerPackage.Some?
    then form.quantityPackages.value as real * form.costPerPackage.value
    else 0.0
  }

  /** The unit cost shown on the form while it is filled in. */
  function PreviewUnitCost(form: PurchaseForm, products: seq<Product>): Option<real> {
    var prod := FindByKey(products, ProductId, form.productId);
    if prod.Some? && form.costPerPackage.Some?
    then Quotient(form.costPerPackage.value, prod.value.unitsPerPackage)
    else Some(0.0)
  }

  /** What the form previews is what a successful submit records. */
  lemma PreviewMatchesRecord(form: PurchaseForm, products: seq<Product>, newId: Id)
    requires BuildPurchase(form, products, newId).Some?
    ensures var p := BuildPurchase(form, products, newId).value;
            p.totalCost == PreviewTotal(form) && p.unitCostSnapshot == PreviewUnitCost(form, products)
  {
  }

  /** `handleSubmit`: records the purchase when the form is acceptable and
      then resets the form; a refused form is left as it is. */
  method SubmitPurchase(store: DataProvider, form: PurchaseForm, newId: Id, today: string)
    returns (next: PurchaseForm)
    modifies store`purchases
    ensures match BuildPurchase(form, store.products, newId)
            case None => store.purchases == old(store.purchases) && next == form
            case Some(p) => store.purchases == old(store.purchases) + [p] && next == EmptyForm(today)
  {
    var built := BuildPurchase(form, store.products, newId);
    if built.Some? {
      store.AddPurchase(built.value);
      next := EmptyForm(today);
    } else {
      next := form;
    }
  }

  // ---------------------------------------------------------------------------
  // The list of recorded purchases

  /** The unit cost shown for a recorded purchase: the frozen snapshot when
      there is one; otherwise, for purchases recorded before snapshots existed,
      the price per package over the current package size, and 0 when the
      product is no longer in the catalog. */
  function DisplayUnitCost(purchase: Purchase, products: seq<Product>): Option<real> {
    if purchase.unitCostSnapshot.Some? then purchase.unitCostSnapshot
    else
      match FindByKey(products, ProductId, purchase.productId)
      case None => Some(0.0)
      case Some(prod) =>
        if purchase.quantityPackages == 0 then None
        else Quotient(purchase.totalCost / purchase.quantityPackages as real, prod.unitsPerPackage)
  }

  /** Once recorded with a snapshot, a purchase shows the unit cost of the day
      it was bought, whatever the catalog holds later. */
  lemma DisplayIgnoresLaterCatalog(form: PurchaseForm, products: seq<Product>, newId: Id, later: seq<Product>)
    requires BuildPurchase(form, products, newId).Some?
    requires FindByKey(products, ProductId, form.productId).value.unitsPerPackage != 0
    ensures DisplayUnitCost(BuildPurchase(form, products, newId).value, later) ==
            Some(form.costPerPackage.value / FindByKey(products, ProductId, form.productId).value.unitsPerPackage as real)
  {
  }

  /** For a purchase without a snapshot whose total is some price per package
      times the quantity, the fallback recovers that price over the current
      package size. */
  lemma LegacyFallbackRecoversPrice(purchase: Purchase, products: seq<Product>, price: real)
    requires purchase.unitCostSnapshot.None?
    requires purchase.quantityPackages != 0
    requires purchase.totalCost == purchase.quantityPackages as real * price
    requires FindByKey(products, ProductId, purchase.productId).Some?
    ensures var prod := FindByKey(products, ProductId, purchase.productId).value;
            DisplayUnitCost(purchase, products) == Quotient(price, prod.unitsPerPackage)
  {
    assert purchase.totalCost / purchase.quantityPackages as real == price;
  }

  /** A purchase without a snapshot whose product is gone shows a unit cost of 0. */
  lemma LegacyFallbackRemovedProduct(purchase: Purchase, products: seq<Product>)
    requires purchase.unitCostSnapshot.None?
    requires forall i :: 0 <= i < |products| ==> products[i].id != purchase.productId
    ensures DisplayUnitCost(purchase, products) == Some(0.0)
  {
  }

  /** The product name shown for a purchase: the fallback label replaces a
      product that is gone, and also one whose name is empty. */
  const RemovedProductLabel: string := "Produto Removido"

  function DisplayProductName(purchase: Purchase, products: seq<Product>): (r: string)
    ensures r != ""
    ensures r == RemovedProductLabel <==>
              (forall i :: 0 <= i < |products| ==> products[i].id != purchase.productId) ||
              FindByKey(products, ProductId, purchase.productId).value.name in {"", RemovedProductLabel}
    ensures r != RemovedProductLabel ==> exists i :: 0 <= i < |products| && products[i].name == r
  {
    match FindByKey(products, ProductId, purchase.productId)
    case Some(prod) => if prod.name != "" then prod.name else RemovedProductLabel
    case None => RemovedProductLabel
  }

  /** The supplier shown for a purchase: the recorded one, or else the
      product's default supplier; absent when neither is available. */
  function DisplaySupplier(purchase: Purchase, products: seq<Product>): (r: Option<string>)
    ensures purchase.supplierName != "" ==> r == Some(purchase.supplierName)
    ensures r.None? <==> purchase.supplierName == "" &&
                          forall i :: 0 <= i < |products| ==> products[i].id != purchase.productId
  {
    if purchase.supplierName != "" then Some(purchase.supplierName)
    else
      match FindByKey(products, ProductId, purchase.productId)
      case Some(prod) => Some(prod.supplier)
      case None => None
  }
}
