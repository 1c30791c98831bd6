/** The records and closed enumerations of the bookkeeping system. Money is an
    exact `real`, counts of packages and units are `int`. Optional fields are
    `Option`s; `eventId` is optional because the records built by the pages
    carry none, while the seed records carry one. */
module Types {
  import opened Wrappers

  type Id = string

  /** `'admin' | 'user'`. */
  datatype Role = AdminRole | UserRole

  /** `'active' | 'archived'`. */
  datatype EventStatus = Active | Archived

  /** `'Cx' | 'Pct' | 'Fardo' | 'Kg' | 'Un'`: box, package, bundle, kilogram, unit. */
  datatype MeasureUnit = Cx | Pct | Fardo | Kg | Un

  /** `'Critical' | 'Low' | 'Good' | 'Overstock'`. */
  datatype StockStatus = Critical | Low | Good | Overstock

  datatype User = User(id: Id, name: string, username: string, password: string, role: Role)

  datatype Event = Event(id: Id, name: string, date: Option<string>, status: EventStatus)

  datatype Supplier = Supplier(id: Id, name: string, contact: Option<string>, notes: Option<string>)

  /** `supplier` is the preferred supplier's name (a copy, not a reference);
      `unitCost` is meant to be `packagePrice / unitsPerPackage`. */
  datatype Product = Product(
    id: Id,
    name: string,
    measureUnit: MeasureUnit,
    packagePrice: real,
    unitsPerPackage: int,
    supplier: string,
    unitCost: real,
    category: string)

  /** `unitCostSnapshot` is the unit cost at the time of purchase, kept as a
      historical fact; purchases recorded before it existed have none. */
  datatype Purchase = Purchase(
    id: Id,
    eventId: Option<Id>,
    date: string,
    productId: Id,
    supplierName: string,
    quantityPackages: int,
    totalCost: real,
    unitCostSnapshot: Option<real>)

  datatype SaleRecord = SaleRecord(
    id: Id,
    eventId: Option<Id>,
    date: string,
    amountCash: real,
    amountPix: real,
    total: real,
    notes: Option<string>)

  datatype Expense = Expense(
    id: Id,
    eventId: Option<Id>,
    date: string,
    supplier: Option<string>,
    description: string,
    amount: real,
    category: string)

  datatype InventoryCheck = InventoryCheck(
    productId: Id,
    eventId: Option<Id>,
    currentStock: int,
    lastUpdated: string)

  /** One row of the inventory view; `estimatedSalesUnits` stands for
      purchased minus current stock. */
  datatype ProductStatus = ProductStatus(
    product: Product,
    totalPurchasedUnits: int,
    totalPurchasedCost: real,
    estimatedSalesUnits: int,
    currentStock: int,
    averageDailySales: int,
    daysRemaining: int,
    status: StockStatus)

  /** Whether a form edits an existing record: the pages' `editingId ||
      generateId()` treats an absent or empty editing id as "new record". */
  predicate Editing(editingId: Option<Id>) {
    editingId.Some? && editingId.value != ""
  }

  // The keys the store's `find`, `filter` and `map` calls compare.
  function ProductId(p: Product): Id { p.id }
  function SupplierId(s: Supplier): Id { s.id }
  function UserId(u: User): Id { u.id }
  function CheckProductId(c: InventoryCheck): Id { c.productId }
  function PurchaseProductId(p: Purchase): Id { p.productId }

  // The amounts the store's and the pages' `reduce` calls add up.
  function SaleTotal(s: SaleRecord): real { s.total }
  function SaleCash(s: SaleRecord): real { s.amountCash }
  function SalePix(s: SaleRecord): real { s.amountPix }
  function ExpenseAmount(e: Expense): real { e.amount }
  function PurchaseCost(p: Purchase): real { p.totalCost }
  function PurchaseQuantity(p: Purchase): int { p.quantityPackages }
}
