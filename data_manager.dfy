/** The in-memory store: eight state cells and the actions that replace them.
    Each action computes the new value of a cell from the old one with a
    `find`/`filter`/`map`/spread expression; those expressions are the pure
    functions of this module, and the class `DataProvider` holds the cells. */
module DataManager {
  import opened Wrappers
  import opened Seqs
  import opened Types

  /** The result of `getSummary`. */
  datatype Summary = Summary(totalRevenue: real, totalExpenses: real, totalPurchases: real, netResult: real)

  /** The three `reduce` sums and the net result. */
  function ComputeSummary(sales: seq<SaleRecord>, expenses: seq<Expense>, purchases: seq<Purchase>): Summary
  {
    var revenue := Sum(sales, SaleTotal);
    var spent := Sum(expenses, ExpenseAmount);
    var bought := Sum(purchases, PurchaseCost);
    Summary(revenue, spent, bought, revenue - spent - bought)
  }

  /** The net result is revenue less expenses less purchases, and empty
      collections give an all-zero summary. */
  lemma SummaryNet(sales: seq<SaleRecord>, expenses: seq<Expense>, purchases: seq<Purchase>)
    ensures var r := ComputeSummary(sales, expenses, purchases);
            r.netResult == r.totalRevenue - r.totalExpenses - r.totalPurchases
    ensures ComputeSummary([], [], []) == Summary(0.0, 0.0, 0.0, 0.0)
  {
  }

  /** Recording one more sale raises revenue and net result by its total and
      leaves the other figures as they were. */
  lemma SummaryAfterSale(sales: seq<SaleRecord>, expenses: seq<Expense>, purchases: seq<Purchase>, s: SaleRecord)
    ensures var before := ComputeSummary(sales, expenses, purchases);
            var after := ComputeSummary(sales + [s], expenses, purchases);
            after.totalRevenue == before.totalRevenue + s.total &&
            after.netResult == before.netResult + s.total &&
            after.totalExpenses == before.totalExpenses &&
            after.totalPurchases == before.totalPurchases
  {
    assert (sales + [s])[..|sales|] == sales;
  }

  /** Recording one more purchase lowers the net result by its total cost. */
  lemma SummaryAfterPurchase(sales: seq<SaleRecord>, expenses: seq<Expense>, purchases: seq<Purchase>, p: Purchase)
    ensures var before := ComputeSummary(sales, expenses, purchases);
            var after := ComputeSummary(sales, expenses, purchases + [p]);
            after.totalPurchases == before.totalPurchases + p.totalCost &&
            after.netResult == before.netResult - p.totalCost &&
            after.totalRevenue == before.totalRevenue
  {
    assert (purchases + [p])[..|purchases|] == purchases;
  }

  /** Recording one more expense lowers the net result by its amount. */
  lemma SummaryAfterExpense(sales: seq<SaleRecord>, expenses: seq<Expense>, purchases: seq<Purchase>, e: Expense)
    ensures var before := ComputeSummary(sales, expenses, purchases);
            var after := ComputeSummary(sales, expenses + [e], purchases);
            after.totalExpenses == before.totalExpenses + e.amount &&
            after.netResult == before.netResult - e.amount &&
            after.totalRevenue == before.totalRevenue
  {
    assert (expenses + [e])[..|expenses|] == expenses;
  }

  /** When every sale's total is its cash plus its pix amount, revenue is the
      sum of all cash plus the sum of all pix. */
  lemma RevenueIsCashPlusPix(sales: seq<SaleRecord>, expenses: seq<Expense>, purchases: seq<Purchase>)
    requires forall i :: 0 <= i < |sales| ==> sales[i].total == sales[i].amountCash + sales[i].amountPix
    ensures ComputeSummary(sales, expenses, purchases).totalRevenue == Sum(sales, SaleCash) + Sum(sales, SalePix)
  {
    SumPointwise(sales, SaleCash, SalePix, SaleTotal);
  }

  /** The product map of `updateSupplier`: every product whose supplier name
      is `oldName` gets `newName`, and nothing else about any product changes. */
  function RenameSupplier(products: seq<Product>, oldName: string, newName: string): (r: seq<Product>)
    ensures |r| == |products|
    ensures forall i :: 0 <= i < |r| ==>
              r[i] == if products[i].supplier == oldName then products[i].(supplier := newName) else products[i]
    ensures oldName != newName ==> forall i :: 0 <= i < |r| ==> r[i].supplier != oldName
  {
    if products == [] then []
    else
      var p := products[0];
      [if p.supplier == oldName then p.(supplier := newName) else p] + RenameSupplier(products[1..], oldName, newName)
  }

  /** The new product list after `updateSupplier(updated)`: renamed when the
      supplier was found under the updated id with a different name. */
  function ProductsAfterSupplierUpdate(products: seq<Product>, suppliers: seq<Supplier>, updated: Supplier): seq<Product>
  {
    match FindByKey(suppliers, SupplierId, updated.id)
    case Some(former) =>
      if former.name != updated.name then RenameSupplier(products, former.name, updated.name) else products
    case None => products
  }

  /** An unknown supplier id or an unchanged name leaves the products alone; a
      real rename leaves no product on the former name, moves exactly the
      products that had it, and touches no other product. */
  lemma SupplierUpdateEffect(products: seq<Product>, suppliers: seq<Supplier>, updated: Supplier)
    ensures var r := ProductsAfterSupplierUpdate(products, suppliers, updated);
            var found := FindByKey(suppliers, SupplierId, updated.id);
            |r| == |products| &&
            (found.None? || found.value.name == updated.name ==> r == products) &&
            (found.Some? && found.value.name != updated.name ==>
               found.value in suppliers &&
               (forall i :: 0 <= i < |r| ==> r[i].supplier != found.value.name) &&
               (forall i :: 0 <= i < |r| && products[i].supplier == found.value.name ==>
                  r[i] == products[i].(supplier := updated.name)) &&
               (forall i :: 0 <= i < |r| && products[i].supplier != found.value.name ==> r[i] == products[i]))
  {
  }

  /** The check list of `updateInventoryCheck(c)`: every check of the same
      product dropped, then `c` appended. */
  function UpsertCheck(checks: seq<InventoryCheck>, c: InventoryCheck): (r: seq<InventoryCheck>)
    ensures |r| > 0 && r[|r| - 1] == c
    ensures forall i :: 0 <= i < |r| ==> (r[i].productId == c.productId <==> i == |r| - 1)
    ensures FindByKey(r, CheckProductId, c.productId) == Some(c)
    ensures forall k :: k != c.productId ==> WithKey(r, CheckProductId, k) == WithKey(checks, CheckProductId, k)
    ensures r == WithoutKey(checks, CheckProductId, c.productId) + [c]
  {
    var kept := WithoutKey(checks, CheckProductId, c.productId);
    UpsertByKey(checks, CheckProductId, c);
    forall k | k != c.productId
      ensures WithKey(kept + [c], CheckProductId, k) == WithKey(checks, CheckProductId, k)
    {
      WithKeyAppend(kept, [c], CheckProductId, k);
      WithKeyOfWithoutKey(checks, CheckProductId, c.productId, k);
    }
    kept + [c]
  }

  /** `users.find(u => u.username === username && u.password === pass)`. */
  function FindCredential(users: seq<User>, username: string, pass: string): (r: Option<User>)
    ensures r.None? <==> forall i :: 0 <= i < |users| ==> !(users[i].username == username && users[i].password == pass)
    ensures r.Some? ==> r.value in users && r.value.username == username && r.value.password == pass
    ensures r.Some? ==> exists i :: 0 <= i < |users| && users[i] == r.value &&
                                   forall j :: 0 <= j < i ==> !(users[j].username == username && users[j].password == pass)
  {
    FindFirst(users, (u: User) => u.username == username && u.password == pass)
  }

  /** The session holds no user, or a user that is in the user list as it is. */
  predicate SessionIn(users: seq<User>, current: Option<User>) {
    current.None? || current.value in users
  }

  /** The session after `updateUser(u)`: replaced when the ids match. */
  function SessionAfterUserUpdate(current: Option<User>, u: User): Option<User> {
    if current.Some? && current.value.id == u.id then Some(u) else current
  }

  /** `updateUser` never leaves a stale copy of the user in the session. */
  lemma UserUpdateKeepsSession(users: seq<User>, current: Option<User>, u: User)
    requires SessionIn(users, current)
    ensures SessionIn(ReplaceByKey(users, UserId, u), SessionAfterUserUpdate(current, u))
  {
    if current.Some? {
      var i :| 0 <= i < |users| && users[i] == current.value;
      assert ReplaceByKey(users, UserId, u)[i] == SessionAfterUserUpdate(current, u).value;
    }
  }

  /** Deleting any user but the session's own keeps the session in the list. */
  lemma DeleteUserKeepsSession(users: seq<User>, current: Option<User>, id: Id)
    requires SessionIn(users, current)
    requires current.None? || current.value.id != id
    ensures SessionIn(WithoutKey(users, UserId, id), current)
  {
  }

  /** The state cells of the store and its actions. */
  class DataProvider {
    var products: seq<Product>
    var purchases: seq<Purchase>
    var sales: seq<SaleRecord>
    var expenses: seq<Expense>
    var inventoryChecks: seq<InventoryCheck>
    var suppliers: seq<Supplier>
    var users: seq<User>
    var currentUser: Option<User>

    /** The session, when there is one, holds a user of the user list. */
    ghost predicate SessionValid()
      reads this
    {
      SessionIn(users, currentUser)
    }

    /** The cells start from the seed collections, with no inventory checks and
        nobody logged in. */
    constructor (initialProducts: seq<Product>, initialPurchases: seq<Purchase>, initialSales: seq<SaleRecord>,
                 initialExpenses: seq<Expense>, initialSuppliers: seq<Supplier>, initialUsers: seq<User>)
      ensures products == initialProducts && purchases == initialPurchases && sales == initialSales
      ensures expenses == initialExpenses && suppliers == initialSuppliers && users == initialUsers
      ensures inventoryChecks == [] && currentUser == None
      ensures SessionValid()
    {
      products, purchases, sales := initialProducts, initialPurchases, initialSales;
      expenses, suppliers, users := initialExpenses, initialSuppliers, initialUsers;
      inventoryChecks, currentUser := [], None;
    }

    method AddProduct(product: Product)
      modifies this`products
      ensures products == old(products) + [product]
    {
      products := products + [product];
    }

    method UpdateProduct(updated: Product)
      modifies this`products
      ensures products == ReplaceByKey(old(products), ProductId, updated)
    {
      products := ReplaceByKey(products, ProductId, updated);
    }

    method DeleteProduct(id: Id)
      modifies this`products
      ensures products == WithoutKey(old(products), ProductId, id)
    {
      products := WithoutKey(products, ProductId, id);
    }

    method AddPurchase(purchase: Purchase)
      modifies this`purchases
      ensures purchases == old(purchases) + [purchase]
    {
      purchases := purchases + [purchase];
    }

    method AddSale(sale: SaleRecord)
      modifies this`sales
      ensures sales == old(sales) + [sale]
    {
      sales := sales + [sale];
    }

    method AddExpense(expense: Expense)
      modifies this`expenses
      ensures expenses == old(expenses) + [expense]
    {
      expenses := expenses + [expense];
    }

    method AddSupplier(supplier: Supplier)
      modifies this`suppliers
      ensures suppliers == old(suppliers) + [supplier]
    {
      suppliers := suppliers + [supplier];
    }

    /** Replaces the supplier with the same id and carries a name change over
        to the products that named the supplier's former name. */
    method UpdateSupplier(updated: Supplier)
      modifies this`suppliers, this`products
      ensures suppliers == ReplaceByKey(old(suppliers), SupplierId, updated)
      ensures products == ProductsAfterSupplierUpdate(old(products), old(suppliers), updated)
    {
      var former := FindByKey(suppliers, SupplierId, updated.id);
      suppliers := ReplaceByKey(suppliers, SupplierId, updated);
      if former.Some? && former.value.name != updated.name {
        products := RenameSupplier(products, former.value.name, updated.name);
      }
    }

    /** Removes the supplier; products keep the supplier name they had. */
    method DeleteSupplier(id: Id)
      modifies this`suppliers
      ensures suppliers == WithoutKey(old(suppliers), SupplierId, id)
      ensures products == old(products)
    {
      suppliers := WithoutKey(suppliers, SupplierId, id);
    }

    method UpdateInventoryCheck(check: InventoryCheck)
      modifies this`inventoryChecks
      ensures inventoryChecks == UpsertCheck(old(inventoryChecks), check)
    {
      inventoryChecks := UpsertCheck(inventoryChecks, check);
    }

    /** The summary of the store as it is now. */
    function GetSummary(): (r: Summary)
      reads this
      ensures r.totalRevenue == Sum(sales, SaleTotal) && r.totalExpenses == Sum(expenses, ExpenseAmount) &&
              r.totalPurchases == Sum(purchases, PurchaseCost)
      ensures r.netResult == r.totalRevenue - r.totalExpenses - r.totalPurchases
    {
      ComputeSummary(sales, expenses, purchases)
    }

    /** Succeeds, and opens a session for the first matching user, exactly when
        some user has both the user name and the password; otherwise the
        session stays as it was. */
    method Login(username: string, pass: string) returns (ok: bool)
      modifies this`currentUser
      ensures ok <==> exists i :: 0 <= i < |users| && users[i].username == username && users[i].password == pass
      ensures currentUser == if ok then FindCredential(users, username, pass) else old(currentUser)
      ensures old(SessionValid()) ==> SessionValid()
    {
      var user := FindCredential(users, username, pass);
      if user.Some? {
        currentUser := user;
        ok := true;
      } else {
        ok := false;
      }
    }

    method Logout()
      modifies this`currentUser
      ensures currentUser == None
      ensures SessionValid()
    {
      currentUser := None;
    }

    method AddUser(user: User)
      modifies this`users
      ensures users == old(users) + [user]
      ensures old(SessionValid()) ==> SessionValid()
    {
      users := users + [user];
    }

    /** Replaces the user with the same id, in the list and in the session. */
    method UpdateUser(updated: User)
      modifies this`users, this`currentUser
      ensures users == ReplaceByKey(old(users), UserId, updated)
      ensures currentUser == SessionAfterUserUpdate(old(currentUser), updated)
      ensures old(SessionValid()) ==> SessionValid()
    {
      if SessionIn(users, currentUser) {
        UserUpdateKeepsSession(users, currentUser, updated);
      }
      users := ReplaceByKey(users, UserId, updated);
      currentUser := SessionAfterUserUpdate(currentUser, updated);
    }

    /** Removes every user with the id; the store itself does not protect the
        session's own user. */
    method DeleteUser(id: Id)
      modifies this`users
      ensures users == WithoutKey(old(users), UserId, id)
      ensures old(SessionValid()) && (currentUser.None? || currentUser.value.id != id) ==> SessionValid()
    {
      users := WithoutKey(users, UserId, id);
    }
  }
}
