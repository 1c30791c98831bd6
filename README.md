# Bar bookkeeping: a verified model

This project models the bookkeeping core of a small web application that a
bar runs during a multi-day event. The application records:

- the product catalog and the suppliers;
- purchases of packages of products;
- daily sales, split into cash and PIX (instant transfer);
- operating expenses;
- physical stock counts.

From these records it derives a financial summary and an inventory view. In
the inventory view, one designated "anchor" product, whose name contains
`GELINHO`, has its sales back-calculated from the revenue that the other
products do not explain.

The model is split into one Dafny module per source file:

- `DataManager`: the store. The class `DataProvider` holds the eight state
  cells (products, purchases, sales, expenses, inventory checks, suppliers,
  users, current user) as `seq` fields. Each action is a method whose
  `modifies` clause names the cells it replaces and whose `ensures` clause
  gives each new value as a function of the old one. Those functions carry
  the properties: supplier rename propagation, the one-check-per-product
  upsert, the summary sums, and the session bookkeeping.
- `Inventory`: the ordinary-product row, the anchor row, and the assembly
  of the row list. `ComputeInventory` is the page's accumulating loop, proved
  equal to the functional `InventoryView`.
- `Purchases`, `Products`, `Sales`, `Expenses`, `Suppliers`, `Settings`: each
  page's submit handler has two parts. A pure builder goes from the parsed
  form to `Option<record>`, with `None` meaning "refused". One method then
  makes the store call and resets the form.
- `Dashboard`: purchases consolidated by product, as a stable insertion sort
  by descending total cost; the financial-flow list; the sales footer.
- `App`: the routing from current user, current event and active tab to a page.
- `Types`, `Seqs`, `Text`, `Wrappers`: the records of `types.ts`, the JavaScript
  array operations (`find`, `filter`, the replace-by-id `map`, `reduce`), ASCII
  upper-casing with `includes`, and `Option`.

Modelling choices:

- Money is an exact `real` and quantities are `int`.
- Numeric form fields arrive already parsed. `None` is an empty field, except
  in the sales form, where `parseFloat(x) || 0` makes an empty or unparsable
  entry 0.
- A quotient whose denominator is zero is `None`, standing for a value that
  is not a finite number.
- Ids (`generateId`) and the current date are parameters.

What the code as written does, and the model with it:

- **No event scoping.** The store has no current event.
  - The pages build records without an `eventId`, so `eventId` is an
    `Option`. Seed records carry one; records created by the pages carry
    `None`.
  - Inventory checks are keyed by product only.
  - No collection is filtered by event.
  - The routing decision does read a current event, so `Route` takes it as
    a parameter.
- **No remote synchronisation.** All state lives in the store's cells.
- **Status rule.** The status of an ordinary product is the ratio rule at
  `pages/Inventory.tsx:49-51`:
  - `Overstock` is never produced;
  - the ratio test follows the IEEE result: 0/0 is not above 0.8, but a
    positive count of units sold over 0 units purchased is Infinity, which
    gives `Low`;
  - sales are clamped at zero, so that last case needs a negative count.

## Model

| member | source | states |
|---|---|---|
| DataManager.DataProvider.constructor | services/DataManager.tsx:40-49 | the cells start from the seed collections, with no checks and no session |
| DataManager.ComputeSummary | services/DataManager.tsx:88-95 | the summary of three collections: the sum of sale totals, of expense amounts and of purchase costs, and net = the first less the other two |
| DataManager.DataProvider.AddProduct | services/DataManager.tsx:51 | the product is appended; nothing else changes |
| DataManager.DataProvider.UpdateProduct | services/DataManager.tsx:53-55 | products become the replace-by-id of the old list |
| Seqs.ReplaceByKey | services/DataManager.tsx:54 | same length; each element becomes the new record exactly when its id matches, and is otherwise unchanged |
| DataManager.DataProvider.DeleteProduct | services/DataManager.tsx:57-59 | products become the old list without the id |
| Seqs.WithoutKey | services/DataManager.tsx:58 | the result holds exactly the old elements whose id differs, and none with the id |
| Seqs.WithoutKeyAround | services/DataManager.tsx:58 | removal keeps the order: around any element, the parts before and after are filtered separately |
| DataManager.DataProvider.AddPurchase | services/DataManager.tsx:61 | the purchase is appended at the end |
| DataManager.DataProvider.AddSale | services/DataManager.tsx:62 | the sale is appended at the end |
| DataManager.DataProvider.AddExpense | services/DataManager.tsx:63 | the expense is appended at the end |
| DataManager.DataProvider.AddSupplier | services/DataManager.tsx:65 | the supplier is appended at the end |
| DataManager.DataProvider.UpdateSupplier | services/DataManager.tsx:67-75 | suppliers are replaced by id; products are renamed as `ProductsAfterSupplierUpdate` says, computed from the supplier list before the update |
| DataManager.ProductsAfterSupplierUpdate | services/DataManager.tsx:67-75 | the products after `updateSupplier`: renamed from the former name when the id is found under a different name, unchanged otherwise |
| DataManager.RenameSupplier | services/DataManager.tsx:71-73 | same length; a product's supplier becomes the new name exactly when it was the old one; no other field changes; when the two names differ, no product keeps the old name |
| DataManager.SupplierUpdateEffect | services/DataManager.tsx:67-75 | an unknown id or an unchanged name leaves the products alone; a rename moves exactly the products of the former name, leaves none on it, and leaves other products equal |
| DataManager.DataProvider.DeleteSupplier | services/DataManager.tsx:77-79 | suppliers lose the id; products are unchanged |
| DataManager.UpsertCheck | services/DataManager.tsx:81-86 | the list is the old one without the product's checks, followed by the new check; so exactly one check has the product id, `find` returns it, and the checks of every other product are kept, in order |
| DataManager.DataProvider.UpdateInventoryCheck | services/DataManager.tsx:81-86 | the checks become the upsert of the old list |
| DataManager.SummaryNet | services/DataManager.tsx:88-95 | net = revenue − expenses − purchases; empty collections give an all-zero summary |
| DataManager.DataProvider.GetSummary | services/DataManager.tsx:88-95 | revenue, expenses and purchases are the sums of the store's totals, amounts and costs; net is their difference |
| DataManager.SummaryAfterSale | services/DataManager.tsx:89-92 | one more sale raises revenue and net by its total and leaves the other figures unchanged |
| DataManager.SummaryAfterPurchase | services/DataManager.tsx:91-92 | one more purchase raises total purchases by its cost and lowers net by it |
| DataManager.SummaryAfterExpense | services/DataManager.tsx:90-92 | one more expense raises total expenses by its amount and lowers net by it |
| DataManager.RevenueIsCashPlusPix | services/DataManager.tsx:89 | when every sale's total is cash + PIX, revenue is Σ cash + Σ PIX |
| DataManager.FindCredential | services/DataManager.tsx:99 | absent exactly when no user has both username and password; otherwise the first user of the list with both |
| DataManager.DataProvider.Login | services/DataManager.tsx:98-105 | returns true iff some user matches both fields; then the session is the first user with both fields, otherwise it is unchanged; a valid session stays valid |
| DataManager.DataProvider.Logout | services/DataManager.tsx:107-109 | the session is cleared |
| DataManager.DataProvider.AddUser | services/DataManager.tsx:111 | the user is appended; a valid session stays valid |
| DataManager.DataProvider.UpdateUser | services/DataManager.tsx:113-119 | users are replaced by id; the session is replaced when its id matches, so a valid session stays valid |
| DataManager.SessionAfterUserUpdate | services/DataManager.tsx:116-118 | the session after `updateUser`: the updated user when the session's id matches, the old session otherwise |
| DataManager.UserUpdateKeepsSession | services/DataManager.tsx:113-119 | after `updateUser`, the session (if any) is a member of the new user list |
| DataManager.DataProvider.DeleteUser | services/DataManager.tsx:121-123 | users lose the id; deleting someone other than the session's user keeps the session valid |
| DataManager.DeleteUserKeepsSession | services/DataManager.tsx:121-123 | deleting another id keeps the session in the list |
| Inventory.PurchasedUnitsArePackagesTimesSize | pages/Inventory.tsx:29 | Σ (packages × size) = (Σ packages) × size |
| Inventory.IsAnchor | pages/Inventory.tsx:21-22 | a product is the anchor candidate when its upper-cased name contains `GELINHO` |
| Inventory.SoldRatioAbove | pages/Inventory.tsx:51 | `sold / purchased > 0.8` as JavaScript numbers: with 0 purchased, true exactly when some unit is sold (Infinity), false for 0/0 (NaN) |
| Inventory.OrdinaryStatus | pages/Inventory.tsx:49-51 | Critical at zero stock, else Low when the ratio test holds, else Good |
| Inventory.OrdinaryRow | pages/Inventory.tsx:27-63 | an ordinary product's row: units and cost from its own purchases, stock from its first check or the purchased units, clamped sales, status by the ratio rule |
| Inventory.AnchorRow | pages/Inventory.tsx:68-96 | the anchor's row: units and cost from its own purchases, sales back-calculated as the floor of the residual revenue over its sell price, stock = units − sales, unclamped |
| Inventory.OrdinaryFigures | pages/Inventory.tsx:28-34 | units and cost are the sums over the product's own purchases; stock is the first check's count, or the purchased units when there is none |
| Inventory.OrdinarySalesClamped | pages/Inventory.tsx:37 | sales ≥ 0; sales + stock = purchased when stock ≤ purchased; sales are 0 when stock ≥ purchased |
| Inventory.UncountedProductUntouched | pages/Inventory.tsx:34 | without a check, stock is the purchased units and sales are 0 |
| Inventory.OrdinaryStatusClassification | pages/Inventory.tsx:49-51 | never Overstock; Critical iff stock = 0; with purchases, Low iff stock ≠ 0 and 5·sold > 4·purchased; without purchases, Low iff stock < 0; Good otherwise |
| Inventory.RatioThreshold | pages/Inventory.tsx:51 | for d > 0, n/d > 0.8 iff 5n > 4d |
| Inventory.CountedStockShown | pages/Inventory.tsx:106-114 | after a count v is recorded, the row shows v as stock and the shortfall against purchases as sales |
| Inventory.CountIsPerProduct | pages/Inventory.tsx:33 | recording a count for one product does not change another product's row |
| Inventory.WorkedOrdinaryExample | pages/Inventory.tsx:37-51 | 240 units bought and a count of 40 give 200 sold and status Low |
| Inventory.FloorBracket | pages/Inventory.tsx:81 | for price > 0: units × price ≤ target < (units + 1) × price, and units ≥ 0 |
| Inventory.AnchorFigures | pages/Inventory.tsx:68-96 | target = max(0, revenue − others) ≥ 0; units sold ≥ 0, 0 without a positive price, else floor-bracketed; stock + sold = purchased with no clamp; Critical iff stock ≤ 0, else Good |
| Inventory.AnchorReconciles | pages/Inventory.tsx:76-81 | nothing sold when others explain all revenue; otherwise, when the anchor's sell price is positive, the estimated revenue lies within one sell price below the recorded revenue, never above it (with no positive price nothing is sold and no bound holds) |
| Inventory.SeedAnchorExample | pages/Inventory.tsx:68-96 | the seed anchor (83.40 per box of 240, 55 boxes, 4529.20 of sales) shows 6516 units sold and 6684 in stock |
| Inventory.ViewReconciles | pages/Inventory.tsx:17-104 | in the whole view with an anchor: when the other products' estimates exceed the recorded revenue, the anchor sold nothing; otherwise, when the anchor's sell price is positive, the estimated revenue of all rows lies within one anchor sell price below the recorded revenue, never above it |
| Inventory.OrdinaryRowsAt | pages/Inventory.tsx:27-63 | one ordinary row per product, in order |
| Inventory.RowsWithoutAnchor | pages/Inventory.tsx:99-104 | without a marked product, the view is one ordinary row per product, in catalog order |
| Inventory.RowsWithAnchor | pages/Inventory.tsx:99-104 | the first marked product's row comes first, then one row per unmarked product in catalog order; no other marked product gets a row |
| Inventory.InventoryView | pages/Inventory.tsx:17-104 | the whole list: the first marked product's anchor row, computed from the recorded revenue and the other rows' estimated revenue, in front of one ordinary row per unmarked product |
| Inventory.ComputeInventory | pages/Inventory.tsx:17-104 | the loop that accumulates the others' revenue while building rows returns exactly `InventoryView` |
| Inventory.HandleStockUpdate | pages/Inventory.tsx:106-116 | a count is upserted only when the entry parsed; editing ends either way |
| Purchases.SelectProductEffect | pages/Purchases.tsx:20-32 | a known product fills in its default supplier and catalog price; an unknown id keeps the supplier and clears the price; date and quantity are kept |
| Purchases.SelectProduct | pages/Purchases.tsx:20-32 | selecting a product sets its id; a known one also sets its default supplier and catalog price, an unknown one clears the price |
| Purchases.BuildPurchase | pages/Purchases.tsx:34-57 | refused iff the product is unknown, the supplier, price or quantity is empty, the quantity ≤ 0 or the price < 0; otherwise total = quantity × price, and the record copies the form, with no event |
| Purchases.SnapshotReconstructsTotal | pages/Purchases.tsx:43-47 | snapshot = price / the product's package size at submission; snapshot × size × quantity = total |
| Purchases.PreviewTotal | pages/Purchases.tsx:70-72 | the previewed total: quantity × price when both are filled in, else 0 |
| Purchases.PreviewUnitCost | pages/Purchases.tsx:74-76 | the previewed unit cost: price over the selected product's package size when both exist, else 0 |
| Purchases.PreviewMatchesRecord | pages/Purchases.tsx:69-75 | the total and unit cost previewed on the form are those recorded |
| Purchases.SubmitPurchase | pages/Purchases.tsx:34-67 | a refused form changes nothing; otherwise the purchase is appended and the form reset |
| Purchases.DisplayUnitCost | pages/Purchases.tsx:221-226 | the unit cost shown for a purchase: its snapshot if stored, else total / quantity / the current package size, or 0 for a removed product |
| Purchases.DisplayIgnoresLaterCatalog | pages/Purchases.tsx:221-226 | a purchase with a snapshot shows it whatever the catalog later holds |
| Purchases.LegacyFallbackRecoversPrice | pages/Purchases.tsx:221-226 | without a snapshot, a total of quantity × p shows p over the current package size |
| Purchases.LegacyFallbackRemovedProduct | pages/Purchases.tsx:225 | without a snapshot and with the product gone, the unit cost shown is 0 |
| Purchases.DisplayProductName | pages/Purchases.tsx:234 | the fallback label shows exactly when the product is gone or its name is empty (or is the label itself); otherwise a catalog name |
| Purchases.DisplaySupplier | pages/Purchases.tsx:237 | the recorded supplier when there is one; otherwise the product's default; absent only when both are missing |
| Products.CalculateUnitCost | pages/Products.tsx:24-29 | price / quantity when both are filled in and quantity > 0, else 0 |
| Products.BuildProduct | pages/Products.tsx:44-60 | refused iff the price or size is missing or the size ≤ 0; name and supplier are upper-cased; unitCost × size = price; the id is the edited one or the fresh one |
| Products.PreviewIsSavedCost | pages/Products.tsx:57-59 | the unit cost saved is the one previewed |
| Products.ResubmitIsStable | pages/Products.tsx:31-60 | editing a saved product and resubmitting unchanged saves the same product |
| Products.SubmitProduct | pages/Products.tsx:44-71 | an edit replaces by id, a new product is appended, the form is reset; a refused form changes nothing |
| Text.UpperIdempotent | pages/Products.tsx:53 | upper-casing twice is upper-casing once |
| Text.Upper | pages/Products.tsx:53 | ASCII upper-casing: same length; position by position, each of `a`..`z` becomes the capital at the same place in the alphabet, and every other character is kept |
| Text.Contains | pages/Inventory.tsx:21 | `includes`: the pattern occurs at some position of the string |
| Sales.OrZero | pages/Sales.tsx:17-18 | an empty amount counts as 0 |
| Sales.BuildSale | pages/Sales.tsx:15-28 | refused iff both amounts are 0; otherwise total = cash + PIX, with no event and no notes |
| Sales.RecordedSaleKeepsTotals | pages/Sales.tsx:22-28 | appending a built sale keeps every total equal to cash + PIX |
| Sales.SalesFooter | pages/Sales.tsx:137-139 | the footer of the sales table: the sums of cash, of PIX and of totals |
| Sales.FooterReconciles | pages/Sales.tsx:137-139 | with consistent sales, the footer total is Σ cash + Σ PIX and equals the summary's revenue |
| Sales.SubmitSale | pages/Sales.tsx:15-36 | a refused form changes nothing; otherwise the sale is appended, the form is reset and consistency is kept |
| Expenses.EditsKeepCategory | pages/Expenses.tsx:55-84 | no series of the page's inputs changes the category |
| Expenses.BuildExpense | pages/Expenses.tsx:16-26 | refused iff the description or the amount is empty; otherwise the form's date, description, amount and category, with no supplier and no event |
| Expenses.RecordedExpenseIsGeneral | pages/Expenses.tsx:9-26 | every expense recorded from a form reachable from the initial one has category `Geral` |
| Expenses.SubmitExpense | pages/Expenses.tsx:16-35 | a refused form changes nothing; otherwise the expense is appended and the form reset to today, empty fields and `Geral` |
| Suppliers.BuildSupplier | pages/Suppliers.tsx:31-41 | refused iff the name is empty; otherwise the name upper-cased (non-empty), contact and notes as typed, and the edited id or the fresh one |
| Suppliers.UnchangedEditKeepsCatalog | pages/Suppliers.tsx:21-44 | resubmitting an unchanged edit form keeps the name, so no product is renamed |
| Suppliers.RenameThroughForm | pages/Suppliers.tsx:36-44 | an edit that changes the name moves exactly the products of the former name to the upper-cased new one |
| Suppliers.SubmitSupplier | pages/Suppliers.tsx:31-52 | an edit goes through the supplier update, with its product rename; a new supplier is appended; a refused form changes nothing |
| Settings.BuildUser | pages/Settings.tsx:31-41 | refused iff the username or password is empty; the role is always admin; the id is the edited one or the fresh one |
| Settings.UsernameTaken | pages/Settings.tsx:47 | some user already has the username |
| Settings.UsersAfterSubmit | pages/Settings.tsx:31-52 | the user list after a submit: unchanged when refused, replaced by id on an edit, appended on a create unless the username is taken |
| Settings.AddKeepsUsernamesUnique | pages/Settings.tsx:46-51 | creating a user keeps usernames unique |
| Settings.EditMayDuplicateUsername | pages/Settings.tsx:43-44 | an edit is not checked against other usernames and can create a duplicate |
| Settings.EditRoundTrip | pages/Settings.tsx:21-41 | resubmitting an unchanged edit form gives the same user, as admin |
| Settings.SubmitUser | pages/Settings.tsx:31-57 | an edit replaces by id and refreshes the session; a taken username on create is refused with the list unchanged; the session stays valid |
| Settings.CanDeleteUser | pages/Settings.tsx:174 | the delete button is shown when there is more than one user and the row is not the logged-in user's |
| Settings.OfferedDeleteKeepsSession | pages/Settings.tsx:174 | a deletion the page offers keeps the logged-in user, so the list stays non-empty |
| Dashboard.ConsolidateProduct | pages/Dashboard.tsx:29-41 | the line carries the product's id, name and unit; avgPrice × totalQty = totalCost when totalQty > 0, else avgPrice = 0 |
| Dashboard.ConsolidationMatchesInventory | pages/Dashboard.tsx:30-32 | total packages are the sum of `quantityPackages` over the product's own purchases, whatever the package size; that sum × size is the inventory's purchased units; the costs agree |
| Dashboard.RowsOf | pages/Dashboard.tsx:29 | one line per catalog product, in order |
| Dashboard.InsertByCost | pages/Dashboard.tsx:42 | inserts one line into a list sorted by descending cost, after every line of equal or higher cost |
| Dashboard.SortByCost | pages/Dashboard.tsx:42 | the `sort` by descending total cost, as a stable insertion sort |
| Dashboard.SortByCostFacts | pages/Dashboard.tsx:42 | the sort orders by descending total cost and is a permutation |
| Dashboard.ConsolidatedFacts | pages/Dashboard.tsx:29-42 | sorted descending; a permutation of the lines with positive cost; exactly those lines; no longer than the catalog |
| Dashboard.Consolidated | pages/Dashboard.tsx:29-42 | the consolidated table: one line per catalog product, those with positive cost kept, sorted by descending cost |
| Dashboard.ConsolidatedDistinct | pages/Dashboard.tsx:29-42 | with distinct catalog ids, at most one line per product |
| Dashboard.FinancialFlow | pages/Dashboard.tsx:22-26 | exactly three entries |
| Dashboard.FlowReconciles | pages/Dashboard.tsx:22-26 | revenue, purchases and expenses in that order, each summed from the records; the first less the other two is the net result |
| Dashboard.SalesFooter | pages/Dashboard.tsx:185-187 | the dashboard's sales footer: the sums of cash and of PIX, and the summary's revenue |
| Dashboard.SalesFootersAgree | pages/Dashboard.tsx:185-187 | the dashboard's sales footer equals the sales page's |
| App.TabPage | App.tsx:29-39 | every tab, known or not, leads to a sidebar page |
| App.TabOf | App.tsx:29-38 | the tab id of a sidebar page, one of the eight known ids; none for the login and event pages |
| App.Route | App.tsx:20-40 | Login iff no user; EventSelection iff a user but no event; otherwise the tab's page |
| App.TabsRoundTrip | App.tsx:29-38 | each sidebar page is reached by its own tab id; each known id leads back to itself; any other id shows the dashboard |
| App.InitialRouteIsDashboard | App.tsx:18 | the first page after login and event choice is the dashboard |

## Left out

- Rendering, styling, icons, charts, `window.print`, `confirm` and `alert` are user interface. So are the form-open flags.
- `pages/Login.tsx`, `components/Sidebar.tsx` and `pages/EventSelection.tsx`: presentation only. The event selection calls operations that the store shown does not provide.
- `utils.ts`: formatting wraps `Intl`, and `generateId` is random. Ids and dates are parameters.
- `constants.ts` is seed data. It appears only through the concrete values of `Inventory.SeedAnchorExample`.
- The `PaymentMethod` enumeration of `types.ts` is not used by the core.
- Parsing (`parseInt`, `parseFloat`) and NaN propagation are not modelled; fields arrive parsed as `Option`.
  - A non-empty field that does not parse would give NaN in the source and has no counterpart here.
  - Purchases.BuildPurchase: refuses an empty quantity, which the browser's `required` attribute blocks (pages/Purchases.tsx:148). The handler alone would record NaN.
- Floating-point rounding is not modelled: money is exact. Division by zero yields `None` ("not finite"), not Infinity or NaN.
  - Purchases.BuildPurchase: with a package size of 0, JavaScript stores a non-finite snapshot. The model stores none, so the display falls back to the legacy computation, which then uses the current catalog.
- Text.Upper: upper-cases ASCII letters only; `toUpperCase` on other Unicode letters is not modelled.
- The in-place sorts run while the pages render are not modelled:
  - `products.sort` by name at pages/Products.tsx:224 and pages/Purchases.tsx:119;
  - `suppliers.sort` by name at pages/Suppliers.tsx:142;
  - sorts by date: `sales.sort` at pages/Dashboard.tsx:14, pages/Dashboard.tsx:173 and pages/Sales.tsx:120; `expenses.sort` at pages/Dashboard.tsx:209 and pages/Expenses.tsx:117; `purchases.sort` at pages/Purchases.tsx:218.

  These sort the store's own arrays, so they change more than display order.
  - The supplier lookup in `updateSupplier` (`find` at services/DataManager.tsx:68) then sees the sorted list; supplier ids are not expected to repeat, so this matters only when they do.
  - After the products or purchases page has been shown, the catalog is in name order.
  - `find` at pages/Inventory.tsx:21 then picks the alphabetically first marked product as the anchor.
  - The ordinary rows and the dashboard's consolidated lines follow name order too, and so do ties between equal costs.

  The model always keeps the order in which records were added. So `Inventory.InventoryView`, `Inventory.RowsWithAnchor`, `Dashboard.RowsOf` and `Dashboard.Consolidated` describe a store whose arrays have not been re-sorted.
  - The sums do not depend on this order.
  - With floating-point rounding they would. The model's reals are exact, so that is not modelled either.
- Dashboard.SortByCost: modelled as a stable insertion sort; the stability itself is not proved.
- `daysRemaining` and `averageDailySales` are the constants the code uses: stock / 1 and 1 for ordinary rows, 0 and 0 for the anchor; the 999 branch of `daysRemaining` cannot be taken.
- App.Route: the store as written provides no current event. So `!currentEvent` at App.tsx:24 always holds, and a logged-in user never gets past the event selection page. `Route` takes the event as a parameter, so the dashboard and the other tabs, and the state `App.InitialRouteIsDashboard` assumes, are reached only when some event is supplied, which the code shown never does.
- React state semantics (batched updates, closures over a previous render's state) are not modelled. Each action reads the state as it was when the action started.
