/** The application shell: which page is shown, given who is logged in, which
    event is selected and which sidebar tab is active. The store shown here
    has no current event of its own, so it is a parameter of the routing. */
module App {
  import opened Wrappers
  import opened Types

  datatype Page =
    | LoginPage
    | EventSelectionPage
    | DashboardPage
    | SalesPage
    | ProductsPage
    | SuppliersPage
    | PurchasesPage
    | ExpensesPage
    | InventoryPage
    | SettingsPage

  /** The pages reached from the sidebar. */
  predicate IsPanel(p: Page) {
    !p.LoginPage? && !p.EventSelectionPage?
  }

  /** The tab shown right after logging in and choosing an event. */
  const InitialTab: string := "dashboard"

  /** The ids of the eight sidebar tabs. */
  const KnownTabs: seq<string> :=
    ["dashboard", "sales", "products", "suppliers", "purchases", "expenses", "inventory", "settings"]

  /** The `switch` on the active tab; an unknown tab shows the dashboard. */
  function TabPage(tab: string): (p: Page)
    ensures IsPanel(p)
  {
    match tab
    case "dashboard" => DashboardPage
    case "sales" => SalesPage
    case "products" => ProductsPage
    case "suppliers" => SuppliersPage
    case "purchases" => PurchasesPage
    case "expenses" => ExpensesPage
    case "inventory" => InventoryPage
    case "settings" => SettingsPage
    case _ => DashboardPage
  }

  /** The tab id of a sidebar page. */
  function TabOf(p: Page): (t: Option<string>)
    ensures t.Some? <==> IsPanel(p)
    ensures t.Some? ==> t.value in KnownTabs
  {
    match p
    case LoginPage => None
    case EventSelectionPage => None
    case DashboardPage => Some("dashboard")
    case SalesPage => Some("sales")
    case ProductsPage => Some("products")
    case SuppliersPage => Some("suppliers")
    case PurchasesPage => Some("purchases")
    case ExpensesPage => Some("expenses")
    case InventoryPage => Some("inventory")
    case SettingsPage => Some("settings")
  }

  /** `AppContent`: the login page without a user, the event selection without
      an event, and otherwise the page of the active tab. */
  function Route(currentUser: Option<User>, currentEvent: Option<Event>, activeTab: string): (p: Page)
    ensures p == LoginPage <==> currentUser.None?
    ensures p == EventSelectionPage <==> currentUser.Some? && currentEvent.None?
    ensures currentUser.Some? && currentEvent.Some? ==> IsPanel(p) && p == TabPage(activeTab)
  {
    if currentUser.None? then LoginPage
    else if currentEvent.None? then EventSelectionPage
    else TabPage(activeTab)
  }

  /** Every sidebar page is reached by its own tab id and by no other known
      id; every known id leads to the page that carries it; any other id
      leads to the dashboard. */
  lemma TabsRoundTrip(p: Page, tab: string)
    ensures IsPanel(p) ==> TabPage(TabOf(p).value) == p
    ensures tab in KnownTabs ==> TabOf(TabPage(tab)) == Some(tab)
    ensures tab !in KnownTabs ==> TabPage(tab) == DashboardPage
  {
  }

  /** After logging in and choosing an event, the dashboard comes first. */
  lemma InitialRouteIsDashboard(u: User, e: Event)
    ensures Route(Some(u), Some(e), InitialTab) == DashboardPage
  {
  }
}
