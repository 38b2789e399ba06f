/** The route guards (`ProtectedRoute`, `PublicRoute`) and the application's
    route table: what a navigation to a location renders, given the
    credential store. */
module RouteGuard {
  import opened Js
  import opened CredentialStore
  import opened SessionManager

  /** The router's current location. */
  datatype Location = Location(pathname: string, search: string, hash: string)

  /** The pages of the signed-in area. */
  datatype Page =
    | Dashboard | Profit | Products | Sales | Orders | OutsourcedOrders | Customers
    | Credits | Suppliers | PurchaseOrders | Quotations | CustomerInsights
    | Notifications | Accounts | ProfilePage | Employees | Settings | BackupSync
    | Finances | Reports | NotFound

  datatype Screen = LoginScreen | AppPage(page: Page)

  /** What a route element produces: its children, or a `<Navigate>` with
      its target, its `replace` flag and the `from` location it carries. */
  datatype Element = Render(screen: Screen) | Navigate(to: string, replace: bool, from: Option<Location>)

  const LoginPath: string := "/login"
  const HomePath: string := "/"

  /** `ProtectedRoute`: children when an access token is stored, otherwise
      a redirect to the login screen that remembers where the user was. */
  function ProtectedRoute(items: Storage, location: Location, children: Screen): Element {
    if !IsAuthenticated(items) then Navigate(LoginPath, true, Some(location)) else Render(children)
  }

  /** `PublicRoute`: the login screen's guard, sending a signed-in user home. */
  function PublicRoute(items: Storage, children: Screen): Element {
    if IsAuthenticated(items) then Navigate(HomePath, true, None) else Render(children)
  }

  /** The nested route table of the signed-in area, with its catch-all. */
  function PageFor(pathname: string): Page {
    if pathname == "/" then Dashboard
    else if pathname == "/profit" then Profit
    else if pathname == "/products" then Products
    else if pathname == "/sales" then Sales
    else if pathname == "/orders" then Orders
    else if pathname == "/outsourced-orders" then OutsourcedOrders
    else if pathname == "/customers" then Customers
    else if pathname == "/credits" then Credits
    else if pathname == "/suppliers" then Suppliers
    else if pathname == "/purchase-orders" then PurchaseOrders
    else if pathname == "/quotations" then Quotations
    else if pathname == "/customer-insights" then CustomerInsights
    else if pathname == "/notifications" then Notifications
    else if pathname == "/accounts" then Accounts
    else if pathname == "/profile" then ProfilePage
    else if pathname == "/employees" then Employees
    else if pathname == "/settings" then Settings
    else if pathname == "/backup" then BackupSync
    else if pathname == "/finances" then Finances
    else if pathname == "/reports" then Reports
    else NotFound
  }

  /** The address of each page, the reverse of the route table; the
      catch-all page has none of its own. */
  function AddressOf(p: Page): Option<string> {
    match p
    case Dashboard => Some("/")
    case Profit => Some("/profit")
    case Products => Some("/products")
    case Sales => Some("/sales")
    case Orders => Some("/orders")
    case OutsourcedOrders => Some("/outsourced-orders")
    case Customers => Some("/customers")
    case Credits => Some("/credits")
    case Suppliers => Some("/suppliers")
    case PurchaseOrders => Some("/purchase-orders")
    case Quotations => Some("/quotations")
    case CustomerInsights => Some("/customer-insights")
    case Notifications => Some("/notifications")
    case Accounts => Some("/accounts")
    case ProfilePage => Some("/profile")
    case Employees => Some("/employees")
    case Settings => Some("/settings")
    case BackupSync => Some("/backup")
    case Finances => Some("/finances")
    case Reports => Some("/reports")
    case NotFound => None
  }

  /** Every listed page is reached at its own address. */
  lemma PageForAddressOf(p: Page)
    ensures AddressOf(p).Some? ==> PageFor(AddressOf(p).value) == p
  {
    match p
    case Dashboard =>
    case Profit =>
    case Products =>
    case Sales =>
    case Orders =>
    case OutsourcedOrders =>
    case Customers =>
    case Credits =>
    case Suppliers =>
    case PurchaseOrders =>
    case Quotations =>
    case CustomerInsights =>
    case Notifications =>
    case Accounts =>
    case ProfilePage =>
    case Employees =>
    case Settings =>
    case BackupSync =>
    case Finances =>
    case Reports =>
    case NotFound =>
  }

  /** An address reaches a listed page only if it is that page's address. */
  lemma AddressOfPageFor(pathname: string)
    ensures PageFor(pathname) != NotFound ==> AddressOf(PageFor(pathname)) == Some(pathname)
  {
  }

  /** The route table and its reverse agree: an address falls through to
      `NotFound` exactly when no listed page has it. */
  lemma PageTableRoundTrip(pathname: string)
    ensures PageFor(pathname) == NotFound <==> forall q :: AddressOf(q) != Some(pathname)
  {
    if PageFor(pathname) == NotFound {
      forall q ensures AddressOf(q) != Some(pathname) {
        PageForAddressOf(q);
      }
    } else {
      AddressOfPageFor(pathname);
    }
  }

  /** The top-level routes: `/login` behind `PublicRoute`, every other path
      behind `ProtectedRoute`, which shows the nested table's page. */
  function App(items: Storage, location: Location): Element {
    if location.pathname == LoginPath then PublicRoute(items, LoginScreen)
    else ProtectedRoute(items, location, AppPage(PageFor(location.pathname)))
  }

  /** The decision table of the two guards. */
  lemma DecisionTable(items: Storage, location: Location)
    ensures IsAuthenticated(items) && location.pathname == LoginPath ==>
              App(items, location) == Navigate(HomePath, true, None)
    ensures !IsAuthenticated(items) && location.pathname == LoginPath ==>
              App(items, location) == Render(LoginScreen)
    ensures IsAuthenticated(items) && location.pathname != LoginPath ==>
              App(items, location) == Render(AppPage(PageFor(location.pathname)))
    ensures !IsAuthenticated(items) && location.pathname != LoginPath ==>
              App(items, location) == Navigate(LoginPath, true, Some(location))
  {
  }

  /** For a fixed store a redirect never leads to another redirect: its
      target is shown by the other guard. */
  lemma NoRedirectLoop(items: Storage, location: Location)
    ensures var e := App(items, location);
      e.Navigate? ==> App(items, Location(e.to, "", "")).Render?
  {
    assert HomePath != LoginPath;
  }

  /** The guards read the access token and nothing else: two stores that
      agree on it route every location alike, whatever their refresh token,
      profile or other keys. */
  lemma RoutingReadsOnlyAccessToken(a: Storage, b: Storage, location: Location)
    requires GetAccessToken(a) == GetAccessToken(b)
    ensures App(a, location) == App(b, location)
  {
    IsAuthenticatedReadsOnlyAccessToken(a, b);
  }

  /** The guards and `checkAuth` use different tests: with a non-empty
      access token and no stored profile (absent or empty), the guard shows the page of every
      path but `/login`, while `checkAuth` derives a signed-out session. */
  lemma GuardAdmitsWhatCheckAuthRejects(items: Storage, location: Location)
    requires AccessTokenKey in items && items[AccessTokenKey] != ""
    requires !Truthy(GetItem(items, UserKey))
    requires location.pathname != LoginPath
    ensures App(items, location) == Render(AppPage(PageFor(location.pathname)))
    ensures Hydrate(items) == Normal(SessionView(None, false))
  {
  }
}
