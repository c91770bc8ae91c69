/**
 * The application frame of the client: the sidebar shows the fixed menu
 * filtered by the user's permissions, and highlights the entry whose path
 * matches the current location.
 */
module Layout {
  import opened Seqs
  import opened Wrappers
  import opened AuthContext

  /** A sidebar entry; `permission` is None for the entry every user sees. */
  datatype MenuItem = MenuItem(path: string, caption: string, permission: Option<string>)

  const Dashboard := MenuItem("/", "\U{0644}\U{0648}\U{062D}\U{0629} \U{0627}\U{0644}\U{062A}\U{062D}\U{0643}\U{0645}", None)

  /** The full menu, in display order. */
  const AllItems: seq<MenuItem> := [
    Dashboard,
    MenuItem("/products", "\U{0627}\U{0644}\U{0645}\U{0646}\U{062A}\U{062C}\U{0627}\U{062A}", Some("products.view")),
    MenuItem("/warehouses", "\U{0627}\U{0644}\U{0645}\U{062E}\U{0627}\U{0632}\U{0646}", Some("warehouses.view")),
    MenuItem("/inventory", "\U{0627}\U{0644}\U{0645}\U{062E}\U{0632}\U{0648}\U{0646}", Some("inventory.view")),
    MenuItem("/transactions", "\U{0627}\U{0644}\U{062D}\U{0631}\U{0643}\U{0627}\U{062A}", Some("transactions.view")),
    MenuItem("/users", "\U{0627}\U{0644}\U{0645}\U{0633}\U{062A}\U{062E}\U{062F}\U{0645}\U{0648}\U{0646}", Some("users.view")),
    MenuItem("/roles",
      "\U{0627}\U{0644}\U{0623}\U{062F}\U{0648}\U{0627}\U{0631} \U{0648}\U{0627}\U{0644}\U{0635}\U{0644}\U{0627}\U{062D}\U{064A}\U{0627}\U{062A}",
      Some("roles.view"))
  ]

  /** `!item.permission || hasPermission(item.permission)`: a missing or empty permission shows the entry. */
  function Visible(user: Option<User>): MenuItem -> bool
  {
    (item: MenuItem) => item.permission.None? || item.permission.value == "" || HasPermission(user, item.permission.value)
  }

  /** The entries the sidebar shows. */
  function MenuItems(user: Option<User>): seq<MenuItem>
  {
    Filter(AllItems, Visible(user))
  }

  /** An entry is shown exactly when it is in the menu and needs no permission or the user holds it. */
  lemma MenuItemsMembers(user: Option<User>, item: MenuItem)
    ensures item in MenuItems(user) <==>
      item in AllItems && (item.permission.None? || HasPermission(user, item.permission.value))
  {
    FilterMembers(AllItems, Visible(user), item);
  }

  /** The dashboard is always shown, and first. */
  lemma DashboardAlwaysFirst(user: Option<User>)
    ensures MenuItems(user) != [] && MenuItems(user)[0] == Dashboard
  {
    FilterFront(AllItems, Visible(user));
  }

  /**
   * The menu keeps the display order: the shown entries before position `n`
   * all come before the shown entries from `n` on.
   */
  lemma MenuItemsKeepOrder(user: Option<User>, n: nat)
    requires n <= |AllItems|
    ensures MenuItems(user) == Filter(AllItems[..n], Visible(user)) + Filter(AllItems[n..], Visible(user))
  {
    FilterAppend(AllItems[..n], AllItems[n..], Visible(user));
    assert AllItems[..n] + AllItems[n..] == AllItems;
  }

  /** With no user, or a user without roles, only the dashboard is shown. */
  lemma NoRolesOnlyDashboard(user: Option<User>)
    requires user.None? || user.value.roles.None?
    ensures MenuItems(user) == [Dashboard]
  {
    var rest := AllItems[1..];
    forall item | item in rest ensures !Visible(user)(item) {
      assert item.permission.Some? && item.permission.value != "";
    }
    FilterKeepsNone(rest, Visible(user));
    FilterFront(AllItems, Visible(user));
  }

  /** `pathname.startsWith(prefix)`, compared character by character. */
  function StartsWith(pathname: string, prefix: string): (r: bool)
    ensures r <==> |prefix| <= |pathname| && pathname[..|prefix|] == prefix
  {
    if prefix == [] then true
    else if pathname == [] then false
    else pathname[0] == prefix[0] && StartsWith(pathname[1..], prefix[1..])
  }

  /**
   * `isActive`: the dashboard is active only on "/" itself; every other entry
   * is active on its path and on every location that begins with it.
   */
  function IsActive(pathname: string, path: string): (r: bool)
    ensures path == "/" ==> (r <==> pathname == "/")
    ensures path != "/" ==> (r <==> |path| <= |pathname| && pathname[..|path|] == path)
  {
    if path == "/" then pathname == "/" else StartsWith(pathname, path)
  }

  /**
   * An entry other than the dashboard stays active below its path, and the
   * test is on characters, not path segments: "/products" is also active on
   * "/products-archive".
   */
  lemma ActiveBelowPath(path: string, rest: string)
    requires path != "/"
    ensures IsActive(path + rest, path)
    ensures IsActive("/products-archive", "/products")
    ensures !IsActive("/products", "/")
  {
    assert (path + rest)[..|path|] == path;
    assert "/products-archive"[..|"/products"|] == "/products";
  }
}
