/** The navigation bar: the fixed list of destinations, which of them a visitor sees,
    which one is highlighted for the current route, what a click on one does, the refresh
    guard, the mobile menu and logout. */
module Navbar {
  import opened Wrappers
  import opened Text

  /** An item's `show` property. */
  datatype Show = Always | WhenAuthenticated | WhenAnonymous

  /** An entry of `navigationItems` (its icon left out). */
  datatype NavItem = NavItem(name: string, path: string, show: Show, disabled: bool)

  /** The query string both canister-backed pages carry. */
  function CanisterQuery(): string {
    "?canisterId=" + "be2us-64aaa-" + "aaaaa-qaabq-cai"
  }

  /** `navigationItems`: three public pages, then two placeholders for signed-in users. */
  function NavigationItems(): (items: seq<NavItem>)
    ensures |items| == 5
    ensures forall i :: 0 <= i < 3 ==> items[i].show == Always && !items[i].disabled
    ensures forall i :: 3 <= i < 5 ==> items[i].show == WhenAuthenticated && items[i].disabled
  {
    [ NavItem("Home", "/", Always, false),
      NavItem("Categories", "/categories" + CanisterQuery(), Always, false),
      NavItem("Portfolio", "/portfolio" + CanisterQuery(), Always, false),
      NavItem("Profile", "/profile", WhenAuthenticated, true),
      NavItem("Settings", "/settings", WhenAuthenticated, true) ]
  }

  /** `itemPath.split('?')[0]`: everything before the first '?'. */
  function BasePath(path: string): (base: string)
    ensures base <= path && '?' !in base
    ensures |base| < |path| ==> path[|base|] == '?'
  {
    match FirstIndexOf(path, '?')
    case None => path
    case Some(i) => path[..i]
  }

  /** `isActivePath(itemPath)` for the route `current`: the home item only on "/" itself,
      any other item whenever the route starts with its base path. */
  function IsActivePath(itemPath: string, current: string): (active: bool)
    ensures BasePath(itemPath) == "/" ==> (active <==> current == "/")
    ensures BasePath(itemPath) != "/" ==> (active <==> BasePath(itemPath) <= current)
  {
    var base := BasePath(itemPath);
    (base == "/" && current == "/") || (base != "/" && base <= current)
  }

  /** The query part of an item's path plays no part in the highlight. */
  lemma {:induction false} QueryIsIgnored(itemPath: string, current: string)
    ensures IsActivePath(itemPath, current) == IsActivePath(BasePath(itemPath), current)
  {
    var base := BasePath(itemPath);
    assert '?' !in base;
    assert FirstIndexOf(base, '?').None?;
    assert BasePath(base) == base;
  }

  /** The match is a plain string prefix, not a path-segment match: a route that merely
      begins with an item's path highlights it. */
  lemma PrefixIsNotSegment()
    ensures IsActivePath("/profile", "/profiles")
    ensures !IsActivePath("/", "/profile")
  {
    assert FirstIndexOf("/profile", '?').None?;
    assert FirstIndexOf("/", '?').None?;
  }

  /** `getVisibleNavItems()`'s predicate. */
  predicate Visible(show: Show, authenticated: bool) {
    match show
    case Always => true
    case WhenAuthenticated => authenticated
    case WhenAnonymous => !authenticated
  }

  /** The items of `items` the visitor sees, in their order. */
  function FilterVisible(items: seq<NavItem>, authenticated: bool): (r: seq<NavItem>)
    ensures |r| <= |items|
    ensures forall x :: x in r <==> x in items && Visible(x.show, authenticated)
    decreases |items|
  {
    if items == [] then []
    else
      var rest := FilterVisible(items[1..], authenticated);
      assert items == [items[0]] + items[1..];
      assert forall x :: x in items <==> x == items[0] || x in items[1..];
      if Visible(items[0].show, authenticated) then [items[0]] + rest else rest
  }

  /** `getVisibleNavItems()`. */
  function VisibleNavItems(authenticated: bool): (r: seq<NavItem>)
    ensures forall x :: x in r <==> x in NavigationItems() && Visible(x.show, authenticated)
  {
    FilterVisible(NavigationItems(), authenticated)
  }

  /** When the visible items are exactly a prefix, filtering keeps that prefix. */
  lemma {:induction false} FilterKeepsVisiblePrefix(items: seq<NavItem>, k: nat, authenticated: bool)
    requires k <= |items|
    requires forall i :: 0 <= i < k ==> Visible(items[i].show, authenticated)
    requires forall i :: k <= i < |items| ==> !Visible(items[i].show, authenticated)
    ensures FilterVisible(items, authenticated) == items[..k]
    decreases |items|
  {
    if items != [] {
      if k == 0 {
        FilterKeepsVisiblePrefix(items[1..], 0, authenticated);
      } else {
        FilterKeepsVisiblePrefix(items[1..], k - 1, authenticated);
        assert items[..k] == [items[0]] + items[1..][..k - 1];
      }
    }
  }

  /** Signed in, the bar lists every item, in order. */
  lemma SignedInSeesEveryItem()
    ensures VisibleNavItems(true) == NavigationItems()
  {
    NoneHiddenFromSignedIn(NavigationItems());
  }

  /** A list without pages reserved for anonymous visitors is shown whole when signed in. */
  lemma NoneHiddenFromSignedIn(items: seq<NavItem>)
    requires forall i :: 0 <= i < |items| ==> items[i].show != WhenAnonymous
    ensures FilterVisible(items, true) == items
  {
    FilterKeepsVisiblePrefix(items, |items|, true);
    assert items[..|items|] == items;
  }

  /** Anonymous, the bar lists the three public pages, in order. */
  lemma AnonymousSeesPublicPages()
    ensures VisibleNavItems(false) == NavigationItems()[..3]
  {
    FilterKeepsVisiblePrefix(NavigationItems(), 3, false);
  }

  /** `to={item.disabled ? '#' : item.path}`. */
  function LinkTarget(item: NavItem): (to: string)
    ensures item.disabled ==> to == "#"
    ensures !item.disabled ==> to == item.path
  {
    if item.disabled then "#" else item.path
  }

  /** The principal line of a signed-in visitor. */
  function PrincipalPlaceholder(): string {
    "Click \"Whoami\" " + "to see your " + "principal ID"
  }

  function PrincipalLabel(principal: string): (shown: string)
    ensures principal == PrincipalPlaceholder() ==> shown == "Connected"
    ensures principal != PrincipalPlaceholder() ==>
      && shown == principal[..Min(8, |principal|)] + "..."
      && |shown| <= 11
  {
    if principal == PrincipalPlaceholder() then "Connected"
    else principal[..Min(8, |principal|)] + "..."
  }

  /** The bar's own state: the mobile menu, the route it has navigated to, and the
      `onRefresh` calls it has made. */
  class NavBar {
    var isMenuOpen: bool
    var location: string
    var refreshCalls: nat

    constructor (location: string)
      ensures !isMenuOpen && this.location == location && refreshCalls == 0
    {
      isMenuOpen := false;
      this.location := location;
      refreshCalls := 0;
    }

    /** The menu button. */
    method ToggleMenu()
      modifies this
      ensures isMenuOpen == !old(isMenuOpen)
      ensures location == old(location) && refreshCalls == old(refreshCalls)
    {
      isMenuOpen := !isMenuOpen;
    }

    /** A click on an item: a disabled one is prevented and changes nothing; any other
        closes the menu and routes to the item, its query kept out of the pathname. */
    method ClickItem(item: NavItem)
      modifies this
      ensures item.disabled ==> isMenuOpen == old(isMenuOpen) && location == old(location)
      ensures !item.disabled ==> !isMenuOpen && location == BasePath(LinkTarget(item))
      ensures refreshCalls == old(refreshCalls)
    {
      if !item.disabled {
        isMenuOpen := false;
        location := BasePath(LinkTarget(item));
      }
    }

    /** `handleRefresh`: `onRefresh` runs only when given and not already refreshing. */
    method HandleRefresh(hasOnRefresh: bool, refreshing: bool)
      modifies this
      ensures refreshCalls == old(refreshCalls) + (if hasOnRefresh && !refreshing then 1 else 0)
      ensures isMenuOpen == old(isMenuOpen) && location == old(location)
    {
      if hasOnRefresh && !refreshing {
        refreshCalls := refreshCalls + 1;
      }
    }

    /** The mobile menu's refresh entry also closes the menu, whatever the guard says. */
    method MobileRefresh(hasOnRefresh: bool, refreshing: bool)
      modifies this
      ensures refreshCalls == old(refreshCalls) + (if hasOnRefresh && !refreshing then 1 else 0)
      ensures !isMenuOpen && location == old(location)
    {
      HandleRefresh(hasOnRefresh, refreshing);
      isMenuOpen := false;
    }

    /** `handleLogout`: after a successful logout the menu closes and the bar routes home;
        a failed one is only logged. */
    method Logout(succeeded: bool)
      modifies this
      ensures succeeded ==> !isMenuOpen && location == "/"
      ensures !succeeded ==> isMenuOpen == old(isMenuOpen) && location == old(location)
      ensures refreshCalls == old(refreshCalls)
    {
      if succeeded {
        isMenuOpen := false;
        location := "/";
      }
    }

    /** The mobile menu's logout entry closes the menu whatever logout does; a successful
        logout then also routes home. */
    method MobileLogout(succeeded: bool)
      modifies this
      ensures !isMenuOpen
      ensures succeeded ==> location == "/"
      ensures !succeeded ==> location == old(location)
      ensures refreshCalls == old(refreshCalls)
    {
      Logout(succeeded);
      isMenuOpen := false;
    }
  }

  /** Following an enabled item highlights it. */
  lemma {:induction false} ClickedItemIsActive(item: NavItem)
    requires !item.disabled
    ensures IsActivePath(item.path, BasePath(LinkTarget(item)))
  {
  }
}
