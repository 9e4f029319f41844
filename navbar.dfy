/** The navigation bar (src/components/Navbar.jsx): which link is highlighted, the count badges,
    the search box, and the two menus closed on every route change. */
module Navbar {
  import opened Wrappers
  import Text

  /** The desktop links. */
  const HomePath: string := "/"
  const ProductsPath: string := "/products"
  const CategoriesPath: string := "/categories"

  /** The home link is active only on "/"; any other link whenever the path starts with it. */
  predicate IsActiveLink(linkPath: string, pathname: string) {
    if linkPath == HomePath then pathname == HomePath else Text.StartsWith(pathname, linkPath)
  }

  /** Two prefixes of the same path agree on their common length. */
  lemma PrefixesAgree(s: string, a: string, b: string)
    ensures Text.StartsWith(s, a) && Text.StartsWith(s, b) ==> forall i :: 0 <= i < |a| && i < |b| ==> a[i] == b[i]
  {
    if Text.StartsWith(s, a) && Text.StartsWith(s, b) {
      forall i | 0 <= i < |a| && i < |b| ensures a[i] == b[i] {
        assert a[i] == s[..|a|][i] && b[i] == s[..|b|][i];
      }
    }
  }

  /** At most one of the three links is highlighted on any path. */
  lemma AtMostOneLinkActive(pathname: string)
    ensures !(IsActiveLink(ProductsPath, pathname) && IsActiveLink(CategoriesPath, pathname))
    ensures IsActiveLink(HomePath, pathname) ==>
      !IsActiveLink(ProductsPath, pathname) && !IsActiveLink(CategoriesPath, pathname)
  {
    PrefixesAgree(pathname, ProductsPath, CategoriesPath);
    assert ProductsPath[1] != CategoriesPath[1];
  }

  /** A link's own page, and any page beneath it, highlights it. */
  lemma LinkActiveBeneath(linkPath: string, rest: string)
    requires linkPath != HomePath
    ensures IsActiveLink(linkPath, linkPath + rest)
  {
    assert (linkPath + rest)[..|linkPath|] == linkPath;
  }

  /** A count badge: hidden, "9+", or the exact count. */
  datatype Badge = Hidden | NinePlus | Exact(n: int)

  /** The cart and wishlist badge: shown only for a positive count, capped at "9+". */
  function BadgeFor(count: int): (r: Badge)
    ensures r.Hidden? <==> count <= 0
    ensures r.NinePlus? <==> count > 9
    ensures r.Exact? ==> r.n == count && 1 <= r.n <= 9
  {
    if count <= 0 then Hidden else if count > 9 then NinePlus else Exact(count)
  }

  /** What handleSearch searches for: nothing for a blank query, else the query trimmed. */
  function SearchTarget(query: string): (r: Option<string>)
    ensures r.None? <==> Text.AllSpace(query)
    ensures r.Some? ==> r.value == Text.Trim(query)
    ensures r.Some? ==> r.value != [] && !Text.IsSpace(r.value[0]) && !Text.IsSpace(r.value[|r.value| - 1])
    ensures var k := Text.SkipSpaces(query, 0);
      r.Some? ==> k + |r.value| <= |query| && r.value == query[k..k + |r.value|]
  {
    var t := Text.Trim(query);
    if t == [] then None
    else Some(t)
  }

  /** The bar's own state. */
  class NavbarState {
    var searchQuery: string
    var mobileMenuOpen: bool
    var showUserMenu: bool

    constructor ()
      ensures searchQuery == "" && !mobileMenuOpen && !showUserMenu
    {
      searchQuery := "";
      mobileMenuOpen := false;
      showUserMenu := false;
    }

    /** Typing in the search box. */
    method TypeQuery(query: string)
      modifies this
      ensures searchQuery == query
      ensures mobileMenuOpen == old(mobileMenuOpen) && showUserMenu == old(showUserMenu)
    {
      searchQuery := query;
    }

    /** handleSearch: a blank query does nothing; otherwise the bar navigates to the search for
        the trimmed query and empties the box. */
    method HandleSearch() returns (target: Option<string>)
      modifies this
      ensures target == SearchTarget(old(searchQuery))
      ensures target.None? ==> searchQuery == old(searchQuery)
      ensures target.Some? ==> searchQuery == ""
      ensures mobileMenuOpen == old(mobileMenuOpen) && showUserMenu == old(showUserMenu)
    {
      target := SearchTarget(searchQuery);
      if target.Some? {
        searchQuery := "";
      }
    }

    /** The location effect: any route change closes both menus. */
    method RouteChanged()
      modifies this
      ensures !mobileMenuOpen && !showUserMenu
      ensures searchQuery == old(searchQuery)
    {
      mobileMenuOpen := false;
      showUserMenu := false;
    }

    /** The avatar button opens or closes the user menu. */
    method ToggleUserMenu()
      modifies this
      ensures showUserMenu == !old(showUserMenu)
      ensures searchQuery == old(searchQuery) && mobileMenuOpen == old(mobileMenuOpen)
    {
      showUserMenu := !showUserMenu;
    }

    /** The hamburger button opens or closes the mobile menu. */
    method ToggleMobileMenu()
      modifies this
      ensures mobileMenuOpen == !old(mobileMenuOpen)
      ensures searchQuery == old(searchQuery) && showUserMenu == old(showUserMenu)
    {
      mobileMenuOpen := !mobileMenuOpen;
    }

    /** A click outside the user menu, or on one of its entries, closes it. */
    method CloseUserMenu()
      modifies this
      ensures !showUserMenu
      ensures searchQuery == old(searchQuery) && mobileMenuOpen == old(mobileMenuOpen)
    {
      showUserMenu := false;
    }
  }
}
