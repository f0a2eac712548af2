/** The admin layout: the authentication gate in front of every admin page,
    the header title, and the sidebar's highlighted entry. */
module AdminLayout {
  import opened Wrappers
  import opened Text

  const LoginPath: string := "/admin/login"
  const SignupPath: string := "/admin/signup"
  const DashboardPath: string := "/admin"
  const AddProductPath: string := "/admin/products/add"

  /** The two pages that are reachable without signing in. */
  predicate IsAuthPage(path: string)
  {
    path == LoginPath || path == SignupPath
  }

  // ---------------------------------------------------------------------
  // The gate
  // ---------------------------------------------------------------------

  /** The effect run on every change of the auth state or path: where the
      layout sends the browser, if anywhere. */
  function RedirectTarget(isUserLoading: bool, hasUser: bool, path: string): (r: Option<string>)
    ensures r == None || r == Some(LoginPath)
    ensures r.Some? <==> !isUserLoading && !hasUser && path != LoginPath && path != SignupPath
  {
    if !isUserLoading && !hasUser && !IsAuthPage(path) then Some(LoginPath) else None
  }

  /** What the layout renders. */
  datatype View =
    | LoadingPlaceholder  // `<div>Loading...</div>`
    | NothingRendered     // `null`
    | BareChildren        // the page without sidebar and header
    | WithChrome          // the page inside the sidebar and header

  /** The early returns of the layout, in source order. */
  function Render(isUserLoading: bool, hasUser: bool, path: string): (v: View)
    ensures IsAuthPage(path) ==> v == BareChildren
    ensures !IsAuthPage(path) && isUserLoading ==> v == LoadingPlaceholder
    ensures !IsAuthPage(path) && !isUserLoading && !hasUser ==> v == NothingRendered
    ensures v == WithChrome <==> !isUserLoading && hasUser && !IsAuthPage(path)
  {
    if isUserLoading && !IsAuthPage(path) then LoadingPlaceholder
    else if !hasUser && !IsAuthPage(path) then NothingRendered
    else if IsAuthPage(path) then BareChildren
    else WithChrome
  }

  /** The layout renders nothing exactly when it redirects to the login page,
      and the admin chrome only ever appears for a signed-in user. */
  lemma BlankExactlyWhenRedirecting(isUserLoading: bool, hasUser: bool, path: string)
    ensures (Render(isUserLoading, hasUser, path) == NothingRendered)
              <==> (RedirectTarget(isUserLoading, hasUser, path) == Some(LoginPath))
    ensures Render(isUserLoading, hasUser, path) == WithChrome ==> hasUser
    ensures RedirectTarget(isUserLoading, hasUser, path).Some? ==> !IsAuthPage(path)
  {
  }

  // ---------------------------------------------------------------------
  // Navigation items, `find`, the title and the highlighted entry
  // ---------------------------------------------------------------------

  datatype NavItem = NavItem(href: string, title: string)  // `title` is the source's `label`

  /** `adminNavItems`, in order. */
  const NavItems: seq<NavItem> := [
    NavItem("/admin", "Dashboard"),
    NavItem("/admin/products", "Products"),
    NavItem("/admin/orders", "Orders"),
    NavItem("/admin/customers", "Customers")
  ]

  /** `items.find(matches)`, as the index of the first item that matches. */
  function FindFirst(items: seq<NavItem>, matches: NavItem -> bool): (r: Option<nat>)
    ensures r.Some? ==> r.value < |items| && matches(items[r.value])
    ensures r.Some? ==> forall j :: 0 <= j < r.value ==> !matches(items[j])
    ensures r.None? ==> forall j :: 0 <= j < |items| ==> !matches(items[j])
    decreases |items|
  {
    if items == [] then None
    else if matches(items[0]) then Some(0)
    else match FindFirst(items[1..], matches)
      case None => None
      case Some(k) => Some(k + 1)
  }

  /** The title test: the path is the item's page or lies below it. */
  predicate TitleMatches(path: string, item: NavItem)
  {
    path == item.href || StartsWith(path, item.href + "/")
  }

  /** `getPageTitle` as written. */
  function PageTitleAsWritten(path: string): (t: string)
    ensures t == "Add Product" <==> StartsWith(path, AddProductPath)
  {
    if StartsWith(path, AddProductPath) then "Add Product"
    else match FindFirst(NavItems, item => TitleMatches(path, item))
      case Some(k) => NavItems[k].title
      case None => "Dashboard"
  }

  /** The title test with the guard the sidebar uses: `/admin` only matches
      itself, not the pages below it. */
  predicate IntendedTitleMatches(path: string, item: NavItem)
  {
    path == item.href || (item.href != DashboardPath && StartsWith(path, item.href + "/"))
  }

  /** `getPageTitle` with the dashboard entry restricted to its own page. */
  function PageTitle(path: string): (t: string)
    ensures t == "Add Product" <==> StartsWith(path, AddProductPath)
    ensures t == "Add Product" || exists k :: 0 <= k < |NavItems| && t == NavItems[k].title
  {
    if StartsWith(path, AddProductPath) then "Add Product"
    else match FindFirst(NavItems, item => IntendedTitleMatches(path, item))
      case Some(k) => NavItems[k].title
      case None => assert NavItems[0].title == "Dashboard"; "Dashboard"
  }

  /** The sidebar's `isActive`: the item's own page, or for every item but the
      dashboard any path that starts with its href, with no `'/'` boundary. */
  predicate IsActive(path: string, item: NavItem)
    ensures IsActive(path, item) ==> StartsWith(path, item.href)
  {
    path == item.href || (item.href != DashboardPath && StartsWith(path, item.href))
  }

  /** Every href but the dashboard's starts with `/admin/`. */
  lemma SectionHrefs(k: nat)
    requires 1 <= k < |NavItems|
    ensures StartsWith(NavItems[k].href, "/admin/") && |NavItems[k].href| > 7
  {
  }

  /** A path inside a section (k >= 1) carries the section's eighth character,
      and the sections' eighth characters are pairwise different. */
  lemma SectionCharacter(path: string, k: nat)
    requires 1 <= k < |NavItems|
    requires StartsWith(path, NavItems[k].href)
    ensures |path| > 7 && path[7] == NavItems[k].href[7]
    ensures k == 1 ==> path[7] == 'p'
    ensures k == 2 ==> path[7] == 'o'
    ensures k == 3 ==> path[7] == 'c'
  {
    var h := NavItems[k].href;
    assert path[..|h|][7] == path[7];
  }

  /** A path that matches a section's title test starts with its href. */
  lemma TitleMatchStartsWith(path: string, item: NavItem)
    requires TitleMatches(path, item)
    ensures StartsWith(path, item.href)
  {
    if path != item.href {
      StartsWithTransitive(path, item.href + "/", item.href);
    }
  }

  /** Any path at or below `/admin/` matches the dashboard's title test. */
  lemma AdminPathMatchesDashboard(path: string)
    requires StartsWith(path, "/admin/")
    ensures TitleMatches(path, NavItems[0])
  {
    assert NavItems[0].href + "/" == "/admin/";
  }

  /** As written, `/admin` is listed first and shadows the other entries:
      every path at or below `/admin/` except the add-product page is titled
      "Dashboard". */
  lemma AsWrittenTitleShadowed(path: string)
    requires path == DashboardPath || StartsWith(path, "/admin/")
    requires !StartsWith(path, AddProductPath)
    ensures PageTitleAsWritten(path) == "Dashboard"
  {
    var matches := item => TitleMatches(path, item);
    if path != DashboardPath {
      AdminPathMatchesDashboard(path);
    }
    assert matches(NavItems[0]);
    assert FindFirst(NavItems, matches) == Some(0);
  }

  /** As written, the title is never one of "Products", "Orders", "Customers". */
  lemma {:induction false} AsWrittenTitleOnlyTwoValues(path: string)
    ensures PageTitleAsWritten(path) == "Add Product" || PageTitleAsWritten(path) == "Dashboard"
  {
    if !StartsWith(path, AddProductPath) {
      var matches := item => TitleMatches(path, item);
      var r := FindFirst(NavItems, matches);
      if r.Some? && r.value >= 1 {
        var k := r.value;
        assert TitleMatches(path, NavItems[k]);
        TitleMatchStartsWith(path, NavItems[k]);
        SectionHrefs(k);
        StartsWithTransitive(path, NavItems[k].href, "/admin/");
        AdminPathMatchesDashboard(path);
      }
    }
  }

  /** The sidebar highlights "Products" on `/admin/products` while the header,
      as written, says "Dashboard": the two disagree. */
  lemma AsWrittenTitleDisagreesWithSidebar()
    ensures PageTitleAsWritten("/admin/products") == "Dashboard"
    ensures IsActive("/admin/products", NavItems[1]) && NavItems[1].title == "Products"
    ensures !IsActive("/admin/products", NavItems[0])
  {
    assert StartsWith("/admin/products", "/admin/");
    AsWrittenTitleShadowed("/admin/products");
  }

  /** The dashboard entry is highlighted on `/admin` and nowhere else. */
  lemma DashboardActiveOnlyOnItsPage(path: string)
    ensures IsActive(path, NavItems[0]) <==> path == DashboardPath
  {
  }

  /** No `'/'` boundary is needed: a path that merely extends an href with more
      characters still highlights that item. */
  lemma ActiveWithoutBoundary()
    ensures IsActive("/admin/productsarchive", NavItems[1])
    ensures !TitleMatches("/admin/productsarchive", NavItems[1])
  {
    assert "/admin/productsarchive"[..15] == "/admin/products";
    DiffersAt("/admin/productsarchive", "/admin/products/", 15);
  }

  /** At most one sidebar item is highlighted on any path. */
  lemma AtMostOneActive(path: string, j: nat, k: nat)
    requires j < k < |NavItems|
    ensures !(IsActive(path, NavItems[j]) && IsActive(path, NavItems[k]))
  {
    if IsActive(path, NavItems[j]) && IsActive(path, NavItems[k]) {
      SectionHrefs(k);
      if path != NavItems[k].href {
        assert StartsWith(path, NavItems[k].href);
      } else {
        assert StartsWith(path, NavItems[k].href) by {
          assert path[..|path|] == path;
        }
      }
      SectionCharacter(path, k);
      if j != 0 {
        if path != NavItems[j].href {
          assert StartsWith(path, NavItems[j].href);
        } else {
          assert path[..|path|] == path;
        }
        SectionCharacter(path, j);
        assert false;
      }
    }
  }

  /** An intended title match is a sidebar highlight. */
  lemma IntendedMatchIsActive(path: string, item: NavItem)
    requires IntendedTitleMatches(path, item)
    ensures IsActive(path, item)
  {
    if path != item.href {
      StartsWithTransitive(path, item.href + "/", item.href);
    }
  }

  /** The corrected title names the section a path lies in. */
  lemma PageTitleSection(path: string, k: nat)
    requires k < |NavItems|
    requires IntendedTitleMatches(path, NavItems[k])
    requires !StartsWith(path, AddProductPath)
    ensures PageTitle(path) == NavItems[k].title
  {
    var matches := item => IntendedTitleMatches(path, item);
    assert matches(NavItems[k]);
    var r := FindFirst(NavItems, matches);
    var m := r.value;
    if m < k {
      assert IntendedTitleMatches(path, NavItems[m]);
      IntendedMatchIsActive(path, NavItems[m]);
      IntendedMatchIsActive(path, NavItems[k]);
      AtMostOneActive(path, m, k);
      assert false;
    }
  }

  /** Outside the add-product pages, the corrected title is either the
      dashboard fallback or the title of a highlighted section item. The
      converse does not hold: see `HighlightWithoutTitle`. */
  lemma PageTitleMatchesSidebar(path: string)
    requires !StartsWith(path, AddProductPath)
    ensures PageTitle(path) == "Dashboard" ||
            exists k :: 1 <= k < |NavItems| && IsActive(path, NavItems[k]) && PageTitle(path) == NavItems[k].title
  {
    var matches := item => IntendedTitleMatches(path, item);
    var r := FindFirst(NavItems, matches);
    if r.Some? {
      var k := r.value;
      assert matches(NavItems[k]);
      IntendedMatchIsActive(path, NavItems[k]);
    }
  }

  /** A path that extends an href without a `'/'` highlights that item, yet the
      title test, which wants the boundary, falls back to "Dashboard". */
  lemma HighlightWithoutTitle()
    ensures IsActive("/admin/productsarchive", NavItems[1])
    ensures PageTitle("/admin/productsarchive") == "Dashboard"
  {
    var path := "/admin/productsarchive";
    ActiveWithoutBoundary();
    DiffersAt(path, AddProductPath, 15);
    DiffersAt(path, "/admin/products/", 15);
    DiffersAt(path, "/admin/orders", 7);
    DiffersAt(path, "/admin/orders/", 7);
    DiffersAt(path, "/admin/customers", 7);
    DiffersAt(path, "/admin/customers/", 7);
    var matches := item => IntendedTitleMatches(path, item);
    assert forall j :: 0 <= j < |NavItems| ==> !matches(NavItems[j]);
  }

  /** The corrected title of each section page. */
  lemma PageTitleOfSections()
    ensures PageTitle("/admin") == "Dashboard"
    ensures PageTitle("/admin/products") == "Products"
    ensures PageTitle("/admin/orders") == "Orders"
    ensures PageTitle("/admin/customers") == "Customers"
    ensures PageTitle("/admin/products/add") == "Add Product"
  {
    assert StartsWith("/admin/products/add", AddProductPath);
    DiffersAt("/admin/orders", AddProductPath, 7);
    DiffersAt("/admin/customers", AddProductPath, 7);
    PageTitleSection("/admin", 0);
    PageTitleSection("/admin/products", 1);
    PageTitleSection("/admin/orders", 2);
    PageTitleSection("/admin/customers", 3);
  }

  /** Every path at or below the add-product page is titled "Add Product",
      both as written and corrected. */
  lemma AddProductTitle(path: string)
    requires StartsWith(path, AddProductPath)
    ensures PageTitleAsWritten(path) == "Add Product" && PageTitle(path) == "Add Product"
  {
  }
}
