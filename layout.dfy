/**
 * The dashboard shell: which navigation pill is highlighted for a path, the
 * light/dark theme kept in storage and on the document element, and sign-out.
 * The shell is a `class` whose fields are the theme state, the browser's
 * storage, the document element's `data-theme` attribute and `dark` class,
 * and the router's history of pushed paths.
 */
module Layout {
  import opened Base
  import opened Storage
  import opened Text

  datatype NavItem = NavItem(name: string, href: string)

  const Navigation: seq<NavItem> := [
    NavItem("Dashboard", "/dashboard"),
    NavItem("States", "/dashboard/states"),
    NavItem("Providers", "/dashboard/providers"),
    NavItem("Matching", "/dashboard/matching"),
    NavItem("Analytics", "/dashboard/analytics"),
    NavItem("Organization", "/dashboard/organization"),
    NavItem("Services", "/dashboard/services")
  ]

  /** The pill for `href` is highlighted: the exact path, or for any item but the home one, a raw prefix. */
  predicate IsActive(pathname: string, href: string) {
    pathname == href || (href != "/dashboard" && StartsWith(pathname, href))
  }

  /** The home item is highlighted on its own path and nowhere below it. */
  lemma DashboardOnlyExact(pathname: string)
    ensures IsActive(pathname, "/dashboard") <==> pathname == "/dashboard"
  {
  }

  /** Any other item is highlighted under every path that begins with its href, with no check for a `/` after it. */
  lemma PrefixActivates(href: string, suffix: string)
    requires href != "/dashboard"
    ensures IsActive(href + suffix, href)
  {
    assert (href + suffix)[..|href|] == href;
  }

  /** A path that merely extends the States href, without a separator, still highlights States. */
  lemma SiblingPathHighlightsStates(pathname: string)
    requires pathname == "/dashboard/statesman"
    ensures IsActive(pathname, "/dashboard/states")
  {
    PrefixActivates("/dashboard/states", "man");
    assert pathname == "/dashboard/states" + "man";
  }

  /** Two strings that are both prefixes of one path agree on their common length. */
  lemma PrefixesAgree(pathname: string, a: string, b: string, k: nat)
    requires StartsWith(pathname, a) && StartsWith(pathname, b) && k < |a| && k < |b|
    ensures a[k] == b[k]
  {
    assert a[k] == pathname[..|a|][k] && b[k] == pathname[..|b|][k];
  }

  /** No path highlights two pills of the navigation at once. */
  lemma AtMostOneActive(pathname: string, i: nat, j: nat)
    requires i < j < |Navigation|
    ensures !(IsActive(pathname, Navigation[i].href) && IsActive(pathname, Navigation[j].href))
  {
    var a, b := Navigation[i].href, Navigation[j].href;
    if i == 0 {
      assert |b| > |a|;
    } else {
      assert |a| > 12 && |b| > 12;
      var k := if a[11] != b[11] then 11 else 12;
      assert a[k] != b[k];
      if IsActive(pathname, a) && IsActive(pathname, b) {
        ActiveStartsWith(pathname, a);
        ActiveStartsWith(pathname, b);
        PrefixesAgree(pathname, a, b, k);
      }
    }
  }

  /** A highlighted pill's href always begins the path. */
  lemma ActiveStartsWith(pathname: string, href: string)
    requires IsActive(pathname, href)
    ensures StartsWith(pathname, href)
  {
    if pathname == href {
      assert pathname[..|href|] == href;
    }
  }

  // ---------------------------------------------------------------------------
  // Theme and sign-out
  // ---------------------------------------------------------------------------

  /** `theme === 'dark' ? 'light' : 'dark'`. */
  function NextTheme(theme: string): (t: string)
    ensures t == "light" <==> theme == "dark"
    ensures t == "dark" <==> theme != "dark"
  {
    if theme == "dark" then "light" else "dark"
  }

  /** Toggling twice is the identity on the two real themes, and lands on `light` from anything else. */
  lemma ToggleInvolution(theme: string)
    ensures theme in {"light", "dark"} ==> NextTheme(NextTheme(theme)) == theme
    ensures theme !in {"light", "dark"} ==> NextTheme(NextTheme(theme)) == "light"
  {
  }

  class Shell {
    var theme: string
    var store: Store
    /** The document element's `data-theme` attribute, absent until the first load. */
    var dataTheme: Option<string>
    /** Whether the document element carries the `dark` class. */
    var darkClass: bool
    var pushes: seq<string>

    /** The document agrees with the theme. */
    predicate Consistent()
      reads this
    {
      dataTheme == Some(theme) && (darkClass <==> theme == "dark")
    }

    /** The shell as first rendered, over the given storage and document. */
    constructor(store: Store, dataTheme: Option<string>, darkClass: bool)
      ensures theme == "light" && this.store == store && pushes == []
      ensures this.dataTheme == dataTheme && this.darkClass == darkClass
    {
      theme := "light";
      this.store := store;
      this.dataTheme := dataTheme;
      this.darkClass := darkClass;
      pushes := [];
    }

    /** The mount effect: the stored theme, `light` by default; the `dark` class is added for dark, never removed. */
    method LoadTheme()
      modifies this`theme, this`dataTheme, this`darkClass
      ensures theme == GetOr(store, "theme", "light")
      ensures dataTheme == Some(theme)
      ensures darkClass == (old(darkClass) || theme == "dark")
    {
      var saved := GetOr(store, "theme", "light");
      theme := saved;
      dataTheme := Some(saved);
      if saved == "dark" {
        darkClass := true;
      }
    }

    /** `toggleTheme`: the next theme is shown, stored and reflected on the document. */
    method ToggleTheme()
      modifies this`theme, this`store, this`dataTheme, this`darkClass
      ensures theme == NextTheme(old(theme))
      ensures store == old(store)["theme" := theme]
      ensures Consistent()
    {
      var newTheme := NextTheme(theme);
      theme := newTheme;
      store := store["theme" := newTheme];
      dataTheme := Some(newTheme);
      if newTheme == "dark" {
        darkClass := true;
      } else {
        darkClass := false;
      }
    }

    /** `handleSignOut`: forgets the session and goes home. */
    method SignOut()
      modifies this`store, this`pushes
      ensures store == old(store) - {"user", "organization"}
      ensures pushes == old(pushes) + ["/"]
      ensures !SignedIn(store)
    {
      store := store - {"user", "organization"};
      pushes := pushes + ["/"];
    }
  }

  /** From either stored theme, two toggles bring back the theme, the stored value and the class. */
  method ToggleTwiceRestores(saved: string) returns (theme: string, persisted: string, dark: bool)
    requires saved in {"light", "dark"}
    ensures theme == saved && persisted == saved && (dark <==> saved == "dark")
  {
    var shell := new Shell(map["theme" := saved], None, false);
    shell.LoadTheme();
    shell.ToggleTheme();
    shell.ToggleTheme();
    theme, persisted, dark := shell.theme, shell.store["theme"], shell.darkClass;
  }

  /** Loading a light theme onto a document that already has the `dark` class leaves the class on. */
  method LightLoadKeepsDarkClass() returns (theme: string, dark: bool, consistent: bool)
    ensures theme == "light" && dark && !consistent
  {
    var shell := new Shell(map["theme" := "light"], Some("dark"), true);
    shell.LoadTheme();
    theme, dark, consistent := shell.theme, shell.darkClass, shell.Consistent();
  }

  /** Sign-out keeps every other stored key, the theme among them. */
  method SignOutKeepsTheme(store: Store) returns (after: Store, pushed: seq<string>)
    ensures !SignedIn(after) && pushed == ["/"]
    ensures forall k :: k !in {"user", "organization"} ==> (k in after <==> k in store)
    ensures "theme" in store ==> "theme" in after && after["theme"] == store["theme"]
  {
    var shell := new Shell(store, None, false);
    shell.SignOut();
    after, pushed := shell.store, shell.pushes;
  }
}
