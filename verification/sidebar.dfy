/**
 * The navigation of src/components/layout/Sidebar.tsx: which navigation
 * entry is highlighted for the current path, and the two-letter badge made
 * from the user's e-mail address.
 */
module Sidebar {

  import opened Optional
  import opened Text
  import opened Seqs

  datatype NavItem = NavItem(href: string, caption: string, icon: string)

  /** `NAV_ITEMS`, in menu order. */
  const NavItems: seq<NavItem> := [
    NavItem("/dashboard", "Dashboard", "grid"),
    NavItem("/journal", "Journal", "book"),
    NavItem("/rechnungen", "Rechnungen", "file-text"),
    NavItem("/offerten", "Offerten", "clipboard"),
    NavItem("/banking", "Banking", "home"),
    NavItem("/reporting", "Reporting", "bar-chart"),
    NavItem("/kontakte", "Kontakte", "users"),
    NavItem("/mwst", "MWST", "percent"),
    NavItem("/einstellungen", "Einstellungen", "settings")
  ]

  /** An entry is highlighted on its own path and on every path below it, that is, its path followed by '/'. */
  predicate IsActive(pathname: string, href: string): (b: bool)
    ensures b <==> (pathname == href
      || (|pathname| > |href| && StartsWith(pathname, href) && pathname[|href|] == '/'))
  {
    BelowPath(pathname, href);
    pathname == href || StartsWith(pathname, href + "/")
  }

  /** A path starts with `href` and '/' exactly when it is longer, starts with `href` and continues with '/'. */
  lemma BelowPath(pathname: string, href: string)
    ensures StartsWith(pathname, href + "/")
      <==> |pathname| > |href| && StartsWith(pathname, href) && pathname[|href|] == '/'
  {
    if |pathname| > |href| && StartsWith(pathname, href) && pathname[|href|] == '/' {
      assert pathname[..|href| + 1] == href + "/";
    }
    if StartsWith(pathname, href + "/") {
      assert pathname[..|href|] == (href + "/")[..|href|];
      assert pathname[|href|] == (href + "/")[|href|];
    }
  }

  /** The entries highlighted on `pathname`, in menu order. */
  function ActiveItems(pathname: string): (r: seq<NavItem>)
    ensures IsSubsequence(r, NavItems)
    ensures forall i :: 0 <= i < |r| ==> IsActive(pathname, r[i].href)
    ensures forall x :: multiset(r)[x] == if IsActive(pathname, x.href) then multiset(NavItems)[x] else 0
  {
    Filter(NavItems, (item: NavItem) => IsActive(pathname, item.href))
  }

  /** The avatar badge: the first two characters of the e-mail address upper-cased, or 'MM' without an address. */
  function Initials(email: Option<string>): (r: string)
    ensures |r| <= 2
    ensures email.None? ==> r == "MM"
    ensures email.Some? ==> |r| == if |email.value| < 2 then |email.value| else 2
    ensures email.Some? ==> forall i :: 0 <= i < |r| ==> r[i] == UpperChar(email.value[i])
  {
    match email
    case None => "MM"
    case Some(e) => Upper(e[..if |e| < 2 then |e| else 2])
  }

  /* ------------------------------- properties ------------------------------ */

  /** A path that only shares a prefix with an entry, without a '/', does not activate it. */
  lemma SiblingPrefixInactive()
    ensures !IsActive("/kontakte2", "/kontakte")
  {
    assert "/kontakte2"[9] != "/kontakte/"[9];
  }

  /** A path beginning with '/' then containing no further '/'. */
  predicate IsTopLevel(href: string) {
    |href| > 0 && href[0] == '/' && forall i :: 1 <= i < |href| ==> href[i] != '/'
  }

  /** A path strictly longer than an active entry continues with '/' right after it. */
  lemma SlashAfterActive(pathname: string, href: string)
    requires IsActive(pathname, href) && |pathname| > |href|
    ensures StartsWith(pathname, href) && pathname[|href|] == '/'
  {
    assert pathname[..|href| + 1] == href + "/";
  }

  /** Two top-level entries are never active on the same path unless they are the same entry. */
  lemma AtMostOneTopLevelActive(pathname: string, h1: string, h2: string)
    requires IsTopLevel(h1) && IsTopLevel(h2)
    requires IsActive(pathname, h1) && IsActive(pathname, h2)
    ensures h1 == h2
  {
    assert StartsWith(pathname, h1) && StartsWith(pathname, h2) by {
      if pathname != h1 { assert pathname[..|h1|] == (h1 + "/")[..|h1|]; }
      if pathname != h2 { assert pathname[..|h2|] == (h2 + "/")[..|h2|]; }
    }
    if |h1| < |h2| {
      SlashAfterActive(pathname, h1);
    } else if |h2| < |h1| {
      SlashAfterActive(pathname, h2);
    } else {
      assert h1 == pathname[..|h1|] == h2;
    }
  }

  /** Every menu entry is a top-level path, and no two entries share a path. */
  lemma NavItemsShape()
    ensures forall i :: 0 <= i < |NavItems| ==> IsTopLevel(NavItems[i].href)
    ensures forall i, j :: 0 <= i < j < |NavItems| ==> NavItems[i].href != NavItems[j].href
  {
    NavItemsTopLevel();
    NavItemsDistinct();
  }

  lemma NavItemsTopLevel()
    ensures forall i :: 0 <= i < |NavItems| ==> IsTopLevel(NavItems[i].href)
  {
  }

  lemma NavItemsDistinct()
    ensures forall i, j :: 0 <= i < j < |NavItems| ==> NavItems[i].href != NavItems[j].href
  {
  }

  /** On any path at most one menu entry is highlighted. */
  lemma AtMostOneActive(pathname: string)
    ensures |ActiveItems(pathname)| <= 1
  {
    NavItemsShape();
    var p := (item: NavItem) => IsActive(pathname, item.href);
    forall i, j | 0 <= i < j < |NavItems| && p(NavItems[i])
      ensures !p(NavItems[j])
    {
      if p(NavItems[j]) {
        AtMostOneTopLevelActive(pathname, NavItems[i].href, NavItems[j].href);
      }
    }
    FilterAtMostOne(NavItems, p);
  }

  /** On an invoice page inside the dashboard, the dashboard entry is highlighted and the invoices entry is not. */
  lemma DashboardSubpage()
    ensures IsActive("/dashboard/rechnungen", "/dashboard")
    ensures !IsActive("/dashboard/rechnungen", "/rechnungen")
  {
    assert "/dashboard/rechnungen"[..11] == "/dashboard/";
    assert "/dashboard/rechnungen"[1] != "/rechnungen/"[1];
  }

  /** An empty address gives empty initials; only a missing address gives 'MM'. */
  lemma InitialsExamples()
    ensures Initials(Some("")) == ""
    ensures Initials(None) == "MM"
    ensures Initials(Some("max@muster.ch")) == "MA"
  {
  }
}
