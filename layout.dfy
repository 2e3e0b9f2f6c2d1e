/** The page frame: the sidebar's menu, which highlights the entry for the
    section the current path is in, and the button that folds the sidebar
    so that only the icons remain. */
module Layout {
  import opened Base
  import opened Text

  datatype MenuItem = MenuItem(path: string, name: string, icon: string)

  const MenuItems: seq<MenuItem> := [
    MenuItem("/dashboard", "Dashboard", "📊"),
    MenuItem("/customers", "Customers", "👥"),
    MenuItem("/vehicles", "Vehicles", "🚗"),
    MenuItem("/rentals", "Rentals", "📋"),
    MenuItem("/reservations", "Reservations", "📅"),
    MenuItem("/employees", "Employees", "👷"),
    MenuItem("/locations", "Locations", "📍"),
    MenuItem("/maintenance", "Maintenance", "🔧"),
    MenuItem("/incidents", "Incidents", "⚠️"),
    MenuItem("/reports", "Reports", "📈")
  ]

  /** isActive: the path itself, or anything below it. */
  predicate IsActive(pathname: string, path: string)
  {
    pathname == path || StartsWith(pathname, path + "/")
  }

  /** A detail page lights up its section; a longer name that merely
      begins with the section's does not. */
  lemma ActiveExamples()
    ensures IsActive("/customers/5", "/customers")
    ensures !IsActive("/customersX", "/customers")
    ensures IsActive("/customers", "/customers")
  {
    assert "/customers/5"[..|"/customers/"|] == "/customers/";
    assert "/customersX"[10] == 'X';
  }

  /** Everything below an active path is active too. */
  lemma ActiveBelow(pathname: string, path: string, rest: string)
    requires IsActive(pathname, path)
    ensures IsActive(pathname + "/" + rest, path)
  {
    var s := pathname + "/" + rest;
    var p := path + "/";
    if pathname == path {
      assert s[..|p|] == p;
    } else {
      assert s[..|p|] == pathname[..|p|];
    }
  }

  /** A path of one segment: a slash and then no other slash. */
  predicate OneSegment(p: string)
  {
    |p| >= 1 && p[0] == '/' && forall i :: 1 <= i < |p| ==> p[i] != '/'
  }

  /** Two one-segment paths active for the same location are the same path. */
  lemma ActiveOneSegmentUnique(pathname: string, p: string, q: string)
    requires OneSegment(p) && OneSegment(q)
    requires IsActive(pathname, p) && IsActive(pathname, q)
    ensures p == q
  {
    if |p| < |q| {
      SlashAfter(pathname, p);
    } else if |q| < |p| {
      SlashAfter(pathname, q);
    } else {
      assert p == pathname[..|p|] == q;
    }
  }

  /** Where path is active, the location begins with path, followed by the
      end or a slash. */
  lemma SlashAfter(pathname: string, path: string)
    requires IsActive(pathname, path)
    ensures |path| <= |pathname| && pathname[..|path|] == path
    ensures |path| < |pathname| ==> pathname[|path|] == '/'
  {
    if pathname != path {
      assert (path + "/")[|path|] == '/';
      assert pathname[..|path|] == (path + "/")[..|path|];
    }
  }

  /** Every menu path has one segment. */
  lemma MenuPathsOneSegment()
    ensures forall i :: 0 <= i < |MenuItems| ==> OneSegment(MenuItems[i].path)
  {
    forall i | 0 <= i < |MenuItems| ensures OneSegment(MenuItems[i].path) {
      LettersAfterSlash(MenuItems[i].path);
    }
  }

  lemma LettersAfterSlash(p: string)
    requires |p| >= 1 && p[0] == '/' && forall k :: 1 <= k < |p| ==> 'a' <= p[k] <= 'z'
    ensures OneSegment(p)
  {
  }

  /** No two menu entries lead to the same path. */
  lemma MenuPathsDistinct(i: int, j: int)
    requires 0 <= i < |MenuItems| && 0 <= j < |MenuItems|
    requires MenuItems[i].path == MenuItems[j].path
    ensures i == j
  {
  }

  /** At most one menu entry is highlighted, wherever the user is. */
  lemma AtMostOneActive(pathname: string, i: int, j: int)
    requires 0 <= i < |MenuItems| && 0 <= j < |MenuItems|
    requires IsActive(pathname, MenuItems[i].path) && IsActive(pathname, MenuItems[j].path)
    ensures i == j
  {
    MenuPathsOneSegment();
    ActiveOneSegmentUnique(pathname, MenuItems[i].path, MenuItems[j].path);
    MenuPathsDistinct(i, j);
  }

  /** One entry of the menu as drawn: its target, its icon, its caption when
      the sidebar is open, and whether it is highlighted. */
  datatype NavLink = NavLink(path: string, icon: string, caption: Option<string>, active: bool)

  class Frame {
    var sidebarOpen: bool

    constructor()
      ensures sidebarOpen
    {
      sidebarOpen := true;
    }

    /** The menu, entry by entry, for the location pathname. */
    function NavLinks(pathname: string): (r: seq<NavLink>)
      reads this
      ensures |r| == |MenuItems|
      ensures forall i :: 0 <= i < |r| ==>
        && r[i].path == MenuItems[i].path && r[i].icon == MenuItems[i].icon
        && (r[i].active <==> IsActive(pathname, MenuItems[i].path))
        && (r[i].caption.Some? <==> sidebarOpen)
        && (r[i].caption.Some? ==> r[i].caption.value == MenuItems[i].name)
    {
      var open := sidebarOpen;
      seq(|MenuItems|, i requires 0 <= i < |MenuItems| =>
        NavLink(MenuItems[i].path, MenuItems[i].icon,
                if open then Some(MenuItems[i].name) else None,
                IsActive(pathname, MenuItems[i].path)))
    }

    /** The ☰ button. */
    method Toggle()
      modifies this
      ensures sidebarOpen == !old(sidebarOpen)
    {
      sidebarOpen := !sidebarOpen;
    }
  }

  /** Pressing the button twice leaves the sidebar as it was. */
  method ToggleTwice(frame: Frame)
    modifies frame
    ensures frame.sidebarOpen == old(frame.sidebarOpen)
  {
    frame.Toggle();
    frame.Toggle();
  }
}
