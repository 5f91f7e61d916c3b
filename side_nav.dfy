/** The side navigation: which links the signed-in user sees, which one is
    highlighted for the current location, and the role banner. */
module SideNav {
  import opened Collections

  /** A link of the drawer; its icon is presentation and left out. */
  datatype NavItem = NavItem(text: string, path: string)

  /** `adminNavItems`: customers, menu, stocks and transactions, in that order. */
  function AdminNavItems(): (r: seq<NavItem>)
    ensures |r| == 4 && DistinctPaths(r)
    ensures HasPath(r, "/ManageCustomers") && HasPath(r, "/ManageMenu")
    ensures HasPath(r, "/ManageStocks") && HasPath(r, "/ManageTransactions")
    ensures !HasPath(r, "/Dashboard") && !HasPath(r, "/Logs")
  {
    var r := [
      NavItem("Manage Customer", "/ManageCustomers"),
      NavItem("Manage Menu", "/ManageMenu"),
      NavItem("Manage Stocks", "/ManageStocks"),
      NavItem("Manage Transactions", "/ManageTransactions")
    ];
    assert r[0].path == "/ManageCustomers" && r[1].path == "/ManageMenu";
    assert r[2].path == "/ManageStocks" && r[3].path == "/ManageTransactions";
    r
  }

  /** `managerNavItems`: the dashboard, users, menu, stocks, promotions,
      reviews, transactions and logs, in that order; no customer page. */
  function ManagerNavItems(): (r: seq<NavItem>)
    ensures |r| == 8 && DistinctPaths(r)
    ensures HasPath(r, "/Dashboard") && HasPath(r, "/ManageUser") && HasPath(r, "/ManageMenu")
    ensures HasPath(r, "/ManageStocks") && HasPath(r, "/ManagePromo") && HasPath(r, "/ManageReview")
    ensures HasPath(r, "/ManageTransactions") && HasPath(r, "/Logs")
    ensures !HasPath(r, "/ManageCustomers")
  {
    var r := [
      NavItem("Dashboard", "/Dashboard"),
      NavItem("Manage User", "/ManageUser"),
      NavItem("Manage Menu", "/ManageMenu"),
      NavItem("Manage Stocks", "/ManageStocks"),
      NavItem("Manage Promo", "/ManagePromo"),
      NavItem("Manage Review", "/ManageReview"),
      NavItem("Manage Transactions", "/ManageTransactions"),
      NavItem("Logs", "/Logs")
    ];
    assert r[0].path == "/Dashboard" && r[1].path == "/ManageUser" && r[2].path == "/ManageMenu";
    assert r[3].path == "/ManageStocks" && r[4].path == "/ManagePromo" && r[5].path == "/ManageReview";
    assert r[6].path == "/ManageTransactions" && r[7].path == "/Logs";
    r
  }

  predicate HasPath(items: seq<NavItem>, path: string) {
    exists i :: 0 <= i < |items| && items[i].path == path
  }

  /** No two links of a list lead to the same place. */
  predicate DistinctPaths(items: seq<NavItem>) {
    forall i, j :: 0 <= i < j < |items| ==> items[i].path != items[j].path
  }

  /** `sideNavItems`: admins get the four admin links, without the dashboard
      or the logs; everyone else gets the eight manager links, which have both. */
  function NavItemsFor(isAdmin: bool): (r: seq<NavItem>)
    ensures |r| == (if isAdmin then 4 else 8)
    ensures HasPath(r, "/Dashboard") <==> !isAdmin
    ensures HasPath(r, "/Logs") <==> !isAdmin
    ensures HasPath(r, "/ManageCustomers") <==> isAdmin
    ensures !isAdmin ==> HasPath(r, "/ManageUser") && HasPath(r, "/ManagePromo") && HasPath(r, "/ManageReview")
    ensures HasPath(r, "/ManageMenu") && HasPath(r, "/ManageStocks") && HasPath(r, "/ManageTransactions")
    ensures DistinctPaths(r)
  {
    if isAdmin then AdminNavItems() else ManagerNavItems()
  }

  /** Every admin link but "Manage Customer" is also in the manager list. */
  lemma AdminLinksAreSharedButCustomers(path: string)
    requires HasPath(AdminNavItems(), path) && path != "/ManageCustomers"
    ensures HasPath(ManagerNavItems(), path)
  {
    var i :| 0 <= i < |AdminNavItems()| && AdminNavItems()[i].path == path;
    assert i != 0;
    if i == 1 {
      assert ManagerNavItems()[2].path == path;
    } else if i == 2 {
      assert ManagerNavItems()[3].path == path;
    } else {
      assert ManagerNavItems()[6].path == path;
    }
  }

  /** `getItemStyle(path)`: the highlight exactly when the link is the current location. */
  function ItemStyle(pathname: string, path: string, primary: string): (r: map<string, string>)
    ensures pathname != path ==> r == map[]
    ensures pathname == path ==>
      && r.Keys == {"backgroundColor", "color"}
      && r["backgroundColor"] == "rgba(0, 0, 0, 0.08)" && r["color"] == primary
  {
    if pathname == path then map["backgroundColor" := "rgba(0, 0, 0, 0.08)", "color" := primary] else map[]
  }

  /** `getItemIconStyle(path)`: the primary colour exactly when the link is the current location. */
  function ItemIconStyle(pathname: string, path: string, primary: string): (r: map<string, string>)
    ensures pathname != path ==> r == map[]
    ensures pathname == path ==> r.Keys == {"color"} && r["color"] == primary
  {
    if pathname == path then map["color" := primary] else map[]
  }

  predicate Active(it: NavItem, pathname: string) {
    "color" in ItemStyle(pathname, it.path, "")
  }

  /** The links drawn highlighted, in drawer order. */
  function Highlighted(items: seq<NavItem>, pathname: string): (r: seq<NavItem>)
    ensures forall it :: it in r <==> it in items && it.path == pathname
  {
    Filter(items, it => Active(it, pathname))
  }

  /** In a list whose paths are distinct at most one link is highlighted, and
      one is exactly when the current location is among the list's paths. */
  lemma {:induction false} AtMostOneHighlighted(items: seq<NavItem>, pathname: string)
    requires DistinctPaths(items)
    ensures |Highlighted(items, pathname)| <= 1
    ensures |Highlighted(items, pathname)| == 1 <==> HasPath(items, pathname)
    decreases |items|
  {
    if items != [] {
      var tail := items[1..];
      assert DistinctPaths(tail) by {
        forall i, j | 0 <= i < j < |tail| ensures tail[i].path != tail[j].path {
          assert tail[i] == items[i + 1] && tail[j] == items[j + 1];
        }
      }
      AtMostOneHighlighted(tail, pathname);
      assert HasPath(items, pathname) <==> items[0].path == pathname || HasPath(tail, pathname) by {
        if HasPath(items, pathname) {
          var i :| 0 <= i < |items| && items[i].path == pathname;
          if i > 0 {
            assert tail[i - 1].path == pathname;
          }
        }
        if HasPath(tail, pathname) {
          var i :| 0 <= i < |tail| && tail[i].path == pathname;
          assert items[i + 1].path == pathname;
        }
      }
      if items[0].path == pathname {
        forall it | it in tail ensures !Active(it, pathname) {
          var k :| 0 <= k < |tail| && tail[k] == it;
          assert items[k + 1] == it;
        }
        assert Highlighted(tail, pathname) == [];
        assert Highlighted(items, pathname) == [items[0]];
      } else {
        assert Highlighted(items, pathname) == Highlighted(tail, pathname);
      }
    }
  }

  /** Whatever the role and the location, the drawer highlights at most one
      link, and exactly one when the location is one of the role's pages. */
  lemma DrawerHighlightsAtMostOne(isAdmin: bool, pathname: string)
    ensures |Highlighted(NavItemsFor(isAdmin), pathname)| <= 1
    ensures |Highlighted(NavItemsFor(isAdmin), pathname)| == 1 <==> HasPath(NavItemsFor(isAdmin), pathname)
  {
    AtMostOneHighlighted(NavItemsFor(isAdmin), pathname);
  }

  /** "You Logged in as …": "Admin" exactly for admins, otherwise "Manager". */
  function RoleBanner(isAdmin: bool): (r: string)
    ensures r == "Admin" <==> isAdmin
    ensures !isAdmin ==> r == "Manager"
  {
    if isAdmin then "Admin" else "Manager"
  }
}
