/** The navigation bar of the browser client: the unread-notification badge,
    the two link lists and which link is highlighted, and the state the bar
    resets whenever the route changes. */
module Navbar {
  import opened Common
  import opened Ids
  import Notifications
  import ClientRoutes

  // ---------------------------------------------------------------------------
  // The unread badge
  // ---------------------------------------------------------------------------

  /** The notifications whose flag is not set, in order. */
  function Unread(ns: seq<Notifications.Notification>): (r: seq<Notifications.Notification>)
    ensures |r| <= |ns|
    ensures forall n :: n in r <==> n in ns && !n.isRead
    decreases |ns|
  {
    if ns == [] then []
    else (if ns[0].isRead then [] else [ns[0]]) + Unread(ns[1..])
  }

  /** `unreadCount`: how many of the listed notifications are unread. */
  function UnreadCount(ns: seq<Notifications.Notification>): nat {
    |Unread(ns)|
  }

  /** The count never exceeds the list, and it is 0 exactly when every listed
      notification is read, so the bell shows a number iff something is
      unread. */
  lemma UnreadCountBounds(ns: seq<Notifications.Notification>)
    ensures UnreadCount(ns) <= |ns|
    ensures UnreadCount(ns) == 0 <==> forall i :: 0 <= i < |ns| ==> ns[i].isRead
  {
    if UnreadCount(ns) == 0 {
      forall i | 0 <= i < |ns| ensures ns[i].isRead {
        assert ns[i] in ns;
      }
    } else {
      var n := Unread(ns)[0];
      assert n in Unread(ns);
      var i :| 0 <= i < |ns| && ns[i] == n;
    }
  }

  /** Counting splits over concatenation. */
  lemma {:induction false} UnreadCountAppend(a: seq<Notifications.Notification>, b: seq<Notifications.Notification>)
    ensures UnreadCount(a + b) == UnreadCount(a) + UnreadCount(b)
    decreases |a|
  {
    if a != [] {
      assert (a + b)[0] == a[0] && (a + b)[1..] == a[1..] + b;
      assert Unread(a + b) == (if a[0].isRead then [] else [a[0]]) + Unread(a[1..] + b);
      UnreadCountAppend(a[1..], b);
    } else {
      assert a + b == b;
    }
  }

  /** Setting the flag of the notification at `k` lowers the count by one
      when it was unread and leaves it alone otherwise. */
  lemma {:induction false} UnreadCountAfterSetRead(items: seq<Notifications.Notification>, k: nat)
    requires k < |items|
    ensures UnreadCount(Notifications.SetRead(items, k))
            == UnreadCount(items) - (if items[k].isRead then 0 else 1)
    decreases |items|
  {
    var after := Notifications.SetRead(items, k);
    if k == 0 {
      assert after[1..] == items[1..];
    } else {
      assert after[1..] == Notifications.SetRead(items[1..], k - 1);
      UnreadCountAfterSetRead(items[1..], k - 1);
    }
  }

  /** A mark-read request the router accepts lowers the count of a list that
      holds the notification by at most one, and by exactly one when the
      notification was unread; every refused request leaves the count as it
      was. */
  lemma MarkReadLowersUnreadCount(items: seq<Notifications.Notification>, id: string, requester: Requester)
    ensures var out := Notifications.RouterMarkRead(items, id, requester);
      && (out.0 != 200 ==> UnreadCount(out.1) == UnreadCount(items))
      && (out.0 == 200 ==>
            var k := FindFirst(items, Notifications.NotificationId, CastObjectId(id).value).value;
            UnreadCount(out.1) == UnreadCount(items) - (if items[k].isRead then 0 else 1))
  {
    var out := Notifications.RouterMarkRead(items, id, requester);
    if out.0 == 200 {
      var k := FindFirst(items, Notifications.NotificationId, CastObjectId(id).value).value;
      assert out.1 == Notifications.SetRead(items, k);
      UnreadCountAfterSetRead(items, k);
    }
  }

  // ---------------------------------------------------------------------------
  // Links
  // ---------------------------------------------------------------------------

  datatype NavLink = NavLink(name: string, path: string)

  const AdminLink: NavLink := NavLink("Admin Dashboard", "/admin")

  /** The links for a logged-in visitor; the admin dashboard link is added
      for the admin role. */
  function LoggedInLinks(admin: bool): seq<NavLink> {
    [NavLink("Home", "/"), NavLink("Features", "/features"),
     NavLink("History", "/history"), NavLink("Predict", "/predict")]
    + (if admin then [AdminLink] else [])
  }

  const LoggedOutLinks: seq<NavLink> :=
    [NavLink("Home", "/"), NavLink("Features", "/features"),
     NavLink("Register", "/register"), NavLink("Login", "/login")]

  /** The links shown for the bar's `userInfo` (None when nothing usable is
      stored). */
  function LinksFor(userInfo: Option<ClientRoutes.UserInfo>): seq<NavLink> {
    if userInfo.Some? then LoggedInLinks(ClientRoutes.IsAdminInfo(userInfo.value)) else LoggedOutLinks
  }

  function LinkNames(links: seq<NavLink>): seq<string> {
    seq(|links|, i requires 0 <= i < |links| => links[i].name)
  }

  /** The admin dashboard link is shown iff the stored login has the admin
      role, and a logged-out visitor sees exactly Home, Features, Register
      and Login. */
  lemma AdminLinkIffAdmin(userInfo: Option<ClientRoutes.UserInfo>)
    ensures AdminLink in LinksFor(userInfo) <==> userInfo.Some? && ClientRoutes.IsAdminInfo(userInfo.value)
    ensures userInfo.None? ==> LinkNames(LinksFor(userInfo)) == ["Home", "Features", "Register", "Login"]
  {
    var links := LinksFor(userInfo);
    if userInfo.Some? && ClientRoutes.IsAdminInfo(userInfo.value) {
      assert links[4] == AdminLink;
    }
  }

  /** No two links share a path, so the paths serve as the list's keys. */
  lemma LinkPathsDistinct(userInfo: Option<ClientRoutes.UserInfo>)
    ensures var links := LinksFor(userInfo);
      forall i, j :: 0 <= i < j < |links| ==> links[i].path != links[j].path
  {
  }

  /** Every link leads to a page that the router shows to the same stored
      login: the bar never offers a link that would redirect. */
  lemma LinksAreReachable(userInfo: Option<ClientRoutes.UserInfo>, i: nat)
    requires i < |LinksFor(userInfo)|
    ensures ClientRoutes.Navigate(LinksFor(userInfo)[i].path, userInfo).Render?
  {
    var path := LinksFor(userInfo)[i].path;
    if path in ClientRoutes.PublicPaths {
      ClientRoutes.PublicPathsUnguarded(path, userInfo);
    } else if path in ClientRoutes.LoginPaths {
      ClientRoutes.LoginPathsNeedLogin(path, userInfo);
    } else {
      assert path == "/admin";
      ClientRoutes.AdminPathNeedsAdmin(userInfo);
    }
  }

  /** `navClass`: a link is highlighted iff the current pathname is its
      path. */
  predicate Active(pathname: string, link: NavLink) {
    pathname == link.path
  }

  /** At most one link is highlighted at a time. */
  lemma AtMostOneActive(userInfo: Option<ClientRoutes.UserInfo>, pathname: string, i: nat, j: nat)
    requires i < |LinksFor(userInfo)| && j < |LinksFor(userInfo)|
    requires Active(pathname, LinksFor(userInfo)[i]) && Active(pathname, LinksFor(userInfo)[j])
    ensures i == j
  {
    LinkPathsDistinct(userInfo);
  }

  // ---------------------------------------------------------------------------
  // State reset on a route change
  // ---------------------------------------------------------------------------

  /** The bar's own state: the mobile menu, the two dropdowns and the parsed
      login record. */
  datatype NavState = NavState(menuOpen: bool, notifOpen: bool, profileOpen: bool,
                               userInfo: Option<ClientRoutes.UserInfo>)

  const Initial: NavState := NavState(false, false, false, None)

  /** The stored `userInfo` item as the route-change effect reads it: absent
      or empty, text that parses (to a record, or to null), or text that does
      not parse. */
  datatype StoredItem = NoItem | Parsed(info: Option<ClientRoutes.UserInfo>) | Malformed

  /** The route-change effect: the login record is re-read from storage (a
      parse failure keeps the previous one), and the menu and both dropdowns
      close. */
  function OnRouteChange(s: NavState, item: StoredItem): (r: NavState)
    ensures !r.menuOpen && !r.notifOpen && !r.profileOpen
    ensures item.NoItem? ==> r.userInfo.None?
    ensures item.Parsed? ==> r.userInfo == item.info
    ensures item.Malformed? ==> r.userInfo == s.userInfo
  {
    var info := match item
      case NoItem => None
      case Parsed(i) => i
      case Malformed => s.userInfo;
    NavState(false, false, false, info)
  }

  /** Re-running the effect on an unchanged store changes nothing more. */
  lemma RouteChangeIdempotent(s: NavState, item: StoredItem)
    ensures OnRouteChange(OnRouteChange(s, item), item) == OnRouteChange(s, item)
  {
  }

  /** The three toggles. */
  function ToggleMenu(s: NavState): NavState { s.(menuOpen := !s.menuOpen) }
  function ToggleNotifications(s: NavState): NavState { s.(notifOpen := !s.notifOpen) }
  function ToggleProfile(s: NavState): NavState { s.(profileOpen := !s.profileOpen) }

  /** Whatever was opened, the next route change closes it, and it keeps the
      login record when the store cannot be parsed. */
  lemma RouteChangeClosesToggles(s: NavState, item: StoredItem)
    ensures var r := OnRouteChange(ToggleMenu(ToggleNotifications(ToggleProfile(s))), item);
      !r.menuOpen && !r.notifOpen && !r.profileOpen
      && (item.Malformed? ==> r.userInfo == s.userInfo)
  {
  }

  /** Logging out removes the stored item and clears the record; after the
      redirect to /login the bar shows the logged-out links, all closed. */
  function Logout(s: NavState): (r: NavState)
    ensures r.userInfo.None?
    ensures r.menuOpen == s.menuOpen && r.notifOpen == s.notifOpen && r.profileOpen == s.profileOpen
  {
    s.(userInfo := None)
  }

  lemma LogoutThenRouteChange(s: NavState)
    ensures var r := OnRouteChange(Logout(s), NoItem);
      r == Initial && LinksFor(r.userInfo) == LoggedOutLinks
      && ClientRoutes.Navigate("/login", r.userInfo).Render?
  {
    ClientRoutes.PublicPathsUnguarded("/login", None);
  }
}
