/** The Angular `NavigationComponent`: the side menu shows the items whose
    role list contains the current role, the role and the header fields
    follow the current user, a route is active when it or one of its
    sub-routes is displayed, and the sidebar state is persisted. */
module Navigation {
  import opened Common

  /** A menu entry; `roles` are the role strings allowed to see it. */
  datatype MenuItem = MenuItem(title: string, icon: string, route: string, roles: seq<string>)

  const All: seq<string> := ["SuperAdmin", "AdminEntreprise", "Technicien", "Operateur"]
  const Managers: seq<string> := ["SuperAdmin", "AdminEntreprise"]
  const Staff: seq<string> := ["SuperAdmin", "AdminEntreprise", "Technicien"]

  const Menu: seq<MenuItem> := [
    MenuItem("Tableau de bord", "fas fa-home", "/home", All),
    MenuItem("Équipements", "fas fa-tools", "/equipments", Managers),
    MenuItem("Maintenance", "fas fa-wrench", "/maintenance", Staff),
    MenuItem("Planning", "fas fa-calendar-alt", "/planning", Managers),
    MenuItem("Rapports", "fas fa-chart-bar", "/reports", Staff),
    MenuItem("Utilisateurs", "fas fa-users", "/company-users", Managers),
    MenuItem("Assistant", "fas fa-robot", "/chat", All),
    MenuItem("Paramètres", "fas fa-cog", "/settings", All)
  ]

  const DefaultRole := "Operateur"
  const DefaultName := "Utilisateur"
  const DefaultEmail := "user@example.com"
  const DefaultInitials := "U"

  /** The cached or published user (`UserDto`); every field may be
      missing. */
  datatype UserInfo = UserInfo(name: Option<string>, email: Option<string>, role: Option<string>)

  /** `item => item.roles.includes(role)`. */
  function ShownTo(role: string): MenuItem -> bool {
    (item: MenuItem) => role in item.roles
  }

  /** `MENU.filter(item => item.roles.includes(role))`, for the menu
      `items`. */
  function VisibleMenu(items: seq<MenuItem>, role: string): seq<MenuItem> {
    Select(items, ShownTo(role))
  }

  /** Every item lists all roles, the managers or the staff. */
  lemma MenuRoles()
    ensures forall item :: item in Menu ==> item.roles == All || item.roles == Managers || item.roles == Staff
  {
  }

  /** The menu holds exactly the items that list the role. */
  lemma VisibleMenuExact(role: string, item: MenuItem)
    ensures item in VisibleMenu(Menu, role) <==> item in Menu && role in item.roles
  {
    if item in Menu && role in item.roles {
      SelectComplete(Menu, ShownTo(role), item);
    }
  }

  /** A SuperAdmin sees the whole menu, in menu order. */
  lemma SuperAdminSeesEverything()
    ensures VisibleMenu(Menu, "SuperAdmin") == Menu
  {
    MenuRoles();
    SelectAllKept(Menu, ShownTo("SuperAdmin"));
  }

  /** The items between the dashboard and the assistant are for managers
      or staff only. */
  lemma OperateurMiddleHidden()
    ensures Select(Menu[1..6], ShownTo(DefaultRole)) == []
  {
    assert DefaultRole !in Managers && DefaultRole !in Staff;
    assert forall i :: 0 <= i < 5 ==> Menu[1..6][i].roles in {Managers, Staff};
    SelectEmpty(Menu[1..6], ShownTo(DefaultRole));
  }

  lemma OperateurEndsShown()
    ensures Select(Menu[..1], ShownTo(DefaultRole)) == Menu[..1]
    ensures Select(Menu[6..], ShownTo(DefaultRole)) == Menu[6..]
  {
    assert DefaultRole == All[3];
    SelectAllKept(Menu[..1], ShownTo(DefaultRole));
    SelectAllKept(Menu[6..], ShownTo(DefaultRole));
  }

  /** The default role sees the dashboard, the assistant and the settings. */
  lemma OperateurMenu()
    ensures VisibleMenu(Menu, DefaultRole) == [Menu[0], Menu[6], Menu[7]]
  {
    OperateurMiddleHidden();
    OperateurEndsShown();
    SelectAppend(Menu[..1], Menu[1..6], ShownTo(DefaultRole));
    SelectAppend(Menu[..1] + Menu[1..6], Menu[6..], ShownTo(DefaultRole));
    Pieces(Menu);
  }

  /** How an eight-item menu falls into the pieces used above. */
  lemma Pieces<T>(s: seq<T>)
    requires |s| == 8
    ensures s[..1] + s[1..6] + s[6..] == s
    ensures s[..1] + [] + s[6..] == [s[0], s[6], s[7]]
  {
  }

  /** The backend's "User" role is in no item's list: its menu is empty. */
  lemma BackendUserRoleSeesNothing()
    ensures VisibleMenu(Menu, "User") == []
  {
    MenuRoles();
    assert "User" !in All && "User" !in Managers && "User" !in Staff;
    SelectEmpty(Menu, ShownTo("User"));
  }

  /** `(role as UserRole) || 'Operateur'`: a missing or empty role is the
      default one, any other string is kept as it is. */
  function RoleOf(u: UserInfo): (r: string)
    ensures r != ""
    ensures Truthy(u.role) ==> r == u.role.value
    ensures !Truthy(u.role) ==> r == DefaultRole
  {
    if Truthy(u.role) then u.role.value else DefaultRole
  }

  /** `String.prototype.toUpperCase` on one character; only the ASCII
      letters are modelled. */
  function UpperAscii(c: char): (u: char)
    ensures 'a' <= c <= 'z' ==> 'A' <= u <= 'Z'
    ensures !('a' <= c <= 'z') ==> u == c
  {
    if 'a' <= c <= 'z' then (c as int - 'a' as int + 'A' as int) as char else c
  }

  /** `(username?.[0] ?? 'U').toUpperCase()`. */
  function Initials(username: string): (s: string)
    ensures |s| == 1
    ensures username == "" ==> s == DefaultInitials
    ensures username != "" ==> s == [UpperAscii(username[0])]
  {
    if username == "" then DefaultInitials else [UpperAscii(username[0])]
  }

  /** `isActive(route)`. */
  predicate IsActive(currentRoute: string, route: string) {
    currentRoute == route || route + "/" <= currentRoute
  }

  /** A route is active exactly when it is displayed or a sub-route of it
      is: "/maintenance/42" activates "/maintenance", "/maintenances" does
      not. */
  lemma IsActiveMeaning(currentRoute: string, route: string)
    ensures IsActive(currentRoute, route) <==>
              currentRoute == route
              || (|currentRoute| > |route| && currentRoute[..|route|] == route && currentRoute[|route|] == '/')
  {
    if |currentRoute| > |route| && currentRoute[..|route|] == route && currentRoute[|route|] == '/' {
      assert currentRoute[..|route| + 1] == route + "/";
    }
  }

  lemma IsActiveExamples()
    ensures IsActive("/maintenance/42", "/maintenance")
    ensures !IsActive("/maintenances", "/maintenance")
    ensures IsActive("/home", "/home")
  {
    IsActiveMeaning("/maintenances", "/maintenance");
  }

  /** `JSON.parse(localStorage.getItem(key) ?? 'true')` for a stored
      boolean. */
  function StoredSidebar(stored: Option<bool>): bool {
    stored.GetOr(true)
  }

  /** What the header and the side menu show for the current user. */
  datatype Shown = Shown(username: string, userEmail: string, userInitials: string, role: string, visibleMenu: seq<MenuItem>)

  class NavigationComponent {
    /** `MENU`. */
    const menu: seq<MenuItem>
    var sidebarExpanded: bool
    /** The `sidebar_expanded` entry of `localStorage`. */
    var stored: Option<bool>
    var profileMenuOpen: bool
    var showProfileModal: bool
    var username: string
    var userEmail: string
    var userInitials: string
    var currentRoute: string
    var role: string
    var visibleMenu: seq<MenuItem>

    function ShownNow(): Shown
      reads this
    {
      Shown(username, userEmail, userInitials, role, visibleMenu)
    }

    /** The header and the menu agree with the role and the name. */
    ghost predicate Consistent()
      reads this
    {
      role != "" && userInitials == Initials(username) && visibleMenu == VisibleMenu(menu, role)
    }

    /** The constructor: the sidebar state from storage, then the cached
        user when there is one. Without a cached user the menu stays empty
        until the first user is published. */
    constructor (cached: Option<UserInfo>, stored: Option<bool>)
      ensures menu == Menu
      ensures this.stored == stored && sidebarExpanded == StoredSidebar(stored)
      ensures !profileMenuOpen && !showProfileModal && currentRoute == ""
      ensures cached.Some? ==>
                username == cached.value.name.GetOr(DefaultName)
                && userEmail == cached.value.email.GetOr(DefaultEmail)
                && role == RoleOf(cached.value) && Consistent()
      ensures cached.None? ==>
                ShownNow() == Shown(DefaultName, DefaultEmail, DefaultInitials, DefaultRole, [])
    {
      menu := Menu;
      this.stored := stored;
      sidebarExpanded := StoredSidebar(stored);
      profileMenuOpen, showProfileModal := false, false;
      currentRoute := "";
      if cached.Some? {
        var name := cached.value.name.GetOr(DefaultName);
        username := name;
        userEmail := cached.value.email.GetOr(DefaultEmail);
        userInitials := Initials(name);
        role := RoleOf(cached.value);
        visibleMenu := VisibleMenu(Menu, RoleOf(cached.value));
      } else {
        username := DefaultName;
        userEmail := DefaultEmail;
        userInitials := DefaultInitials;
        role := DefaultRole;
        visibleMenu := [];
      }
    }

    /** The `currentUser$` subscriber: a user sets the header and the role,
        no user restores the defaults; the menu follows the role. */
    method OnUser(user: Option<UserInfo>)
      modifies this
      ensures Consistent()
      ensures user.Some? ==>
                username == user.value.name.GetOr(DefaultName)
                && userEmail == user.value.email.GetOr(DefaultEmail) && role == RoleOf(user.value)
      ensures user.None? ==>
                username == DefaultName && userEmail == DefaultEmail && userInitials == DefaultInitials
                && role == DefaultRole
      ensures sidebarExpanded == old(sidebarExpanded) && stored == old(stored) && currentRoute == old(currentRoute)
      ensures profileMenuOpen == old(profileMenuOpen) && showProfileModal == old(showProfileModal)
    {
      if user.Some? {
        var name := user.value.name.GetOr(DefaultName);
        var current := RoleOf(user.value);
        username, userEmail, role := name, user.value.email.GetOr(DefaultEmail), current;
        userInitials := Initials(name);
        visibleMenu := VisibleMenu(menu, current);
      } else {
        username, userEmail, role := DefaultName, DefaultEmail, DefaultRole;
        userInitials := DefaultInitials;
        visibleMenu := VisibleMenu(menu, DefaultRole);
      }
    }

    /** The `NavigationEnd` subscriber, and the first read of `router.url`
        in `ngOnInit`: record the route, close the profile menu. */
    method OnNavigationEnd(url: string)
      modifies this
      ensures currentRoute == url && !profileMenuOpen
      ensures sidebarExpanded == old(sidebarExpanded) && stored == old(stored)
      ensures showProfileModal == old(showProfileModal) && ShownNow() == old(ShownNow())
    {
      currentRoute := url;
      profileMenuOpen := false;
    }

    /** `toggleSidebar()`: flip the state and persist it, so a component
        built later starts in the new state. */
    method ToggleSidebar()
      modifies this
      ensures sidebarExpanded == !old(sidebarExpanded)
      ensures stored == Some(sidebarExpanded)
      ensures StoredSidebar(stored) == sidebarExpanded
      ensures profileMenuOpen == old(profileMenuOpen) && showProfileModal == old(showProfileModal)
      ensures currentRoute == old(currentRoute) && ShownNow() == old(ShownNow())
    {
      sidebarExpanded := !sidebarExpanded;
      stored := Some(sidebarExpanded);
    }

    /** `toggleProfileMenu()`. */
    method ToggleProfileMenu()
      modifies this
      ensures profileMenuOpen == !old(profileMenuOpen)
      ensures sidebarExpanded == old(sidebarExpanded) && stored == old(stored) && showProfileModal == old(showProfileModal)
      ensures currentRoute == old(currentRoute) && ShownNow() == old(ShownNow())
    {
      profileMenuOpen := !profileMenuOpen;
    }

    /** `openProfileModal()`: the modal opens and the profile menu closes. */
    method OpenProfileModal()
      modifies this
      ensures showProfileModal && !profileMenuOpen
      ensures sidebarExpanded == old(sidebarExpanded) && stored == old(stored)
      ensures currentRoute == old(currentRoute) && ShownNow() == old(ShownNow())
    {
      showProfileModal, profileMenuOpen := true, false;
    }

    /** `closeProfileModal()`. */
    method CloseProfileModal()
      modifies this
      ensures !showProfileModal && profileMenuOpen == old(profileMenuOpen)
      ensures sidebarExpanded == old(sidebarExpanded) && stored == old(stored)
      ensures currentRoute == old(currentRoute) && ShownNow() == old(ShownNow())
    {
      showProfileModal := false;
    }

    /** `isActive(route)` against the recorded route. */
    method IsActiveRoute(route: string) returns (active: bool)
      ensures active <==> currentRoute == route
                          || (|currentRoute| > |route| && currentRoute[..|route|] == route && currentRoute[|route|] == '/')
    {
      active := IsActive(currentRoute, route);
      IsActiveMeaning(currentRoute, route);
    }
  }
}
