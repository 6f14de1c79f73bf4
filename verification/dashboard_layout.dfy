/** The dashboard shell (`DashboardLayout`): the role fetched for the signed-in
    user chooses the sidebar menu, the role badge and its label, and nothing
    is shown until both the auth state and the role have loaded. */
module DashboardLayout {

  import opened Common

  /** A sidebar entry: a link, or the divider between the user entries and
      the role-specific ones. Icons are not modelled. */
  datatype MenuItem = Link(path: string, text: string) | Divider

  const UserMenu: seq<MenuItem> := [
    Link("/dashboard/profile", "My Profile"),
    Link("/dashboard/my-bookings", "My Bookings"),
    Link("/dashboard/payment-history", "Payment History")
  ]

  const AdminMenu: seq<MenuItem> := UserMenu + [
    Divider,
    Link("/dashboard/manage-services", "Manage Services"),
    Link("/dashboard/manage-bookings", "Manage Bookings"),
    Link("/dashboard/manage-users", "Manage Users")
  ]

  const DecoratorMenu: seq<MenuItem> := UserMenu + [
    Divider,
    Link("/decorator", "Assigned Projects")
  ]

  /** Link paths are used as React keys, so no two links share a path. */
  predicate DistinctPaths(m: seq<MenuItem>) {
    forall i, j :: 0 <= i < j < |m| && m[i].Link? && m[j].Link? ==> m[i].path != m[j].path
  }

  /** `getMenuItems`: every role sees the three user entries first; admins and
      decorators then get one divider followed by their own links. */
  function MenuItems(role: string): (m: seq<MenuItem>)
    ensures |m| == (if role == "admin" then 7 else if role == "decorator" then 5 else 3)
    ensures m[..3] == UserMenu && Divider !in UserMenu
    ensures |m| > 3 ==> m[3] == Divider && Divider !in m[4..]
    ensures role == "admin" ==>
              m[4..] == [Link("/dashboard/manage-services", "Manage Services"),
                         Link("/dashboard/manage-bookings", "Manage Bookings"),
                         Link("/dashboard/manage-users", "Manage Users")]
    ensures role == "decorator" ==> m[4..] == [Link("/decorator", "Assigned Projects")]
    ensures DistinctPaths(m)
  {
    if role == "admin" then AdminMenu
    else if role == "decorator" then DecoratorMenu
    else UserMenu
  }

  /** `getRoleBadge`: the badge colour for the role. */
  function RoleBadge(role: string): (b: string)
    ensures b == "badge-error" <==> role == "admin"
    ensures b == "badge-warning" <==> role == "decorator"
    ensures b == "badge-primary" <==> role != "admin" && role != "decorator"
  {
    if role == "admin" then "badge-error"
    else if role == "decorator" then "badge-warning"
    else "badge-primary"
  }

  /** `getRoleLabel`: the badge text for the role. */
  function RoleLabel(role: string): (l: string)
    ensures l == "ADMIN" <==> role == "admin"
    ensures l == "DECORATOR" <==> role == "decorator"
    ensures l == "USER" <==> role != "admin" && role != "decorator"
  {
    if role == "admin" then "ADMIN"
    else if role == "decorator" then "DECORATOR"
    else "USER"
  }

  /** The heading of the top bar. */
  function DashboardTitle(role: string): (t: string)
    ensures t == "Admin Dashboard" <==> role == "admin"
    ensures t == "Decorator Dashboard" <==> role == "decorator"
    ensures t == "User Dashboard" <==> role != "admin" && role != "decorator"
  {
    if role == "admin" then "Admin Dashboard"
    else if role == "decorator" then "Decorator Dashboard"
    else "User Dashboard"
  }

  /** Badge, label, heading and menu are chosen by the same three-way test,
      so they always agree with each other. */
  lemma RoleChoicesAgree(role: string)
    ensures RoleBadge(role) == "badge-error" <==> RoleLabel(role) == "ADMIN"
    ensures RoleLabel(role) == "ADMIN" <==> MenuItems(role) == AdminMenu
    ensures RoleBadge(role) == "badge-warning" <==> RoleLabel(role) == "DECORATOR"
    ensures RoleLabel(role) == "DECORATOR" <==> MenuItems(role) == DecoratorMenu
    ensures RoleLabel(role) == "USER" <==> MenuItems(role) == UserMenu
    ensures DashboardTitle(role) == "User Dashboard" <==> RoleLabel(role) == "USER"
  {
  }

  /** The admin pages all live under this prefix. */
  const ManagePrefix: string := "/dashboard/manage-"

  predicate IsManagePath(path: string) {
    |path| >= |ManagePrefix| && path[..|ManagePrefix|] == ManagePrefix
  }

  /** Whether the menu links to a page. */
  predicate HasLink(m: seq<MenuItem>, path: string) {
    exists i :: 0 <= i < |m| && m[i].Link? && m[i].path == path
  }

  /** Whether the menu links to any admin page. */
  predicate HasManageLink(m: seq<MenuItem>) {
    exists i :: 0 <= i < |m| && m[i].Link? && IsManagePath(m[i].path)
  }

  /** The user entries link to no admin page. */
  lemma UserMenuHasNoManageLink()
    ensures !HasManageLink(UserMenu)
  {
    forall i | 0 <= i < |UserMenu| && UserMenu[i].Link?
      ensures !IsManagePath(UserMenu[i].path)
    {
      assert UserMenu[i].path[11] != 'm' || UserMenu[i].path[12] != 'a';
    }
  }

  /** Only an admin's menu offers the admin pages, and only a decorator's
      offers the assigned projects. */
  lemma MenuAccessByRole(role: string)
    ensures HasManageLink(MenuItems(role)) <==> role == "admin"
    ensures HasLink(MenuItems(role), "/decorator") <==> role == "decorator"
  {
    var m := MenuItems(role);
    UserMenuHasNoManageLink();
    if role == "admin" {
      assert m[4].Link? && IsManagePath(m[4].path);
      assert !HasLink(m, "/decorator") by {
        forall i | 0 <= i < |m| && m[i].Link? ensures m[i].path != "/decorator" {
          assert m[i].path[1] != 'd' || |m[i].path| != |"/decorator"|;
        }
      }
    } else if role == "decorator" {
      assert m[4].Link? && m[4].path == "/decorator";
      assert !HasManageLink(m) by {
        forall i | 0 <= i < |m| && m[i].Link? ensures !IsManagePath(m[i].path) {
          if i < 3 { assert m[i] == UserMenu[i]; }
        }
      }
    } else {
      assert m == UserMenu;
      assert !HasLink(m, "/decorator") by {
        forall i | 0 <= i < |m| && m[i].Link? ensures m[i].path != "/decorator" {
          assert |m[i].path| != |"/decorator"|;
        }
      }
    }
  }

  /** What the layout renders. */
  datatype LayoutView =
    | Loading
    | Dashboard(title: string, badge: string, roleLabel: string, menu: seq<MenuItem>)

  /** The loading gate, then the role-specific shell. */
  function Render(loading: bool, roleLoading: bool, role: string): (v: LayoutView)
    ensures v == Loading <==> loading || roleLoading
    ensures v.Dashboard? ==> v.menu == MenuItems(role) && v.badge == RoleBadge(role)
                             && v.roleLabel == RoleLabel(role) && v.title == DashboardTitle(role)
  {
    if loading || roleLoading then Loading
    else Dashboard(DashboardTitle(role), RoleBadge(role), RoleLabel(role), MenuItems(role))
  }

  /** The body of `GET /users/{email}`: absent, or a user record whose `role`
      may be absent. */
  datatype UserRecord = UserRecord(role: Option<string>)

  /** `res.data?.role || "user"`: a missing record, a missing role and an
      empty role all resolve to "user". */
  function ResolveRole(data: Option<UserRecord>): (r: string)
    ensures r != ""
    ensures data.Some? && Truthy(data.value.role) ==> r == data.value.role.value
    ensures !(data.Some? && Truthy(data.value.role)) ==> r == "user"
  {
    if data.Some? then OrElse(data.value.role, "user") else "user"
  }

  /** The effect on `[user]` starts a role fetch only for a user with an
      email. */
  function RoleFetchStarts(signedIn: bool, email: Option<string>): (b: bool)
    ensures b <==> signedIn && Truthy(email)
  {
    signedIn && Truthy(email)
  }

  /** How the awaited `GET /users/{email}` ended. */
  datatype RoleFetch = FetchRejected | FetchResolved(data: Option<UserRecord>)

  /** The two state fields of the layout. */
  class RoleState {
    var userRole: string
    var roleLoading: bool

    /** The role shown is never the empty string. */
    ghost predicate Valid()
      reads this
    {
      userRole != ""
    }

    /** `useState("user")`, `useState(true)`. */
    constructor ()
      ensures Valid()
      ensures userRole == "user" && roleLoading
    {
      userRole := "user";
      roleLoading := true;
    }

    /** `fetchUserRole`: a resolved request sets the role and clears the
        loading flag; a rejected one throws before either setter runs, so the
        layout keeps showing the spinner. */
    method FetchUserRole(result: RoleFetch)
      requires Valid()
      modifies this
      ensures Valid()
      ensures result.FetchResolved? ==> userRole == ResolveRole(result.data) && !roleLoading
      ensures result.FetchRejected? ==> userRole == old(userRole) && roleLoading == old(roleLoading)
    {
      if result.FetchResolved? {
        userRole := ResolveRole(result.data);
        roleLoading := false;
      }
    }
  }
}
