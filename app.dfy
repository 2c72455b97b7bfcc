/** src/App.tsx: the sign-in state of the application and its routing
    decisions. The authenticated flag and the signed-in user are the fields of a
    class; `handleLogin` and `handleLogout` set them and pick where to navigate;
    `ProtectedRoute` is a guard, and `UnitLayout.handleNavClick` builds a path. */
module App {
  import opened Types
  import opened Strings

  /** What a route guard renders. */
  datatype Guard = Redirect(to: string) | RenderChildren

  /** `ProtectedRoute`. */
  function ProtectedRoute(isAuthed: bool): (g: Guard)
    ensures g == Redirect("/") <==> !isAuthed
    ensures g == RenderChildren <==> isAuthed
  {
    if !isAuthed then Redirect("/") else RenderChildren
  }

  /** `` `/unit/${unitId}/${key}` ``. */
  function UnitPath(unitId: string, key: string): string
  {
    "/unit/" + unitId + "/" + key
  }

  /** The router reads the unit id back out of a unit path: split on '/', the
      path is "", "unit", the id and the page key, as long as neither holds a
      '/'. */
  lemma {:induction false} UnitPathRoundTrip(unitId: string, key: string)
    requires '/' !in unitId && '/' !in key
    ensures Split(UnitPath(unitId, key), '/') == ["", "unit", unitId, key]
  {
    var tail := unitId + "/" + key;
    assert UnitPath(unitId, key) == [] + ['/'] + ("unit" + ['/'] + tail);
    SplitAfter([], "unit" + ['/'] + tail, '/');
    SplitAfter("unit", tail, '/');
    assert tail == unitId + ['/'] + key;
    SplitAfter(unitId, key, '/');
    SplitWhole(key, '/');
  }

  /** `UnitLayout.handleNavClick`: the same unit, another page. */
  function NavPath(unitId: string, key: string): string
  {
    UnitPath(unitId, key)
  }

  const DashboardKey := "dashboard"
  const NoUnitAlert := "Employee has no assigned unit!"

  class AppState {
    var isAuthenticated: bool
    var loggedUser: Option<User>

    constructor ()
      ensures !isAuthenticated && loggedUser.None?
    {
      isAuthenticated := false;
      loggedUser := None;
    }

    /** `handleLogin`: the user is signed in whatever happens next; an admin goes
        to the unit picker, another user with a unit to that unit's dashboard,
        and a user without one is alerted and stays. */
    method LoginUser(user: User) returns (navigateTo: Option<string>, alert: Option<string>)
      modifies this
      ensures isAuthenticated && loggedUser == Some(user)
      ensures user.role == "admin" ==> navigateTo == Some("/select-unit") && alert.None?
      ensures user.role != "admin" && !Present(user.unitId) ==> navigateTo.None? && alert == Some(NoUnitAlert)
      ensures user.role != "admin" && Present(user.unitId) ==>
        navigateTo == Some(UnitPath(user.unitId.value, DashboardKey)) && alert.None?
    {
      isAuthenticated := true;
      loggedUser := Some(user);
      if user.role == "admin" {
        return Some("/select-unit"), None;
      }
      if !Present(user.unitId) {
        return None, Some(NoUnitAlert);
      }
      navigateTo := Some(UnitPath(user.unitId.value, DashboardKey));
      alert := None;
    }

    /** `handleLogout`. */
    method Logout() returns (navigateTo: string)
      modifies this
      ensures !isAuthenticated && loggedUser.None? && navigateTo == "/"
    {
      isAuthenticated := false;
      loggedUser := None;
      navigateTo := "/";
    }
  }

  /** After a logout every protected page sends the visitor back to "/"; after a
      login it renders. */
  method LogoutLocksRoutes(app: AppState, user: User)
    modifies app
    ensures ProtectedRoute(app.isAuthenticated) == Redirect("/")
  {
    var _, _ := app.LoginUser(user);
    assert ProtectedRoute(app.isAuthenticated) == RenderChildren;
    var _ := app.Logout();
  }

  /** A non-admin with a unit lands on a path whose unit segment is that unit. */
  lemma {:induction false} LoginLandsInOwnUnit(user: User)
    requires user.role != "admin" && Present(user.unitId) && '/' !in user.unitId.value
    ensures var parts := Split(UnitPath(user.unitId.value, DashboardKey), '/');
      |parts| == 4 && parts[1] == "unit" && parts[2] == user.unitId.value && parts[3] == DashboardKey
  {
    UnitPathRoundTrip(user.unitId.value, DashboardKey);
  }
}
