/** The application shell (`App.tsx`): the signed-in user and the chosen
    view, changed by login and logout, and the two guarded routes that read
    them. Persisting both in the browser's local storage is not modelled. */
module App {
  import opened Common
  import opened Types

  /** The view a non-admin user asked for at login. */
  datatype ViewMode = StudentView | ParentView

  /** What a guarded route renders: a redirect, one of the two home pages
      for the signed-in user, or the administration dashboard. */
  datatype Screen =
    | Redirect(path: string)
    | StudentHomeScreen(user: User)
    | ParentHomeScreen(user: User)
    | AdminDashboardScreen

  /** `/home`: no user goes to the login page and an admin to `/admin`;
      another user gets the parent page when the parent view was chosen and
      the student page otherwise, including when no view was chosen. */
  function HomeRoute(user: Option<User>, viewMode: Option<ViewMode>): (s: Screen)
    ensures user.None? <==> s == Redirect("/login")
    ensures user.Some? && user.value.role == Admin <==> s == Redirect("/admin")
    ensures s.ParentHomeScreen? <==> user.Some? && user.value.role != Admin && viewMode == Some(ParentView)
    ensures s.StudentHomeScreen? <==> user.Some? && user.value.role != Admin && viewMode != Some(ParentView)
    ensures s.ParentHomeScreen? || s.StudentHomeScreen? ==> Some(s.user) == user
  {
    match user
    case None => Redirect("/login")
    case Some(u) =>
      if u.role == Admin then Redirect("/admin")
      else if viewMode == Some(ParentView) then ParentHomeScreen(u)
      else StudentHomeScreen(u)
  }

  /** `/admin`: the dashboard for an admin, the login page for anyone else. */
  function AdminRoute(user: Option<User>): (s: Screen)
    ensures s == AdminDashboardScreen <==> user.Some? && user.value.role == Admin
    ensures s != AdminDashboardScreen ==> s == Redirect("/login")
  {
    if user.Some? && user.value.role == Admin then AdminDashboardScreen else Redirect("/login")
  }

  /** The navigation bar is shown exactly while someone is signed in. */
  function NavbarShown(user: Option<User>): (shown: bool)
    ensures shown <==> user.Some?
  {
    user.Some?
  }

  /** The two guarded routes never send a signed-in user to the login page
      by way of each other: an admin's `/home` leads to a dashboard that
      admits them, and a non-admin reaches a home page of their own. */
  lemma RoutesAgree(user: Option<User>, viewMode: Option<ViewMode>)
    ensures HomeRoute(user, viewMode) == Redirect("/admin") ==> AdminRoute(user) == AdminDashboardScreen
    ensures user.Some? && HomeRoute(user, viewMode).Redirect? ==> AdminRoute(user) == AdminDashboardScreen
    ensures AdminRoute(user) == Redirect("/login") && user.Some? ==>
      HomeRoute(user, viewMode).StudentHomeScreen? || HomeRoute(user, viewMode).ParentHomeScreen?
  {
  }

  /** The signed-in user and the chosen view. */
  class Session {
    var user: Option<User>
    var viewMode: Option<ViewMode>

    /** Nobody is signed in when the application starts. */
    constructor ()
      ensures user == None && viewMode == None
    {
      user := None;
      viewMode := None;
    }

    /** `handleLogin(u, mode)`: the user is always replaced; the view only
        when a mode is given, so an admin login keeps the previous view. */
    method HandleLogin(u: User, mode: Option<ViewMode>)
      modifies this
      ensures user == Some(u)
      ensures viewMode == (if mode.Some? then mode else old(viewMode))
      ensures NavbarShown(user)
    {
      user := Some(u);
      if mode.Some? {
        viewMode := mode;
      }
    }

    /** `handleLogout`: both fields are cleared, so every guarded route
        leads to the login page again. */
    method HandleLogout()
      modifies this
      ensures user == None && viewMode == None
      ensures HomeRoute(user, viewMode) == Redirect("/login") && AdminRoute(user) == Redirect("/login")
      ensures !NavbarShown(user)
    {
      user := None;
      viewMode := None;
    }
  }
}
