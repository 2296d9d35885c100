/** The sign-in page (`pages/Login.tsx`): the login mode read from the
    query string, the connection probe, the submit button's enabled state,
    and `handleLogin` with its hard-coded administrator account. Alerts and
    the troubleshooting dialog are not modelled. */
module Login {
  import opened Common
  import opened Types
  import opened DbService
  import opened App

  /** `initialMode || 'student'`: the `mode` query parameter as given (it is
      not checked against the three known modes), `student` when it is
      absent or empty. */
  function InitialMode(query: Option<string>): (mode: string)
    ensures mode != ""
    ensures query.Some? && query.value != "" ==> mode == query.value
    ensures query.None? || query.value == "" ==> mode == "student"
  {
    if query.Some? && query.value != "" then query.value else "student"
  }

  /** The view handed to the shell after a remote login: the parent view
      only from the parent mode; the student and admin modes (and any other
      string) give the student view. */
  function RequestedView(mode: string): (v: ViewMode)
    ensures v == ParentView <==> mode == "parent"
    ensures v == StudentView <==> mode != "parent"
  {
    if mode == "parent" then ParentView else StudentView
  }

  /** `disabled={loading || isConnected === false}`: an unknown connection
      state (`null`) leaves the button enabled. */
  function SubmitDisabled(loading: bool, isConnected: Option<bool>): (disabled: bool)
    ensures !loading && isConnected == None ==> !disabled
    ensures !loading && isConnected == Some(true) ==> !disabled
    ensures disabled <==> loading || isConnected == Some(false)
  {
    loading || isConnected == Some(false)
  }

  const AdminUsername := "admin"
  const AdminPassword := "1722"

  /** The account built locally for the hard-coded credentials; the fields
      the source leaves undefined are empty here. */
  const AdminUser := User("admin", "admin", "ผู้ดูแลระบบ", Admin, "", "", "", "", "")

  const WrongCredentials := "ชื่อผู้ใช้หรือรหัสผ่านไม่ถูกต้อง"
  const ConnectionFailed := "เกิดข้อผิดพลาดในการเชื่อมต่อเซิร์ฟเวอร์"

  /** `err.message || <default>`. Every error the store raises carries a
      message, so the default text is never chosen. */
  function FailureMessage(e: CallError): (m: string)
    ensures m != "" && m == ErrorMessage(e)
  {
    var msg := ErrorMessage(e);
    if msg != "" then msg else ConnectionFailed
  }

  /** How one press of the submit button ends. */
  datatype Attempt =
    | AdminBypass
    | SignedIn(user: User, view: ViewMode)
    | Refused
    | Errored(message: string)

  /** The decision inside `handleLogin`: the hard-coded credentials win
      before anything is sent; otherwise the store's answer decides. */
  function Decide(username: string, password: string, mode: string, urlLength: nat, d: Delivery<LoginBody>): (a: Attempt)
    ensures a == AdminBypass <==> username == AdminUsername && password == AdminPassword
    ensures a.SignedIn? <==> (!(username == AdminUsername && password == AdminPassword)
      && DbService.Login(urlLength, d).Ok? && DbService.Login(urlLength, d).value.Some?)
    ensures a.SignedIn? ==> (Some(a.user) == DbService.Login(urlLength, d).value
      && (a.view == ParentView <==> mode == "parent"))
    ensures a == Refused <==> (!(username == AdminUsername && password == AdminPassword)
      && DbService.Login(urlLength, d) == Ok(None))
    ensures a.Errored? <==> (!(username == AdminUsername && password == AdminPassword)
      && DbService.Login(urlLength, d).Err?)
    ensures a.Errored? ==> a.message == ErrorMessage(DbService.Login(urlLength, d).error)
  {
    if username == AdminUsername && password == AdminPassword then AdminBypass
    else
      match DbService.Login(urlLength, d)
      case Err(e) => Errored(FailureMessage(e))
      case Ok(None) => Refused
      case Ok(Some(u)) => SignedIn(u, RequestedView(mode))
  }

  /** The hard-coded account lands on the dashboard, and its `/home` leads
      there too, whatever view was chosen before. */
  lemma AdminBypassOpensDashboard(viewMode: Option<ViewMode>)
    ensures AdminRoute(Some(AdminUser)) == AdminDashboardScreen
    ensures HomeRoute(Some(AdminUser), viewMode) == Redirect("/admin")
  {
  }

  /** After a remote sign-in, `/home` shows the parent page exactly when the
      parent mode was chosen and the store's account is not an admin. */
  lemma SignedInHome(username: string, password: string, mode: string, urlLength: nat, d: Delivery<LoginBody>)
    requires Decide(username, password, mode, urlLength, d).SignedIn?
    ensures var a := Decide(username, password, mode, urlLength, d);
      HomeRoute(Some(a.user), Some(a.view)).ParentHomeScreen? <==> a.user.role != Admin && mode == "parent"
  {
  }

  class LoginPage {
    var mode: string
    var loading: bool
    var error: string
    var isConnected: Option<bool>

    /** The page as first rendered, before its connection probe returns. */
    constructor (query: Option<string>)
      ensures mode == InitialMode(query) && !loading && error == "" && isConnected == None
    {
      mode := InitialMode(query);
      loading := false;
      error := "";
      isConnected := None;
    }

    /** `checkConnection`: clear the error and record the probe's answer. */
    method CheckConnection(urlLength: nat, d: Delivery<()>)
      modifies this`error, this`isConnected
      ensures error == "" && isConnected == DbService.CheckConnection(urlLength, d)
    {
      error := "";
      isConnected := DbService.CheckConnection(urlLength, d);
    }

    /** `handleLogin`. `called` says whether the store was asked at all,
        `path` where the page navigates. Only a successful sign-in touches
        the session, and `loading` is down again whatever happened. */
    method HandleLogin(session: Session, username: string, password: string, urlLength: nat, d: Delivery<LoginBody>)
      returns (called: bool, path: Option<string>)
      modifies this`loading, this`error, session
      ensures !loading
      ensures called <==> !(username == AdminUsername && password == AdminPassword)
      ensures var a := Decide(username, password, mode, urlLength, d);
        match a
        case AdminBypass =>
          session.user == Some(AdminUser) && session.viewMode == old(session.viewMode)
          && path == Some("/admin") && error == ""
        case SignedIn(u, v) =>
          session.user == Some(u) && session.viewMode == Some(v) && path == Some("/home") && error == ""
        case Refused =>
          session.user == old(session.user) && session.viewMode == old(session.viewMode)
          && path == None && error == WrongCredentials
        case Errored(msg) =>
          session.user == old(session.user) && session.viewMode == old(session.viewMode)
          && path == None && error == msg
    {
      loading := true;
      error := "";
      called := !(username == AdminUsername && password == AdminPassword);
      var a := Decide(username, password, mode, urlLength, d);
      match a {
        case AdminBypass =>
          session.HandleLogin(AdminUser, None);
          path := Some("/admin");
        case SignedIn(u, v) =>
          session.HandleLogin(u, Some(v));
          path := Some("/home");
        case Refused =>
          error := WrongCredentials;
          path := None;
        case Errored(msg) =>
          error := msg;
          path := None;
      }
      loading := false;
    }
  }
}
