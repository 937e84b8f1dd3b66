/**
 * The client's `Router`: three flags held as component state, the
 * events that change them, and the rule that picks the page a path
 * renders.
 */
module AppRouter {
  import opened Wrappers

  datatype Page = LoginPage | EventPage | AdminLoginPage | AdminDashboard | NotFound

  /** What `checkAdminSession` got back: a parsed body whose `isAdmin` may be absent, or a failure. */
  datatype AdminSessionReply = Replied(isAdmin: Option<bool>) | Failed

  /**
   * The page rendered at `path`. Before user login every path shows the
   * login page; afterwards the routes are matched exactly, and `/admin`
   * shows the dashboard only with the admin flag.
   */
  function RenderedPage(path: string, isAuthenticated: bool, isAdminAuthenticated: bool): (p: Page)
    ensures !isAuthenticated <==> p == LoginPage
    ensures p == AdminDashboard <==> isAuthenticated && isAdminAuthenticated && path == "/admin"
    ensures isAuthenticated ==> (p == EventPage <==> path == "/" || path == "/event")
    ensures isAuthenticated && path == "/admin-login" ==> p == AdminLoginPage
    ensures isAuthenticated && path == "/admin" && !isAdminAuthenticated ==> p == AdminLoginPage
    ensures p == NotFound <==>
              isAuthenticated && path != "/" && path != "/event" && path != "/admin-login" && path != "/admin"
  {
    if !isAuthenticated then LoginPage
    else if path == "/" || path == "/event" then EventPage
    else if path == "/admin-login" then AdminLoginPage
    else if path == "/admin" then (if isAdminAuthenticated then AdminDashboard else AdminLoginPage)
    else NotFound
  }

  class Router {
    var isAuthenticated: bool
    var isAdminAuthenticated: bool
    var isCheckingAdminSession: bool

    constructor ()
      ensures !isAuthenticated && !isAdminAuthenticated && isCheckingAdminSession
      ensures forall path :: Page(path) == LoginPage
    {
      isAuthenticated := false;
      isAdminAuthenticated := false;
      isCheckingAdminSession := true;
    }

    /** The page this state renders at `path`; `isCheckingAdminSession` plays no part. */
    function Page(path: string): Page
      reads this
    {
      RenderedPage(path, isAuthenticated, isAdminAuthenticated)
    }

    /** `checkAdminSession`: adopt the server's `isAdmin || false`, false on failure, then stop checking. */
    method CheckAdminSession(reply: AdminSessionReply)
      modifies this
      ensures isAdminAuthenticated <==> reply == Replied(Some(true))
      ensures !isCheckingAdminSession
      ensures isAuthenticated == old(isAuthenticated)
    {
      match reply {
        case Replied(flag) =>
          isAdminAuthenticated := flag == Some(true);
        case Failed =>
          isAdminAuthenticated := false;
      }
      isCheckingAdminSession := false;
    }

    /** `handleLogin`: sets only the user flag. */
    method HandleLogin()
      modifies this
      ensures isAuthenticated
      ensures isAdminAuthenticated == old(isAdminAuthenticated)
      ensures isCheckingAdminSession == old(isCheckingAdminSession)
    {
      isAuthenticated := true;
    }

    /** `handleLogout`: clears the user flag and the admin flag, so every path shows the login page. */
    method HandleLogout()
      modifies this
      ensures !isAuthenticated && !isAdminAuthenticated
      ensures isCheckingAdminSession == old(isCheckingAdminSession)
      ensures forall path :: Page(path) == LoginPage
    {
      isAuthenticated := false;
      isAdminAuthenticated := false;
    }

    /** `handleAdminLogin`: sets only the admin flag. */
    method HandleAdminLogin()
      modifies this
      ensures isAdminAuthenticated
      ensures isAuthenticated == old(isAuthenticated)
      ensures isCheckingAdminSession == old(isCheckingAdminSession)
    {
      isAdminAuthenticated := true;
    }

    /** `handleAdminLogout`: the admin flag is cleared whether the server call succeeds or throws. */
    method HandleAdminLogout(serverSucceeded: bool)
      modifies this
      ensures !isAdminAuthenticated
      ensures isAuthenticated == old(isAuthenticated)
      ensures isCheckingAdminSession == old(isCheckingAdminSession)
      ensures Page("/admin") != AdminDashboard
    {
      if serverSucceeded {
        isAdminAuthenticated := false;
      } else {
        isAdminAuthenticated := false;
      }
    }
  }
}
