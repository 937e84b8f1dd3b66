/**
 * The server's request handlers as decision logic: each takes the
 * request's session flags and body, and the outcome of the session
 * store's operations, and returns a status with a reply and the
 * session as the store then holds it (or updates the travel store).
 */
module Routes {
  import opened Wrappers
  import opened Schema
  import Storage

  /** A server-side session's two flags; false stands for both false and absent. */
  datatype Session = Session(isAuthenticated: bool, isAdmin: bool)

  /** A new or regenerated session carries no flags. */
  const EmptySession := Session(false, false)

  /** Whether each session-store operation this request may call succeeds. */
  datatype SessionStore = SessionStore(regenerateOk: bool, saveOk: bool, destroyOk: bool)

  /**
   * The `password` of a JSON request body: missing or null, a string, or
   * any other JSON value, of which only its JavaScript truthiness matters.
   */
  datatype BodyValue = Absent | Text(s: string) | NonText(truthy: bool)

  /** JavaScript truthiness of a body value. */
  predicate Truthy(v: BodyValue) {
    match v
    case Absent => false
    case Text(s) => s != ""
    case NonText(t) => t
  }

  datatype Reply =
    | Message(text: string)                           // { success: true, message }
    | Error(text: string)                             // { error }
    | AuthStatus(isAuthenticated: bool)
    | AdminStatus(isAdmin: bool)
    | Created(submission: TravelSubmission)
    | Listed(submissions: seq<TravelSubmission>)

  datatype Response = Response(status: int, reply: Reply)

  const DefaultUserPassword := "Product2025"

  /** `process.env.USER_PASSWORD || "Product2025"`. */
  function UserPassword(env: Option<string>): (p: string)
    ensures p != ""
    ensures env == None || env == Some("") ==> p == DefaultUserPassword
    ensures env.Some? && env.value != "" ==> p == env.value
  {
    if env == None || env == Some("") then DefaultUserPassword else env.value
  }

  /** POST /api/auth/login. */
  method UserLogin(session: Session, password: BodyValue, env: Option<string>, store: SessionStore)
    returns (resp: Response, next: Session)
    ensures !Truthy(password) ==> resp == Response(400, Error("Password is required")) && next == session
    ensures Truthy(password) && password != Text(UserPassword(env)) ==>
              resp == Response(401, Error("Invalid password")) && next == session
    ensures password == Text(UserPassword(env)) ==>
              (resp.status == 200 <==> store.regenerateOk && store.saveOk)
    ensures resp.status == 200 ==>
              password == Text(UserPassword(env)) &&
              resp.reply == Message("Authentication successful") && next == Session(true, false)
    ensures password == Text(UserPassword(env)) && !store.regenerateOk ==>
              resp == Response(500, Error("Authentication failed")) && next == session
    ensures password == Text(UserPassword(env)) && store.regenerateOk && !store.saveOk ==>
              resp == Response(500, Error("Authentication failed")) && next == EmptySession
    ensures resp.status == 500 ==> resp.reply == Error("Authentication failed") && (next == session || next == EmptySession)
    ensures next.isAuthenticated ==> resp.status == 200 || next == session
    ensures next.isAdmin ==> next == session
  {
    if !Truthy(password) {
      return Response(400, Error("Password is required")), session;
    }
    if password == Text(UserPassword(env)) {
      if !store.regenerateOk {
        return Response(500, Error("Authentication failed")), session;
      }
      next := EmptySession.(isAuthenticated := true);
      if !store.saveOk {
        return Response(500, Error("Authentication failed")), EmptySession;
      }
      resp := Response(200, Message("Authentication successful"));
    } else {
      resp, next := Response(401, Error("Invalid password")), session;
    }
  }

  /** GET /api/auth/session: the user flag, an absent one read as false. */
  method AuthSession(session: Session) returns (resp: Response)
    ensures resp == Response(200, AuthStatus(session.isAuthenticated))
  {
    resp := Response(200, AuthStatus(session.isAuthenticated));
  }

  /** POST /api/auth/logout: destroys the session only when the user flag is set. */
  method UserLogout(session: Session, store: SessionStore) returns (resp: Response, next: Session)
    ensures !session.isAuthenticated ==> resp == Response(200, Message("Not logged in")) && next == session
    ensures session.isAuthenticated && store.destroyOk ==>
              resp == Response(200, Message("Logged out successfully")) && next == EmptySession
    ensures session.isAuthenticated && !store.destroyOk ==>
              resp == Response(500, Error("Logout failed")) && next == session
    ensures !next.isAuthenticated || next == session
  {
    if session.isAuthenticated {
      if !store.destroyOk {
        return Response(500, Error("Logout failed")), session;
      }
      resp, next := Response(200, Message("Logged out successfully")), EmptySession;
    } else {
      resp, next := Response(200, Message("Not logged in")), session;
    }
  }

  /**
   * POST /api/admin/login. `adminPassword` is `process.env.ADMIN_PASSWORD`,
   * which has no fallback: when it is unset no password matches.
   */
  method AdminLogin(session: Session, password: BodyValue, adminPassword: Option<string>, store: SessionStore)
    returns (resp: Response, next: Session)
    ensures !Truthy(password) || !password.Text? ==>
              resp == Response(400, Error("Password is required")) && next == session
    ensures Truthy(password) && password.Text? && adminPassword != Some(password.s) ==>
              resp == Response(401, Error("Invalid credentials")) && next == session
    ensures resp.status == 200 <==>
              Truthy(password) && password.Text? && adminPassword == Some(password.s) && store.regenerateOk
    ensures resp.status == 200 ==> resp.reply == Message("Authentication successful") && next == Session(false, true)
    ensures Truthy(password) && password.Text? && adminPassword == Some(password.s) && !store.regenerateOk ==>
              resp == Response(500, Error("Authentication failed")) && next == session
    ensures resp.status == 500 ==> resp.reply == Error("Authentication failed") && next == session
    ensures next.isAdmin ==> resp.status == 200 || next == session
    ensures next.isAuthenticated ==> next == session
  {
    if !Truthy(password) || !password.Text? {
      return Response(400, Error("Password is required")), session;
    }
    if adminPassword == Some(password.s) {
      if !store.regenerateOk {
        return Response(500, Error("Authentication failed")), session;
      }
      resp, next := Response(200, Message("Authentication successful")), EmptySession.(isAdmin := true);
    } else {
      resp, next := Response(401, Error("Invalid credentials")), session;
    }
  }

  /** GET /api/admin/session: the admin flag, an absent one read as false. */
  method AdminSession(session: Session) returns (resp: Response)
    ensures resp == Response(200, AdminStatus(session.isAdmin))
  {
    resp := Response(200, AdminStatus(session.isAdmin));
  }

  /** POST /api/admin/logout: always destroys the whole session, user flag included. */
  method AdminLogout(session: Session, store: SessionStore) returns (resp: Response, next: Session)
    ensures store.destroyOk ==> resp == Response(200, Message("Logout successful")) && next == EmptySession
    ensures !store.destroyOk ==> resp == Response(500, Error("Logout failed")) && next == session
  {
    if !store.destroyOk {
      return Response(500, Error("Logout failed")), session;
    }
    resp, next := Response(200, Message("Logout successful")), EmptySession;
  }

  /** `requireAdminAuth`: a 401 to send, or None to pass the request on. */
  function RequireAdminAuth(session: Session): (r: Option<Response>)
    ensures r == None <==> session.isAdmin
    ensures r != None ==> r.value == Response(401, Error("Authentication required"))
  {
    if !session.isAdmin then Some(Response(401, Error("Authentication required"))) else None
  }

  /** GET /api/travel-submissions, behind `requireAdminAuth`. */
  method ListTravelSubmissions(session: Session, db: Storage.MemStorage) returns (resp: Response)
    requires db.Valid()
    ensures resp.status == 200 <==> session.isAdmin
    ensures session.isAdmin ==> resp.reply == Listed(db.ListTravelSubmissions())
    ensures !session.isAdmin ==> resp == Response(401, Error("Authentication required"))
  {
    var denied := RequireAdminAuth(session);
    if denied.Some? {
      return denied.value;
    }
    resp := Response(200, Listed(db.ListTravelSubmissions()));
  }

  /**
   * POST /api/travel-submissions. `body` is the result of validating the
   * request body: None when validation fails. No session flag is consulted.
   */
  method CreateTravelSubmission(body: Option<InsertTravelSubmission>, id: Id, db: Storage.MemStorage)
    returns (resp: Response)
    requires db.Valid()
    requires body.Some? ==> id !in db.travelSubmissions.entries
    modifies db
    ensures db.Valid()
    ensures body == None ==>
              resp == Response(400, Error("Invalid data")) && db.travelSubmissions == old(db.travelSubmissions)
    ensures body.Some? ==>
              resp == Response(201, Created(Storage.MakeSubmission(id, body.value))) &&
              db.GetTravelSubmission(id) == Some(resp.reply.submission) &&
              db.ListTravelSubmissions() == old(db.ListTravelSubmissions()) + [resp.reply.submission]
    ensures db.users == old(db.users)
  {
    if body == None {
      return Response(400, Error("Invalid data"));
    }
    var r := db.CreateTravelSubmission(body.value, id);
    resp := Response(201, Created(r));
  }
}
