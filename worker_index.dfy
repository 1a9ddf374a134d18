/** The worker's request pipeline ahead of its route handlers: the CORS
    origin it answers with, the order in which the auth routes, the
    migration route and the JSON content-type guard see a request, the
    migration route's gate, the default title of a new conversation and
    the mapping of an error to a response. */
module WorkerRoutes {
  import opened Wrappers
  import opened JsStrings

  const DEVELOPMENT: string := "development"
  const TAURI_ORIGIN: string := "tauri://localhost"
  const DEV_ORIGIN: string := "http://localhost:1420"
  const JSON_TYPE: string := "application/json"
  const DEFAULT_TITLE: string := "New Conversation"
  const NOT_FOUND: string := "Not found"
  const WRONG_CONTENT_TYPE: string := "Content-Type must be application/json"
  const INTERNAL_ERROR: string := "Internal server error"
  const NO_MIGRATIONS: string := "No migrations needed"

  // ---------------------------------------------------------------------
  // CORS
  // ---------------------------------------------------------------------

  /** The origins the worker lets a browser read its answers from. */
  predicate AllowedOrigin(origin: string, environment: string) {
    origin == TAURI_ORIGIN || (environment == DEVELOPMENT && origin == DEV_ORIGIN)
  }

  /** The `origin` option of the CORS middleware: an allowed origin is
      echoed back, any other gets "". */
  function CorsOrigin(origin: string, environment: string): (r: string)
    ensures AllowedOrigin(origin, environment) ==> r == origin
    ensures !AllowedOrigin(origin, environment) ==> r == ""
  {
    if origin == TAURI_ORIGIN then origin
    else if environment == DEVELOPMENT && origin == DEV_ORIGIN then origin
    else ""
  }

  /** Outside development only the desktop app's origin is echoed. */
  lemma CorsOutsideDevelopment(origin: string, environment: string)
    requires environment != DEVELOPMENT
    ensures CorsOrigin(origin, environment) != "" <==> origin == TAURI_ORIGIN
  {
  }

  // ---------------------------------------------------------------------
  // Content-type guard
  // ---------------------------------------------------------------------

  /** The methods that carry a body the guard looks at. */
  predicate IsMutation(verb: string) {
    verb == "POST" || verb == "PATCH" || verb == "PUT"
  }

  /** An error a handler or middleware throws. */
  datatype Failure = HttpException(status: nat, message: string) | Unhandled(message: string)

  /** The guard: a POST, PATCH or PUT whose content-type header, or "" if
      it has none, does not start with "application/json" is refused with
      415; every other request passes. */
  function ContentTypeGuard(verb: string, contentType: Option<string>): (r: Option<Failure>)
    ensures r.Some? <==> IsMutation(verb) && !StartsWith(contentType.GetOr(""), JSON_TYPE)
    ensures r.Some? ==> r.value == HttpException(415, WRONG_CONTENT_TYPE)
  {
    if IsMutation(verb) && !StartsWith(contentType.GetOr(""), JSON_TYPE) then
      Some(HttpException(415, WRONG_CONTENT_TYPE))
    else None
  }

  /** A JSON type with parameters passes; a missing header on a POST does
      not. */
  lemma ContentTypeExamples()
    ensures ContentTypeGuard("POST", Some("application/json; charset=utf-8")).None?
    ensures ContentTypeGuard("POST", None).Some?
    ensures ContentTypeGuard("DELETE", None).None?
  {
    assert "application/json; charset=utf-8"[..16] == JSON_TYPE;
  }

  // ---------------------------------------------------------------------
  // The order of the pipeline
  // ---------------------------------------------------------------------

  /** Who answers a request first. */
  datatype Stage = Health | AuthHandler | MigrateRoute | Refused(failure: Failure) | ApiRoutes

  predicate IsAuthMethod(verb: string) {
    verb in ["GET", "POST", "PUT", "PATCH", "DELETE", "OPTIONS"]
  }

  /** The registration order: `/health`, the auth routes and `/migrate`
      come before the content-type guard, and everything else meets the
      guard before the session middleware and the API routes. */
  function FirstStage(verb: string, path: string, contentType: Option<string>): (s: Stage)
    ensures s.Refused? ==> s.failure.HttpException? && s.failure.status == 415
    ensures StartsWith(path, "/api/auth/") && IsAuthMethod(verb) ==> s == AuthHandler
    ensures s == ApiRoutes ==> ContentTypeGuard(verb, contentType).None?
  {
    if verb == "GET" && path == "/health" then Health
    else if IsAuthMethod(verb) && StartsWith(path, "/api/auth/") then AuthHandler
    else if verb == "GET" && path == "/migrate" then MigrateRoute
    else
      match ContentTypeGuard(verb, contentType)
      case Some(f) => Refused(f)
      case None => ApiRoutes
  }

  /** The auth library's own form posts are never refused by the guard,
      while the same post to any other API path is. */
  lemma AuthFormsBypassGuard(path: string)
    requires StartsWith(path, "/api/auth/")
    ensures FirstStage("POST", path, Some("application/x-www-form-urlencoded")) == AuthHandler
    ensures FirstStage("POST", "/api/conversations", Some("application/x-www-form-urlencoded")).Refused?
  {
    assert "/api/conversations"[..10][5] == 'c' != "/api/auth/"[5];
    assert "application/x-www-form-urlencoded"[..16][12] == 'x' != JSON_TYPE[12];
  }

  // ---------------------------------------------------------------------
  // /migrate
  // ---------------------------------------------------------------------

  /** A JSON response as the worker writes it. */
  datatype Response =
    | ErrorResponse(status: nat, error: string)
    | MessageResponse(message: string)
    | MigratedResponse(created: seq<string>, added: seq<string>)

  /** What `getMigrations` reports: the tables to create and the columns
      to add. */
  datatype MigrationPlan = MigrationPlan(toBeCreated: seq<string>, toBeAdded: seq<string>)

  /** `/migrate`: 404 outside development; otherwise the tables to create
      and the columns to add, as the auth library reports them, and the
      migrations run only when there is something to do. `plan` is what
      `getMigrations` gave or threw, `runFailure` what `runMigrations`
      threw, if anything; a thrown error reaches the client through
      `onError`. `ran` says whether `runMigrations` was called. */
  function Migrate(environment: string, plan: Result<MigrationPlan, Failure>, runFailure: Option<Failure>,
                   redact: string -> string): (r: (Response, bool))
    ensures environment != DEVELOPMENT ==> r == (ErrorResponse(404, NOT_FOUND), false)
    ensures environment == DEVELOPMENT && plan.Err? ==> r == (OnError(plan.error, redact), false)
    ensures environment == DEVELOPMENT && plan.Ok? ==>
      (r.1 <==> plan.value.toBeCreated != [] || plan.value.toBeAdded != [])
    ensures environment == DEVELOPMENT && plan.Ok? && r.1 && runFailure.None? ==>
      r.0 == MigratedResponse(plan.value.toBeCreated, plan.value.toBeAdded)
    ensures environment == DEVELOPMENT && plan.Ok? && r.1 && runFailure.Some? ==>
      r.0 == OnError(runFailure.value, redact)
    ensures environment == DEVELOPMENT && plan.Ok? && !r.1 ==> r.0 == MessageResponse(NO_MIGRATIONS)
  {
    if environment != DEVELOPMENT then (ErrorResponse(404, NOT_FOUND), false)
    else if plan.Err? then (OnError(plan.error, redact), false)
    else if |plan.value.toBeCreated| == 0 && |plan.value.toBeAdded| == 0 then (MessageResponse(NO_MIGRATIONS), false)
    else if runFailure.Some? then (OnError(runFailure.value, redact), true)
    else (MigratedResponse(plan.value.toBeCreated, plan.value.toBeAdded), true)
  }

  /** Outside development `/migrate` answers exactly as an unknown path
      does, and never migrates, whatever the migration steps would do. */
  lemma MigrateHiddenOutsideDevelopment(environment: string, plan: Result<MigrationPlan, Failure>,
                                        runFailure: Option<Failure>, redact: string -> string)
    requires environment != DEVELOPMENT
    ensures Migrate(environment, plan, runFailure, redact).0 == NotFound()
    ensures !Migrate(environment, plan, runFailure, redact).1
  {
  }

  /** In development, a migration step that throws something other than an
      `HTTPException` gives a 500 with the fixed text, never the error's
      own message. */
  lemma MigrateCrashIs500(plan: Result<MigrationPlan, Failure>, runFailure: Option<Failure>, redact: string -> string)
    requires (plan.Err? && plan.error.Unhandled?) || (plan.Ok? && runFailure.Some? && runFailure.value.Unhandled?
      && (plan.value.toBeCreated != [] || plan.value.toBeAdded != []))
    ensures Migrate(DEVELOPMENT, plan, runFailure, redact).0 == ErrorResponse(500, INTERNAL_ERROR)
  {
  }

  /** The `notFound` handler. */
  function NotFound(): (r: Response)
    ensures r.ErrorResponse? && r.status == 404
  {
    ErrorResponse(404, NOT_FOUND)
  }

  // ---------------------------------------------------------------------
  // New conversations
  // ---------------------------------------------------------------------

  /** The title of a conversation created by `POST /api/conversations`:
      an absent `title` (`None`, JavaScript's `undefined`) gives the
      default title, and a present one, `null` included, is whatever the
      title check makes of it. */
  function NewConversationTitle<T>(title: Option<T>, validateTitle: T -> Result<string, Failure>): (r: Result<string, Failure>)
    ensures title.None? ==> r == Ok(DEFAULT_TITLE)
    ensures title.Some? ==> r == validateTitle(title.value)
  {
    if title.Some? then validateTitle(title.value) else Ok(DEFAULT_TITLE)
  }

  /** A body without a title always creates a conversation, whatever the
      title check would have said. */
  lemma UntitledAlwaysAccepted<T>(validateTitle: T -> Result<string, Failure>)
    ensures NewConversationTitle(None, validateTitle).Ok?
  {
  }

  // ---------------------------------------------------------------------
  // onError
  // ---------------------------------------------------------------------

  /** `onError`: an `HTTPException` keeps its status and, with every
      secret redacted, its message; anything else is a 500 with a fixed
      text. `redact` stands for the secret redaction, which is not part of
      this model. */
  function OnError(err: Failure, redact: string -> string): (r: Response)
    ensures r.ErrorResponse?
    ensures err.HttpException? ==> r.status == err.status && r.error == redact(err.message)
    ensures err.Unhandled? ==> r == ErrorResponse(500, INTERNAL_ERROR)
  {
    match err
    case HttpException(status, message) => ErrorResponse(status, redact(message))
    case Unhandled(_) => ErrorResponse(500, INTERNAL_ERROR)
  }

  /** An unexpected error never shows its own message. */
  lemma UnhandledHidden(m1: string, m2: string, redact: string -> string)
    ensures OnError(Unhandled(m1), redact) == OnError(Unhandled(m2), redact)
  {
  }

  /** A request refused by the guard reaches the client as a 415. */
  lemma RefusalIs415(verb: string, path: string, contentType: Option<string>, redact: string -> string)
    requires FirstStage(verb, path, contentType).Refused?
    ensures OnError(FirstStage(verb, path, contentType).failure, redact).status == 415
  {
  }
}
