/** The application shell: the one-time session check, the render gate and the top-level route table. */
module App {
  import opened Common
  import opened Http
  import opened Context
  import opened Routing
  import Dashboard

  const ConnectFailedText := "Failed to connect to the server. Please ensure the backend is running."

  datatype Page = HomePage | LoginPage | SignupPage | DashboardPage(view: Dashboard.View) | NotFoundPage

  datatype Screen = LoadingScreen | ErrorScreen(message: string) | Routed(page: Page)

  /**
   * The `<Switch>`: routes are tried in order, and the dashboard route shows
   * the login form in place when nobody is signed in.
   */
  function Route(path: string, user: Option<Identity>): (p: Page)
    ensures p.HomePage? <==> MatchesExactly("/", path)
    ensures p.DashboardPage? ==> user.Some? && Matches("/dashboard", path) && p.view == Dashboard.Render(user, path)
  {
    if MatchesExactly("/", path) then HomePage
    else if Matches("/login", path) then LoginPage
    else if Matches("/signup", path) then SignupPage
    else if Matches("/dashboard", path) then (if user.Some? then DashboardPage(Dashboard.Render(user, path)) else LoginPage)
    else NotFoundPage
  }

  /**
   * The rest of the route table: "/login…" and "/signup…" show their forms, the
   * dashboard's paths fall back to the login form without a user, and every
   * path no route claims shows NotFound.
   */
  lemma RouteTable(path: string, user: Option<Identity>)
    ensures Route(path, user) == SignupPage <==> Matches("/signup", path)
    ensures Route(path, user) == LoginPage <==> Matches("/login", path) || (Matches("/dashboard", path) && user.None?)
    ensures Route(path, user) == NotFoundPage <==>
              !MatchesExactly("/", path) && !Matches("/login", path) && !Matches("/signup", path) && !Matches("/dashboard", path)
  {
    ExactRootIsOnlyRoot(path);
    if Matches("/signup", path) {
      DisjointPatterns("/signup", "/login", path, 1);
      DisjointPatterns("/signup", "/dashboard", path, 1);
    }
    if Matches("/login", path) {
      DisjointPatterns("/login", "/dashboard", path, 1);
    }
  }

  /** The dashboard's paths reach the dashboard exactly when a user is signed in, and the login form otherwise. */
  lemma DashboardGate(path: string, user: Option<Identity>)
    requires Matches("/dashboard", path)
    ensures user.Some? ==> Route(path, user) == DashboardPage(Dashboard.Render(user, path))
    ensures user.None? ==> Route(path, user) == LoginPage
  {
    DisjointPatterns("/dashboard", "/login", path, 1);
    DisjointPatterns("/dashboard", "/signup", path, 1);
    MatchedPathStartsWithPattern("/dashboard", path);
  }

  /** The three gates in priority order: loading, then a non-empty error, then the routes. */
  function Gate(loading: bool, error: Option<string>, user: Option<Identity>, path: string): (s: Screen)
    ensures s == LoadingScreen <==> loading
    ensures s.ErrorScreen? <==> !loading && error.Some? && error.value != ""
    ensures s.ErrorScreen? ==> s.message == error.value
    ensures s.Routed? ==> s.page == Route(path, user)
  {
    if loading then LoadingScreen
    else if error.Some? && error.value != "" then ErrorScreen(error.value)
    else Routed(Route(path, user))
  }

  /** Once the connection error is showing, no route, and so no feature, is reachable on any path. */
  lemma ConnectionErrorBlocksRoutes(user: Option<Identity>, path: string)
    ensures Gate(false, Some(ConnectFailedText), user, path) == ErrorScreen(ConnectFailedText)
  {
  }

  /** The component's state: the shared user cell plus the loading and error cells. */
  class AppState {
    const ctx: UserContext
    var loading: bool
    var error: Option<string>

    /** Mounting: no user, no error, and the session check marked as running. */
    constructor ()
      ensures fresh(ctx) && ctx.user == None
      ensures loading && error == None
    {
      ctx := new UserContext();
      loading := true;
      error := None;
    }

    function View(path: string): Screen
      reads this, ctx
    {
      Gate(loading, error, ctx.user, path)
    }

    /**
     * The settling of `checkSession`: an ok response with a body signs that
     * identity in; any other outcome, whatever the status, records the
     * connection error and clears the user. Loading ends on every path.
     */
    method SettleSessionCheck(resp: Response<Identity>)
      requires loading
      modifies this, ctx
      ensures !loading
      ensures Outcome(resp).Success? ==> ctx.user == Some(Outcome(resp).value) && error == old(error)
      ensures Outcome(resp).Failure? ==> ctx.user == None && error == Some(ConnectFailedText)
    {
      var outcome := Outcome(resp);
      if outcome.Success? {
        ctx.user := Some(outcome.value);
      } else {
        error := Some(ConnectFailedText);
        ctx.user := None;
      }
      loading := false;
    }
  }

  /** The server's 401 "No active session." is not singled out: it takes the connection-error path. */
  lemma NoActiveSessionIsConnectionError(body: Option<ErrorsField>)
    ensures Outcome<Identity>(NotOk(401, body)).Failure?
  {
  }
}
