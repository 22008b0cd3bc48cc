/** The dashboard screen: its access gate, its nested feature routes and its logout handler. */
module Dashboard {
  import opened Common
  import opened Http
  import opened Context
  import opened Routing

  /** The path the dashboard is mounted at (`useRouteMatch().path`). */
  const Base := "/dashboard"

  const LogoutRejectedText := "Failed to log out. Please try again."
  const LogoutUnreadableText := "Failed to log out. An unknown error occurred."
  const LogoutNetworkText := "Network error during logout. Please try again."

  datatype Feature = Profile | Letters | TimeCapsules | QuietPage | LoopBreaker | SoulNotes | BreathGround

  datatype Panel = FeaturePanel(feature: Feature) | SelectPrompt | NoPanel

  datatype View = AccessDenied(loginLink: string) | Board(panel: Panel)

  /** The path segment of each feature under the dashboard. */
  function Segment(f: Feature): string {
    match f
    case Profile => "/profile"
    case Letters => "/letters"
    case TimeCapsules => "/time-capsules"
    case QuietPage => "/quiet-page"
    case LoopBreaker => "/loop-breaker"
    case SoulNotes => "/soul-notes"
    case BreathGround => "/breath-ground"
  }

  /** The order in which the `<Switch>` tries the feature routes. */
  const RouteOrder: seq<Feature> := [Profile, Letters, TimeCapsules, QuietPage, LoopBreaker, SoulNotes, BreathGround]

  /** The first feature route in `order` that matches, or else the exact-path prompt. */
  function SelectPanel(order: seq<Feature>, path: string): (p: Panel)
    ensures p.FeaturePanel? ==> p.feature in order && Matches(Base + Segment(p.feature), path)
    ensures p == SelectPrompt <==> MatchesExactly(Base, path) && forall f :: f in order ==> !Matches(Base + Segment(f), path)
  {
    if order == [] then (if MatchesExactly(Base, path) then SelectPrompt else NoPanel)
    else if Matches(Base + Segment(order[0]), path) then FeaturePanel(order[0])
    else SelectPanel(order[1..], path)
  }

  /** What the dashboard renders: the access-denied message without a user, the board otherwise. */
  function Render(user: Option<Identity>, path: string): (v: View)
    ensures v.AccessDenied? <==> user.None?
    ensures v.AccessDenied? ==> v.loginLink == "/login"
    ensures v.Board? ==> v.panel == SelectPanel(RouteOrder, path)
  {
    if user.None? then AccessDenied("/login") else Board(SelectPanel(RouteOrder, path))
  }

  /** Without a user no feature panel can be reached, whatever the path. */
  lemma NoFeatureWithoutUser(path: string)
    ensures !Render(None, path).Board?
  {
  }

  /** A path under a feature's segment that matches it has that segment's second and third letters. */
  lemma SegmentLetters(f: Feature, path: string)
    requires Matches(Base + Segment(f), path)
    ensures |path| >= 13 && path[11] == Segment(f)[1] && path[12] == Segment(f)[2]
  {
    MatchedPathStartsWithPattern(Base + Segment(f), path);
    assert path[11] == path[..|Base + Segment(f)|][11];
    assert path[12] == path[..|Base + Segment(f)|][12];
  }

  /** Two different features never match the same path. */
  lemma {:induction false} FeatureRoutesDisjoint(f: Feature, g: Feature, path: string)
    requires f != g
    requires Matches(Base + Segment(f), path)
    ensures !Matches(Base + Segment(g), path)
  {
    SegmentLetters(f, path);
    if Matches(Base + Segment(g), path) {
      SegmentLetters(g, path);
      assert false;
    }
  }

  /** No feature route matches the dashboard path itself, so the prompt shows there. */
  lemma {:induction false} ExactPathShowsPrompt(u: Identity)
    ensures Render(Some(u), Base) == Board(SelectPrompt)
    ensures Render(Some(u), Base + "/") == Board(SelectPrompt)
  {
    forall f | f in RouteOrder
      ensures !Matches(Base + Segment(f), Base) && !Matches(Base + Segment(f), Base + "/")
    {
      assert |Segment(f)| > 1;
    }
  }

  /** Each feature's route, and anything below it, selects that feature's panel. */
  lemma {:induction false} FeatureRouteSelectsFeature(u: Identity, f: Feature, path: string)
    requires Matches(Base + Segment(f), path)
    ensures Render(Some(u), path) == Board(FeaturePanel(f))
  {
    var p := SelectPanel(RouteOrder, path);
    if p != FeaturePanel(f) {
      if p.FeaturePanel? {
        FeatureRoutesDisjoint(f, p.feature, path);
        assert false;
      } else {
        RoutesBeforeFeature(RouteOrder, f, path);
        assert false;
      }
    }
  }

  /** While `f` still lies ahead in `order`, the selection is some feature panel. */
  lemma {:induction false} RoutesBeforeFeature(order: seq<Feature>, f: Feature, path: string)
    requires f in order
    requires Matches(Base + Segment(f), path)
    ensures SelectPanel(order, path).FeaturePanel?
  {
    if !Matches(Base + Segment(order[0]), path) {
      assert order[0] != f;
      RoutesBeforeFeature(order[1..], f, path);
    }
  }

  /**
   * `handleLogout`: an ok response clears the shared user and navigates to
   * the login page; any other outcome only raises an alert.
   */
  method HandleLogout(ctx: UserContext, resp: Response<()>) returns (alert: Option<string>, navigate: Option<string>)
    modifies ctx
    ensures resp.Ok? ==> ctx.user == None && alert == None && navigate == Some("/login")
    ensures resp.NotOk? ==>
              ctx.user == old(ctx.user) && navigate == None
              && alert == Some(if resp.errors.Some? then LogoutRejectedText else LogoutUnreadableText)
    ensures resp.TransportFailure? ==> ctx.user == old(ctx.user) && navigate == None && alert == Some(LogoutNetworkText)
  {
    match resp {
      case Ok(_) =>
        ctx.user := None;
        alert, navigate := None, Some("/login");
      case NotOk(_, body) =>
        alert := Some(if body.Some? then LogoutRejectedText else LogoutUnreadableText);
        navigate := None;
      case TransportFailure =>
        alert, navigate := Some(LogoutNetworkText), None;
    }
  }
}
