/** The route table and guards of src/App.jsx as pure decisions over the
    session's `loading` and `isAuthenticated` flags. */
module AppRoutes {
  import opened Wrappers

  /** The screens the route table can mount. */
  datatype Screen =
    | Home | Login | Register | Dashboard | Videos | Tweets | Subscriptions
    | Comments(videoId: string) | Watch(id: string) | CommunityTweets | WatchHistory

  /** What a route renders: the loading spinner, a bare screen, a screen
      inside the navigation layout, or a redirect. */
  datatype View = Spinner | Page(screen: Screen) | WithLayout(screen: Screen) | RedirectTo(path: string)

  /** `ProtectedRoute`: the spinner while loading, else the children when
      authenticated, else a redirect to the login page. */
  function ProtectedRoute(loading: bool, authenticated: bool, children: View): (v: View)
    ensures loading ==> v == Spinner
    ensures !loading && authenticated ==> v == children
    ensures !loading && !authenticated ==> v == RedirectTo("/login")
  {
    if loading then Spinner
    else if authenticated then children
    else RedirectTo("/login")
  }

  /** `ProtectedLayoutRoute`: the layout is placed inside the guard. */
  function ProtectedLayoutRoute(loading: bool, authenticated: bool, screen: Screen): (v: View)
    ensures v.WithLayout? <==> !loading && authenticated
    ensures v.WithLayout? ==> v.screen == screen
    ensures !v.WithLayout? ==> v == Spinner || v == RedirectTo("/login")
  {
    ProtectedRoute(loading, authenticated, WithLayout(screen))
  }

  /** `HomeRoute`: the spinner while loading, Home inside the layout when
      authenticated, the bare Home (which shows the landing page) otherwise. */
  function HomeRoute(loading: bool, authenticated: bool): (v: View)
    ensures loading <==> v == Spinner
    ensures !loading && authenticated ==> v == WithLayout(Home)
    ensures !loading && !authenticated ==> v == Page(Home)
  {
    if loading then Spinner
    else if authenticated then WithLayout(Home)
    else Page(Home)
  }

  /** A single non-empty path segment, as a `:param` matches. */
  predicate IsSegment(s: string)
  {
    s != [] && forall i :: 0 <= i < |s| ==> s[i] != '/'
  }

  /** The route table: which screen a path selects, `None` for the
      catch-all. */
  function Match(path: string): (r: Option<Screen>)
    ensures r.Some? ==> PathOf(r.value) == path
  {
    if path == "/" then Some(Home)
    else if path == "/login" then Some(Login)
    else if path == "/register" then Some(Register)
    else if path == "/dashboard" then Some(Dashboard)
    else if path == "/videos" then Some(Videos)
    else if path == "/tweets" then Some(Tweets)
    else if path == "/subscriptions" then Some(Subscriptions)
    else if |path| > 10 && path[..10] == "/comments/" && IsSegment(path[10..]) then Some(Comments(path[10..]))
    else if |path| > 7 && path[..7] == "/watch/" && IsSegment(path[7..]) then Some(Watch(path[7..]))
    else if path == "/community-tweets" then Some(CommunityTweets)
    else if path == "/history" then Some(WatchHistory)
    else None
  }

  /** The path that names each screen in the route table. */
  function PathOf(s: Screen): string
  {
    match s
    case Home => "/"
    case Login => "/login"
    case Register => "/register"
    case Dashboard => "/dashboard"
    case Videos => "/videos"
    case Tweets => "/tweets"
    case Subscriptions => "/subscriptions"
    case Comments(videoId) => "/comments/" + videoId
    case Watch(id) => "/watch/" + id
    case CommunityTweets => "/community-tweets"
    case WatchHistory => "/history"
  }

  predicate WellFormed(s: Screen)
  {
    match s
    case Comments(videoId) => IsSegment(videoId)
    case Watch(id) => IsSegment(id)
    case _ => true
  }

  /** Every screen is reached by its own path, parameters included. */
  lemma {:induction false} MatchPathOf(s: Screen)
    requires WellFormed(s)
    ensures Match(PathOf(s)) == Some(s)
  {
    var p := PathOf(s);
    match s
    case Comments(videoId) =>
      CommentsPathMatches(videoId);
    case Watch(id) =>
      WatchPathMatches(id);
    case CommunityTweets =>
      assert p[..10] != "/comments/" by { assert p[5] == 'u'; }
      assert p[..7] != "/watch/" by { assert p[1] == 'c'; }
    case WatchHistory =>
      assert p[..7] != "/watch/" by { assert p[1] == 'h'; }
    case _ =>
  }

  lemma CommentsPathMatches(videoId: string)
    requires IsSegment(videoId)
    ensures Match("/comments/" + videoId) == Some(Comments(videoId))
  {
    var p := "/comments/" + videoId;
    assert p[..10] == "/comments/" && p[10..] == videoId;
    assert p[1] == 'c';
  }

  lemma WatchPathMatches(id: string)
    requires IsSegment(id)
    ensures Match("/watch/" + id) == Some(Watch(id))
  {
    var p := "/watch/" + id;
    assert p[..7] == "/watch/" && p[7..] == id;
    assert p[1] == 'w' && p[2] == 'a';
  }

  /** `AppRoutes`: the spinner before any matching while loading; the login
      and register forms only for guests, who are otherwise sent home; the
      protected screens behind the guard with the layout; unknown paths sent
      to `/`. */
  function AppRoutes(loading: bool, authenticated: bool, path: string): (v: View)
    ensures loading ==> v == Spinner
    ensures v.WithLayout? ==> !loading && authenticated
    ensures v.RedirectTo? ==> v.path == "/" || v.path == "/login"
  {
    if loading then Spinner
    else match Match(path)
      case None => RedirectTo("/")
      case Some(Home) => HomeRoute(loading, authenticated)
      case Some(Login) => if authenticated then RedirectTo("/") else Page(Login)
      case Some(Register) => if authenticated then RedirectTo("/") else Page(Register)
      case Some(screen) => ProtectedLayoutRoute(loading, authenticated, screen)
  }

  /** Once loading is over, the login and register paths send an
      authenticated user home and show their form to a guest. */
  lemma AuthFormsForGuestsOnly(authenticated: bool)
    ensures AppRoutes(false, authenticated, "/login") == if authenticated then RedirectTo("/") else Page(Login)
    ensures AppRoutes(false, authenticated, "/register") == if authenticated then RedirectTo("/") else Page(Register)
  {
  }

  /** Every protected screen is shown, inside the layout, exactly to an
      authenticated user; a guest is sent to the login page. */
  lemma {:induction false} ProtectedScreens(authenticated: bool, s: Screen)
    requires WellFormed(s)
    requires s != Home && s != Login && s != Register
    ensures AppRoutes(false, authenticated, PathOf(s)) ==
      if authenticated then WithLayout(s) else RedirectTo("/login")
  {
    MatchPathOf(s);
  }

  /** A path outside the table is sent to `/`, authenticated or not. */
  lemma CatchAllGoesHome(authenticated: bool, path: string)
    requires Match(path).None?
    ensures AppRoutes(false, authenticated, path) == RedirectTo("/")
  {
  }
}
