/** The navigation shell of src/components/Layout/Layout.jsx: which nav
    item is highlighted for a pathname, how an image field becomes a URL,
    the mobile menu flag and the logout button. */
module Layout {
  import opened Wrappers
  import AuthContext
  import AppRoutes

  /** The `path` of each navigation item, in the order they are listed. */
  const NavPaths: seq<string> :=
    ["/", "/dashboard", "/videos", "/tweets", "/subscriptions", "/community-tweets", "/history", "/like"]

  /** `pathname.startsWith(prefix)`. */
  predicate StartsWith(pathname: string, prefix: string)
  {
    |prefix| <= |pathname| && pathname[..|prefix|] == prefix
  }

  /** `isActivePath(path)`: the root item only on the root itself, every
      other item on any pathname that starts with its path. */
  function IsActivePath(pathname: string, path: string): (r: bool)
    ensures path == "/" ==> (r <==> pathname == "/")
    ensures path != "/" ==> (r <==> StartsWith(pathname, path))
  {
    if path == "/" then pathname == "/" else StartsWith(pathname, path)
  }

  /** Whatever the pathname, at most one navigation item is highlighted:
      the non-root paths already differ in their second character, and the
      root item only lights up on "/", which no other path is a prefix of. */
  lemma AtMostOneActive(pathname: string, i: nat, j: nat)
    requires i < |NavPaths| && j < |NavPaths|
    requires IsActivePath(pathname, NavPaths[i]) && IsActivePath(pathname, NavPaths[j])
    ensures i == j
  {
    var p, q := NavPaths[i], NavPaths[j];
    if i != 0 && j != 0 {
      assert p[1] == pathname[1] == q[1];
      assert NavPaths[1][1] == 'd' && NavPaths[2][1] == 'v' && NavPaths[3][1] == 't' && NavPaths[4][1] == 's';
      assert NavPaths[5][1] == 'c' && NavPaths[6][1] == 'h' && NavPaths[7][1] == 'l';
    }
  }

  /** Each item is highlighted on its own path. */
  lemma ActiveOnOwnPath(i: nat)
    requires i < |NavPaths|
    ensures IsActivePath(NavPaths[i], NavPaths[i])
  {
  }

  /** Every navigation item except the last leads to a screen of the route
      table; "/like" has no route and lands in the catch-all, which sends
      the user back to "/". */
  lemma {:induction false} NavTargets(authenticated: bool, i: nat)
    requires i < |NavPaths|
    ensures i < 7 ==> AppRoutes.Match(NavPaths[i]).Some?
    ensures i == 7 ==> AppRoutes.Match(NavPaths[i]).None?
    ensures i == 7 ==> AppRoutes.AppRoutes(false, authenticated, NavPaths[i]) == AppRoutes.RedirectTo("/")
  {
    if i == 5 {
      AppRoutes.MatchPathOf(AppRoutes.CommunityTweets);
    } else if i == 6 {
      AppRoutes.MatchPathOf(AppRoutes.WatchHistory);
    } else if i == 7 {
      assert |NavPaths[7]| < 7;
    }
  }

  /** The shapes an image field can take: absent or falsy, a plain URL
      string, or an upload record with `url` and `secure_url`. */
  datatype ImageData = NoImage | Url(s: string) | Asset(url: Option<string>, secureUrl: Option<string>)

  /** `getImageUrl`: a missing or empty value is no URL, a string is the
      URL itself, and a record gives its `url` if set, else its
      `secure_url` if set, else no URL. */
  function GetImageUrl(image: ImageData): (r: Option<string>)
    ensures image.NoImage? ==> r.None?
    ensures image.Url? ==> r == (if image.s == "" then None else Some(image.s))
    ensures image.Asset? && Truthy(image.url) ==> r == image.url
    ensures image.Asset? && !Truthy(image.url) ==> r == (if Truthy(image.secureUrl) then image.secureUrl else None)
    ensures r.Some? ==> r.value != ""
  {
    match image
    case NoImage => None
    case Url(s) => if s == "" then None else Some(s)
    case Asset(url, secureUrl) =>
      if Truthy(url) then url
      else if Truthy(secureUrl) then secureUrl
      else None
  }

  /** The `avatar` field of the session's user, read as an image field. A
      profile holds text values only, so here the image is a URL or missing;
      the asset-object case of `GetImageUrl` does not arise for the avatar. */
  function AvatarData(user: Option<AuthContext.Profile>): ImageData
  {
    if user.Some? && "avatar" in user.value then Url(user.value["avatar"]) else NoImage
  }

  /** The user panel: shown exactly when there is a user, with the avatar's
      URL or the default picture as the image source, never an empty one. */
  function UserPanel(user: Option<AuthContext.Profile>): (avatarSrc: Option<string>)
    ensures avatarSrc.Some? <==> user.Some?
    ensures avatarSrc.Some? ==> avatarSrc.value != ""
    ensures avatarSrc.Some? && GetImageUrl(AvatarData(user)).None? ==> avatarSrc.value == "/default-avatar.png"
  {
    if user.None? then None
    else
      var url := GetImageUrl(AvatarData(user));
      Some(if url.Some? then url.value else "/default-avatar.png")
  }

  /** The layout's own state: whether the mobile menu is open. */
  class Shell {
    var menuOpen: bool

    constructor ()
      ensures !menuOpen
    {
      menuOpen := false;
    }

    /** `toggleMobileMenu`. */
    method ToggleMenu()
      modifies this
      ensures menuOpen == !old(menuOpen)
    {
      menuOpen := !menuOpen;
    }

    /** The mobile overlay, drawn only while the menu is open; clicking it
        runs `closeMobileMenu`. `shown` says whether it was there to click. */
    method OverlayClick() returns (shown: bool)
      modifies this
      ensures shown == old(menuOpen)
      ensures !menuOpen
    {
      shown := menuOpen;
      menuOpen := false;
    }

    /** `closeMobileMenu`, also what every navigation link's click does;
        the link then navigates to its path. */
    method NavClick(i: nat) returns (navigateTo: string)
      requires i < |NavPaths|
      modifies this
      ensures !menuOpen && navigateTo == NavPaths[i]
    {
      menuOpen := false;
      navigateTo := NavPaths[i];
    }

    /** The logout button: the session logs out, the menu closes, and the
        app navigates to "/". */
    method LogoutClick(session: AuthContext.AuthProvider) returns (navigateTo: string)
      modifies this, session
      ensures session.LoggedOut() && session.loading == old(session.loading)
      ensures !menuOpen && navigateTo == "/"
    {
      session.Logout();
      menuOpen := false;
      navigateTo := "/";
    }
  }

  /** After the logout button the user panel disappears, and the root path
      the app navigates to shows the bare home page. */
  method LogoutLeavesGuestHome(session: AuthContext.AuthProvider, shell: Shell)
    returns (panel: Option<string>, view: AppRoutes.View)
    requires !session.loading
    modifies session, shell
    ensures panel.None? && view == AppRoutes.Page(AppRoutes.Home)
  {
    var target := shell.LogoutClick(session);
    panel := UserPanel(session.user);
    view := AppRoutes.AppRoutes(session.loading, session.IsAuthenticated(), target);
  }
}
