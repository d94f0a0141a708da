/** The application shell: it keeps the logged-in user, the current view token
    read from the URL fragment, and the site content shared by the public site
    and the administrator's editor. Which screen renders is a pure function of
    that state. The browser's fragment is the field `locationHash`; writing it
    is what `window.location.hash = …` does, and `HashChanged` is the
    `hashchange` event delivering the new fragment. */
module App {
  import opened Common
  import opened Types
  import opened MockData

  /** The screen the shell renders, with the data it passes down. */
  datatype View =
    | LoginScreen(users: seq<User>)
    | PublicSite(content: SiteContent)
    | AdminScreen(user: User, content: SiteContent)
    | DirectorScreen(user: User)
    | TeacherScreen(user: User)
    | ParentScreen(user: User)
    | StaffScreen(user: User)

  /** `hash.replace(/^#\/?/, '')`: one leading `#`, then one `/` right after it. */
  function StripHashPrefix(hash: string): (r: string)
    ensures |hash| > 1 && hash[..2] == "#/" ==> hash == "#/" + r
    ensures |hash| > 0 && hash[0] == '#' && !(|hash| > 1 && hash[1] == '/') ==> hash == "#" + r
    ensures (|hash| == 0 || hash[0] != '#') ==> r == hash
  {
    if |hash| > 0 && hash[0] == '#' then
      if |hash| > 1 && hash[1] == '/' then hash[2..] else hash[1..]
    else hash
  }

  /** The view token for a fragment; an empty token becomes `home`. */
  function NormalizeHash(hash: string): (token: string)
    ensures token != ""
    ensures hash == "" || hash == "#" || hash == "#/" ==> token == "home"
    ensures |hash| > 0 && hash[0] != '#' ==> token == hash
  {
    var stripped := StripHashPrefix(hash);
    if stripped == "" then "home" else stripped
  }

  /** Prefixing `#` or `#/` to a non-empty token is undone by normalisation,
      provided (for `#` alone) the token does not itself start with `/`. */
  lemma NormalizeHashRoundTrip(token: string)
    requires token != ""
    ensures NormalizeHash("#/" + token) == token
    ensures token[0] != '/' ==> NormalizeHash("#" + token) == token
  {
    assert ("#/" + token)[2..] == token;
    assert ("#" + token)[1..] == token;
  }

  lemma NormalizeHashExamples()
    ensures NormalizeHash("#/admin") == "admin"
    ensures NormalizeHash("#admin") == "admin"
    ensures NormalizeHash("") == "home"
    ensures NormalizeHash("#") == "home"
    ensures NormalizeHash("#//x") == "/x"
  {
    NormalizeHashRoundTrip("admin");
    NormalizeHashRoundTrip("/x");
  }

  /** The fragment a role is sent to after logging in. */
  function RouteFor(role: UserRole): (route: string)
    ensures route != "" && route != "login" && route[0] != '/'
    ensures route == "home" <==> role == Public
  {
    match role
    case Admin => "admin"
    case Director => "director"
    case Teacher => "teacher"
    case Parent => "parent"
    case Staff => "staff"
    case Public => "home"
  }

  /** Every role has its own route. */
  lemma RouteForInjective(a: UserRole, b: UserRole)
    requires RouteFor(a) == RouteFor(b)
    ensures a == b
  {
  }

  /** The screen for a user (or none) and a view token. Logged out, the token
      `login` gives the login screen and every other token the public site;
      logged in, the role alone decides. */
  function SelectView(user: Option<User>, token: string, content: SiteContent): (v: View)
    ensures user.None? ==> (v.LoginScreen? <==> token == "login")
    ensures user.None? && token != "login" ==> v == PublicSite(content)
    ensures v.LoginScreen? ==> v.users == MockUsers
    ensures user.Some? ==> !v.LoginScreen?
    ensures user.Some? ==> (v.PublicSite? <==> user.value.role == Public)
    ensures v.PublicSite? || v.AdminScreen? ==> v.content == content
    ensures !v.LoginScreen? && !v.PublicSite? ==> v.user == user.value
    ensures user.Some? ==>
              && (v.AdminScreen? <==> user.value.role == Admin)
              && (v.DirectorScreen? <==> user.value.role == Director)
              && (v.TeacherScreen? <==> user.value.role == Teacher)
              && (v.ParentScreen? <==> user.value.role == Parent)
              && (v.StaffScreen? <==> user.value.role == Staff)
  {
    match user
    case None => if token == "login" then LoginScreen(MockUsers) else PublicSite(content)
    case Some(u) =>
      match u.role
      case Admin => AdminScreen(u, content)
      case Director => DirectorScreen(u)
      case Teacher => TeacherScreen(u)
      case Parent => ParentScreen(u)
      case Staff => StaffScreen(u)
      case Public => PublicSite(content)
  }

  /** Once logged in, the token plays no part: a teacher asking for `admin`
      still sees the teacher portal. */
  lemma {:induction false} RoleDecidesView(u: User, t1: string, t2: string, content: SiteContent)
    ensures SelectView(Some(u), t1, content) == SelectView(Some(u), t2, content)
    ensures u.role == Teacher ==> SelectView(Some(u), "admin", content) == TeacherScreen(u)
  {
  }

  /** Each logged-in role has a screen of its own. */
  lemma {:induction false} DistinctScreens(a: User, b: User, t: string, content: SiteContent)
    requires a.role != b.role
    ensures SelectView(Some(a), t, content) != SelectView(Some(b), t, content)
  {
  }

  /** The shell's state. */
  class AppState {
    var currentUser: Option<User>
    var siteContent: SiteContent
    var currentHash: string
    var locationHash: string

    /** The page loads with the given fragment and nobody logged in. */
    constructor(initialLocationHash: string)
      ensures currentUser == None && siteContent == InitialSiteContent
      ensures locationHash == initialLocationHash && currentHash == NormalizeHash(initialLocationHash)
    {
      currentUser := None;
      siteContent := InitialSiteContent;
      locationHash := initialLocationHash;
      currentHash := NormalizeHash(initialLocationHash);
    }

    /** `renderContent`: logged out, the login screen exactly for the token
        `login` and the public site with the shell's content otherwise;
        logged in, the screen of the user's role, whatever the token. */
    function Render(): (v: View)
      reads this
      ensures currentUser.None? ==> (v.LoginScreen? <==> currentHash == "login")
      ensures currentUser.None? && currentHash != "login" ==> v == PublicSite(siteContent)
      ensures currentUser.Some? ==> v == SelectView(currentUser, "home", siteContent)
      ensures v.PublicSite? || v.AdminScreen? ==> v.content == siteContent
    {
      SelectView(currentUser, currentHash, siteContent)
    }

    /** The `hashchange` event: the fragment is now `newLocationHash`. */
    method HashChanged(newLocationHash: string)
      modifies this
      ensures locationHash == newLocationHash && currentHash == NormalizeHash(newLocationHash)
      ensures currentUser == old(currentUser) && siteContent == old(siteContent)
    {
      locationHash := newLocationHash;
      currentHash := NormalizeHash(newLocationHash);
    }

    /** `handleLogin`: the user becomes current and the fragment becomes the
        role's route; the token follows once the browser reports the change. */
    method HandleLogin(user: User)
      modifies this
      ensures currentUser == Some(user) && locationHash == "#" + RouteFor(user.role)
      ensures NormalizeHash(locationHash) == RouteFor(user.role)
      ensures currentHash == old(currentHash) && siteContent == old(siteContent)
    {
      currentUser := Some(user);
      locationHash := "#" + RouteFor(user.role);
      NormalizeHashRoundTrip(RouteFor(user.role));
    }

    /** `handleLogout`: nobody is logged in and the fragment is `#home`. The
        public site shows at once unless the stale token is `login`, and
        shows in any case once the browser reports the change. */
    method HandleLogout()
      modifies this
      ensures currentUser == None && locationHash == "#home"
      ensures NormalizeHash(locationHash) == "home"
      ensures currentHash == old(currentHash) && siteContent == old(siteContent)
      ensures currentHash != "login" ==> Render() == PublicSite(siteContent)
    {
      currentUser := None;
      locationHash := "#home";
      NormalizeHashRoundTrip("home");
    }

    /** `setSiteContent`, passed to the administrator's editor as `onUpdateSite`:
        the whole content is replaced. */
    method UpdateSite(content: SiteContent)
      modifies this
      ensures siteContent == content
      ensures currentUser == old(currentUser) && currentHash == old(currentHash)
      ensures locationHash == old(locationHash)
    {
      siteContent := content;
    }
  }

  /** A logged-in user, once the browser reports the new fragment, is on the
      route of their role and sees their role's screen; after logging out and
      the fragment change, the public site shows the current content. */
  method LoginLogoutScenario(user: User, initialLocationHash: string) returns (afterLogin: View, afterLogout: View, route: string)
    ensures route == RouteFor(user.role)
    ensures afterLogin == SelectView(Some(user), route, InitialSiteContent)
    ensures afterLogout == PublicSite(InitialSiteContent)
  {
    var app := new AppState(initialLocationHash);
    app.HandleLogin(user);
    app.HashChanged(app.locationHash);
    route := app.currentHash;
    afterLogin := app.Render();
    app.HandleLogout();
    app.HashChanged(app.locationHash);
    afterLogout := app.Render();
  }
}
