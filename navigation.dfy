/** The navigation bar of the router demo: the public links, the links that
    depend on the session, the mobile menu flag and the logout button. */
module Navigation {
  import opened Text
  import opened AuthContext
  import ProtectedRoute

  /** A rendered link; `isAdmin` marks the admin link with its badge. */
  datatype Link = Link(to: string, text: string, isAdmin: bool)

  /** `navLinks`: always Home, About, Posts, in that order. */
  const NavLinks: seq<Link> := [Link("/", "Home", false), Link("/about", "About", false), Link("/posts", "Posts", false)]

  /** `authLinks`: for a logged-in user Profile and Dashboard, then Admin for
      an admin; otherwise just Login. */
  function AuthLinks(isAuthenticated: bool, isAdmin: bool): (links: seq<Link>)
    ensures !isAuthenticated ==> links == [Link("/login", "Login", false)]
    ensures isAuthenticated ==> |links| >= 2 && links[0] == Link("/profile", "Profile", false)
                                && links[1] == Link("/dashboard", "Dashboard", false)
    ensures (exists i :: 0 <= i < |links| && links[i].to == "/admin") <==> isAuthenticated && isAdmin
    ensures isAuthenticated && isAdmin ==> links[|links| - 1] == Link("/admin", "Admin", true)
    ensures forall i :: 0 <= i < |links| ==> (links[i].isAdmin <==> links[i].to == "/admin")
  {
    if isAuthenticated then
      var links := [Link("/profile", "Profile", false), Link("/dashboard", "Dashboard", false)]
                   + (if isAdmin then [Link("/admin", "Admin", true)] else []);
      assert isAdmin ==> links[2].to == "/admin";
      links
    else [Link("/login", "Login", false)]
  }

  /** The links of a session offer exactly the guarded sections the guard
      would render: Profile and Dashboard for any logged-in user, Admin only
      for one the admin guard lets in. */
  lemma AuthLinksMatchGuard(user: Option<Record>, pathname: string)
    ensures var links := AuthLinks(IsAuthenticated(user), IsAdmin(user));
            ((exists i :: 0 <= i < |links| && links[i].to == "/admin")
               <==> ProtectedRoute.GuardSession(user, false, true, pathname) == ProtectedRoute.Render)
            && ((exists i :: 0 <= i < |links| && links[i].to == "/dashboard")
               <==> ProtectedRoute.GuardSession(user, false, false, pathname) == ProtectedRoute.Render)
  {
    var links := AuthLinks(IsAuthenticated(user), IsAdmin(user));
    if user.Some? {
      assert links[1].to == "/dashboard";
    }
  }

  class NavigationBar {
    var isMenuOpen: bool

    constructor ()
      ensures !isMenuOpen
    {
      isMenuOpen := false;
    }

    /** The menu button flips the menu. */
    method ToggleMenu()
      modifies this
      ensures isMenuOpen == !old(isMenuOpen)
    {
      isMenuOpen := !isMenuOpen;
    }

    /** Clicking any link closes the menu. */
    method ClickLink()
      modifies this
      ensures !isMenuOpen
    {
      isMenuOpen := false;
    }

    /** `handleLogout`: end the session, go home, close the menu. */
    method HandleLogout(auth: AuthProvider) returns (navigateTo: string)
      modifies this, auth
      ensures auth.user == None && auth.storage == WithoutSession(old(auth.storage)) && auth.loading == old(auth.loading)
      ensures navigateTo == "/" && !isMenuOpen
    {
      auth.Logout();
      navigateTo := "/";
      isMenuOpen := false;
    }
  }
}
