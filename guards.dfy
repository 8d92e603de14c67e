/** The two route guards of App.jsx and the route table they sit in. */
module Guards {
  import opened JsValue
  import opened Json
  import opened JsonRoundTrip
  import opened Roles

  /** What a guard renders: the loading view, a `<Navigate>` (target, the
      `replace` flag, and the pathname passed as `state.from`, if any), or the
      guarded children. */
  datatype Outcome =
    | Loading
    | Navigate(to: Val, replace: bool, from: Option<string>)
    | Children

  /** `ProtectedRoute`, from the auth state and the current pathname. */
  function ProtectedRoute(loading: bool, isAuthenticated: bool, user: Val, pathname: string): (o: Outcome)
    ensures o.Loading? <==> loading
    ensures o.Children? <==> !loading && isAuthenticated && Truthy(user) && HasAccessToRoute(user, pathname)
    ensures o.Navigate? ==> o.replace
    ensures o.Navigate? && (!isAuthenticated || !Truthy(user)) ==> o.to == Str("/login") && o.from == Some(pathname)
    ensures o.Navigate? && isAuthenticated && Truthy(user) ==> o.to == DefaultRoute(GetUserRole(user)) && o.from == None
  {
    if loading then Loading
    else if !isAuthenticated || !Truthy(user) then Navigate(Str("/login"), true, Some(pathname))
    else if !HasAccessToRoute(user, pathname) then Navigate(DefaultRoute(GetUserRole(user)), true, None)
    else Children
  }

  /** `PublicRoute` */
  function PublicRoute(loading: bool, isAuthenticated: bool, user: Val): (o: Outcome)
    ensures o.Loading? <==> loading
    ensures o.Children? <==> !loading && !(isAuthenticated && Truthy(user))
    ensures o.Navigate? ==> o.replace && o.from == None && o.to == DefaultRoute(GetUserRole(user))
  {
    if loading then Loading
    else if isAuthenticated && Truthy(user) then Navigate(DefaultRoute(GetUserRole(user)), true, None)
    else Children
  }

  // ------------------------------------------------------------ route table

  /** Which `<Route>` of `AppRoutes` a pathname selects. */
  datatype Page = Home | Login | Section(role: string) | NoPage

  /** A route whose path ends in a star matches "/x" itself and every path below "/x/". */
  predicate Below(pathname: string, base: string) {
    pathname == base || base + "/" <= pathname
  }

  predicate IsUpper(c: char) {
    'A' <= c <= 'Z'
  }

  /** The router compares paths with a case-insensitive, non-Unicode regular
      expression; for the lower-case letters of the route paths that folding
      is exactly ASCII's. */
  function LowerChar(c: char): char {
    if IsUpper(c) then (c as int + 32) as char else c
  }

  function Lower(s: string): (r: string)
    ensures |r| == |s| && forall i :: 0 <= i < |s| ==> r[i] == LowerChar(s[i])
  {
    seq(|s|, i requires 0 <= i < |s| => LowerChar(s[i]))
  }

  predicate NoUpper(s: string) {
    forall i :: 0 <= i < |s| ==> !IsUpper(s[i])
  }

  /** The path without its trailing slashes, which a route without a star ignores. */
  function TrimSlashes(s: string): (r: string)
    ensures r <= s && (r == [] || r[|r| - 1] != '/')
    ensures forall i :: |r| <= i < |s| ==> s[i] == '/'
  {
    if s != [] && s[|s| - 1] == '/' then TrimSlashes(s[..|s| - 1]) else s
  }

  /** The route `AppRoutes` selects: "/" and "/login" up to trailing slashes,
      "/<role>" and the paths below it for the four dashboards, all without
      regard to letter case. */
  function MatchRoute(pathname: string): (p: Page)
    ensures p == Home <==> pathname != [] && TrimSlashes(pathname) == []
    ensures p == Login <==> TrimSlashes(Lower(pathname)) == "/login"
    ensures p.Section? ==> IsKnownRole(p.role) && Below(Lower(pathname), "/" + p.role)
  {
    LowerKeepsSlashes(pathname);
    var q := Lower(pathname);
    if q != [] && TrimSlashes(q) == [] then Home
    else if TrimSlashes(q) == "/login" then Login
    else SectionOf(q)
  }

  /** The dashboard route below which a folded path lies, if any. */
  function SectionOf(q: string): (p: Page)
    ensures p == NoPage || (p.Section? && IsKnownRole(p.role) && Below(q, "/" + p.role))
  {
    if Below(q, "/admin") then (assert "/" + ADMIN == "/admin"; Section(ADMIN))
    else if Below(q, "/supervisor") then (assert "/" + SUPERVISOR == "/supervisor"; Section(SUPERVISOR))
    else if Below(q, "/tecnico") then (assert "/" + TECNICO == "/tecnico"; Section(TECNICO))
    else if Below(q, "/empleado") then (assert "/" + EMPLEADO == "/empleado"; Section(EMPLEADO))
    else NoPage
  }

  /** The router ignores a trailing slash on "/login". */
  lemma LoginTrailingSlash()
    ensures MatchRoute("/login/") == Login
  {
    var p := "/login/";
    LowerNoUpper(p);
    assert p[..|p| - 1] == "/login";
    assert TrimSlashes("/login") == "/login";
  }

  /** The router ignores letter case: "/Admin/dashboard" selects the admin section. */
  lemma SectionIgnoresCase()
    ensures MatchRoute("/Admin/dashboard") == Section(ADMIN)
  {
    AdminCapitalLower();
    FoldedSection("/" + ADMIN + "/dashboard", ADMIN);
  }

  lemma AdminCapitalLower()
    ensures Lower("/Admin/dashboard") == "/" + ADMIN + "/dashboard"
  {
    assert LowerChar('A') == 'a';
    assert Lower("/Admin/dashboard") == "/admin/dashboard";
  }

  /** The section guard tests the path as typed: a supervisor who opens the
      employee dashboard with a capital letter is sent back to their own. */
  lemma CaseFoldedPathRedirects(user: Val)
    requires Truthy(user) && !Truthy(Get(user, "is_staff")) && Get(user, "role") == Str(SUPERVISOR)
    ensures MatchRoute("/Empleado/dashboard") == Section(EMPLEADO)
    ensures Screen(false, true, user, "/Empleado/dashboard") == Some(Navigate(Str("/supervisor/dashboard"), true, None))
  {
    EmpleadoCapitalLower();
    FoldedSection("/" + EMPLEADO + "/dashboard", EMPLEADO);
    SupervisorRefusesCapital();
  }

  lemma EmpleadoCapitalLower()
    ensures Lower("/Empleado/dashboard") == "/" + EMPLEADO + "/dashboard"
  {
    assert LowerChar('E') == 'e';
    assert Lower("/Empleado/dashboard") == "/empleado/dashboard";
  }

  lemma SupervisorRefusesCapital()
    ensures !RoleAllows(Str(SUPERVISOR), "/Empleado/dashboard")
    ensures DefaultRoute(Str(SUPERVISOR)) == Str("/supervisor/dashboard")
  {
    var p := "/Empleado/dashboard";
    assert p[1] == 'E';
    assert "/" + SUPERVISOR + "/dashboard" == "/supervisor/dashboard";
  }

  /** A folded dashboard path of a known role, ending in a letter, selects its section. */
  lemma FoldedSection(q: string, r: string)
    requires IsKnownRole(r) && q == "/" + r + "/dashboard"
    ensures forall p :: Lower(p) == q ==> MatchRoute(p) == Section(r)
  {
    assert q[|q| - 1] == 'd' && q[1] == r[0];
    assert TrimSlashes(q) == q;
    SectionOfDashboard(r);
  }

  /** Folding case changes no slash: a path is all slashes iff its folded copy is. */
  lemma LowerKeepsSlashes(s: string)
    ensures (TrimSlashes(Lower(s)) == []) <==> (TrimSlashes(s) == [])
  {
    TrimAllSlashes(s);
    TrimAllSlashes(Lower(s));
  }

  lemma TrimAllSlashes(s: string)
    ensures TrimSlashes(s) == [] <==> forall i :: 0 <= i < |s| ==> s[i] == '/'
  {
    var r := TrimSlashes(s);
    if r != [] {
      assert s[|r| - 1] == r[|r| - 1];
    }
  }

  /** A prefix without capitals survives case folding. */
  lemma PrefixLower(x: string, p: string)
    requires x <= p && NoUpper(x)
    ensures x <= Lower(p)
  {
    assert forall i :: 0 <= i < |x| ==> Lower(p)[i] == x[i];
  }

  /** A text without capitals is its own folded copy. */
  lemma LowerNoUpper(s: string)
    requires NoUpper(s)
    ensures Lower(s) == s
  {
  }

  /** What the route tree renders for a pathname: the home page unguarded, the
      login page behind `PublicRoute`, each dashboard behind `ProtectedRoute`,
      nothing for an unmatched path. */
  function Screen(loading: bool, isAuthenticated: bool, user: Val, pathname: string): Option<Outcome> {
    match MatchRoute(pathname)
    case Home => Some(Children)
    case Login => Some(PublicRoute(loading, isAuthenticated, user))
    case Section(_) => Some(ProtectedRoute(loading, isAuthenticated, user, pathname))
    case NoPage => None
  }

  // ------------------------------------------------------------ properties

  /** While the session is loading neither guard redirects, whatever the rest of the state. */
  lemma LoadingNeverRedirects(isAuthenticated: bool, user: Val, pathname: string)
    ensures ProtectedRoute(true, isAuthenticated, user, pathname) == Loading
    ensures PublicRoute(true, isAuthenticated, user) == Loading
  {
  }

  /** Both guards decide from the loading flag, the authentication flag,
      whether there is a user, and the user's role; nothing else about the
      user record matters. */
  lemma DecisionDependsOnRoleOnly(loading: bool, isAuthenticated: bool, u1: Val, u2: Val, pathname: string)
    requires Truthy(u1) == Truthy(u2) && GetUserRole(u1) == GetUserRole(u2)
    ensures ProtectedRoute(loading, isAuthenticated, u1, pathname)
         == ProtectedRoute(loading, isAuthenticated, u2, pathname)
    ensures PublicRoute(loading, isAuthenticated, u1) == PublicRoute(loading, isAuthenticated, u2)
  {
    assert HasAccessToRoute(u1, pathname) == HasAccessToRoute(u2, pathname);
  }

  /** `ProtectedRoute` never reads `is_first_login`: setting it to anything
      leaves the decision unchanged. */
  lemma IgnoresFirstLogin(loading: bool, isAuthenticated: bool, user: Val, pathname: string, x: Val)
    requires user.Obj?
    ensures ProtectedRoute(loading, isAuthenticated, Set(user, "is_first_login", x), pathname)
         == ProtectedRoute(loading, isAuthenticated, user, pathname)
    ensures PublicRoute(loading, isAuthenticated, Set(user, "is_first_login", x))
         == PublicRoute(loading, isAuthenticated, user)
  {
    var u := Set(user, "is_first_login", x);
    GetSet(user, "is_first_login", x, "is_staff");
    GetSet(user, "is_first_login", x, "role");
    assert GetUserRole(u) == GetUserRole(user);
    DecisionDependsOnRoleOnly(loading, isAuthenticated, u, user, pathname);
  }

  /** The four sections' paths begin with different letters, so a path lies
      below at most one of them. */
  lemma SectionsDisjoint(a: string, b: string, p: string)
    requires IsKnownRole(a) && IsKnownRole(b) && a != b
    requires ("/" + a) <= p
    ensures !Below(p, "/" + b) && !(("/" + b + "/") <= p)
  {
    assert p[1] == a[0];
  }

  /** For a user with one of the four roles, the page `ProtectedRoute` sends
      them to is one they may open: no redirect loop. */
  lemma NoRedirectLoop(user: Val, pathname: string)
    requires GetUserRole(user).Str? && IsKnownRole(GetUserRole(user).s)
    ensures var o := ProtectedRoute(false, true, user, pathname);
      o.Navigate? ==> o.to.Str? && ProtectedRoute(false, true, user, o.to.s) == Children
  {
    DefaultRouteAccessible(user);
  }

  /** For a user with any other role, a refused path redirects to an
      undefined target. */
  lemma UnknownRoleTargetUndefined(user: Val, pathname: string)
    requires Truthy(user) && !IsKnownRole(ToJsString(GetUserRole(user)))
    requires !IsPublicPath(pathname)
    ensures ProtectedRoute(false, true, user, pathname) == Navigate(Undefined, true, None)
  {
    if GetUserRole(user).Str? {
      UnknownRoleOnlyPublic(user, pathname);
    }
  }

  /** A dashboard renders only for its own role, for admin, and (for the
      employee section) for supervisor. */
  lemma SectionRendersOnlyForItsRoles(loading: bool, isAuthenticated: bool, user: Val, pathname: string)
    requires MatchRoute(pathname).Section?
    requires Screen(loading, isAuthenticated, user, pathname) == Some(Children)
    ensures var s := MatchRoute(pathname).role; var r := GetUserRole(user);
      r == Str(ADMIN) || r == Str(s) || (s == EMPLEADO && r == Str(SUPERVISOR))
  {
    var s := MatchRoute(pathname).role;
    var q := Lower(pathname);
    assert ("/" + s) <= q;
    RoleAllowsLower(GetUserRole(user), pathname);
    SectionRoles(GetUserRole(user), s, q);
  }

  /** A path a role may open stays open to it once its letters are folded:
      every permitted prefix is lower case. */
  lemma RoleAllowsLower(r: Val, p: string)
    requires RoleAllows(r, p)
    ensures RoleAllows(r, Lower(p))
  {
    if p == "/" || p == "/login" {
      LowerNoUpper(p);
    } else if StrictEq(r, Str(ADMIN)) {
    } else if StrictEq(r, Str(SUPERVISOR)) {
      if "/supervisor/" <= p {
        PrefixLower("/supervisor/", p);
      } else {
        PrefixLower("/empleado/", p);
      }
    } else if StrictEq(r, Str(TECNICO)) {
      PrefixLower("/tecnico/", p);
    } else {
      PrefixLower("/empleado/", p);
    }
  }

  lemma SectionRoles(r: Val, s: string, pathname: string)
    requires IsKnownRole(s) && ("/" + s) <= pathname && RoleAllows(r, pathname)
    ensures r == Str(ADMIN) || r == Str(s) || (s == EMPLEADO && r == Str(SUPERVISOR))
  {
    SectionNotPublic(s, pathname);
    AllowedPrivate(r, pathname);
    if r != Str(ADMIN) && r != Str(s) {
      SectionsDisjoint(s, r.s, pathname);
      if r.s == SUPERVISOR && s != EMPLEADO {
        SectionsDisjoint(s, EMPLEADO, pathname);
      }
    }
  }

  /** Off the public paths, a role lets a path through only when the path
      lies below one of that role's own sections (any path for admin). */
  lemma AllowedPrivate(r: Val, pathname: string)
    requires pathname != "/" && pathname != "/login" && RoleAllows(r, pathname)
    ensures r.Str? && IsKnownRole(r.s)
    ensures r != Str(ADMIN) ==>
      ("/" + r.s + "/") <= pathname || (r == Str(SUPERVISOR) && ("/" + EMPLEADO + "/") <= pathname)
  {
    assert "/" + SUPERVISOR + "/" == "/supervisor/" && "/" + EMPLEADO + "/" == "/empleado/"
      && "/" + TECNICO + "/" == "/tecnico/";
  }

  /** No section path is one of the two public paths. */
  lemma SectionNotPublic(s: string, pathname: string)
    requires IsKnownRole(s) && ("/" + s) <= pathname
    ensures pathname != "/" && pathname != "/login"
  {
    assert pathname[1] == s[0];
  }

  /** Each role's default route selects that role's section. */
  lemma DashboardMatchesSection(r: string)
    requires IsKnownRole(r)
    ensures MatchRoute("/" + r + "/dashboard") == Section(r)
  {
    var path := "/" + r + "/dashboard";
    assert NoUpper(path);
    LowerNoUpper(path);
    assert path[|path| - 1] == 'd' && path[1] == r[0];
    assert TrimSlashes(path) == path;
    SectionOfDashboard(r);
  }

  lemma SectionOfDashboard(r: string)
    requires IsKnownRole(r)
    ensures SectionOf("/" + r + "/dashboard") == Section(r)
  {
    var path := "/" + r + "/dashboard";
    assert Below(path, "/" + r) by {
      assert ("/" + r) + "/" <= path;
    }
    SectionOfBelow(path, r);
  }

  /** A folded path below a section's base selects that section. */
  lemma SectionOfBelow(q: string, r: string)
    requires IsKnownRole(r) && Below(q, "/" + r)
    ensures SectionOf(q) == Section(r)
  {
    assert ("/" + r) <= q;
    assert "/" + ADMIN == "/admin" && "/" + SUPERVISOR == "/supervisor" && "/" + TECNICO == "/tecnico"
      && "/" + EMPLEADO == "/empleado";
    if r != ADMIN {
      SectionsDisjoint(r, ADMIN, q);
    }
    if r != SUPERVISOR {
      SectionsDisjoint(r, SUPERVISOR, q);
    }
    if r != TECNICO {
      SectionsDisjoint(r, TECNICO, q);
    }
  }

  /** The section case of the route table both ways: a pathname selects a
      role's dashboard route exactly when its folded copy is "/<role>" or lies
      below "/<role>/". */
  lemma SectionIff(pathname: string, r: string)
    ensures MatchRoute(pathname) == Section(r) <==> IsKnownRole(r) && Below(Lower(pathname), "/" + r)
  {
    var q := Lower(pathname);
    if IsKnownRole(r) && Below(q, "/" + r) {
      assert ("/" + r) <= q;
      assert q[1] == r[0];
      TrimAllSlashes(q);
      assert TrimSlashes(q) != [] && TrimSlashes(q) != "/login" by {
        var t := TrimSlashes(q);
        if |t| >= 2 {
          assert t[1] == q[1];
        }
      }
      SectionOfBelow(q, r);
    }
  }

  /** After sign-in, the login page forwards a user with one of the four roles
      to a dashboard that renders for them. */
  lemma LoginPageForwardsToDashboard(user: Val)
    requires GetUserRole(user).Str? && IsKnownRole(GetUserRole(user).s)
    ensures var o := Screen(false, true, user, "/login");
      o.Some? && o.value.Navigate? && o.value.to.Str?
      && Screen(false, true, user, o.value.to.s) == Some(Children)
  {
    LoginMatches();
    var o := PublicRoute(false, true, user);
    assert Screen(false, true, user, "/login") == Some(o);
    DefaultRouteAccessible(user);
    DashboardMatchesSection(GetUserRole(user).s);
  }

  /** The login path is matched as the login page. */
  lemma LoginMatches()
    ensures MatchRoute("/login") == Login
  {
    LowerNoUpper("/login");
    assert TrimSlashes("/login") == "/login";
  }

  // ------------------------------------------------------------ after a reload

  /** String(v) reads the same on a value and on its JSON copy, undefined
      (which the copy turns into null) aside. */
  lemma {:induction false} ToJsStringNorm(v: Val)
    requires !v.Undefined?
    ensures ToJsString(Norm(v)) == ToJsString(v)
    decreases v, 1
  {
    if v.Arr? {
      ArrayJoinNorm(v, 0);
    }
  }

  lemma {:induction false} ArrayJoinNorm(v: Val, i: nat)
    requires v.Arr? && i <= |v.items|
    ensures Norm(v).Arr? && |Norm(v).items| == |v.items|
    ensures ArrayJoin(Norm(v), i) == ArrayJoin(v, i)
    decreases v, 0, |v.items| - i
  {
    if i < |v.items| {
      var x := v.items[i];
      assert Norm(v).items[i] == Norm(x);
      ArrayJoinNorm(v, i + 1);
      if !x.Undefined? && !x.Null? {
        ToJsStringNorm(x);
      }
    }
  }

  /** The role of a user record read back from its JSON text is the JSON copy
      of the role it had. */
  lemma RoleOfNorm(user: Val)
    requires user.Obj? && UniqueKeys(user.fields)
    ensures GetUserRole(Norm(user)) == Norm(GetUserRole(user))
  {
    LookupNormFields(user.fields, "is_staff");
    LookupNormFields(user.fields, "role");
    TruthyNorm(Get(user, "is_staff"));
    TruthyNorm(Get(user, "role"));
  }

  /** Both guards decide the same for the user record held in memory and for
      the record restored from its JSON text after a page reload. */
  lemma GuardsSurviveReload(loading: bool, isAuthenticated: bool, user: Val, pathname: string)
    requires user.Obj? && UniqueKeys(user.fields)
    ensures ProtectedRoute(loading, isAuthenticated, Norm(user), pathname)
         == ProtectedRoute(loading, isAuthenticated, user, pathname)
    ensures PublicRoute(loading, isAuthenticated, Norm(user)) == PublicRoute(loading, isAuthenticated, user)
  {
    var r := GetUserRole(user);
    RoleOfNorm(user);
    ToJsStringNorm(r);
    assert RoleAllows(Norm(r), pathname) == RoleAllows(r, pathname);
    assert DefaultRoute(Norm(r)) == DefaultRoute(r);
  }
}
